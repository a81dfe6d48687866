/** What one (group, admin) pair of the two admin batches does
    (handlers/adminHandler.js, `handleConfirmAddPromote` and `handleConfirmDemote`),
    as a function of the replies of the messaging-client calls it makes. Replies
    are indexed by position: pair `(i, j)` is the i-th group and the j-th number,
    and promote attempt `k` counts from 0. `isRate` stands for the helper that
    recognises a rate-limit error from its message. */
module AdminBatch {

  import opened Wrappers
  import opened Text
  import opened Domain
  import opened AdminLogic
  import opened Batch

  const MaxPromoteAttempts: nat := 3

  /** How the promote retry ended: whether an attempt succeeded, how many attempts
      were made, the error of the last attempt when none did, and the pauses taken
      between attempts. */
  datatype PromoteRun = PromoteRun(ok: bool, attempts: nat, message: string, delays: seq<nat>)

  /** Promote attempts from number `a` on: stop at the first success; pause before
      each retry; after the third failure give up with its error. */
  function PromoteFrom(promote: nat -> Reply, a: nat): PromoteRun
    requires a < MaxPromoteAttempts
    decreases MaxPromoteAttempts - a
  {
    if promote(a).Ok? then PromoteRun(true, a + 1, "", [])
    else if a + 1 < MaxPromoteAttempts then
      var r := PromoteFrom(promote, a + 1);
      r.(delays := [RetryDelay] + r.delays)
    else PromoteRun(false, MaxPromoteAttempts, promote(a).message, [])
  }

  predicate AllRetry(delays: seq<nat>) {
    forall k :: 0 <= k < |delays| ==> delays[k] == RetryDelay
  }

  /** The retry makes between one and three attempts and stops at the first success;
      it fails only when all three attempts failed; it pauses 3000 ms between two
      attempts and never after the last one. */
  lemma {:induction false} PromoteFromSpec(promote: nat -> Reply, a: nat)
    requires a < MaxPromoteAttempts
    ensures var r := PromoteFrom(promote, a);
      && a < r.attempts <= MaxPromoteAttempts
      && (forall k :: a <= k < r.attempts - 1 ==> promote(k).Fail?)
      && (r.ok <==> promote(r.attempts - 1).Ok?)
      && (!r.ok ==> r.attempts == MaxPromoteAttempts && r.message == promote(MaxPromoteAttempts - 1).message)
      && |r.delays| == r.attempts - 1 - a && AllRetry(r.delays)
    decreases MaxPromoteAttempts - a
  {
    if promote(a).Fail? && a + 1 < MaxPromoteAttempts {
      PromoteFromSpec(promote, a + 1);
    }
  }

  /** Whether an add error means the number is already in the group. */
  predicate AlreadyMember(message: string) {
    Contains(message, "409") || Contains(message, "sudah ada")
  }

  /** The failure of a pair with error `message`: a long pause only when it is a
      rate-limit error. */
  function PairFailure(lines: seq<Line>, delays: seq<nat>, number: string, message: string, isRate: string -> bool): PairRun {
    PairRun(false, lines + [Failed(number, message)], delays + (if isRate(message) then [RateLimitDelay] else []))
  }

  /** The promote phase after the number is known to be in the group. */
  function PromotePhase(lines: seq<Line>, delays: seq<nat>, number: string, promote: nat -> Reply, isRate: string -> bool): PairRun {
    var p := PromoteFrom(promote, 0);
    if p.ok then PairRun(true, lines + [Promoted(number)], delays + p.delays + [PairDelay])
    else PairFailure(lines, delays + p.delays, number, p.message, isRate)
  }

  /** One pair of the add/promote batch: the membership check; an add when the
      number is not in the group (an add error saying "409" or "sudah ada" counts
      as already in; another add error fails the pair); then the promote retry. */
  function AddPromotePair(number: string, check: Reply, add: Reply, promote: nat -> Reply, isRate: string -> bool): PairRun {
    match check
    case Fail(m) => PairFailure([], [], number, m, isRate)
    case Ok(member) =>
      if member then PromotePhase([AlreadyInGroup(number)], [], number, promote, isRate)
      else match add
        case Ok(_) => PromotePhase([Added(number)], [SyncDelay], number, promote, isRate)
        case Fail(m) =>
          if AlreadyMember(m) then PromotePhase([AlreadyInGroup(number)], [], number, promote, isRate)
          else PairFailure([], [], number, m, isRate)
  }

  /** A pair succeeds exactly when the membership check answered and either the number
      was a member, or its add succeeded or reported it already there, and then one
      of at most three promote attempts succeeded. An add error of another kind
      fails the pair without any promote, and no number is added when the check
      says it is a member. */
  lemma AddPromotePairOutcome(number: string, check: Reply, add: Reply, promote: nat -> Reply, isRate: string -> bool)
    ensures var r := AddPromotePair(number, check, add, promote, isRate);
      && (r.ok <==> check.Ok? && (check.member || add.Ok? || AlreadyMember(add.message))
                    && exists k :: 0 <= k < MaxPromoteAttempts && promote(k).Ok?)
      && (check.Ok? && !check.member && add.Fail? && !AlreadyMember(add.message) ==>
            r.lines == [Failed(number, add.message)])
      && (check.Ok? && check.member ==> Added(number) !in r.lines)
  {
    PromoteFromSpec(promote, 0);
    var p := PromoteFrom(promote, 0);
    assert p.ok <==> exists k :: 0 <= k < MaxPromoteAttempts && promote(k).Ok?;
  }

  /** The pauses of a pair: 8000 ms once right after a successful add, 3000 ms between
      promote attempts, then 3000 ms after a success, or 10000 ms after a failure
      exactly when it is a rate-limit error. */
  lemma AddPromotePairDelays(number: string, check: Reply, add: Reply, promote: nat -> Reply, isRate: string -> bool)
    ensures var r := AddPromotePair(number, check, add, promote, isRate);
      && (SyncDelay in r.delays <==> check == Ok(false) && add.Ok? && |r.delays| > 0 && r.delays[0] == SyncDelay)
      && (r.ok ==> |r.delays| > 0 && r.delays[|r.delays| - 1] == PairDelay)
      && (!r.ok ==> (RateLimitDelay in r.delays <==> |r.delays| > 0 && r.delays[|r.delays| - 1] == RateLimitDelay))
      && (!r.ok ==> (RateLimitDelay in r.delays <==> isRate(LastError(r.lines))))
      && |r.delays| <= 4
  {
    match check
    case Fail(m) =>
    case Ok(member) =>
      if member {
        PromotePhaseDelays([AlreadyInGroup(number)], [], number, promote, isRate);
      } else {
        match add
        case Ok(_) => PromotePhaseDelays([Added(number)], [SyncDelay], number, promote, isRate);
        case Fail(m) =>
          if AlreadyMember(m) {
            PromotePhaseDelays([AlreadyInGroup(number)], [], number, promote, isRate);
          }
      }
  }

  /** The pauses of the promote phase after the `delays` already taken (none, or the
      sync pause after an add). */
  lemma PromotePhaseDelays(lines: seq<Line>, delays: seq<nat>, number: string, promote: nat -> Reply, isRate: string -> bool)
    requires delays == [] || delays == [SyncDelay]
    ensures var r := PromotePhase(lines, delays, number, promote, isRate);
      && (SyncDelay in r.delays <==> delays == [SyncDelay] && r.delays[0] == SyncDelay)
      && (r.ok ==> |r.delays| > 0 && r.delays[|r.delays| - 1] == PairDelay)
      && (!r.ok ==> (RateLimitDelay in r.delays <==> |r.delays| > 0 && r.delays[|r.delays| - 1] == RateLimitDelay))
      && (!r.ok ==> (RateLimitDelay in r.delays <==> isRate(LastError(r.lines))))
      && |r.delays| <= 4
  {
    PromoteFromSpec(promote, 0);
    var p := PromoteFrom(promote, 0);
    var r := PromotePhase(lines, delays, number, promote, isRate);
    assert |p.delays| <= 2 && AllRetry(p.delays);
    assert SyncDelay !in p.delays && RateLimitDelay !in p.delays;
    if delays == [SyncDelay] {
      assert r.delays[0] == SyncDelay;
    }
  }

  /** The error message the last transcript line reports, if it is a failure. */
  function LastError(lines: seq<Line>): string {
    if |lines| > 0 && lines[|lines| - 1].Failed? then lines[|lines| - 1].message else ""
  }

  /** One pair of the demote batch: one attempt, no retry. */
  function DemotePair(number: string, reply: Reply, isRate: string -> bool): (r: PairRun)
  {
    match reply
    case Ok(_) => PairRun(true, [Demoted(number)], [PairDelay])
    case Fail(m) => PairFailure([], [], number, m, isRate)
  }

  /** A demote succeeds exactly when its one call does; it then pauses 3000 ms, and
      after a failure pauses 10000 ms only on a rate-limit error. */
  lemma DemotePairOutcome(number: string, reply: Reply, isRate: string -> bool)
    ensures var r := DemotePair(number, reply, isRate);
      && (r.ok <==> reply.Ok?)
      && (r.ok ==> r.delays == [PairDelay])
      && (!r.ok ==> r.lines == [Failed(number, reply.message)] && (r.delays == [RateLimitDelay] <==> isRate(reply.message)))
  {
  }

  /** The expected operations of the add/promote batch: every selected group, and for
      each every number to add, in that order. */
  function AddPromoteGrid(selected: seq<string>, admins: seq<string>,
                          check: (nat, nat) -> Reply, add: (nat, nat) -> Reply,
                          promote: (nat, nat, nat) -> Reply, isRate: string -> bool): (g: seq<seq<PairRun>>)
    ensures |g| == |selected| && forall i :: 0 <= i < |g| ==> |g[i]| == |admins|
  {
    seq(|selected|, i requires 0 <= i < |selected| => AddPromoteRow(i, admins, check, add, promote, isRate))
  }

  /** The operations for the i-th selected group. */
  function AddPromoteRow(i: nat, admins: seq<string>, check: (nat, nat) -> Reply, add: (nat, nat) -> Reply,
                         promote: (nat, nat, nat) -> Reply, isRate: string -> bool): (row: seq<PairRun>)
    ensures |row| == |admins|
  {
    seq(|admins|, j requires 0 <= j < |admins| =>
      AddPromotePair(admins[j], check(i, j), add(i, j), PromoteAt(promote, i, j), isRate))
  }

  /** The replies to the promote attempts of pair `(i, j)`. */
  function PromoteAt(promote: (nat, nat, nat) -> Reply, i: nat, j: nat): nat -> Reply {
    (k: nat) => promote(i, j, k)
  }

  /** The header of each row: the group's name from the stored list, or 'Unknown'. */
  function AddPromoteHeaders(groups: seq<Group>, selected: seq<string>): (h: seq<string>)
    ensures |h| == |selected|
  {
    seq(|selected|, i requires 0 <= i < |selected| => GroupNameOf(groups, selected[i]))
  }

  /** The add/promote batch makes exactly one count per (group, number) pair. */
  lemma AddPromoteCounts(groups: seq<Group>, selected: seq<string>, admins: seq<string>,
                         check: (nat, nat) -> Reply, add: (nat, nat) -> Reply,
                         promote: (nat, nat, nat) -> Reply, isRate: string -> bool)
    ensures var r := Tally(AddPromoteHeaders(groups, selected), AddPromoteGrid(selected, admins, check, add, promote, isRate));
      && r.success + r.fail == |selected| * |admins|
      && |r.progress| == r.success
  {
    var grid := AddPromoteGrid(selected, admins, check, add, promote, isRate);
    TallySpec(AddPromoteHeaders(groups, selected), grid);
    OpsOfRectangle(grid, |admins|);
  }

  /** The expected operations of the demote batch: every confirmed group, and for each
      its listed numbers. */
  function DemoteGrid(cd: seq<ConfirmEntry>, demote: (nat, nat) -> Reply, isRate: string -> bool): (g: seq<seq<PairRun>>)
    ensures |g| == |cd| && forall i :: 0 <= i < |g| ==> |g[i]| == |cd[i].adminNumbers|
  {
    seq(|cd|, i requires 0 <= i < |cd| => DemoteRow(i, cd[i], demote, isRate))
  }

  /** The operations for the i-th confirmation row. */
  function DemoteRow(i: nat, data: ConfirmEntry, demote: (nat, nat) -> Reply, isRate: string -> bool): (row: seq<PairRun>)
    ensures |row| == |data.adminNumbers|
  {
    seq(|data.adminNumbers|, j requires 0 <= j < |data.adminNumbers| =>
      DemotePair(data.adminNumbers[j], demote(i, j), isRate))
  }

  function DemoteHeaders(cd: seq<ConfirmEntry>): (h: seq<string>)
    ensures |h| == |cd|
  {
    seq(|cd|, i requires 0 <= i < |cd| => cd[i].groupName)
  }

  lemma {:induction false} OpsOfDemote(cd: seq<ConfirmEntry>, grid: seq<seq<PairRun>>)
    requires |grid| == |cd| && forall i :: 0 <= i < |grid| ==> |grid[i]| == |cd[i].adminNumbers|
    ensures Ops(grid) == TotalNumbers(cd)
  {
    if |cd| > 0 {
      OpsOfDemote(cd[..|cd| - 1], grid[..|grid| - 1]);
    }
  }

  /** The demote batch makes exactly one count per listed number: success plus failure
      is the sum of the confirmation's number lists. */
  lemma DemoteCounts(cd: seq<ConfirmEntry>, demote: (nat, nat) -> Reply, isRate: string -> bool)
    ensures var r := Tally(DemoteHeaders(cd), DemoteGrid(cd, demote, isRate));
      && r.success + r.fail == TotalNumbers(cd)
      && |r.progress| == r.success
  {
    var grid := DemoteGrid(cd, demote, isRate);
    TallySpec(DemoteHeaders(cd), grid);
    OpsOfDemote(cd, grid);
  }
}
