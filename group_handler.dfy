/** The rename handlers of handlers/groupHandler.js, acting on the user's record.
    `num` stands for the helper that extracts a group's number from its name,
    `isRate` for the rate-limit test and `rename(i)` for the reply to the i-th
    rename call. Clearing the flow (`clearUserFlowState(..., 'rename')`) is modelled
    as removing the rename record. */
module GroupHandler {

  import opened Wrappers
  import opened Text
  import opened Numbers
  import opened Domain
  import opened Batch
  import opened GroupNaming
  import opened Model

  /** The record's other workflow fields are left alone. */
  twostate predicate OthersUnchanged(u: UserState)
    reads u
  {
    u.connected == old(u.connected) && u.adminFlow == old(u.adminFlow) && u.ctcFlow == old(u.ctcFlow)
  }

  /** The `forEach` that files each group under its cluster name (`baseOf` is the
      base-name extraction): the names come in order of first appearance, and each
      cluster holds that name's groups in list order. */
  method GroupByBase(groups: seq<Group>, baseOf: string -> string)
    returns (buckets: map<string, seq<Group>>, keys: seq<string>)
    ensures keys == BaseKeys(groups, baseOf)
    ensures forall k :: k in buckets <==> k in keys
    ensures forall k :: k in buckets ==> buckets[k] == Members(groups, baseOf, k)
  {
    buckets := map[];
    keys := [];
    var i := 0;
    while i < |groups|
      invariant 0 <= i <= |groups|
      invariant keys == BaseKeys(groups[..i], baseOf)
      invariant Filed(buckets, keys, groups[..i], baseOf)
    {
      var group := groups[i];
      var baseName := baseOf(group.name);
      ClusteringStep(groups, baseOf, i);
      FileOne(buckets, keys, groups, i, baseOf);
      var cluster := if baseName in buckets then buckets[baseName] else [];
      keys := if baseName in buckets then keys else keys + [baseName];
      buckets := buckets[baseName := cluster + [group]];
      i := i + 1;
    }
    assert groups[..|groups|] == groups;
  }

  /** `handleRenameGroups`: for a connected user whose group list came back non-empty
      (`fetched` is `None` when fetching failed or gave nothing), cluster the
      groups by base name; if some cluster has more than one group, those clusters
      are offered and the clustering is stored in `groupedData`, otherwise nothing
      is stored. An ongoing rename is not touched. */
  method RenameGroups(u: UserState, fetched: Option<seq<Group>>) returns (offered: seq<string>)
    modifies u
    ensures OthersUnchanged(u) && u.renameState == old(u.renameState)
    ensures !old(u.connected) || fetched.None? ==> offered == [] && u.groupedData == old(u.groupedData)
    ensures old(u.connected) && fetched.Some? ==>
      var groups := fetched.value;
      && (forall b :: b in offered <==> b in BaseKeys(groups, BaseName) && |Members(groups, BaseName, b)| > 1)
      && (offered == [] ==> u.groupedData == old(u.groupedData))
      && (offered != [] ==>
            && (forall b :: b in u.groupedData <==> b in BaseKeys(groups, BaseName))
            && (forall b :: b in u.groupedData ==> u.groupedData[b] == Members(groups, BaseName, b)))
  {
    offered := [];
    if !u.connected || fetched.None? {
      return;
    }
    var groups := fetched.value;
    if |groups| == 0 {
      return;
    }
    var buckets, keys := GroupByBase(groups, BaseName);
    offered := Offered(keys, buckets);
    if |offered| == 0 {
      return;
    }
    u.groupedData := buckets;
  }

  /** `handleBaseNameSelection`: the stored cluster of `baseName` is sorted by
      number in place (the stored list and the new rename record share it) and a
      fresh rename waits for the first number. A base name with no stored cluster
      makes the handler throw, and nothing changes. */
  method SelectBase(u: UserState, baseName: string, num: string -> int)
    modifies u
    ensures OthersUnchanged(u)
    ensures baseName !in old(u.groupedData) ==> u.groupedData == old(u.groupedData) && u.renameState == old(u.renameState)
    ensures baseName in old(u.groupedData) ==>
      var sorted := SortByNumber(old(u.groupedData[baseName]), num);
      && u.groupedData == old(u.groupedData)[baseName := sorted]
      && fresh(u.renameState)
      && u.renameState.View() == RenameView(WaitingStartNumber, baseName, sorted, None, None, None, None)
      && u.renameState.Valid()
      && SortedBy(u.renameState.groups, num)
      && multiset(u.renameState.groups) == multiset(old(u.groupedData[baseName]))
  {
    if baseName !in u.groupedData {
      return;
    }
    var groups := SortByNumber(u.groupedData[baseName], num);
    SortByNumberSorted(u.groupedData[baseName], num);
    u.groupedData := u.groupedData[baseName := groups];
    u.renameState := new RenameState.Start(baseName, groups);
  }

  /** The numbers the cluster offers (`state.groups.map(...)`). */
  function Available(groups: seq<Group>, num: string -> int): (r: seq<int>)
    ensures |r| == |groups| && forall i :: 0 <= i < |r| ==> r[i] == num(groups[i].name)
  {
    seq(|groups|, i requires 0 <= i < |groups| => num(groups[i].name))
  }

  /** The answer a text gives at the step `v` waits for, as a new snapshot of the
      rename record: the range ends, the new name and the first new number are
      accepted as the four handlers below accept them, and a rejected text leaves
      the snapshot as it was. */
  function Answer(v: RenameView, text: string, num: string -> int): (r: RenameView)
    ensures r.baseName == v.baseName && r.groups == v.groups
  {
    match v.step
    case WaitingStartNumber => StartNumberAnswer(v, text, num)
    case WaitingEndNumber => EndNumberAnswer(v, text, num)
    case WaitingNewName => NewNameAnswer(v, text)
    case WaitingStartNumbering => StartNumberingAnswer(v, text)
  }

  function StartNumberAnswer(v: RenameView, text: string, num: string -> int): RenameView {
    var n := ParseInt(Trim(text));
    if n.Some? && n.value >= 1 && n.value in Available(v.groups, num) then
      v.(startNumber := n, step := WaitingEndNumber)
    else v
  }

  function EndNumberAnswer(v: RenameView, text: string, num: string -> int): RenameView {
    var n := ParseInt(Trim(text));
    if n.Some? && !(v.startNumber.Some? && n.value < v.startNumber.value)
       && n.value in Available(v.groups, num) then
      v.(endNumber := n, step := WaitingNewName)
    else v
  }

  function NewNameAnswer(v: RenameView, text: string): RenameView {
    if Trim(text) != "" then v.(newName := Some(Trim(text)), step := WaitingStartNumbering) else v
  }

  function StartNumberingAnswer(v: RenameView, text: string): RenameView {
    var n := ParseInt(Trim(text));
    if n.Some? && n.value >= 1 then v.(startNumbering := n) else v
  }

  /** `handleStartNumber`: a positive integer that some group of the cluster carries
      becomes the start of the range; anything else is rejected and changes
      nothing. */
  method StartNumber(state: RenameState, text: string, num: string -> int)
    modifies state
    ensures var n := ParseInt(Trim(text));
      if n.Some? && n.value >= 1 && n.value in Available(old(state.groups), num) then
        state.View() == old(state.View()).(startNumber := n, step := WaitingEndNumber)
      else
        unchanged(state)
    ensures old(state.Valid()) ==> state.Valid()
  {
    var startNum := ParseInt(Trim(text));
    if startNum.None? || startNum.value < 1 {
      return;
    }
    var availableNumbers := Available(state.groups, num);
    if startNum.value !in availableNumbers {
      return;
    }
    state.startNumber := startNum;
    state.step := WaitingEndNumber;
  }

  /** `handleEndNumber`: a number no smaller than the start that some group carries
      becomes the end of the range; anything else is rejected and changes
      nothing. */
  method EndNumber(state: RenameState, text: string, num: string -> int)
    modifies state
    ensures var n := ParseInt(Trim(text));
      if n.Some? && !(old(state.startNumber).Some? && n.value < old(state.startNumber).value)
         && n.value in Available(old(state.groups), num) then
        state.View() == old(state.View()).(endNumber := n, step := WaitingNewName)
      else
        unchanged(state)
    ensures old(state.Valid()) && old(state.step) == WaitingEndNumber ==> state.Valid()
  {
    var endNum := ParseInt(Trim(text));
    if endNum.None? || (state.startNumber.Some? && endNum.value < state.startNumber.value) {
      return;
    }
    var availableEndNumbers := Available(state.groups, num);
    if endNum.value !in availableEndNumbers {
      return;
    }
    state.endNumber := endNum;
    state.step := WaitingNewName;
  }

  /** `handleNewName`: the trimmed text, unless empty, becomes the new name. */
  method NewName(state: RenameState, text: string)
    modifies state
    ensures Trim(text) == "" ==> unchanged(state)
    ensures Trim(text) != "" ==> state.View() == old(state.View()).(newName := Some(Trim(text)), step := WaitingStartNumbering)
    ensures old(state.Valid()) && old(state.step) == WaitingNewName ==> state.Valid()
  {
    var newName := Trim(text);
    if newName == "" {
      return;
    }
    state.newName := Some(newName);
    state.step := WaitingStartNumbering;
  }

  /** `handleStartNumbering`: a positive integer becomes the first new number; the
      step stays where it is. Returns the preview, which is the very plan a
      confirmed rename applies to this record. */
  method StartNumbering(state: RenameState, text: string, num: string -> int) returns (preview: seq<Rename>)
    modifies state
    ensures var n := ParseInt(Trim(text));
      if n.Some? && n.value >= 1 then
        && state.View() == old(state.View()).(startNumbering := n)
        && preview == RenamePlan(state.groups, num, state.startNumber, state.endNumber, state.newName, state.startNumbering)
      else
        unchanged(state) && preview == []
    ensures old(state.Valid()) ==> state.Valid()
  {
    var startNumbering := ParseInt(Trim(text));
    if startNumbering.None? || startNumbering.value < 1 {
      return [];
    }
    state.startNumbering := startNumbering;
    preview := RenamePlan(state.groups, num, state.startNumber, state.endNumber, state.newName, state.startNumbering);
  }

  /** `handleGroupMessages`: a text goes to the rename step the record waits for;
      without a rename record the text is not handled. */
  method GroupMessage(u: UserState, text: string, num: string -> int) returns (handled: bool)
    modifies u.renameState
    ensures handled <==> u.renameState != null
    ensures u.renameState != null && old(u.renameState.Valid()) ==> u.renameState.Valid()
    ensures u.renameState != null ==>
      u.renameState.baseName == old(u.renameState.baseName) && u.renameState.groups == old(u.renameState.groups)
    ensures u.renameState != null ==> u.renameState.View() == Answer(old(u.renameState.View()), text, num)
  {
    var state := u.renameState;
    if state == null {
      return false;
    }
    match state.step {
      case WaitingStartNumber => StartNumber(state, text, num);
      case WaitingEndNumber => EndNumber(state, text, num);
      case WaitingNewName => NewName(state, text);
      case WaitingStartNumbering => var _ := StartNumbering(state, text, num);
    }
    return true;
  }

  /** The rename loop over the planned groups. */
  method RunRenames(plan: seq<Rename>, rename: nat -> Reply, isRate: string -> bool) returns (run: BatchRun)
    ensures run == TallyRow(Empty, 0, RenameRow(plan, rename, isRate))
  {
    ghost var row := RenameRow(plan, rename, isRate);
    var successCount := 0;
    var failCount := 0;
    var lines: seq<Line> := [];
    var delays: seq<nat> := [];
    var progress: seq<nat> := [];
    var i := 0;
    while i < |plan|
      invariant 0 <= i <= |plan|
      invariant BatchRun(successCount, failCount, lines, delays, progress) == TallyRow(Empty, 0, row[..i])
    {
      var group := plan[i].group;
      var newGroupName := plan[i].newName;
      TallyRowNext(Empty, 0, row, i);
      match rename(i) {
        case Ok(_) =>
          successCount := successCount + 1;
          lines := lines + [Renamed(group.name, newGroupName)];
          progress := progress + [i + 1];
          delays := delays + [RenameDelay];
        case Fail(m) =>
          failCount := failCount + 1;
          lines := lines + [RenameFailed(group.name, m)];
          if isRate(m) {
            delays := delays + [RateLimitDelay];
          }
      }
      i := i + 1;
    }
    assert row[..|plan|] == row;
    run := BatchRun(successCount, failCount, lines, delays, progress);
  }

  /** `handleConfirmRename`: without a rename record the session has expired and
      nothing happens. Otherwise the planned renames run in order, one call each,
      and the rename record is removed. */
  method ConfirmRename(u: UserState, num: string -> int, rename: nat -> Reply, isRate: string -> bool)
    returns (expired: bool, run: BatchRun)
    modifies u
    ensures OthersUnchanged(u) && u.groupedData == old(u.groupedData)
    ensures expired <==> old(u.renameState) == null
    ensures expired ==> run == Empty && u.renameState == null
    ensures !expired ==>
      var s := old(u.renameState.View());
      && u.renameState == null
      && run == TallyRow(Empty, 0, RenameRow(RenamePlan(s.groups, num, s.startNumber, s.endNumber, s.newName, s.startNumbering), rename, isRate))
  {
    var state := u.renameState;
    if state == null {
      return true, Empty;
    }
    expired := false;
    var groupsToRename := RenamePlan(state.groups, num, state.startNumber, state.endNumber, state.newName, state.startNumbering);
    run := RunRenames(groupsToRename, rename, isRate);
    u.renameState := null;
  }
}
