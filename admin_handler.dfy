/** The admin-management handlers of handlers/adminHandler.js, one method per
    handler, acting on the user's record. Messaging-client results are
    parameters (see `AdminBatch`); Telegram messages are not modelled. Clearing a
    flow (`clearUserFlowState(..., 'admin')`) is modelled as removing the record. */
module AdminHandler {

  import opened Wrappers
  import opened Text
  import opened Domain
  import opened AdminLogic
  import opened Batch
  import opened AdminBatch
  import opened Model

  /** The handlers' guard: a flow is present and of the given kind. */
  predicate FlowIs(f: AdminFlow?, k: FlowType)
    reads f
  {
    f != null && f.kind == k
  }

  /** The record's other workflow fields are left alone. */
  twostate predicate OthersUnchanged(u: UserState)
    reads u
  {
    u.connected == old(u.connected) && u.groupedData == old(u.groupedData)
    && u.renameState == old(u.renameState) && u.ctcFlow == old(u.ctcFlow)
  }

  // ---------------------------------------------------------------- starting

  /** `handleAddPromoteAdmin`: for a connected user whose group list came back
      non-empty, a new add/promote flow replaces whatever flow was there;
      otherwise nothing changes. `fetched` is `None` when fetching the groups
      failed or gave nothing. */
  method AddPromoteAdmin(u: UserState, fetched: Option<seq<Group>>)
    modifies u
    ensures OthersUnchanged(u)
    ensures !old(u.connected) || fetched.None? || |fetched.value| == 0 ==> u.adminFlow == old(u.adminFlow)
    ensures old(u.connected) && fetched.Some? && |fetched.value| > 0 ==>
      && fresh(u.adminFlow)
      && u.adminFlow.View() == AdminView(AddPromote, SelectGroups, fetched.value, [], Some(0), "", [], [], [], None)
      && u.adminFlow.Valid()
  {
    if !u.connected {
      return;
    }
    if fetched.None? || |fetched.value| == 0 {
      return;
    }
    u.adminFlow := new AdminFlow.StartAddPromote(fetched.value);
  }

  /** `handleDemoteAdmin`: for a connected user, a new demote flow waiting for the
      numbers replaces whatever flow was there. */
  method DemoteAdmin(u: UserState)
    modifies u
    ensures OthersUnchanged(u)
    ensures !old(u.connected) ==> u.adminFlow == old(u.adminFlow)
    ensures old(u.connected) ==>
      && fresh(u.adminFlow)
      && u.adminFlow.View() == AdminView(Demote, WaitingAdminNumbers, [], [], Some(0), "", [], [], [], None)
      && u.adminFlow.Valid()
  {
    if !u.connected {
      return;
    }
    u.adminFlow := new AdminFlow.StartDemote();
  }

  // ---------------------------------------------------------------- add/promote selection

  /** `handleToggleGroupSelection`. */
  method ToggleGroup(u: UserState, groupId: string)
    modifies u.adminFlow
    ensures u.adminFlow != null && !old(FlowIs(u.adminFlow, AddPromote)) ==> unchanged(u.adminFlow)
    ensures FlowIs(u.adminFlow, AddPromote) ==>
      u.adminFlow.View() == old(u.adminFlow.View()).(selectedGroups := Toggle(old(u.adminFlow.selectedGroups), groupId))
    ensures u.adminFlow != null && old(u.adminFlow.Valid()) ==> u.adminFlow.Valid()
  {
    var state := u.adminFlow;
    if state == null || state.kind != AddPromote {
      return;
    }
    state.ToggleSelected(groupId);
  }

  /** `handleGroupsPage`: only the page changes. */
  method GroupsPage(u: UserState, page: Option<int>)
    modifies u.adminFlow
    ensures u.adminFlow != null && !old(FlowIs(u.adminFlow, AddPromote)) ==> unchanged(u.adminFlow)
    ensures FlowIs(u.adminFlow, AddPromote) ==> u.adminFlow.View() == old(u.adminFlow.View()).(currentPage := page)
    ensures u.adminFlow != null && old(u.adminFlow.Valid()) ==> u.adminFlow.Valid()
  {
    var state := u.adminFlow;
    if state == null || state.kind != AddPromote {
      return;
    }
    state.currentPage := page;
  }

  /** `handleSearchGroups`: wait for a search text. */
  method SearchGroups(u: UserState)
    modifies u.adminFlow
    ensures u.adminFlow != null && !old(FlowIs(u.adminFlow, AddPromote)) ==> unchanged(u.adminFlow)
    ensures FlowIs(u.adminFlow, AddPromote) ==> u.adminFlow.View() == old(u.adminFlow.View()).(step := WaitingSearchQuery)
    ensures u.adminFlow != null && old(u.adminFlow.Valid()) ==> u.adminFlow.Valid()
  {
    var state := u.adminFlow;
    if state == null || state.kind != AddPromote {
      return;
    }
    state.step := WaitingSearchQuery;
  }

  /** `handleFinishGroupSelection`: wait for the numbers to add. */
  method FinishGroupSelection(u: UserState)
    modifies u.adminFlow
    ensures u.adminFlow != null && !old(FlowIs(u.adminFlow, AddPromote)) ==> unchanged(u.adminFlow)
    ensures FlowIs(u.adminFlow, AddPromote) ==> u.adminFlow.View() == old(u.adminFlow.View()).(step := WaitingAdminNumbers)
    ensures u.adminFlow != null && old(u.adminFlow.Valid()) ==> u.adminFlow.Valid()
  {
    var state := u.adminFlow;
    if state == null || state.kind != AddPromote {
      return;
    }
    state.step := WaitingAdminNumbers;
  }

  // ---------------------------------------------------------------- text input

  /** `handleAdminMessages`: a search text while waiting for one in an add/promote
      flow, or the list of numbers while waiting for it (`parsed` is what the
      phone-number parser made of `text`). A list with a parse error or without
      any number is rejected and nothing changes. Returns whether the message was
      handled. */
  method AdminMessage(u: UserState, text: string, parsed: ParseResult) returns (handled: bool)
    modifies u.adminFlow
    ensures u.adminFlow == null ==> !handled
    ensures u.adminFlow != null ==>
      var o := old(u.adminFlow.View());
      if o.step == WaitingSearchQuery && o.kind == AddPromote then
        handled && u.adminFlow.View() == o.(searchQuery := Trim(text), currentPage := Some(0), step := SelectGroups)
      else if o.step == WaitingAdminNumbers then
        handled && u.adminFlow.View() ==
          if |parsed.errors| > 0 || |parsed.phoneNumbers| == 0 then o
          else if o.kind == AddPromote then o.(adminsToAdd := parsed.phoneNumbers, step := AdminStep.ConfirmAddPromote)
          else o.(adminsToSearch := parsed.phoneNumbers, step := SearchAdminInGroups)
      else
        !handled && unchanged(u.adminFlow)
    ensures u.adminFlow != null && old(u.adminFlow.Valid()) ==> u.adminFlow.Valid()
  {
    var state := u.adminFlow;
    if state == null {
      return false;
    }
    if state.step == WaitingSearchQuery && state.kind == AddPromote {
      state.searchQuery := Trim(text);
      state.currentPage := Some(0);
      state.step := SelectGroups;
      return true;
    }
    if state.step == WaitingAdminNumbers {
      if |parsed.errors| > 0 {
        return true;
      }
      if |parsed.phoneNumbers| == 0 {
        return true;
      }
      if state.kind == AddPromote {
        state.adminsToAdd := parsed.phoneNumbers;
        state.step := AdminStep.ConfirmAddPromote;
      } else {
        state.adminsToSearch := parsed.phoneNumbers;
        state.step := SearchAdminInGroups;
      }
      return true;
    }
    return false;
  }

  // ---------------------------------------------------------------- demote search and selection

  /** `handleStartSearchAdmin`: rejected (and nothing changes) unless a demote flow
      holds numbers to search. Otherwise every group of `allGroups` (`None` when
      fetching them failed, which changes nothing) is asked for its admins,
      `adminsOf(i)` being the answer for the i-th (`None` when the lookup threw), and
      the hits replace `foundAdmins`; the selection restarts empty on the first
      page. */
  method StartSearchAdmin(u: UserState, allGroups: Option<seq<Group>>, adminsOf: nat -> Option<seq<string>>)
    returns (rejected: bool)
    modifies u.adminFlow
    ensures rejected <==> !old(FlowIs(u.adminFlow, Demote)) || |old(u.adminFlow.adminsToSearch)| == 0
    ensures u.adminFlow != null && (rejected || allGroups.None?) ==> unchanged(u.adminFlow)
    ensures !rejected && allGroups.Some? ==>
      u.adminFlow.View() == old(u.adminFlow.View()).(
        foundAdmins := SearchFound(allGroups.value, adminsOf, old(u.adminFlow.adminsToSearch)),
        step := SelectDemoteGroups,
        currentPage := Some(0),
        selectedGroups := [])
    ensures u.adminFlow != null && old(u.adminFlow.Valid()) ==> u.adminFlow.Valid()
  {
    var state := u.adminFlow;
    if state == null || state.kind != Demote || |state.adminsToSearch| == 0 {
      return true;
    }
    rejected := false;
    if allGroups.None? {
      return;
    }
    var groups := allGroups.value;
    var numbers := state.adminsToSearch;
    var found: seq<FoundAdmin> := [];
    var i := 0;
    while i < |groups|
      invariant 0 <= i <= |groups|
      invariant found == SearchFound(groups[..i], adminsOf, numbers)
    {
      var group := groups[i];
      assert groups[..i + 1][..i] == groups[..i];
      match adminsOf(i) {
        case None =>
        case Some(admins) =>
          var before := found;
          var j := 0;
          while j < |numbers|
            invariant 0 <= j <= |numbers|
            invariant found == AddMatches(before, group, admins, numbers[..j])
          {
            var adminNumber := numbers[j];
            assert numbers[..j + 1][..j] == numbers[..j];
            var isAdmin := IsAdminIn(adminNumber, admins);
            if isAdmin {
              var existing := HasPair(found, adminNumber, group.id);
              if !existing {
                found := found + [FoundAdmin(adminNumber, group.id, group.name)];
              }
            }
            j := j + 1;
          }
          assert numbers[..|numbers|] == numbers;
      }
      i := i + 1;
    }
    assert groups[..|groups|] == groups;
    SearchFoundSpec(groups, adminsOf, numbers);
    state.foundAdmins := found;
    state.step := SelectDemoteGroups;
    state.currentPage := Some(0);
    state.selectedGroups := [];
  }

  /** `handleToggleDemoteSelection`. */
  method ToggleDemote(u: UserState, groupId: string)
    modifies u.adminFlow
    ensures u.adminFlow != null && !old(FlowIs(u.adminFlow, Demote)) ==> unchanged(u.adminFlow)
    ensures FlowIs(u.adminFlow, Demote) ==>
      u.adminFlow.View() == old(u.adminFlow.View()).(selectedGroups := Toggle(old(u.adminFlow.selectedGroups), groupId))
    ensures u.adminFlow != null && old(u.adminFlow.Valid()) ==> u.adminFlow.Valid()
  {
    var state := u.adminFlow;
    if state == null || state.kind != Demote {
      return;
    }
    state.ToggleSelected(groupId);
  }

  /** `handleDemotePage`: only the page changes. */
  method DemotePage(u: UserState, page: Option<int>)
    modifies u.adminFlow
    ensures u.adminFlow != null && !old(FlowIs(u.adminFlow, Demote)) ==> unchanged(u.adminFlow)
    ensures FlowIs(u.adminFlow, Demote) ==> u.adminFlow.View() == old(u.adminFlow.View()).(currentPage := page)
    ensures u.adminFlow != null && old(u.adminFlow.Valid()) ==> u.adminFlow.Valid()
  {
    var state := u.adminFlow;
    if state == null || state.kind != Demote {
      return;
    }
    state.currentPage := page;
  }

  /** `handleFinishDemoteSelection`: one confirmation row per selected group, in
      selection order, then wait for the confirmation. */
  method FinishDemoteSelection(u: UserState)
    modifies u.adminFlow
    ensures u.adminFlow != null && !old(FlowIs(u.adminFlow, Demote)) ==> unchanged(u.adminFlow)
    ensures FlowIs(u.adminFlow, Demote) ==>
      u.adminFlow.View() == old(u.adminFlow.View()).(
        confirmData := Some(ConfirmFor(old(u.adminFlow.selectedGroups), old(u.adminFlow.foundAdmins))),
        step := AdminStep.ConfirmDemote)
    ensures u.adminFlow != null && old(u.adminFlow.Valid()) ==> u.adminFlow.Valid()
  {
    var state := u.adminFlow;
    if state == null || state.kind != Demote {
      return;
    }
    var selected := state.selectedGroups;
    var found := state.foundAdmins;
    var confirmData: seq<ConfirmEntry> := [];
    var i := 0;
    while i < |selected|
      invariant 0 <= i <= |selected| && |confirmData| == i
      invariant forall k :: 0 <= k < i ==>
        confirmData[k] == ConfirmEntry(selected[k], NameIn(found, selected[k]), NumbersIn(found, selected[k]))
    {
      var groupId := selected[i];
      var groupName := NameIn(found, groupId);
      var adminNumbers := NumbersIn(found, groupId);
      confirmData := confirmData + [ConfirmEntry(groupId, groupName, adminNumbers)];
      i := i + 1;
    }
    assert confirmData == ConfirmFor(selected, found);
    state.confirmData := Some(confirmData);
    state.step := AdminStep.ConfirmDemote;
  }

  // ---------------------------------------------------------------- batches

  /** The promote retry loop: at most three attempts, stopping at the first
      success, pausing between attempts. */
  method RunPromote(promote: nat -> Reply) returns (p: PromoteRun)
    ensures p == PromoteFrom(promote, 0)
  {
    var promoted := false;
    var attempts := 0;
    var lastError := "";
    var retries: seq<nat> := [];
    while !promoted && attempts < MaxPromoteAttempts
      invariant 0 <= attempts <= MaxPromoteAttempts
      invariant attempts < MaxPromoteAttempts || promoted ==> lastError == ""
      invariant promoted ==> PromoteFrom(promote, 0) == PromoteRun(true, attempts, "", retries)
      invariant !promoted && attempts < MaxPromoteAttempts ==>
        PromoteFrom(promote, 0) == PromoteFrom(promote, attempts).(delays := retries + PromoteFrom(promote, attempts).delays)
      invariant !promoted && attempts == MaxPromoteAttempts ==>
        PromoteFrom(promote, 0) == PromoteRun(false, MaxPromoteAttempts, lastError, retries)
      decreases MaxPromoteAttempts - attempts
    {
      var reply := promote(attempts);
      ghost var here := PromoteFrom(promote, attempts);
      attempts := attempts + 1;
      if reply.Ok? {
        assert here == PromoteRun(true, attempts, "", []);
        promoted := true;
      } else if attempts < MaxPromoteAttempts {
        ghost var rest := PromoteFrom(promote, attempts);
        assert here == rest.(delays := [RetryDelay] + rest.delays);
        assert retries + ([RetryDelay] + rest.delays) == (retries + [RetryDelay]) + rest.delays;
        retries := retries + [RetryDelay];
      } else {
        assert here == PromoteRun(false, MaxPromoteAttempts, reply.message, []);
        lastError := reply.message;
      }
    }
    p := PromoteRun(promoted, attempts, lastError, retries);
  }

  /** One add/promote pair as the loop body runs it. */
  method RunAddPromotePair(number: string, check: Reply, add: Reply, promote: nat -> Reply, isRate: string -> bool)
    returns (r: PairRun)
    ensures r == AddPromotePair(number, check, add, promote, isRate)
  {
    var lines: seq<Line> := [];
    var delays: seq<nat> := [];
    if check.Fail? {
      return PairFailure(lines, delays, number, check.message, isRate);
    }
    if !check.member {
      match add {
        case Ok(_) =>
          lines := lines + [Added(number)];
          delays := delays + [SyncDelay];
        case Fail(m) =>
          if AlreadyMember(m) {
            lines := lines + [AlreadyInGroup(number)];
          } else {
            return PairFailure(lines, delays, number, m, isRate);
          }
      }
    } else {
      lines := lines + [AlreadyInGroup(number)];
    }
    assert AddPromotePair(number, check, add, promote, isRate) == PromotePhase(lines, delays, number, promote, isRate);
    var p := RunPromote(promote);
    if p.ok {
      r := PairRun(true, lines + [Promoted(number)], delays + p.delays + [PairDelay]);
    } else {
      r := PairFailure(lines, delays + p.delays, number, p.message, isRate);
    }
  }

  /** The pairs of one selected group, numbered on from `before`. */
  method RunAddPromoteRow(i: nat, admins: seq<string>, check: (nat, nat) -> Reply, add: (nat, nat) -> Reply,
                          promote: (nat, nat, nat) -> Reply, isRate: string -> bool, acc: BatchRun, before: nat)
    returns (run: BatchRun)
    ensures run == TallyRow(acc, before, AddPromoteRow(i, admins, check, add, promote, isRate))
  {
    ghost var row := AddPromoteRow(i, admins, check, add, promote, isRate);
    var successCount, failCount, lines, delays, progress := acc.success, acc.fail, acc.lines, acc.delays, acc.progress;
    var currentOperation := before;
    var j := 0;
    while j < |admins|
      invariant 0 <= j <= |admins|
      invariant BatchRun(successCount, failCount, lines, delays, progress) == TallyRow(acc, before, row[..j])
      invariant currentOperation == before + j
    {
      currentOperation := currentOperation + 1;
      var p := RunAddPromotePair(admins[j], check(i, j), add(i, j), PromoteAt(promote, i, j), isRate);
      TallyRowNext(acc, before, row, j);
      if p.ok {
        successCount := successCount + 1;
        progress := progress + [currentOperation];
      } else {
        failCount := failCount + 1;
      }
      lines := lines + p.lines;
      delays := delays + p.delays;
      j := j + 1;
    }
    assert row[..|admins|] == row;
    run := BatchRun(successCount, failCount, lines, delays, progress);
  }

  /** The add/promote batch: group by group, number by number. */
  method RunAddPromoteBatch(groups: seq<Group>, selected: seq<string>, admins: seq<string>,
                            check: (nat, nat) -> Reply, add: (nat, nat) -> Reply,
                            promote: (nat, nat, nat) -> Reply, isRate: string -> bool)
    returns (run: BatchRun)
    ensures run == Tally(AddPromoteHeaders(groups, selected), AddPromoteGrid(selected, admins, check, add, promote, isRate))
  {
    ghost var headers := AddPromoteHeaders(groups, selected);
    ghost var grid := AddPromoteGrid(selected, admins, check, add, promote, isRate);
    run := Empty;
    var currentOperation := 0;
    var i := 0;
    while i < |selected|
      invariant 0 <= i <= |selected|
      invariant run == Tally(headers[..i], grid[..i])
      invariant currentOperation == Ops(grid[..i])
    {
      var groupName := GroupNameOf(groups, selected[i]);
      TallyNext(headers, grid, i);
      assert grid[i][..|grid[i]|] == AddPromoteRow(i, admins, check, add, promote, isRate);
      run := RunAddPromoteRow(i, admins, check, add, promote, isRate,
                              run.(lines := run.lines + [GroupHeader(groupName)]), currentOperation);
      currentOperation := currentOperation + |admins|;
      i := i + 1;
    }
    assert headers[..|selected|] == headers && grid[..|selected|] == grid;
  }

  /** `handleConfirmAddPromote`: nothing happens unless an add/promote flow is
      present. Otherwise every (selected group, number) pair is run in that order
      and the flow is removed afterwards. The result holds the counters, the
      transcript, the pauses and the progress reports. */
  method ConfirmAddPromote(u: UserState, check: (nat, nat) -> Reply, add: (nat, nat) -> Reply,
                           promote: (nat, nat, nat) -> Reply, isRate: string -> bool)
    returns (run: BatchRun)
    modifies u
    ensures OthersUnchanged(u)
    ensures !old(FlowIs(u.adminFlow, AddPromote)) ==> u.adminFlow == old(u.adminFlow) && run == Empty
    ensures old(FlowIs(u.adminFlow, AddPromote)) ==>
      && u.adminFlow == null
      && run == Tally(AddPromoteHeaders(old(u.adminFlow.groups), old(u.adminFlow.selectedGroups)),
                      AddPromoteGrid(old(u.adminFlow.selectedGroups), old(u.adminFlow.adminsToAdd), check, add, promote, isRate))
  {
    var state := u.adminFlow;
    if state == null || state.kind != AddPromote {
      return Empty;
    }
    run := RunAddPromoteBatch(state.groups, state.selectedGroups, state.adminsToAdd, check, add, promote, isRate);
    u.adminFlow := null;
  }

  /** The demotes of one confirmation row, numbered on from `before`. */
  method RunDemoteRow(i: nat, data: ConfirmEntry, demote: (nat, nat) -> Reply, isRate: string -> bool,
                      acc: BatchRun, before: nat)
    returns (run: BatchRun)
    ensures run == TallyRow(acc, before, DemoteRow(i, data, demote, isRate))
  {
    ghost var row := DemoteRow(i, data, demote, isRate);
    var successCount, failCount, lines, delays, progress := acc.success, acc.fail, acc.lines, acc.delays, acc.progress;
    var currentOperation := before;
    var j := 0;
    while j < |data.adminNumbers|
      invariant 0 <= j <= |data.adminNumbers|
      invariant BatchRun(successCount, failCount, lines, delays, progress) == TallyRow(acc, before, row[..j])
      invariant currentOperation == before + j
    {
      var adminNumber := data.adminNumbers[j];
      currentOperation := currentOperation + 1;
      TallyRowNext(acc, before, row, j);
      match demote(i, j) {
        case Ok(_) =>
          successCount := successCount + 1;
          lines := lines + [Demoted(adminNumber)];
          progress := progress + [currentOperation];
          delays := delays + [PairDelay];
        case Fail(m) =>
          failCount := failCount + 1;
          lines := lines + [Failed(adminNumber, m)];
          if isRate(m) {
            delays := delays + [RateLimitDelay];
          }
      }
      j := j + 1;
    }
    assert row[..|data.adminNumbers|] == row;
    run := BatchRun(successCount, failCount, lines, delays, progress);
  }

  /** The demote batch: row by row, number by number. */
  method RunDemoteBatch(cd: seq<ConfirmEntry>, demote: (nat, nat) -> Reply, isRate: string -> bool)
    returns (run: BatchRun)
    ensures run == Tally(DemoteHeaders(cd), DemoteGrid(cd, demote, isRate))
  {
    ghost var headers := DemoteHeaders(cd);
    ghost var grid := DemoteGrid(cd, demote, isRate);
    run := Empty;
    var currentOperation := 0;
    var i := 0;
    while i < |cd|
      invariant 0 <= i <= |cd|
      invariant run == Tally(headers[..i], grid[..i])
      invariant currentOperation == Ops(grid[..i])
    {
      var data := cd[i];
      TallyNext(headers, grid, i);
      assert grid[i][..|grid[i]|] == DemoteRow(i, data, demote, isRate);
      run := RunDemoteRow(i, data, demote, isRate, run.(lines := run.lines + [GroupHeader(data.groupName)]), currentOperation);
      currentOperation := currentOperation + |data.adminNumbers|;
      i := i + 1;
    }
    assert headers[..|cd|] == headers && grid[..|cd|] == grid;
  }

  /** `handleConfirmDemote`: nothing happens unless a demote flow is present.
      Otherwise every listed number of every confirmation row gets one demote
      attempt, and the flow is removed afterwards; without confirmation rows the
      batch stops at once (reading them throws) and the flow is still removed. */
  method ConfirmDemote(u: UserState, demote: (nat, nat) -> Reply, isRate: string -> bool)
    returns (run: BatchRun)
    modifies u
    ensures OthersUnchanged(u)
    ensures !old(FlowIs(u.adminFlow, Demote)) ==> u.adminFlow == old(u.adminFlow) && run == Empty
    ensures old(FlowIs(u.adminFlow, Demote)) ==>
      && u.adminFlow == null
      && run == match old(u.adminFlow.confirmData)
                case None => Empty
                case Some(cd) => Tally(DemoteHeaders(cd), DemoteGrid(cd, demote, isRate))
  {
    var state := u.adminFlow;
    if state == null || state.kind != Demote {
      return Empty;
    }
    run := Empty;
    if state.confirmData.Some? {
      run := RunDemoteBatch(state.confirmData.value, demote, isRate);
    }
    u.adminFlow := null;
  }

  /** `handleCancelAdminFlow`: the flow is removed, whatever state it was in. */
  method CancelAdminFlow(u: UserState)
    modifies u
    ensures OthersUnchanged(u)
    ensures u.adminFlow == null
  {
    u.adminFlow := null;
  }
}
