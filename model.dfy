/** The per-user record the handlers share (`userStates[userId]`) and the workflow
    records hanging off it. Their fields are changed in place by the handlers, so
    they are classes; `View()` gives a snapshot of a record's fields so that a
    handler can say which one field it changed. */
module Model {

  import opened Wrappers
  import opened Domain
  import opened AdminLogic

  datatype FlowType = AddPromote | Demote

  datatype AdminStep =
    | SelectGroups
    | WaitingSearchQuery
    | WaitingAdminNumbers
    | ConfirmAddPromote
    | SearchAdminInGroups
    | SelectDemoteGroups
    | ConfirmDemote

  /** The fields of an admin workflow. `currentPage` is `None` when a page token did
      not parse (`NaN`); `confirmData` is `None` until the demote selection is
      finished. */
  datatype AdminView = AdminView(
    kind: FlowType,
    step: AdminStep,
    groups: seq<Group>,
    selectedGroups: seq<string>,
    currentPage: Option<int>,
    searchQuery: string,
    adminsToAdd: seq<string>,
    adminsToSearch: seq<string>,
    foundAdmins: seq<FoundAdmin>,
    confirmData: Option<seq<ConfirmEntry>>)

  /** `userStates[userId].adminFlow`. Fields a workflow of the other kind never sets
      hold their empty value. */
  class AdminFlow {
    var kind: FlowType
    var step: AdminStep
    var groups: seq<Group>
    var selectedGroups: seq<string>
    var currentPage: Option<int>
    var searchQuery: string
    var adminsToAdd: seq<string>
    var adminsToSearch: seq<string>
    var foundAdmins: seq<FoundAdmin>
    var confirmData: Option<seq<ConfirmEntry>>

    function View(): AdminView
      reads this
    {
      AdminView(kind, step, groups, selectedGroups, currentPage, searchQuery,
                adminsToAdd, adminsToSearch, foundAdmins, confirmData)
    }

    /** The selection never holds an id twice, and the demote search never records a
        (number, group) pair twice. */
    ghost predicate Valid()
      reads this
    {
      NoDup(selectedGroups) && PairsDistinct(foundAdmins)
    }

    /** The add/promote workflow as it starts: group selection, nothing selected,
        first page, no search. */
    constructor StartAddPromote(all: seq<Group>)
      ensures View() == AdminView(AddPromote, SelectGroups, all, [], Some(0), "", [], [], [], None)
      ensures Valid()
    {
      kind := AddPromote;
      step := SelectGroups;
      groups := all;
      selectedGroups := [];
      currentPage := Some(0);
      searchQuery := "";
      adminsToAdd := [];
      adminsToSearch := [];
      foundAdmins := [];
      confirmData := None;
    }

    /** The demote workflow as it starts: waiting for the numbers, all lists empty. */
    constructor StartDemote()
      ensures View() == AdminView(Demote, WaitingAdminNumbers, [], [], Some(0), "", [], [], [], None)
      ensures Valid()
    {
      kind := Demote;
      step := WaitingAdminNumbers;
      groups := [];
      selectedGroups := [];
      currentPage := Some(0);
      searchQuery := "";
      adminsToAdd := [];
      adminsToSearch := [];
      foundAdmins := [];
      confirmData := None;
    }

    /** Remove `id` from the selection where it first occurs, or add it at the end. */
    method ToggleSelected(id: string)
      modifies this
      ensures View() == old(View()).(selectedGroups := Toggle(old(selectedGroups), id))
      ensures old(Valid()) ==> Valid()
      ensures old(Valid()) ==> (id in selectedGroups <==> id !in old(selectedGroups))
    {
      var index := if id in selectedGroups then IndexOf(selectedGroups, id) as int else -1;
      if index > -1 {
        selectedGroups := selectedGroups[..index] + selectedGroups[index + 1..];
      } else {
        selectedGroups := selectedGroups + [id];
      }
      if old(Valid()) {
        ToggleFlipsMembership(old(selectedGroups), id);
      }
    }
  }

  datatype RenameStep = WaitingStartNumber | WaitingEndNumber | WaitingNewName | WaitingStartNumbering

  datatype RenameView = RenameView(
    step: RenameStep,
    baseName: string,
    groups: seq<Group>,
    startNumber: Option<int>,
    endNumber: Option<int>,
    newName: Option<string>,
    startNumbering: Option<int>)

  /** `userStates[userId].renameState`: the cluster being renamed and the answers
      collected so far (`None` while not yet given). */
  class RenameState {
    var step: RenameStep
    var baseName: string
    var groups: seq<Group>
    var startNumber: Option<int>
    var endNumber: Option<int>
    var newName: Option<string>
    var startNumbering: Option<int>

    function View(): RenameView
      reads this
    {
      RenameView(step, baseName, groups, startNumber, endNumber, newName, startNumbering)
    }

    /** What the steps taken so far guarantee: each answer is present once its step
        is passed, the range is of positive numbers and not reversed, the new name is
        trimmed and non-empty. */
    ghost predicate Valid()
      reads this
    {
      && (step != WaitingStartNumber ==> startNumber.Some? && startNumber.value >= 1)
      && (step in {WaitingNewName, WaitingStartNumbering} ==> endNumber.Some? && startNumber.Some? && endNumber.value >= startNumber.value)
      && (step == WaitingStartNumbering ==> newName.Some? && newName.value != "" && Text.IsTrimmed(newName.value))
      && (startNumbering.Some? ==> startNumbering.value >= 1)
    }

    /** A fresh rename of one cluster, waiting for the first number. */
    constructor Start(base: string, cluster: seq<Group>)
      ensures View() == RenameView(WaitingStartNumber, base, cluster, None, None, None, None)
      ensures Valid()
    {
      step := WaitingStartNumber;
      baseName := base;
      groups := cluster;
      startNumber := None;
      endNumber := None;
      newName := None;
      startNumbering := None;
    }
  }

  /** The contact-upload workflow's steps; the steps its own handler sets are not
      part of this model and are kept by name. */
  datatype CtcStep = WaitingFile | ConfirmNumbers | OtherCtcStep(name: string)

  /** `userStates[userId].ctcFlow`, as far as the document path reads and writes it. */
  class CtcFlow {
    var step: CtcStep
    var contactNumbers: seq<string>

    constructor (s: CtcStep)
      ensures step == s && contactNumbers == []
    {
      step := s;
      contactNumbers := [];
    }
  }

  /** `userStates[userId]`: the connection flag of the messaging session and the
      workflow records (`null` when absent). `groupedData` is the last clustering
      offered for renaming. */
  class UserState {
    var connected: bool
    var adminFlow: AdminFlow?
    var groupedData: map<string, seq<Group>>
    var renameState: RenameState?
    var ctcFlow: CtcFlow?

    constructor (isConnected: bool)
      ensures connected == isConnected
      ensures adminFlow == null && renameState == null && ctcFlow == null && groupedData == map[]
    {
      connected := isConnected;
      adminFlow := null;
      groupedData := map[];
      renameState := null;
      ctcFlow := null;
    }
  }

  /** What the phone-number parser returns: the numbers it accepted and the error
      lines for the rest. */
  datatype ParseResult = ParseResult(phoneNumbers: seq<string>, errors: seq<string>)
}
