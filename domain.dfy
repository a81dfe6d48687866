/** Values shared by the handlers: the group snapshot the messaging client returns,
    one reply of a client call, and the lines of a batch transcript. */
module Domain {

  /** `{id, name, isAdmin}` as `getAllGroups` returns it; never changed locally. */
  datatype Group = Group(id: string, name: string, isAdmin: bool)

  /** The outcome of one messaging-client call: `Ok(member)` when the call resolved
      (`member` is what `isParticipantInGroup` answers and is ignored for the other
      calls), `Fail(message)` when it threw an error with that `message`. */
  datatype Reply = Ok(member: bool) | Fail(message: string)

  /** One line of the running status text a batch builds (`statusMessage`). */
  datatype Line =
    | GroupHeader(groupName: string)
    | Added(number: string)
    | AlreadyInGroup(number: string)
    | Promoted(number: string)
    | Demoted(number: string)
    | Failed(number: string, message: string)
    | Renamed(oldName: string, newName: string)
    | RenameFailed(oldName: string, message: string)

  /** Requested pauses, in milliseconds. */
  const SyncDelay: nat := 8000
  const RetryDelay: nat := 3000
  const PairDelay: nat := 3000
  const RenameDelay: nat := 5000
  const RateLimitDelay: nat := 10000

  const Unknown: string := "Unknown"

  /** `name || 'Unknown'`: an empty name reads as missing. */
  function NameOr(name: string): (r: string)
    ensures r != ""
    ensures name != "" ==> r == name
  {
    if name == "" then Unknown else name
  }

  /** `groups.find(g => g.id === id)?.name || 'Unknown'`. */
  function GroupNameOf(groups: seq<Group>, id: string): (r: string)
    ensures r != ""
    ensures (forall k :: 0 <= k < |groups| ==> groups[k].id != id) ==> r == Unknown
    ensures |groups| > 0 && groups[0].id == id ==> r == NameOr(groups[0].name)
  {
    if |groups| == 0 then Unknown
    else if groups[0].id == id then NameOr(groups[0].name)
    else GroupNameOf(groups[1..], id)
  }

  /** The name shown is that of the first group with the id (or 'Unknown' when that
      name is empty), and 'Unknown' when no group has the id. */
  lemma {:induction false} GroupNameOfSpec(groups: seq<Group>, id: string)
    ensures (exists k :: 0 <= k < |groups| && groups[k].id == id) ==>
      exists k :: 0 <= k < |groups| && groups[k].id == id && GroupNameOf(groups, id) == NameOr(groups[k].name)
                  && (forall j :: 0 <= j < k ==> groups[j].id != id)
  {
    if |groups| > 0 && groups[0].id != id && exists k :: 0 <= k < |groups| && groups[k].id == id {
      var k0 :| 0 <= k0 < |groups| && groups[k0].id == id;
      assert groups[1..][k0 - 1] == groups[k0];
      GroupNameOfSpec(groups[1..], id);
      var k :| 0 <= k < |groups[1..]| && groups[1..][k].id == id && GroupNameOf(groups[1..], id) == NameOr(groups[1..][k].name)
        && (forall j :: 0 <= j < k ==> groups[1..][j].id != id);
      assert groups[k + 1] == groups[1..][k];
      forall j | 0 <= j < k + 1 ensures groups[j].id != id {
        if j > 0 { assert groups[j] == groups[1..][j - 1]; }
      }
    }
  }

  /** No value occurs twice. */
  predicate NoDup<T(==)>(s: seq<T>) {
    forall i, j :: 0 <= i < j < |s| ==> s[i] != s[j]
  }
}
