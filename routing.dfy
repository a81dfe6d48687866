/** Callback routing: the first-match chain of index.js that sends a callback token to
    one handler family, and the `switch (true)` inside the admin and group handlers
    that picks the operation and reads its argument out of the token. */
module Routing {

  import opened Wrappers
  import opened Text
  import opened Numbers

  /** Where a callback token goes. */
  datatype Destination = Ctc | Auth | Admin | Group | MainMenu | UnknownCommand

  /** The tokens the CTC test matches exactly, and the prefixes it accepts. */
  const CtcTokens: seq<string> := ["add_ctc", "add_ctc_chat", "add_ctc_file", "confirm_ctc_numbers",
    "search_ctc_groups", "finish_ctc_group_selection", "confirm_add_ctc", "cancel_ctc_flow"]
  const CtcPrefixes: seq<string> := ["toggle_ctc_group_", "ctc_groups_page_"]

  const AuthPrefixes: seq<string> := ["login", "cancel_login", "logout"]
  const AuthTokens: seq<string> := ["auto_accept", "toggle_auto_accept", "status"]

  const AdminPrefixes: seq<string> := ["admin_", "add_promote", "demote_", "toggle_group_", "groups_page_",
    "search_", "finish_", "confirm_", "cancel_admin", "start_search", "toggle_demote"]

  const GroupPrefixes: seq<string> := ["rename_", "select_base_", "confirm_rename"]

  predicate StartsWithAny(data: string, prefixes: seq<string>) {
    exists p | p in prefixes :: StartsWith(data, p)
  }

  predicate IsCtcToken(data: string) {
    data in CtcTokens || StartsWithAny(data, CtcPrefixes)
  }

  predicate IsAuthToken(data: string) {
    StartsWithAny(data, AuthPrefixes) || data in AuthTokens
  }

  predicate IsAdminToken(data: string) {
    StartsWithAny(data, AdminPrefixes)
  }

  predicate IsGroupToken(data: string) {
    StartsWithAny(data, GroupPrefixes)
  }

  /** The routing chain as written: CTC, then auth, then the admin prefixes, then the
      group prefixes, then the main menu; anything else is an unknown command. */
  function RouteCallback(data: string): Destination {
    if IsCtcToken(data) then Ctc
    else if IsAuthToken(data) then Auth
    else if IsAdminToken(data) then Admin
    else if IsGroupToken(data) then Group
    else if data == "main_menu" then MainMenu
    else UnknownCommand
  }

  /** The chain with the group family checked before the admin family, so that
      `confirm_rename` reaches the handler that implements it. */
  function RouteCallbackIntended(data: string): Destination {
    if IsCtcToken(data) then Ctc
    else if IsAuthToken(data) then Auth
    else if IsGroupToken(data) then Group
    else if IsAdminToken(data) then Admin
    else if data == "main_menu" then MainMenu
    else UnknownCommand
  }

  /** A callback from anyone but the owner reaches no handler. */
  function Dispatch(isOwner: bool, data: string): (r: Option<Destination>)
    ensures r.None? <==> !isOwner
    ensures r.Some? ==> r.value == RouteCallback(data)
  {
    if !isOwner then None else Some(RouteCallback(data))
  }

  /** What the admin handler does with a token. */
  datatype AdminAction =
    | AdminMenu | AddPromoteAdmin | DemoteAdmin | SearchGroups | FinishGroupSelection
    | StartSearchAdmin | FinishDemoteSelection | ConfirmAddPromote | ConfirmDemote | CancelAdminFlow
    | ToggleGroup(groupId: string) | GroupsPage(page: Option<int>)
    | ToggleDemote(demoteGroupId: string) | DemotePage(demotePage: Option<int>)
    | NoAdminAction

  /** The admin switch's exact tokens, in its order. */
  const AdminCallTokens: seq<string> := ["admin_management", "add_promote_admin", "demote_admin", "search_groups",
    "finish_group_selection", "start_search_admin", "finish_demote_selection", "confirm_add_promote",
    "confirm_demote", "cancel_admin_flow"]

  /** The action of one of the admin switch's exact tokens. */
  function ExactAdminAction(data: string): AdminAction
    requires data in AdminCallTokens
  {
    if data == "admin_management" then AdminMenu
    else if data == "add_promote_admin" then AddPromoteAdmin
    else if data == "demote_admin" then DemoteAdmin
    else if data == "search_groups" then SearchGroups
    else if data == "finish_group_selection" then FinishGroupSelection
    else if data == "start_search_admin" then StartSearchAdmin
    else if data == "finish_demote_selection" then FinishDemoteSelection
    else if data == "confirm_add_promote" then ConfirmAddPromote
    else if data == "confirm_demote" then ConfirmDemote
    else CancelAdminFlow
  }

  /** The page a page token asks for: `parseInt` of the token with the first
      occurrence of its prefix removed. */
  function PageArgument(data: string, prefix: string): Option<int> {
    ParseInt(ReplaceFirst(data, prefix, ""))
  }

  /** The admin handler's switch: exact tokens first, then the four prefixed
      tokens, whose argument is the token with the first occurrence of the prefix
      removed (and read with `parseInt` for a page). A token no case matches does
      nothing. */
  function AdminCallback(data: string): AdminAction {
    if data in AdminCallTokens then ExactAdminAction(data)
    else if StartsWith(data, "toggle_group_") then ToggleGroup(ReplaceFirst(data, "toggle_group_", ""))
    else if StartsWith(data, "groups_page_") then GroupsPage(PageArgument(data, "groups_page_"))
    else if StartsWith(data, "toggle_demote_") then ToggleDemote(ReplaceFirst(data, "toggle_demote_", ""))
    else if StartsWith(data, "demote_page_") then DemotePage(PageArgument(data, "demote_page_"))
    else NoAdminAction
  }

  /** What the group handler does with a token. */
  datatype GroupAction = RenameGroups | ConfirmRename | SelectBase(baseName: string) | NoGroupAction

  function GroupCallback(data: string): GroupAction {
    if data == "rename_groups" then RenameGroups
    else if data == "confirm_rename" then ConfirmRename
    else if StartsWith(data, "select_base_") then SelectBase(ReplaceFirst(data, "select_base_", ""))
    else NoGroupAction
  }

  // ---------------------------------------------------------------- the switch, case by case

  /** The prefixes the admin switch tests after its exact tokens, in its order. */
  const AdminSwitchPrefixes: seq<string> := ["toggle_group_", "groups_page_", "toggle_demote_", "demote_page_"]

  /** A token that is none of the exact tokens and that starts with the prefix of
      case `c` but with no earlier prefix takes case `c`. */
  lemma AdminCase(data: string, c: nat)
    requires c < |AdminSwitchPrefixes| && data !in AdminCallTokens
    requires StartsWith(data, AdminSwitchPrefixes[c]) && !StartsWithAny(data, AdminSwitchPrefixes[..c])
    ensures c == 0 ==> AdminCallback(data) == ToggleGroup(ReplaceFirst(data, "toggle_group_", ""))
    ensures c == 1 ==> AdminCallback(data) == GroupsPage(PageArgument(data, "groups_page_"))
    ensures c == 2 ==> AdminCallback(data) == ToggleDemote(ReplaceFirst(data, "toggle_demote_", ""))
    ensures c == 3 ==> AdminCallback(data) == DemotePage(PageArgument(data, "demote_page_"))
  {
    if c >= 1 {
      assert AdminSwitchPrefixes[0] in AdminSwitchPrefixes[..c];
      assert !StartsWith(data, "toggle_group_");
    }
    if c >= 2 {
      assert AdminSwitchPrefixes[1] in AdminSwitchPrefixes[..c];
      assert !StartsWith(data, "groups_page_");
    }
    if c >= 3 {
      assert AdminSwitchPrefixes[2] in AdminSwitchPrefixes[..c];
      assert !StartsWith(data, "toggle_demote_");
    }
  }

  /** A token that is none of the exact tokens and starts with none of the
      prefixes does nothing in the admin handler. */
  lemma AdminNoCase(data: string)
    requires data !in AdminCallTokens && !StartsWithAny(data, AdminSwitchPrefixes)
    ensures AdminCallback(data) == NoAdminAction
  {
    assert forall i :: 0 <= i < 4 ==> AdminSwitchPrefixes[i] in AdminSwitchPrefixes;
  }

  // ---------------------------------------------------------------- tokens the menus build

  /** A string whose character at `k` differs from that of each of `qs` is none of
      them and starts with none of them. */
  lemma Excludes(t: string, qs: seq<string>, k: nat)
    requires k < |t|
    requires forall i :: 0 <= i < |qs| ==> k < |qs[i]| && qs[i][k] != t[k]
    ensures t !in qs && !StartsWithAny(t, qs)
  {
    forall p | p in qs
      ensures t != p && !StartsWith(t, p)
    {
      var i :| 0 <= i < |qs| && qs[i] == p;
      if |p| <= |t| {
        assert t[..|p|][k] == t[k];
      }
    }
  }

  /** A group button's token reaches the admin handler and toggles exactly that
      group, whatever the group id is. */
  lemma ToggleGroupToken(groupId: string)
    ensures RouteCallback("toggle_group_" + groupId) == Admin
    ensures AdminCallback("toggle_group_" + groupId) == ToggleGroup(groupId)
  {
    var t := "toggle_group_" + groupId;
    assert t[..13] == "toggle_group_";
    Excludes(t, CtcTokens, 0);
    Excludes(t, CtcPrefixes, 7);
    Excludes(t, AuthPrefixes, 0);
    Excludes(t, ["auto_accept", "status"], 0);
    Excludes(t, ["toggle_auto_accept"], 7);
    assert "toggle_group_" in AdminPrefixes;
    Excludes(t, AdminCallTokens, 0);
    AdminCase(t, 0);
    StripPrefixRoundTrip("toggle_group_", groupId);
  }

  /** A demote-selection button's token toggles exactly that group. */
  lemma ToggleDemoteToken(groupId: string)
    ensures RouteCallback("toggle_demote_" + groupId) == Admin
    ensures AdminCallback("toggle_demote_" + groupId) == ToggleDemote(groupId)
  {
    var t := "toggle_demote_" + groupId;
    assert t[..14] == "toggle_demote_";
    assert t[..13] == "toggle_demote";
    Excludes(t, CtcTokens, 0);
    Excludes(t, CtcPrefixes, 7);
    Excludes(t, AuthPrefixes, 0);
    Excludes(t, ["auto_accept", "status"], 0);
    Excludes(t, ["toggle_auto_accept"], 7);
    assert "toggle_demote" in AdminPrefixes;
    Excludes(t, AdminCallTokens, 0);
    Excludes(t, AdminSwitchPrefixes[..2], 7);
    AdminCase(t, 2);
    StripPrefixRoundTrip("toggle_demote_", groupId);
  }

  /** A page button's token reaches the admin handler's page case. */
  lemma GroupsPageSwitch(rest: string)
    ensures RouteCallback("groups_page_" + rest) == Admin
    ensures AdminCallback("groups_page_" + rest) == GroupsPage(PageArgument("groups_page_" + rest, "groups_page_"))
  {
    var t := "groups_page_" + rest;
    assert t[..12] == "groups_page_";
    Excludes(t, CtcTokens, 0);
    Excludes(t, CtcPrefixes, 0);
    Excludes(t, AuthPrefixes, 0);
    Excludes(t, AuthTokens, 0);
    assert "groups_page_" in AdminPrefixes;
    Excludes(t, AdminCallTokens, 0);
    Excludes(t, AdminSwitchPrefixes[..1], 0);
    AdminCase(t, 1);
  }

  /** The page case reads whatever `parseInt` makes of the text after the prefix. */
  lemma GroupsPageArgument(rest: string)
    ensures AdminCallback("groups_page_" + rest) == GroupsPage(ParseInt(rest))
  {
    GroupsPageSwitch(rest);
    StripPrefixRoundTrip("groups_page_", rest);
  }

  /** So the page number the button was built with comes back intact. */
  lemma GroupsPageToken(n: nat)
    ensures RouteCallback("groups_page_" + Decimal(n)) == Admin
    ensures AdminCallback("groups_page_" + Decimal(n)) == GroupsPage(Some(n))
  {
    GroupsPageSwitch(Decimal(n));
    GroupsPageArgument(Decimal(n));
    ParseIntOfDecimal(n, []);
    assert Decimal(n) + [] == Decimal(n);
  }

  /** A demote page button's token reaches the admin handler ... */
  lemma DemotePageRoute(rest: string)
    ensures RouteCallback("demote_page_" + rest) == Admin
  {
    var t := "demote_page_" + rest;
    assert t[..7] == "demote_";
    Excludes(t, CtcTokens, 0);
    Excludes(t, CtcPrefixes, 0);
    Excludes(t, AuthPrefixes, 0);
    Excludes(t, AuthTokens, 0);
    assert "demote_" in AdminPrefixes;
  }

  /** ... and its demote page case, not the `demote_admin` case. */
  lemma DemotePageSwitch(rest: string)
    ensures AdminCallback("demote_page_" + rest) == DemotePage(PageArgument("demote_page_" + rest, "demote_page_"))
  {
    var t := "demote_page_" + rest;
    assert t[..12] == "demote_page_";
    Excludes(t, AdminCallTokens[2..3], 7);
    Excludes(t, AdminCallTokens[..2] + AdminCallTokens[3..], 0);
    assert AdminCallTokens == AdminCallTokens[..2] + AdminCallTokens[2..3] + AdminCallTokens[3..];
    Excludes(t, AdminSwitchPrefixes[..3], 0);
    AdminCase(t, 3);
  }

  lemma DemotePageArgument(rest: string)
    ensures AdminCallback("demote_page_" + rest) == DemotePage(ParseInt(rest))
  {
    DemotePageSwitch(rest);
    StripPrefixRoundTrip("demote_page_", rest);
  }

  lemma DemotePageToken(n: nat)
    ensures RouteCallback("demote_page_" + Decimal(n)) == Admin
    ensures AdminCallback("demote_page_" + Decimal(n)) == DemotePage(Some(n))
  {
    DemotePageRoute(Decimal(n));
    DemotePageArgument(Decimal(n));
    ParseIntOfDecimal(n, []);
    assert Decimal(n) + [] == Decimal(n);
  }

  /** The cluster button's token `select_base_<name>` reaches the group handler, and
      stripping the prefix gives back the base name. */
  lemma SelectBaseToken(baseName: string)
    ensures RouteCallback("select_base_" + baseName) == Group
    ensures GroupCallback("select_base_" + baseName) == SelectBase(baseName)
  {
    var t := "select_base_" + baseName;
    assert t[..12] == "select_base_";
    Excludes(t, CtcTokens, 2);
    Excludes(t, CtcPrefixes, 2);
    Excludes(t, AuthPrefixes, 2);
    Excludes(t, AuthTokens, 2);
    Excludes(t, AdminPrefixes, 2);
    assert "select_base_" in GroupPrefixes;
    Excludes(t, ["rename_groups", "confirm_rename"], 2);
    StripPrefixRoundTrip("select_base_", baseName);
  }

  /** The rename menu button reaches the group handler. */
  lemma RenameGroupsToken(t: string)
    requires t == "rename_groups"
    ensures RouteCallback(t) == Group && GroupCallback(t) == RenameGroups
  {
    assert t[..7] == "rename_";
    Excludes(t, CtcTokens, 0);
    Excludes(t, CtcPrefixes, 0);
    Excludes(t, AuthPrefixes, 0);
    Excludes(t, AuthTokens, 0);
    Excludes(t, AdminPrefixes, 0);
    assert "rename_" in GroupPrefixes;
  }

  /** The CTC test comes first: these tokens also carry an admin prefix, and still
      reach the CTC handler. */
  lemma CtcBeforeAdmin(t: string)
    requires t == "confirm_add_ctc" || t == "search_ctc_groups" || t == "finish_ctc_group_selection"
    ensures IsAdminToken(t) && RouteCallback(t) == Ctc
  {
    assert t in CtcTokens;
    if t == "confirm_add_ctc" {
      assert t[..8] == "confirm_" && "confirm_" in AdminPrefixes;
    } else if t == "search_ctc_groups" {
      assert t[..7] == "search_" && "search_" in AdminPrefixes;
    } else {
      assert t[..7] == "finish_" && "finish_" in AdminPrefixes;
    }
  }

  // ---------------------------------------------------------------- confirm_rename

  /** As written, the rename confirmation button reaches the admin handler, because
      its `confirm_` test precedes the group test, and the admin switch has no case
      for it: the token does nothing, although the group handler would have run the
      renames. */
  lemma ConfirmRenameAsWritten(t: string)
    requires t == "confirm_rename"
    ensures RouteCallback(t) == Admin
    ensures AdminCallback(t) == NoAdminAction
    ensures GroupCallback(t) == ConfirmRename
  {
    NotCtcNorAuth(t);
    assert t[..8] == "confirm_" && "confirm_" in AdminPrefixes;
    NoAdminCase(t);
  }

  /** `confirm_rename` is no CTC and no auth token. */
  lemma NotCtcNorAuth(t: string)
    requires t == "confirm_rename"
    ensures !IsCtcToken(t) && !IsAuthToken(t)
  {
    Excludes(t, ["add_ctc", "add_ctc_chat", "add_ctc_file", "search_ctc_groups", "finish_ctc_group_selection"], 0);
    Excludes(t, ["confirm_ctc_numbers", "confirm_add_ctc", "cancel_ctc_flow"], 8);
    Excludes(t, CtcPrefixes, 2);
    Excludes(t, AuthPrefixes, 3);
    Excludes(t, AuthTokens, 0);
  }

  /** No case of the admin switch matches `confirm_rename`. */
  lemma NoAdminCase(t: string)
    requires t == "confirm_rename"
    ensures AdminCallback(t) == NoAdminAction
  {
    Excludes(t, AdminCallTokens[7..9], 8);
    Excludes(t, AdminCallTokens[..7] + AdminCallTokens[9..], 1);
    assert AdminCallTokens == AdminCallTokens[..7] + AdminCallTokens[7..9] + AdminCallTokens[9..];
    Excludes(t, AdminSwitchPrefixes, 0);
    AdminNoCase(t);
  }

  /** With the group test first, the confirmation reaches the rename batch. */
  lemma ConfirmRenameIntended(t: string)
    requires t == "confirm_rename"
    ensures RouteCallbackIntended(t) == Group && GroupCallback(t) == ConfirmRename
  {
    NotCtcNorAuth(t);
    assert t[..14] == "confirm_rename" && "confirm_rename" in GroupPrefixes;
  }

  /** Swapping the two tests changes the destination of no other token: only a token
      starting with `confirm_rename` is claimed by both families. */
  lemma IntendedAgreesElsewhere(data: string)
    requires !StartsWith(data, "confirm_rename")
    ensures RouteCallbackIntended(data) == RouteCallback(data)
  {
    if StartsWith(data, "rename_") {
      assert data[..7] == "rename_";
      Excludes(data, AdminPrefixes, 0);
    } else if StartsWith(data, "select_base_") {
      assert data[..12] == "select_base_";
      Excludes(data, AdminPrefixes, 2);
    }
  }
}
