# WhatsApp group administration bot — verified model of the handlers

This project models the core of a Telegram bot that an owner uses to administer many WhatsApp groups in bulk.
It covers three source files:

- `handlers/adminHandler.js` runs the two admin flows.
  - Add/promote: pick groups (with a search filter and paging), type the numbers, then add each number to each group and promote it, with a retry.
  - Demote: type numbers, search every group for them as admins, pick groups, then demote.
- `handlers/groupHandler.js` runs the bulk rename flow.
  - Groups are clustered by a base name (the name without a trailing number).
  - The owner picks a cluster, a number range, a new name and a first number.
  - The groups are then renamed one after the other.
- `index.js` routes callback tokens and text messages to the handlers, and accepts the `.txt` file of the contact flow.

The per-user record is a class `Model.UserState`.
Its three flows are classes whose fields the handlers update in place: `Model.AdminFlow`, `Model.RenameState` and `Model.CtcFlow`.
`AdminFlow` and `RenameState` each have a `View()` snapshot datatype.
Each handler of those two flows is a method whose `ensures` gives the new snapshot in terms of the old one.
`CtcFlow` has only the two fields the document event writes, and `Events.OnDocument` states both directly.

Calls to WhatsApp and to other modules are parameters:

- the replies to group fetches, add, promote, demote and rename calls;
- the phone-number parser's result;
- the number extracted from a group name;
- the rate-limit test on an error message.

Replies are indexed by the position of the call, so a batch is a pure fold (`Batch.Tally`) over the outcomes of its operations.
The fold records:

- the success and failure counts;
- the status lines;
- the pauses it would sleep;
- the operation numbers at which a progress message is shown.

The loop methods that run the batches are proved equal to that fold.
Properties are proved about the fold itself.

Pure functions that only compute a value are specified by lemmas, and the "## Model" row names the lemma:

- `Batch.Step`, `Batch.TallyRow` and `Batch.Tally` (handlers/adminHandler.js lines 664-750): `Batch.TallyRowSpec`, `Batch.TallySpec` and the rows after them.
- `AdminLogic.Toggle` (handlers/adminHandler.js lines 326-334): the `Toggle…` lemmas and `Model.AdminFlow.ToggleSelected`.
- `AdminLogic.AddMatches` and `AdminLogic.SearchFound` (handlers/adminHandler.js lines 449-481): `AdminLogic.AddMatchesSpec`, `AdminLogic.AddMatchesOrder`, `AdminLogic.SearchFoundSpec` and `AdminLogic.SearchFoundGroupMajor`.
- `AdminBatch.PromoteFrom`, `AdminBatch.AddPromotePair` and `AdminBatch.DemotePair` (handlers/adminHandler.js lines 705-730, 678-748 and 804-825): `AdminBatch.PromoteFromSpec`, `AdminBatch.AddPromotePairOutcome`, `AdminBatch.AddPromotePairDelays` and `AdminBatch.DemotePairOutcome`.
- `GroupNaming.BaseName` and `GroupNaming.SuffixStart` (handlers/groupHandler.js lines 97-102): `GroupNaming.BaseNameSpec` and `GroupNaming.SuffixStartIsLeftmostMatch`.
- `GroupNaming.BaseKeys` (handlers/groupHandler.js lines 104-109): `GroupNaming.BaseKeysSpec`.
- `GroupNaming.RenamePlan` and `GroupNaming.RenamePair` (handlers/groupHandler.js lines 377-424): `GroupNaming.RenamePlanGroups`, `GroupNaming.RenamePlanNames`, `GroupNaming.RenameCounts` and `GroupNaming.RenameDelays`.
- `Routing.RouteCallback` (index.js lines 80-116), `Routing.AdminCallback` (handlers/adminHandler.js lines 28-88) and `Routing.GroupCallback` (handlers/groupHandler.js lines 19-32): the `Routing` rows.
- `Numbers.ParseInt` (JavaScript's `parseInt`): the `Numbers.ParseInt…` rows.
- `Events.IsTxtName` (index.js line 196): `Events.TxtNameAnyCase`.
- `Text.ReplaceFirst` (`String.prototype.replace` with a string pattern): `Text.StripPrefixRoundTrip`.

Modules:

- `Wrappers`, `Text` and `Numbers` hold `Option`, string helpers and JavaScript's `parseInt`.
- `Domain` holds the records.
- `Batch` holds the batch fold.
- `AdminLogic` and `AdminBatch` hold the admin flows' pure logic.
- `GroupNaming` holds base names, clustering, ordering and the rename plan.
- `Model` holds the state classes.
- `AdminHandler` and `GroupHandler` hold the handlers.
- `Routing` holds callback routing.
- `Events` holds the text and document events.

## Model

| member | source | states |
|---|---|---|
| AdminLogic.IndexOf | handlers/adminHandler.js:327 | the index `indexOf` returns holds the id, and no earlier position does |
| AdminLogic.Without | handlers/adminHandler.js:329-334 | removing every copy of an id leaves it absent and keeps every other id's membership |
| AdminLogic.WithoutAppend | handlers/adminHandler.js:329-334 | removing an id distributes over concatenation |
| AdminLogic.ToggleKeepsOthersInOrder | handlers/adminHandler.js:324-337 | toggling an id leaves the other selected ids in the same order |
| AdminLogic.ToggleFlipsMembership | handlers/adminHandler.js:324-337 | on a duplicate-free selection, toggle flips the id's membership, keeps the others' and keeps the selection duplicate-free |
| AdminLogic.ToggleTwiceRestores | handlers/adminHandler.js:324-337 | toggling an unselected id twice restores the exact selection |
| AdminLogic.ToggleTwiceKeepsSelection | handlers/adminHandler.js:324-337 | toggling a selected id twice keeps the same set, moving that id to the end |
| AdminLogic.FilterByQueryMembers | handlers/adminHandler.js:262-267 | a group is listed by the search iff it is in the list and its name contains the query, ignoring case |
| AdminLogic.SearchIgnoresCase | handlers/adminHandler.js:262-267 | the shown list does not depend on the case of the query |
| AdminLogic.FilterIgnoresCase | handlers/adminHandler.js:262-267 | the filter gives the same groups for a query and its lower-case form |
| AdminLogic.MatchIsLocalPart | handlers/adminHandler.js:457-462 | for a number of digits, an admin id matches iff its part before `@` and `:` is that number |
| AdminLogic.AddMatchesSpec | handlers/adminHandler.js:465-475 | a group's pass appends exactly the new (number, group) pairs whose number is an admin, and never a duplicate pair |
| AdminLogic.SearchFoundSpec | handlers/adminHandler.js:449-481 | the search result holds each (number, group) pair at most once, and exactly those where the group's admins could be fetched and list the number |
| AdminLogic.AddMatchesOrder | handlers/adminHandler.js:465-475 | one group's pass only appends; every hit it appends names that group, and its numbers keep the order of the searched numbers |
| AdminLogic.SearchFoundGroupMajor | handlers/adminHandler.js:449-481 | the hits of the first groups form a prefix of the hits of all groups |
| AdminLogic.NameInSpec | handlers/adminHandler.js:619-620 | a confirm row is named after the group's first hit (no earlier hit has that group), or 'Unknown' when the group has no hit |
| AdminLogic.NumbersIn | handlers/adminHandler.js:619-621 | a group's numbers are never more than the hits |
| AdminLogic.NameIn | handlers/adminHandler.js:620 | the name shown on a confirm row is never empty |
| AdminLogic.NumbersInFront | handlers/adminHandler.js:619-621 | the numbers of a group are the hits for that group, in hit order |
| AdminLogic.ConfirmFor | handlers/adminHandler.js:616-628 | there is one confirm row per selected group |
| AdminLogic.CountForSplit | handlers/adminHandler.js:618-628 | adding a group to the selection adds exactly its hits to the count |
| AdminLogic.ConfirmCoversFound | handlers/adminHandler.js:616-631 | with a duplicate-free selection, the confirm rows hold exactly the hits of the selected groups |
| AdminLogic.ConfirmRowsCover | handlers/adminHandler.js:795 | the demote batch's total equals the number of hits in the selected groups |
| AdminBatch.PromoteFromSpec | handlers/adminHandler.js:705-730 | promote makes 1 to 3 attempts and stops at the first success; it fails only after 3 failures, with the last error; it pauses 3000 ms between attempts |
| AdminBatch.AddPromotePairOutcome | handlers/adminHandler.js:678-748 | a pair succeeds iff the check succeeds, the number is in the group or is added or the add error says 409/"sudah ada", and some attempt promotes; any other add error fails the pair; a member is never re-added |
| AdminBatch.AddPromotePairDelays | handlers/adminHandler.js:678-748 | the 8000 ms sync pause happens iff the add ran and succeeded; a success ends with 3000 ms; a failure ends with 10000 ms iff its error is a rate limit |
| AdminBatch.PromotePhaseDelays | handlers/adminHandler.js:705-747 | after the membership step, the promote phase keeps the sync pause first, ends a success with 3000 ms and a failure with 10000 ms iff rate-limited, and takes at most 4 pauses |
| AdminBatch.DemotePairOutcome | handlers/adminHandler.js:804-825 | a demote succeeds iff its single call succeeds; a success pauses 3000 ms; a failure pauses 10000 ms iff rate-limited |
| AdminBatch.AddPromoteCounts | handlers/adminHandler.js:664-750 | successes plus failures equal groups × numbers, and one progress update follows each success |
| AdminBatch.OpsOfDemote | handlers/adminHandler.js:795 | the demote batch runs exactly the total that line 795 computes |
| AdminBatch.DemoteCounts | handlers/adminHandler.js:793-827 | demote successes plus failures equal that total, and one progress update follows each success |
| Batch.TallyRowSpec | handlers/adminHandler.js:669-750 | a row adds one success per successful operation and one failure otherwise; operation number k is in the progress list iff operation k succeeded; earlier output is kept as a prefix |
| Batch.TallyRowCounts | handlers/adminHandler.js:675-748 | a row adds one count per operation, one success per successful operation and one progress number per success, keeping earlier output as a prefix |
| Batch.TallyRowOrder | handlers/adminHandler.js:676-734 | progress numbers stay increasing and those a row adds lie after the operations already run |
| Batch.TallyRowProgress | handlers/adminHandler.js:676-734 | operation number k of a row is in the progress list iff that operation succeeded |
| Batch.TallySpec | handlers/adminHandler.js:664-750 | over a whole batch, successes plus failures equal the operations run; the progress numbers increase and lie in 1..total |
| Batch.OpsOfRectangle | handlers/adminHandler.js:666 | a batch of equal rows has rows × columns operations, the `totalOperations` of line 666 |
| Domain.GroupNameOfSpec | handlers/adminHandler.js:669-671 | a batch header names the first group with that id, or 'Unknown' when no group has it or its name is empty |
| AdminHandler.AddPromoteAdmin | handlers/adminHandler.js:208-254 | when connected with a non-empty group list, a fresh add/promote flow starts at group selection, page 0, empty selection; otherwise the flow is untouched |
| AdminHandler.DemoteAdmin | handlers/adminHandler.js:403-432 | when connected, a fresh demote flow starts waiting for numbers; otherwise the flow is untouched |
| AdminHandler.ToggleGroup | handlers/adminHandler.js:324-337 | in an add/promote flow, only the selection changes and it is toggled; in any other flow nothing changes; validity is kept |
| AdminHandler.GroupsPage | handlers/adminHandler.js:340-347 | in an add/promote flow, only the page changes; otherwise nothing changes |
| AdminHandler.SearchGroups | handlers/adminHandler.js:350-365 | in an add/promote flow, only the step changes, to waiting for a search query |
| AdminHandler.FinishGroupSelection | handlers/adminHandler.js:368-400 | in an add/promote flow, only the step changes, to waiting for numbers |
| AdminHandler.AdminMessage | handlers/adminHandler.js:96-205 | a query sets the trimmed query, page 0 and group selection; numbers with parse errors or none are refused; valid numbers go to the add or search list by flow kind; any other step is not handled |
| AdminHandler.StartSearchAdmin | handlers/adminHandler.js:435-511 | refused iff the flow is not demote or has no numbers; on a fetched list the hits become the search result, with page 0, an empty selection and the demote-selection step |
| AdminHandler.ToggleDemote | handlers/adminHandler.js:584-597 | in a demote flow, only the selection changes and it is toggled |
| AdminHandler.DemotePage | handlers/adminHandler.js:600-607 | in a demote flow, only the page changes |
| AdminHandler.FinishDemoteSelection | handlers/adminHandler.js:610-652 | in a demote flow, the confirm rows become the selection's hits and the step becomes confirm-demote; nothing else changes |
| AdminHandler.RunPromote | handlers/adminHandler.js:705-730 | the retry loop computes the specified promote run |
| AdminHandler.RunAddPromotePair | handlers/adminHandler.js:678-748 | the pair's code computes the specified pair outcome |
| AdminHandler.RunAddPromoteRow | handlers/adminHandler.js:675-749 | the inner loop computes the specified row fold |
| AdminHandler.RunAddPromoteBatch | handlers/adminHandler.js:662-750 | the outer loop computes the specified batch fold, headers included |
| AdminHandler.ConfirmAddPromote | handlers/adminHandler.js:655-781 | without an add/promote flow, nothing runs; otherwise the batch over the selected groups and numbers is run and the admin flow is cleared |
| AdminHandler.RunDemoteRow | handlers/adminHandler.js:801-826 | the inner demote loop computes the specified row fold |
| AdminHandler.RunDemoteBatch | handlers/adminHandler.js:791-827 | the demote loop computes the specified batch fold |
| AdminHandler.ConfirmDemote | handlers/adminHandler.js:784-858 | without a demote flow, nothing runs; otherwise the batch over the confirm rows is run and the admin flow is cleared |
| AdminHandler.CancelAdminFlow | handlers/adminHandler.js:861-867 | the admin flow is cleared and the other flows are untouched |
| Model.AdminFlow.StartAddPromote | handlers/adminHandler.js:232-240 | the initial add/promote record: group selection, all groups, empty selection, page 0 |
| Model.AdminFlow.StartDemote | handlers/adminHandler.js:411-418 | the initial demote record: waiting for numbers, empty selection, page 0 |
| Model.AdminFlow.ToggleSelected | handlers/adminHandler.js:589-594 | only the selection changes; the id's membership flips and the selection stays duplicate-free |
| Model.RenameState.Start | handlers/groupHandler.js:189-193 | the initial rename record: waiting for the start number, with the base name and its sorted cluster |
| GroupNaming.SuffixStartIsLeftmostMatch | handlers/groupHandler.js:98 | the suffix found is the leftmost place where `\s*\d+\s*$` matches |
| GroupNaming.BaseNameSpec | handlers/groupHandler.js:97-102 | the base name is the name with the leftmost match of `\s*\d+\s*$` cut off and then trimmed (the whole name trimmed when there is no match), or the original name when that leaves nothing |
| GroupNaming.SuffixStart | handlers/groupHandler.js:97 | the cut-off point lies within the name |
| GroupNaming.Members | handlers/groupHandler.js:104-109 | a cluster never has more groups than the list |
| GroupNaming.BaseNameOfNumbered | handlers/groupHandler.js:98 | a trimmed non-empty name followed by a space and a number has that name as its base |
| GroupNaming.BaseNameExample | handlers/groupHandler.js:120 | "HK 2" has base "HK", the example the bot shows |
| GroupNaming.BaseNameOfNumberOnly | handlers/groupHandler.js:101-103 | a name made only of digits is its own base |
| GroupNaming.MembersSpec | handlers/groupHandler.js:96-110 | a cluster holds exactly the groups whose base name is its key |
| GroupNaming.BaseKeysSpec | handlers/groupHandler.js:96-110 | the keys are duplicate-free and are exactly the base names that occur |
| GroupNaming.ClustersPartition | handlers/groupHandler.js:96-110 | with distinct keys covering every base, the cluster sizes add up to the number of groups |
| GroupNaming.ClusteringCoversAll | handlers/groupHandler.js:96-110 | every group is in exactly one cluster |
| GroupNaming.Offered | handlers/groupHandler.js:115-117 | a base name is offered iff it has more than one group |
| GroupNaming.InsertKeepsSorted | handlers/groupHandler.js:174-179 | inserting into a list sorted by number keeps it sorted |
| GroupNaming.SortByNumber | handlers/groupHandler.js:174-179 | sorting keeps the same groups: a permutation of the same length |
| GroupNaming.SortByNumberSorted | handlers/groupHandler.js:174-179 | the sorted cluster is in ascending order of extracted number and is a permutation |
| GroupNaming.SortByNumberOfSorted | handlers/groupHandler.js:174-179 | sorting an already sorted list changes nothing |
| GroupNaming.InRange | handlers/groupHandler.js:377-380 | the range filter never adds groups |
| GroupNaming.InRangeMembers | handlers/groupHandler.js:377-380 | a group is in range iff its number lies between the start and end numbers |
| GroupNaming.InRangeKeepsSorted | handlers/groupHandler.js:377-389 | filtering a sorted list keeps it sorted |
| GroupNaming.RenamePlanGroups | handlers/groupHandler.js:377-398 | the plan renames exactly the in-range groups, each once, in ascending order of number |
| GroupNaming.NumberedGroups | handlers/groupHandler.js:395-397 | numbering the groups keeps them, in their order |
| GroupNaming.RenamePlanNames | handlers/groupHandler.js:395-398 | the i-th planned name is the new name, a space, then the first number plus i |
| GroupNaming.NewGroupNamePositive | handlers/groupHandler.js:396-397 | the first planned name ends with the first number in decimal |
| GroupNaming.RenamedShareBase | handlers/groupHandler.js:396-397 | every renamed group has the new name as its base, so it clusters together again |
| GroupNaming.RenamePlanOfSorted | handlers/groupHandler.js:322-347 | on an already sorted cluster, the plan needs no further sort |
| GroupNaming.RenamePlanWithoutRange | handlers/groupHandler.js:377-380 | without a start and end number, nothing is renamed |
| GroupNaming.RenameCounts | handlers/groupHandler.js:395-424 | successes plus failures equal the plan's length; progress i+1 is shown iff rename i succeeded |
| GroupNaming.RenameDelays | handlers/groupHandler.js:401-422 | the batch pauses, in call order, 5000 ms after each success, 10000 ms after each rate-limited failure and not at all after another failure |
| GroupHandler.GroupByBase | handlers/groupHandler.js:94-110 | the dictionary's keys are the base names in order of first appearance, and each maps to its cluster |
| GroupHandler.RenameGroups | handlers/groupHandler.js:70-164 | when disconnected or the fetch failed, nothing is offered or stored; otherwise exactly the multi-group bases are offered, and when one is, the clustering is stored |
| GroupHandler.SelectBase | handlers/groupHandler.js:167-205 | an unknown base changes nothing; otherwise the cluster is sorted by number in place and a fresh rename record starts on it |
| GroupHandler.StartNumber | handlers/groupHandler.js:208-248 | a start number is accepted iff it parses, is at least 1 and is one of the cluster's numbers; then the step moves on; otherwise nothing changes |
| GroupHandler.EndNumber | handlers/groupHandler.js:251-283 | an end number is accepted iff it parses, is not below the start and is one of the cluster's numbers |
| GroupHandler.NewName | handlers/groupHandler.js:286-307 | a blank name is refused; otherwise the trimmed name is stored and the step moves on |
| GroupHandler.StartNumbering | handlers/groupHandler.js:310-362 | a first number of at least 1 is stored and the preview is the rename plan; otherwise nothing changes and there is no preview |
| GroupHandler.Answer | handlers/groupHandler.js:50-62 | the answer to any step keeps the base name and the cluster |
| GroupHandler.GroupMessage | handlers/groupHandler.js:40-67 | text is handled iff a rename is in progress; the record becomes the answer to the step it waited for (start number, end number, new name or first number, each accepted as its handler accepts it); the base and cluster never change and validity is kept |
| GroupHandler.RunRenames | handlers/groupHandler.js:395-424 | the rename loop computes the specified fold of the plan |
| GroupHandler.ConfirmRename | handlers/groupHandler.js:365-455 | without a rename record the session has expired and nothing runs; otherwise the plan is run and the record is cleared, leaving the clustering |
| Routing.Dispatch | index.js:64-74 | a callback from anyone but the owner reaches no handler |
| Routing.ToggleGroupToken | handlers/adminHandler.js:69-72 | `toggle_group_<id>` reaches the admin handler and toggles exactly that id |
| Routing.ToggleDemoteToken | handlers/adminHandler.js:79-82 | `toggle_demote_<id>` reaches the admin handler and toggles exactly that id |
| Routing.AdminCase | handlers/adminHandler.js:69-87 | a token that is no exact token takes the first prefixed case it matches, with the argument read after the prefix |
| Routing.AdminNoCase | handlers/adminHandler.js:28-88 | a token matching no case of the admin switch does nothing |
| Routing.GroupsPageSwitch | index.js:101-105 | a `groups_page_` token reaches the admin handler and its page case |
| Routing.DemotePageRoute | index.js:101-105 | a `demote_page_` token reaches the admin handler |
| Routing.DemotePageSwitch | handlers/adminHandler.js:36-87 | a `demote_page_` token takes the page case, not `demote_admin` |
| Routing.GroupsPageArgument | handlers/adminHandler.js:74-77 | `groups_page_<rest>` selects the groups page `parseInt(rest)` |
| Routing.GroupsPageToken | handlers/adminHandler.js:74-77 | a page button's token routes back to that page number |
| Routing.DemotePageArgument | handlers/adminHandler.js:84-87 | `demote_page_<rest>` selects the demote page `parseInt(rest)` |
| Routing.DemotePageToken | handlers/adminHandler.js:84-87 | a demote page button's token routes back to that page |
| Routing.SelectBaseToken | handlers/groupHandler.js:28-29 | a base-name button's token reaches the group handler and selects that base name |
| Routing.RenameGroupsToken | handlers/groupHandler.js:20-21 | `rename_groups` reaches the group handler and starts a rename |
| Routing.CtcBeforeAdmin | index.js:84-96 | contact tokens that carry an admin prefix still reach the contact handler, whose test comes first |
| Routing.ConfirmRenameAsWritten | index.js:101-107 | `confirm_rename` is routed to the admin handler, whose switch has no case for it |
| Routing.NotCtcNorAuth | index.js:84-99 | `confirm_rename` is neither a contact nor an auth token |
| Routing.NoAdminCase | handlers/adminHandler.js:28-88 | no case of the admin switch matches `confirm_rename` |
| Routing.ConfirmRenameIntended | index.js:106 | with the group test first, `confirm_rename` reaches the group handler |
| Routing.IntendedAgreesElsewhere | index.js:80-116 | the corrected routing agrees with the code on every token not starting with `confirm_rename` |
| Events.OnText | index.js:136-170 | text is ignored when it is missing, empty, a command or not the owner's; otherwise handlers are tried in the order auth, admin, rename, contact, stopping at the first that handles it; handlers not reached keep their state |
| Events.TxtNameAnyCase | index.js:196 | a file is accepted iff its name ends in ".txt" in any mix of case |
| Events.ErrorReport | index.js:217-226 | at most 10 errors are shown, as a prefix; the rest are counted, and only when exactly 10 are shown |
| Events.OnDocument | index.js:186-251 | documents are ignored unless from the owner in a contact flow waiting for a file; then name, size, errors and emptiness are checked in that order; only a clean non-empty list is stored, with the step moved to number confirmation |
| Numbers.ParseIntOfDecimal | handlers/groupHandler.js:211 | `parseInt` reads back a decimal number that is followed by a non-digit |
| Numbers.ParseIntIgnoresJunk | handlers/groupHandler.js:254 | `parseInt("3abc")` is 3 |
| Numbers.ParseIntReadsHex | handlers/groupHandler.js:313 | `parseInt("0x1F")` is 31: a start or end number may be typed in hex |
| Numbers.ParseIntRejectsWords | handlers/groupHandler.js:211-217 | `parseInt("abc")` is NaN, which is refused |
| Text.StripPrefixRoundTrip | handlers/adminHandler.js:70 | removing the first occurrence of a prefix from prefix + payload gives the payload back |
| Text.Trim | handlers/groupHandler.js:289 | the trimmed text has no whitespace at either end, and is non-empty when the text has a non-whitespace character |
| Text.TrimBlank | handlers/groupHandler.js:289-292 | the trimmed text is the slice of the text left after dropping only whitespace at both ends, and it is empty iff the text is blank |
| Text.BeforeOfAppend | handlers/adminHandler.js:458 | `split('@')[0]` of an id gives the part before its first `@` |

## Left out

- The Telegram transport is left out: messages, keyboards, Markdown, message edits and deletions. Pagination (`createPagination`) and the menus are also left out; the menus are not part of this model. Only the state changes and the batch outcomes are modelled.
- WhatsApp calls, the phone-number parser, `extractNumberFromGroupName` and `isRateLimitError` are parameters.
  - A reply is indexed by the call's position.
  - The extracted number is an `int`, so NaN is not modelled.
  - The rate-limit test is a predicate on the error message.
- Sleeps are recorded in the batch's delay list, not waited for.
- A failed progress edit is not modelled.
- A crash of a whole batch (the outer `catch`) is modelled only in one case: AdminHandler.ConfirmDemote runs an empty batch when the confirm rows are missing. Every other crash is not modelled; a pair's failure is.
- Concurrency between Telegram updates is not modelled. Each handler runs to completion.
- The lookup `userStates[userId]` is not modelled. A handler receives the record. The crashes the source has on a missing record are left out.
- `clearUserFlowState` is modelled as setting the flow field to `null`.
- Creating the user record and the contact flow is not modelled. `userStates` is declared empty at index.js line 13 and filled outside these three files; the contact flow is created by the contact handler. The constructors of `Model.UserState` and `Model.CtcFlow` give a starting state and model no line of the source.
- GroupHandler.RenameGroups files clusters in a map, while the source uses a plain object `{}`. A base name that every object inherits (`constructor`, `toString`, `__proto__` and the like) is already truthy there, so the `push` throws, the error is caught, and nothing is offered. The model offers such a cluster like any other.
- Numbers.ParseInt returns an exact integer, while `parseInt` returns a double. Precision loss above 2^53 is not modelled, and neither is the exponent form (such as "1e+21") that a large new number would print in a new group name.
- The auth and contact handlers are not part of this model.
  - Events.OnText: it receives whether they handle a text as a boolean, and does not model their state changes.
  - Their callback handlers are a routing destination only.
- Downloading the file is not modelled. Events.OnDocument receives either the parser's result or `None` for a failed download or parse.
- Telegram's 64-byte limit on callback data is not modelled.
- `Array.prototype.sort` is modelled as a stable insertion sort on the extracted number. The comparator `numA - numB` is not modelled for NaN.
- The order of `Object.keys` for integer-like base names is not modelled; keys keep their insertion order.
- Whitespace is the ASCII space, tab, line feed, vertical tab, form feed and carriage return. Unicode spaces are not modelled. Case folding is ASCII only.
- Fields a flow never sets hold empty values in the model. Examples are `groups` in a demote flow and `confirmData` before confirmation.
- Events.OnDocument: the file size is a `nat`.
- Where the code departs from the prose description of the bot, the model follows the code:
  - A promote error is never checked for "409" or "already admin"; only add errors are.
  - The 3000 ms pause after a pair comes only after a success. A failure pauses 10000 ms on a rate limit and not at all otherwise.
  - Toggle accepts any id, even one not in the listed groups.
  - The confirm handlers check only the flow's kind, not its step.
  - The 'Batal' buttons of the rename prompts and of the preview send `rename_groups`. That restarts the clustering and keeps the old rename record.
  - GroupHandler.GroupMessage answers any text while a rename record exists, at every step.

## Findings

| source | as written | input that shows it | evidently intended | confidence | as-written member | corrected member |
|---|---|---|---|---|---|---|
| index.js:101-107 | the admin test `startsWith('confirm_')` comes before the group test `startsWith('confirm_rename')`, so the admin handler gets `confirm_rename`, and its switch (handlers/adminHandler.js lines 28-88) has no case for it | callback data `confirm_rename`, the confirm button of the rename preview | `confirm_rename` reaches the group handler and runs the rename batch | not executed | Routing.ConfirmRenameAsWritten | Routing.ConfirmRenameIntended |
