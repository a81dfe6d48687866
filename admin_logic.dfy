/** The pure parts of the admin workflow (handlers/adminHandler.js): the toggle
    that edits a selection, the case-insensitive group search, the test that an
    admin id belongs to a phone number, the demote search result and the
    confirmation data built from it. */
module AdminLogic {

  import opened Wrappers
  import opened Text
  import opened Domain

  // ---------------------------------------------------------------- selection

  /** `s.indexOf(x)` for an `x` that occurs. */
  function IndexOf<T(==)>(s: seq<T>, x: T): (i: nat)
    requires x in s
    ensures i < |s| && s[i] == x
    ensures forall k :: 0 <= k < i ==> s[k] != x
  {
    if s[0] == x then 0 else 1 + IndexOf(s[1..], x)
  }

  /** The selection after a toggle: the first occurrence of `id` is spliced out if
      there is one, otherwise `id` is pushed at the end. */
  function Toggle(s: seq<string>, id: string): (r: seq<string>)
  {
    if id in s then
      var i := IndexOf(s, id);
      s[..i] + s[i + 1..]
    else
      s + [id]
  }

  /** `s` with every `x` removed, all else in order. */
  function Without(s: seq<string>, x: string): (r: seq<string>)
    ensures x !in r
    ensures forall y :: y != x ==> (y in r <==> y in s)
  {
    if |s| == 0 then [] else (if s[0] == x then [] else [s[0]]) + Without(s[1..], x)
  }

  lemma {:induction false} WithoutAppend(a: seq<string>, b: seq<string>, x: string)
    ensures Without(a + b, x) == Without(a, x) + Without(b, x)
  {
    if |a| > 0 {
      assert (a + b)[0] == a[0];
      assert (a + b)[1..] == a[1..] + b;
      WithoutAppend(a[1..], b, x);
      var h := if a[0] == x then [] else [a[0]];
      assert Without(a + b, x) == h + Without(a[1..] + b, x);
      assert Without(a, x) == h + Without(a[1..], x);
    } else {
      assert a + b == b;
    }
  }

  /** Toggling never reorders the other ids: with `id` filtered out, the selection
      is the same before and after. */
  lemma ToggleKeepsOthersInOrder(s: seq<string>, id: string)
    ensures Without(Toggle(s, id), id) == Without(s, id)
  {
    if id in s {
      var i := IndexOf(s, id);
      var a, b := s[..i], s[i + 1..];
      assert s == (a + [id]) + b;
      assert Toggle(s, id) == a + b;
      assert Without([id], id) == [];
      calc {
        Without(s, id);
        { WithoutAppend(a + [id], b, id); }
        Without(a + [id], id) + Without(b, id);
        { WithoutAppend(a, [id], id); }
        Without(a, id) + Without(b, id);
        { WithoutAppend(a, b, id); }
        Without(a + b, id);
      }
    } else {
      WithoutAppend(s, [id], id);
      assert Without([id], id) == [];
    }
  }

  /** A toggle flips the membership of `id`, keeps every other id's membership and
      keeps the selection free of repeats. */
  lemma ToggleFlipsMembership(s: seq<string>, id: string)
    requires NoDup(s)
    ensures NoDup(Toggle(s, id))
    ensures id in Toggle(s, id) <==> id !in s
    ensures forall x :: x != id ==> (x in Toggle(s, id) <==> x in s)
  {
    var r := Toggle(s, id);
    if id in s {
      var i := IndexOf(s, id);
      assert s == s[..i] + [id] + s[i + 1..];
      assert forall k :: 0 <= k < |r| ==> r[k] == (if k < i then s[k] else s[k + 1]);
      assert forall k :: 0 <= k < |r| ==> r[k] != id;
    }
  }

  /** Toggling an absent id twice restores the original selection exactly. */
  lemma ToggleTwiceRestores(s: seq<string>, id: string)
    requires id !in s
    ensures Toggle(Toggle(s, id), id) == s
  {
    var t := s + [id];
    assert forall k :: 0 <= k < |s| ==> t[k] != id;
    assert IndexOf(t, id) == |s|;
    assert t[..|s|] == s;
  }

  /** Toggling a selected id twice gives it back its membership and leaves the
      order of the other ids unchanged; only its position may move to the end. */
  lemma ToggleTwiceKeepsSelection(s: seq<string>, id: string)
    requires NoDup(s)
    ensures NoDup(Toggle(Toggle(s, id), id))
    ensures forall x :: x in Toggle(Toggle(s, id), id) <==> x in s
    ensures Without(Toggle(Toggle(s, id), id), id) == Without(s, id)
  {
    ToggleFlipsMembership(s, id);
    ToggleFlipsMembership(Toggle(s, id), id);
    ToggleKeepsOthersInOrder(s, id);
    ToggleKeepsOthersInOrder(Toggle(s, id), id);
  }

  // ---------------------------------------------------------------- group search

  /** `group.name.toLowerCase().includes(query.toLowerCase())`. */
  predicate MatchesQuery(g: Group, query: string) {
    Contains(ToLower(g.name), ToLower(query))
  }

  function FilterByQuery(groups: seq<Group>, query: string): (r: seq<Group>)
    ensures |r| <= |groups|
  {
    if |groups| == 0 then []
    else FilterByQuery(groups[..|groups| - 1], query)
         + (if MatchesQuery(groups[|groups| - 1], query) then [groups[|groups| - 1]] else [])
  }

  /** The groups a list shows: every group when the query is empty (a falsy
      string), otherwise those whose name contains the query, ignoring case. */
  function VisibleGroups(groups: seq<Group>, query: string): (r: seq<Group>)
  {
    if query == "" then groups else FilterByQuery(groups, query)
  }

  /** A group is shown exactly when it is in the list and matches the query. */
  lemma {:induction false} FilterByQueryMembers(groups: seq<Group>, query: string, g: Group)
    ensures g in FilterByQuery(groups, query) <==> g in groups && MatchesQuery(g, query)
  {
    if |groups| > 0 {
      var front := groups[..|groups| - 1];
      assert groups == front + [groups[|groups| - 1]];
      FilterByQueryMembers(front, query, g);
    }
  }

  /** The search ignores case: searching for the lower-cased query shows the same
      groups, in the same order. */
  lemma {:induction false} SearchIgnoresCase(groups: seq<Group>, query: string)
    ensures VisibleGroups(groups, ToLower(query)) == VisibleGroups(groups, query)
  {
    ToLowerIdempotent(query);
    if query != "" {
      assert |ToLower(query)| == |query|;
      FilterIgnoresCase(groups, query);
    }
  }

  lemma {:induction false} FilterIgnoresCase(groups: seq<Group>, query: string)
    ensures FilterByQuery(groups, ToLower(query)) == FilterByQuery(groups, query)
  {
    ToLowerIdempotent(query);
    if |groups| > 0 {
      FilterIgnoresCase(groups[..|groups| - 1], query);
    }
  }

  // ---------------------------------------------------------------- admin lookup

  /** `id.split('@')[0].split(':')[0]`: the number part of a member id. */
  function LocalPart(id: string): string {
    Before(Before(id, '@'), ':')
  }

  /** The test the demote search applies to one admin id of a group. */
  predicate AdminIdMatches(id: string, number: string) {
    id == number + "@s.whatsapp.net" || id == number + "@lid" || LocalPart(id) == number
  }

  /** `admins.some(...)` over the ids `getGroupAdmins` returned. */
  predicate IsAdminIn(number: string, adminIds: seq<string>) {
    exists k | 0 <= k < |adminIds| :: AdminIdMatches(adminIds[k], number)
  }

  predicate AllDigits(s: string) {
    forall k :: 0 <= k < |s| ==> IsDigit(s[k])
  }

  /** For a number made of digits the two full-id comparisons add nothing: an id
      matches exactly when its part before `@` and then before `:` is the number. */
  lemma MatchIsLocalPart(id: string, number: string)
    requires AllDigits(number)
    ensures AdminIdMatches(id, number) <==> LocalPart(id) == number
  {
    assert forall k :: 0 <= k < |number| ==> number[k] != '@' && number[k] != ':';
    assert '@' !in number && ':' !in number;
    if id == number + "@s.whatsapp.net" {
      assert id == number + ['@'] + "s.whatsapp.net";
      BeforeOfAppend(number, '@', "s.whatsapp.net");
      BeforeOfAppend(number, ':', "");
    } else if id == number + "@lid" {
      assert id == number + ['@'] + "lid";
      BeforeOfAppend(number, '@', "lid");
      BeforeOfAppend(number, ':', "");
    }
  }

  // ---------------------------------------------------------------- demote search

  /** One hit of the demote search. */
  datatype FoundAdmin = FoundAdmin(adminNumber: string, groupId: string, groupName: string)

  predicate HasPair(found: seq<FoundAdmin>, number: string, groupId: string) {
    exists k | 0 <= k < |found| :: found[k].adminNumber == number && found[k].groupId == groupId
  }

  /** No two hits share the same (admin number, group id). */
  predicate PairsDistinct(found: seq<FoundAdmin>) {
    forall i, j :: 0 <= i < j < |found| ==>
      !(found[i].adminNumber == found[j].adminNumber && found[i].groupId == found[j].groupId)
  }

  /** The inner loop over the searched numbers for one group whose admin ids are
      known: a matching number is appended unless that pair is already present. */
  function AddMatches(acc: seq<FoundAdmin>, g: Group, adminIds: seq<string>, numbers: seq<string>): seq<FoundAdmin>
  {
    if |numbers| == 0 then acc
    else
      var before := AddMatches(acc, g, adminIds, numbers[..|numbers| - 1]);
      var n := numbers[|numbers| - 1];
      if IsAdminIn(n, adminIds) && !HasPair(before, n, g.id) then before + [FoundAdmin(n, g.id, g.name)]
      else before
  }

  /** The outer loop over the groups: `adminsOf(i)` is what `getGroupAdmins` gave for
      the i-th group (`None` when it threw, and that group is skipped). */
  function SearchFound(groups: seq<Group>, adminsOf: nat -> Option<seq<string>>, numbers: seq<string>): seq<FoundAdmin>
  {
    if |groups| == 0 then []
    else
      var before := SearchFound(groups[..|groups| - 1], adminsOf, numbers);
      match adminsOf(|groups| - 1)
      case None => before
      case Some(ids) => AddMatches(before, groups[|groups| - 1], ids, numbers)
  }

  lemma {:induction false} AddMatchesSpec(acc: seq<FoundAdmin>, g: Group, ids: seq<string>, numbers: seq<string>)
    requires PairsDistinct(acc)
    ensures PairsDistinct(AddMatches(acc, g, ids, numbers))
    ensures acc <= AddMatches(acc, g, ids, numbers)
    ensures forall n, gid :: HasPair(AddMatches(acc, g, ids, numbers), n, gid) <==>
      HasPair(acc, n, gid) || (gid == g.id && n in numbers && IsAdminIn(n, ids))
  {
    if |numbers| > 0 {
      var front := numbers[..|numbers| - 1];
      var n := numbers[|numbers| - 1];
      AddMatchesSpec(acc, g, ids, front);
      var before := AddMatches(acc, g, ids, front);
      assert numbers == front + [n];
      if IsAdminIn(n, ids) && !HasPair(before, n, g.id) {
        var after := before + [FoundAdmin(n, g.id, g.name)];
        assert forall m, gid :: HasPair(after, m, gid) <==> HasPair(before, m, gid) || (m == n && gid == g.id) by {
          forall m, gid ensures HasPair(after, m, gid) <==> HasPair(before, m, gid) || (m == n && gid == g.id) {
            if HasPair(after, m, gid) && !HasPair(before, m, gid) {
              var k :| 0 <= k < |after| && after[k].adminNumber == m && after[k].groupId == gid;
              assert k == |before|;
            }
            if m == n && gid == g.id { assert after[|before|].adminNumber == m; }
            if HasPair(before, m, gid) {
              var k :| 0 <= k < |before| && before[k].adminNumber == m && before[k].groupId == gid;
              assert after[k] == before[k];
            }
          }
        }
      }
    }
  }

  /** `xs` is `ys` with some elements left out, the rest kept in order. */
  predicate IsSubseq(xs: seq<string>, ys: seq<string>)
    decreases |ys|
  {
    |xs| == 0 ||
    (|ys| > 0 && (IsSubseq(xs, ys[..|ys| - 1])
                  || (xs[|xs| - 1] == ys[|ys| - 1] && IsSubseq(xs[..|xs| - 1], ys[..|ys| - 1]))))
  }

  /** The admin numbers of a run of hits, in order. */
  function AdminNumbers(found: seq<FoundAdmin>): (r: seq<string>)
    ensures |r| == |found| && forall k :: 0 <= k < |r| ==> r[k] == found[k].adminNumber
  {
    seq(|found|, k requires 0 <= k < |found| => found[k].adminNumber)
  }

  /** One group's pass only appends, every hit it appends names that group, and the
      numbers it appends come in the order of the searched numbers. */
  lemma {:induction false} AddMatchesOrder(acc: seq<FoundAdmin>, g: Group, ids: seq<string>, numbers: seq<string>)
    ensures acc <= AddMatches(acc, g, ids, numbers)
    ensures forall k :: |acc| <= k < |AddMatches(acc, g, ids, numbers)| ==>
      AddMatches(acc, g, ids, numbers)[k].groupId == g.id && AddMatches(acc, g, ids, numbers)[k].groupName == g.name
    ensures IsSubseq(AdminNumbers(AddMatches(acc, g, ids, numbers)[|acc|..]), numbers)
  {
    if |numbers| > 0 {
      var front := numbers[..|numbers| - 1];
      var n := numbers[|numbers| - 1];
      AddMatchesOrder(acc, g, ids, front);
      var before := AddMatches(acc, g, ids, front);
      var xs := AdminNumbers(before[|acc|..]);
      assert numbers[..|numbers| - 1] == front;
      if IsAdminIn(n, ids) && !HasPair(before, n, g.id) {
        var after := before + [FoundAdmin(n, g.id, g.name)];
        var ys := AdminNumbers(after[|acc|..]);
        assert ys[..|ys| - 1] == xs;
        assert ys[|ys| - 1] == n;
      }
    }
  }

  /** The demote search never records the same (number, group) twice, and it records
      a pair exactly when some group with that id answered with an admin list in
      which the number matches. */
  lemma {:induction false} SearchFoundSpec(groups: seq<Group>, adminsOf: nat -> Option<seq<string>>, numbers: seq<string>)
    ensures PairsDistinct(SearchFound(groups, adminsOf, numbers))
    ensures forall n, gid :: HasPair(SearchFound(groups, adminsOf, numbers), n, gid) <==>
      exists i :: 0 <= i < |groups| && groups[i].id == gid && adminsOf(i).Some? && n in numbers && IsAdminIn(n, adminsOf(i).value)
  {
    if |groups| > 0 {
      var front := groups[..|groups| - 1];
      var last := |groups| - 1;
      SearchFoundSpec(front, adminsOf, numbers);
      var before := SearchFound(front, adminsOf, numbers);
      if adminsOf(last).Some? {
        AddMatchesSpec(before, groups[last], adminsOf(last).value, numbers);
      }
      forall n, gid ensures HasPair(SearchFound(groups, adminsOf, numbers), n, gid) <==>
        exists i :: 0 <= i < |groups| && groups[i].id == gid && adminsOf(i).Some? && n in numbers && IsAdminIn(n, adminsOf(i).value)
      {
        if exists i :: 0 <= i < |groups| && groups[i].id == gid && adminsOf(i).Some? && n in numbers && IsAdminIn(n, adminsOf(i).value) {
          var i :| 0 <= i < |groups| && groups[i].id == gid && adminsOf(i).Some? && n in numbers && IsAdminIn(n, adminsOf(i).value);
          if i < last { assert front[i] == groups[i]; }
        }
        if HasPair(before, n, gid) {
          var i :| 0 <= i < |front| && front[i].id == gid && adminsOf(i).Some? && n in numbers && IsAdminIn(n, adminsOf(i).value);
          assert groups[i] == front[i];
        }
      }
    }
  }

  /** Hits come group by group: what the first `i` groups produced is a prefix of the
      whole result. */
  lemma {:induction false} SearchFoundGroupMajor(groups: seq<Group>, adminsOf: nat -> Option<seq<string>>, numbers: seq<string>, i: nat)
    requires i <= |groups|
    ensures SearchFound(groups[..i], adminsOf, numbers) <= SearchFound(groups, adminsOf, numbers)
  {
    if i < |groups| {
      var front := groups[..|groups| - 1];
      assert groups[..i] == front[..i];
      SearchFoundGroupMajor(front, adminsOf, numbers, i);
      var before := SearchFound(front, adminsOf, numbers);
      if adminsOf(|groups| - 1).Some? {
        SearchFoundSpec(front, adminsOf, numbers);
        AddMatchesSpec(before, groups[|groups| - 1], adminsOf(|groups| - 1).value, numbers);
      }
    } else {
      assert groups[..i] == groups;
    }
  }

  // ---------------------------------------------------------------- confirmation

  /** One row of the demote confirmation: a selected group and its found admins. */
  datatype ConfirmEntry = ConfirmEntry(groupId: string, groupName: string, adminNumbers: seq<string>)

  /** `foundAdmins.filter(fa => fa.groupId === gid).map(fa => fa.adminNumber)`. */
  function NumbersIn(found: seq<FoundAdmin>, gid: string): (r: seq<string>)
    ensures |r| <= |found|
  {
    if |found| == 0 then []
    else NumbersIn(found[..|found| - 1], gid)
         + (if found[|found| - 1].groupId == gid then [found[|found| - 1].adminNumber] else [])
  }

  /** `groupAdmins[0]?.groupName || 'Unknown'`. */
  function NameIn(found: seq<FoundAdmin>, gid: string): (r: string)
    ensures r != ""
  {
    if |found| == 0 then Unknown
    else if found[0].groupId == gid then NameOr(found[0].groupName)
    else NameIn(found[1..], gid)
  }

  /** A group with no found admin is shown as 'Unknown'; otherwise its name is the
      one recorded with its first hit, the earliest one for that group (or 'Unknown' if that name is empty). */
  lemma {:induction false} NameInSpec(found: seq<FoundAdmin>, gid: string)
    ensures |NumbersIn(found, gid)| == 0 ==> NameIn(found, gid) == Unknown
    ensures |NumbersIn(found, gid)| > 0 ==>
      exists k :: 0 <= k < |found| && found[k].groupId == gid && NameIn(found, gid) == NameOr(found[k].groupName)
                  && (forall j :: 0 <= j < k ==> found[j].groupId != gid)
  {
    if |found| > 0 {
      NumbersInFront(found, gid);
      NameInSpec(found[1..], gid);
      if found[0].groupId == gid {
        assert NameIn(found, gid) == NameOr(found[0].groupName);
      } else if |NumbersIn(found, gid)| > 0 {
        var k :| 0 <= k < |found[1..]| && found[1..][k].groupId == gid && NameIn(found[1..], gid) == NameOr(found[1..][k].groupName)
          && (forall j :: 0 <= j < k ==> found[1..][j].groupId != gid);
        assert found[k + 1] == found[1..][k];
        forall j | 0 <= j < k + 1 ensures found[j].groupId != gid {
          if j > 0 { assert found[j] == found[1..][j - 1]; }
        }
      }
    }
  }

  /** `NumbersIn` read from the front. */
  lemma {:induction false} NumbersInFront(found: seq<FoundAdmin>, gid: string)
    requires |found| > 0
    ensures NumbersIn(found, gid) == (if found[0].groupId == gid then [found[0].adminNumber] else []) + NumbersIn(found[1..], gid)
  {
    if |found| > 1 {
      var n := |found| - 1;
      NumbersInFront(found[..n], gid);
      assert found[..n][1..] == found[1..][..n - 1];
      assert found[..n][0] == found[0];
    } else {
      assert found[1..] == [];
      assert found[..0] == [];
    }
  }

  /** One confirmation row per selected group, in selection order. */
  function ConfirmFor(selected: seq<string>, found: seq<FoundAdmin>): (cd: seq<ConfirmEntry>)
    ensures |cd| == |selected|
  {
    seq(|selected|, i requires 0 <= i < |selected| =>
      ConfirmEntry(selected[i], NameIn(found, selected[i]), NumbersIn(found, selected[i])))
  }

  /** `confirmData.reduce((sum, d) => sum + d.adminNumbers.length, 0)`. */
  function TotalNumbers(cd: seq<ConfirmEntry>): nat {
    if |cd| == 0 then 0 else TotalNumbers(cd[..|cd| - 1]) + |cd[|cd| - 1].adminNumbers|
  }

  /** The number of hits that belong to one of the groups in `gids`. */
  function CountFor(found: seq<FoundAdmin>, gids: seq<string>): (n: nat)
    ensures n <= |found|
  {
    if |found| == 0 then 0
    else CountFor(found[..|found| - 1], gids) + (if found[|found| - 1].groupId in gids then 1 else 0)
  }

  lemma {:induction false} CountForSplit(found: seq<FoundAdmin>, gids: seq<string>, g: string)
    requires g !in gids
    ensures CountFor(found, gids + [g]) == CountFor(found, gids) + |NumbersIn(found, g)|
  {
    if |found| > 0 {
      CountForSplit(found[..|found| - 1], gids, g);
    }
  }

  /** A confirmation built with one row per selected group, each holding that
      group's found numbers, lists every found pair of a selected group exactly once
      when the selection has no repeats: the demote batch then makes one attempt
      per such pair. */
  lemma ConfirmCoversFound(selected: seq<string>, found: seq<FoundAdmin>)
    requires NoDup(selected)
    ensures TotalNumbers(ConfirmFor(selected, found)) == CountFor(found, selected)
  {
    ConfirmRowsCover(selected, found, ConfirmFor(selected, found));
  }

  lemma {:induction false} ConfirmRowsCover(selected: seq<string>, found: seq<FoundAdmin>, cd: seq<ConfirmEntry>)
    requires NoDup(selected) && |cd| == |selected|
    requires forall i :: 0 <= i < |cd| ==> cd[i].adminNumbers == NumbersIn(found, selected[i])
    ensures TotalNumbers(cd) == CountFor(found, selected)
  {
    if |selected| == 0 {
      CountForNone(found);
    } else {
      var n := |selected| - 1;
      assert selected == selected[..n] + [selected[n]];
      ConfirmRowsCover(selected[..n], found, cd[..n]);
      assert cd[..n] == cd[..|cd| - 1];
      CountForSplit(found, selected[..n], selected[n]);
    }
  }

  lemma {:induction false} CountForNone(found: seq<FoundAdmin>)
    ensures CountFor(found, []) == 0
  {
    if |found| > 0 { CountForNone(found[..|found| - 1]); }
  }
}
