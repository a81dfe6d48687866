/** The pure parts of the rename workflow (handlers/groupHandler.js): the base name
    of a group (its name with a trailing number removed), the clusters of groups
    sharing a base name, the ascending order by extracted number, and the plan of
    new names a confirmed rename applies. The helper that extracts a group's number
    is not part of this model: it is the parameter `num`. */
module GroupNaming {

  import opened Wrappers
  import opened Text
  import opened Numbers
  import opened Domain
  import opened Batch

  // ---------------------------------------------------------------- base name

  /** Start of the run of whitespace that ends at index `e`. */
  function SpaceRunBack(s: string, e: nat): (k: nat)
    requires e <= |s|
    ensures k <= e
    ensures forall i :: k <= i < e ==> IsSpace(s[i])
    ensures k > 0 ==> !IsSpace(s[k - 1])
  {
    if e > 0 && IsSpace(s[e - 1]) then SpaceRunBack(s, e - 1) else e
  }

  /** Start of the run of digits that ends at index `e`. */
  function DigitRunBack(s: string, e: nat): (k: nat)
    requires e <= |s|
    ensures k <= e
    ensures forall i :: k <= i < e ==> IsDigit(s[i])
    ensures k > 0 ==> !IsDigit(s[k - 1])
  {
    if e > 0 && IsDigit(s[e - 1]) then DigitRunBack(s, e - 1) else e
  }

  /** `s[p..]` splits as whitespace `s[p..i]`, at least one digit `s[i..j]` and
      whitespace `s[j..]`: the regular expression `\s*\d+\s*$` matches from `p`. */
  predicate SuffixShape(s: string, p: int, i: int, j: int) {
    0 <= p <= i < j <= |s|
    && (forall k :: p <= k < i ==> IsSpace(s[k]))
    && (forall k :: i <= k < j ==> IsDigit(s[k]))
    && (forall k :: j <= k < |s| ==> IsSpace(s[k]))
  }

  ghost predicate SuffixMatchAt(s: string, p: int) {
    exists i, j :: SuffixShape(s, p, i, j)
  }

  /** Where the trailing number (with the whitespace around it) starts, if the
      name ends in one. */
  function SuffixStart(s: string): (r: Option<nat>)
    ensures r.Some? ==> r.value <= |s|
  {
    var e := SpaceRunBack(s, |s|);
    var d := DigitRunBack(s, e);
    if d == e then None else Some(SpaceRunBack(s, d))
  }

  /** `SuffixStart` finds what `replace(/\s*\d+\s*$/, '')` removes: a match of the
      pattern, and the leftmost one, as the regular-expression engine picks it. */
  lemma SuffixStartIsLeftmostMatch(s: string)
    ensures SuffixStart(s).Some? ==> SuffixMatchAt(s, SuffixStart(s).value)
    ensures forall q :: SuffixMatchAt(s, q) ==> SuffixStart(s).Some? && SuffixStart(s).value <= q
  {
    var e := SpaceRunBack(s, |s|);
    var d := DigitRunBack(s, e);
    if d < e {
      assert SuffixShape(s, SpaceRunBack(s, d), d, e);
    }
    forall q | SuffixMatchAt(s, q)
      ensures SuffixStart(s).Some? && SuffixStart(s).value <= q
    {
      var i, j :| SuffixShape(s, q, i, j);
      assert !IsSpace(s[j - 1]);
      assert e == j;
      assert IsDigit(s[i]);
      assert d <= i;
      var w := SpaceRunBack(s, d);
      if d < i {
        assert IsDigit(s[i - 1]) && !IsSpace(s[i - 1]);
        assert q == i;
      }
    }
  }

  /** The base name of a group: the name without its trailing number, trimmed; a
      name that is nothing but a number (or whitespace) is its own base name. */
  function BaseName(name: string): (r: string)
    ensures IsTrimmed(r) || r == name
  {
    var stripped := match SuffixStart(name) case None => name case Some(p) => name[..p];
    var t := Trim(stripped);
    if t == "" then name else t
  }

  /** `name.replace(/\s*\d+\s*$/, '').trim() || name` in the pattern's own terms: the
      leftmost match of the trailing-number pattern is cut off and the rest trimmed;
      without a match the whole name is trimmed; an empty result falls back to the
      name itself. */
  lemma BaseNameSpec(name: string)
    ensures forall p :: SuffixMatchAt(name, p) && (forall q :: SuffixMatchAt(name, q) ==> p <= q) ==>
      BaseName(name) == (if Trim(name[..p]) == "" then name else Trim(name[..p]))
    ensures (forall q :: !SuffixMatchAt(name, q)) ==>
      BaseName(name) == (if Trim(name) == "" then name else Trim(name))
  {
    SuffixStartIsLeftmostMatch(name);
    forall p | SuffixMatchAt(name, p) && (forall q :: SuffixMatchAt(name, q) ==> p <= q)
      ensures BaseName(name) == (if Trim(name[..p]) == "" then name else Trim(name[..p]))
    {
      assert SuffixMatchAt(name, SuffixStart(name).value);
      assert SuffixStart(name).value == p;
    }
  }

  /** A trimmed, non-empty name followed by a space and a number has that name as its
      base: "HK 1" and "HK 2" both belong to "HK", and so does every group a rename
      to "HK" produces. */
  lemma BaseNameOfNumbered(b: string, k: nat)
    requires IsTrimmed(b) && b != ""
    ensures BaseName(b + " " + Decimal(k)) == b
  {
    var dec := Decimal(k);
    var s := b + " " + dec;
    assert s[|b|] == ' ';
    assert forall i :: |b| + 1 <= i < |s| ==> s[i] == dec[i - |b| - 1];
    assert !IsSpace(s[|s| - 1]);
    assert SpaceRunBack(s, |s|) == |s|;
    var d := DigitRunBack(s, |s|);
    assert d == |b| + 1;
    assert s[|b| - 1] == b[|b| - 1];
    assert SpaceRunBack(s, d) == |b|;
    assert s[..|b|] == b;
    TrimOfTrimmed(b);
  }

  lemma BaseNameExample(s: string)
    requires s == "HK 2"
    ensures BaseName(s) == "HK"
  {
    var b := "HK";
    var d := Decimal(2);
    assert d == "2";
    BaseNameOfNumbered(b, 2);
    assert s == b + " " + d;
  }

  /** A name made only of digits would lose everything, so it keeps its full name as
      its base. */
  lemma BaseNameOfNumberOnly(s: string)
    requires |s| > 0 && forall k :: 0 <= k < |s| ==> IsDigit(s[k])
    ensures BaseName(s) == s
  {
    assert !IsSpace(s[|s| - 1]);
    assert SpaceRunBack(s, |s|) == |s|;
    assert DigitRunBack(s, |s|) == 0;
    assert s[..0] == "";
  }

  // ---------------------------------------------------------------- clusters

  /* The clustering below is stated for any way `baseOf` of naming a group's
     cluster; the rename workflow uses `BaseName`. */

  /** The groups whose cluster is `base`, in list order. */
  function Members(groups: seq<Group>, baseOf: string -> string, base: string): (r: seq<Group>)
    ensures |r| <= |groups|
  {
    if |groups| == 0 then []
    else Members(groups[..|groups| - 1], baseOf, base)
         + (if baseOf(groups[|groups| - 1].name) == base then [groups[|groups| - 1]] else [])
  }

  /** The distinct cluster names, in order of first appearance. */
  function BaseKeys(groups: seq<Group>, baseOf: string -> string): (keys: seq<string>)
  {
    if |groups| == 0 then []
    else
      var keys := BaseKeys(groups[..|groups| - 1], baseOf);
      var b := baseOf(groups[|groups| - 1].name);
      if b in keys then keys else keys + [b]
  }

  /** Filing one more group: its cluster name joins the names if it is new, and
      only its cluster grows, by that group at the end. */
  lemma ClusteringStep(groups: seq<Group>, baseOf: string -> string, i: nat)
    requires i < |groups|
    ensures var b := baseOf(groups[i].name);
      BaseKeys(groups[..i + 1], baseOf) == if b in BaseKeys(groups[..i], baseOf) then BaseKeys(groups[..i], baseOf) else BaseKeys(groups[..i], baseOf) + [b]
  {
    assert groups[..i + 1][..i] == groups[..i];
  }

  /** `buckets` files the groups of `prefix` under their cluster names, and `keys`
      lists the names that have a cluster. */
  ghost predicate Filed(buckets: map<string, seq<Group>>, keys: seq<string>, prefix: seq<Group>, baseOf: string -> string) {
    forall k :: (k in buckets <==> k in keys)
                && (k in buckets ==> buckets[k] == Members(prefix, baseOf, k))
                && (k !in keys ==> Members(prefix, baseOf, k) == [])
  }

  /** Filing the next group appends it to its cluster, opening the cluster if needed. */
  lemma FileOne(buckets: map<string, seq<Group>>, keys: seq<string>, groups: seq<Group>, i: nat, baseOf: string -> string)
    requires i < |groups| && Filed(buckets, keys, groups[..i], baseOf)
    ensures var b := baseOf(groups[i].name);
      Filed(buckets[b := (if b in buckets then buckets[b] else []) + [groups[i]]],
            if b in buckets then keys else keys + [b], groups[..i + 1], baseOf)
  {
    var g := groups[i];
    var b := baseOf(g.name);
    var next := buckets[b := (if b in buckets then buckets[b] else []) + [g]];
    var nextKeys := if b in buckets then keys else keys + [b];
    assert groups[..i + 1][..i] == groups[..i];
    forall k
      ensures (k in next <==> k in nextKeys)
              && (k in next ==> next[k] == Members(groups[..i + 1], baseOf, k))
              && (k !in nextKeys ==> Members(groups[..i + 1], baseOf, k) == [])
    {
      assert Members(groups[..i + 1], baseOf, k) == Members(groups[..i], baseOf, k) + (if b == k then [g] else []);
    }
  }

  /** A cluster holds exactly the groups with that cluster name. */
  lemma {:induction false} MembersSpec(groups: seq<Group>, baseOf: string -> string, base: string)
    ensures forall g :: g in Members(groups, baseOf, base) <==> g in groups && baseOf(g.name) == base
  {
    if |groups| > 0 {
      var front := groups[..|groups| - 1];
      assert groups == front + [groups[|groups| - 1]];
      MembersSpec(front, baseOf, base);
    }
  }

  /** The cluster names are listed once each, and they are exactly the cluster names
      of the groups. */
  lemma {:induction false} BaseKeysSpec(groups: seq<Group>, baseOf: string -> string)
    ensures NoDup(BaseKeys(groups, baseOf))
    ensures forall b :: b in BaseKeys(groups, baseOf) <==> exists i :: 0 <= i < |groups| && baseOf(groups[i].name) == b
  {
    if |groups| > 0 {
      var front := groups[..|groups| - 1];
      BaseKeysSpec(front, baseOf);
      forall b ensures b in BaseKeys(groups, baseOf) <==> exists i :: 0 <= i < |groups| && baseOf(groups[i].name) == b {
        if exists i :: 0 <= i < |front| && baseOf(front[i].name) == b {
          var i :| 0 <= i < |front| && baseOf(front[i].name) == b;
          assert groups[i] == front[i];
        }
        if exists i :: 0 <= i < |groups| && baseOf(groups[i].name) == b {
          var i :| 0 <= i < |groups| && baseOf(groups[i].name) == b;
          if i < |front| { assert front[i] == groups[i]; }
        }
      }
    }
  }

  /** The total size of the clusters named by `keys`. */
  function ClusterSizes(groups: seq<Group>, baseOf: string -> string, keys: seq<string>): nat {
    if |keys| == 0 then 0 else |Members(groups, baseOf, keys[0])| + ClusterSizes(groups, baseOf, keys[1..])
  }

  function Occurrences(keys: seq<string>, b: string): nat {
    if |keys| == 0 then 0 else (if keys[0] == b then 1 else 0) + Occurrences(keys[1..], b)
  }

  lemma {:induction false} ClusterSizesAppend(groups: seq<Group>, baseOf: string -> string, g: Group, keys: seq<string>)
    ensures ClusterSizes(groups + [g], baseOf, keys) == ClusterSizes(groups, baseOf, keys) + Occurrences(keys, baseOf(g.name))
  {
    if |keys| > 0 {
      assert (groups + [g])[..|groups|] == groups;
      ClusterSizesAppend(groups, baseOf, g, keys[1..]);
    }
  }

  lemma {:induction false} OccursOnce(keys: seq<string>, b: string)
    requires NoDup(keys)
    ensures Occurrences(keys, b) == (if b in keys then 1 else 0)
  {
    if |keys| > 0 {
      OccursOnce(keys[1..], b);
      assert keys[0] == b ==> b !in keys[1..];
      assert b in keys <==> keys[0] == b || b in keys[1..];
    }
  }

  lemma {:induction false} ClusterSizesEmpty(baseOf: string -> string, keys: seq<string>)
    ensures ClusterSizes([], baseOf, keys) == 0
  {
    if |keys| > 0 { ClusterSizesEmpty(baseOf, keys[1..]); }
  }

  /** Clustering partitions the group list: over any list of distinct names that
      covers every cluster name, the cluster sizes add up to the number of groups,
      so each group lands in exactly one cluster. */
  lemma {:induction false} ClustersPartition(groups: seq<Group>, baseOf: string -> string, keys: seq<string>)
    requires NoDup(keys)
    requires forall i :: 0 <= i < |groups| ==> baseOf(groups[i].name) in keys
    ensures ClusterSizes(groups, baseOf, keys) == |groups|
  {
    if |groups| == 0 {
      ClusterSizesEmpty(baseOf, keys);
    } else {
      var front := groups[..|groups| - 1];
      var g := groups[|groups| - 1];
      assert groups == front + [g];
      ClustersPartition(front, baseOf, keys);
      ClusterSizesAppend(front, baseOf, g, keys);
      OccursOnce(keys, baseOf(g.name));
    }
  }

  /** In particular the clusters over the distinct cluster names add up to the
      whole list. */
  lemma ClusteringCoversAll(groups: seq<Group>, baseOf: string -> string)
    ensures ClusterSizes(groups, baseOf, BaseKeys(groups, baseOf)) == |groups|
  {
    BaseKeysSpec(groups, baseOf);
    ClustersPartition(groups, baseOf, BaseKeys(groups, baseOf));
  }

  /** The cluster names with more than one group: the only clusters offered. */
  function Offered(keys: seq<string>, buckets: map<string, seq<Group>>): (r: seq<string>)
    requires forall k :: k in keys ==> k in buckets
    ensures forall k :: k in r <==> k in keys && |buckets[k]| > 1
  {
    if |keys| == 0 then []
    else Offered(keys[..|keys| - 1], buckets)
         + (if |buckets[keys[|keys| - 1]]| > 1 then [keys[|keys| - 1]] else [])
  }

  // ---------------------------------------------------------------- ordering

  /** Ascending by extracted number. */
  predicate SortedBy(gs: seq<Group>, num: string -> int) {
    forall i, j :: 0 <= i < j < |gs| ==> num(gs[i].name) <= num(gs[j].name)
  }

  /** Insert `x` after every element whose number is at most its own. */
  function InsertByNumber(x: Group, t: seq<Group>, num: string -> int): (r: seq<Group>)
    ensures |r| == |t| + 1
    ensures multiset(r) == multiset(t) + multiset{x}
  {
    if |t| == 0 then [x]
    else if num(t[|t| - 1].name) <= num(x.name) then t + [x]
    else
      assert t == t[..|t| - 1] + [t[|t| - 1]];
      InsertByNumber(x, t[..|t| - 1], num) + [t[|t| - 1]]
  }

  /** `groups.sort((a, b) => num(a.name) - num(b.name))`: a stable sort ascending by
      extracted number. */
  function SortByNumber(gs: seq<Group>, num: string -> int): (r: seq<Group>)
    ensures |r| == |gs|
    ensures multiset(r) == multiset(gs)
  {
    if |gs| == 0 then []
    else
      assert gs == gs[..|gs| - 1] + [gs[|gs| - 1]];
      InsertByNumber(gs[|gs| - 1], SortByNumber(gs[..|gs| - 1], num), num)
  }

  lemma {:induction false} InsertKeepsSorted(x: Group, t: seq<Group>, num: string -> int)
    requires SortedBy(t, num)
    ensures SortedBy(InsertByNumber(x, t, num), num)
  {
    if |t| > 0 && num(t[|t| - 1].name) > num(x.name) {
      var front := t[..|t| - 1];
      var last := t[|t| - 1];
      InsertKeepsSorted(x, front, num);
      var r := InsertByNumber(x, front, num);
      forall y | y in r ensures num(y.name) <= num(last.name) {
        assert y in multiset(r);
        if y != x {
          assert y in multiset(front);
          var i :| 0 <= i < |front| && front[i] == y;
          assert t[i] == y;
        }
      }
      forall i | 0 <= i < |r| ensures num(r[i].name) <= num(last.name) {
        assert r[i] in r;
      }
    }
  }

  /** The sort yields an ascending permutation of its input. */
  lemma {:induction false} SortByNumberSorted(gs: seq<Group>, num: string -> int)
    ensures SortedBy(SortByNumber(gs, num), num)
    ensures multiset(SortByNumber(gs, num)) == multiset(gs)
  {
    if |gs| > 0 {
      SortByNumberSorted(gs[..|gs| - 1], num);
      InsertKeepsSorted(gs[|gs| - 1], SortByNumber(gs[..|gs| - 1], num), num);
    }
  }

  /** A list already in ascending order is left exactly as it is, so sorting twice
      is sorting once. */
  lemma {:induction false} SortByNumberOfSorted(gs: seq<Group>, num: string -> int)
    requires SortedBy(gs, num)
    ensures SortByNumber(gs, num) == gs
  {
    if |gs| > 0 {
      var front := gs[..|gs| - 1];
      assert SortedBy(front, num);
      // the front sorts to itself, and the last group is no smaller than the
      // front's last, so inserting it appends it
      SortByNumberOfSorted(front, num);
      assert gs == front + [gs[|gs| - 1]];
    }
  }

  // ---------------------------------------------------------------- rename plan

  /** The groups whose extracted number lies in `[start, end]`, in list order; a bound
      that was never set (`undefined`) makes every comparison false. */
  function InRange(groups: seq<Group>, num: string -> int, start: Option<int>, end: Option<int>): (r: seq<Group>)
    ensures |r| <= |groups|
  {
    if |groups| == 0 || start.None? || end.None? then []
    else
      InRange(groups[..|groups| - 1], num, start, end)
      + (if start.value <= num(groups[|groups| - 1].name) <= end.value then [groups[|groups| - 1]] else [])
  }

  lemma {:induction false} InRangeMembers(groups: seq<Group>, num: string -> int, start: int, end: int, g: Group)
    ensures g in InRange(groups, num, Some(start), Some(end)) <==> g in groups && start <= num(g.name) <= end
  {
    if |groups| > 0 {
      var front := groups[..|groups| - 1];
      assert groups == front + [groups[|groups| - 1]];
      InRangeMembers(front, num, start, end, g);
    }
  }

  /** Filtering keeps ascending order. */
  lemma {:induction false} InRangeKeepsSorted(groups: seq<Group>, num: string -> int, start: Option<int>, end: Option<int>)
    requires SortedBy(groups, num)
    ensures SortedBy(InRange(groups, num, start, end), num)
  {
    if |groups| > 0 && start.Some? && end.Some? {
      var front := groups[..|groups| - 1];
      var last := groups[|groups| - 1];
      assert SortedBy(front, num);
      InRangeKeepsSorted(front, num, start, end);
      var r := InRange(front, num, start, end);
      forall i | 0 <= i < |r| ensures num(r[i].name) <= num(last.name) {
        InRangeMembers(front, num, start.value, end.value, r[i]);
        var k :| 0 <= k < |front| && front[k] == r[i];
        assert groups[k] == front[k];
      }
    }
  }

  /** `${state.newName} ${state.startNumbering + i}`: a missing name prints as
      "undefined" and a missing start number makes the sum `NaN`. */
  function NewGroupName(newName: Option<string>, startNumbering: Option<int>, i: nat): string {
    (match newName case Some(n) => n case None => "undefined")
    + " "
    + (match startNumbering case Some(s) => IntText(s + i) case None => "NaN")
  }

  /** One planned rename: the group and the name it is given. */
  datatype Rename = Rename(group: Group, newName: string)

  function Numbered(gs: seq<Group>, newName: Option<string>, startNumbering: Option<int>): (r: seq<Rename>)
    ensures |r| == |gs|
    ensures forall i :: 0 <= i < |r| ==> r[i] == Rename(gs[i], NewGroupName(newName, startNumbering, i))
  {
    if |gs| == 0 then []
    else Numbered(gs[..|gs| - 1], newName, startNumbering)
         + [Rename(gs[|gs| - 1], NewGroupName(newName, startNumbering, |gs| - 1))]
  }

  /** The renames a confirmed rename applies, and the preview lists: the in-range
      groups in ascending order, the i-th named `newName` followed by
      `startNumbering + i`. */
  function RenamePlan(groups: seq<Group>, num: string -> int, start: Option<int>, end: Option<int>,
                      newName: Option<string>, startNumbering: Option<int>): seq<Rename>
  {
    Numbered(SortByNumber(InRange(groups, num, start, end), num), newName, startNumbering)
  }

  /** The plan renames exactly the groups numbered from `start` to `end`, each
      once, in ascending order of their numbers. */
  lemma RenamePlanGroups(groups: seq<Group>, num: string -> int, start: int, end: int,
                         newName: Option<string>, startNumbering: Option<int>)
    ensures var plan := RenamePlan(groups, num, Some(start), Some(end), newName, startNumbering);
      && |plan| == |InRange(groups, num, Some(start), Some(end))|
      && (forall g :: (exists i :: 0 <= i < |plan| && plan[i].group == g) <==> g in groups && start <= num(g.name) <= end)
      && (forall i, j :: 0 <= i < j < |plan| ==> num(plan[i].group.name) <= num(plan[j].group.name))
  {
    var inRange := InRange(groups, num, Some(start), Some(end));
    var sorted := SortByNumber(inRange, num);
    SortByNumberSorted(inRange, num);
    NumberedGroups(sorted, newName, startNumbering);
    forall g ensures g in sorted <==> g in groups && start <= num(g.name) <= end {
      InRangeMembers(groups, num, start, end, g);
      assert g in sorted <==> g in multiset(inRange);
    }
  }

  /** Numbering keeps the groups and their order. */
  lemma NumberedGroups(gs: seq<Group>, newName: Option<string>, startNumbering: Option<int>)
    ensures var plan := Numbered(gs, newName, startNumbering);
      && (forall i :: 0 <= i < |plan| ==> plan[i].group == gs[i])
      && (forall g :: (exists i :: 0 <= i < |plan| && plan[i].group == g) <==> g in gs)
  {
    var plan := Numbered(gs, newName, startNumbering);
    forall g | g in gs ensures exists i :: 0 <= i < |plan| && plan[i].group == g {
      var i :| 0 <= i < |gs| && gs[i] == g;
      assert plan[i].group == g;
    }
  }

  /** The new names are numbered contiguously from `startNumbering`, whatever gaps the
      old numbers had. */
  lemma RenamePlanNames(groups: seq<Group>, num: string -> int, start: Option<int>, end: Option<int>,
                        newName: string, startNumbering: int)
    requires startNumbering >= 1
    ensures var plan := RenamePlan(groups, num, start, end, Some(newName), Some(startNumbering));
      forall i :: 0 <= i < |plan| ==> plan[i].newName == newName + " " + Decimal(startNumbering + i)
  {
    var plan := RenamePlan(groups, num, start, end, Some(newName), Some(startNumbering));
    forall i | 0 <= i < |plan| ensures plan[i].newName == newName + " " + Decimal(startNumbering + i) {
      assert plan[i].newName == NewGroupName(Some(newName), Some(startNumbering), i);
      NewGroupNamePositive(newName, startNumbering + i);
    }
  }

  lemma NewGroupNamePositive(newName: string, n: int)
    requires n >= 1
    ensures NewGroupName(Some(newName), Some(n), 0) == newName + " " + Decimal(n)
  {
  }

  /** With a trimmed non-empty new name and a positive start, every new name has the
      new name as its base, so the renamed groups form one cluster. */
  lemma RenamedShareBase(newName: string, startNumbering: int, i: nat)
    requires IsTrimmed(newName) && newName != "" && startNumbering >= 1
    ensures BaseName(NewGroupName(Some(newName), Some(startNumbering), i)) == newName
  {
    var k: nat := startNumbering + i;
    assert IntText(k) == Decimal(k);
    assert NewGroupName(Some(newName), Some(startNumbering), i) == newName + " " + Decimal(k);
    BaseNameOfNumbered(newName, k);
  }

  /** After a base is selected its cluster is stored in ascending order, so the plan
      keeps the stored order and the sort in the preview and the batch changes
      nothing. */
  lemma RenamePlanOfSorted(groups: seq<Group>, num: string -> int, start: Option<int>, end: Option<int>,
                           newName: Option<string>, startNumbering: Option<int>)
    requires SortedBy(groups, num)
    ensures RenamePlan(groups, num, start, end, newName, startNumbering)
         == Numbered(InRange(groups, num, start, end), newName, startNumbering)
  {
    InRangeKeepsSorted(groups, num, start, end);
    SortByNumberOfSorted(InRange(groups, num, start, end), num);
  }

  /** A range bound that was never set yields no renames. */
  lemma RenamePlanWithoutRange(groups: seq<Group>, num: string -> int, newName: Option<string>, startNumbering: Option<int>)
    ensures RenamePlan(groups, num, None, None, newName, startNumbering) == []
  {
  }

  // ---------------------------------------------------------------- rename batch

  /** One rename: one call, no retry; a 5000 ms pause after a success, 10000 ms after
      a rate-limit failure. `isRate` recognises a rate-limit error by its message. */
  function RenamePair(r: Rename, reply: Reply, isRate: string -> bool): PairRun {
    match reply
    case Ok(_) => PairRun(true, [Renamed(r.group.name, r.newName)], [RenameDelay])
    case Fail(m) => PairRun(false, [RenameFailed(r.group.name, m)], if isRate(m) then [RateLimitDelay] else [])
  }

  /** The operations of a rename batch, `rename(i)` being the reply to the i-th call. */
  function RenameRow(plan: seq<Rename>, rename: nat -> Reply, isRate: string -> bool): (row: seq<PairRun>)
    ensures |row| == |plan|
  {
    seq(|plan|, i requires 0 <= i < |plan| => RenamePair(plan[i], rename(i), isRate))
  }

  /** A rename batch counts each planned group once, as a success exactly when its call
      succeeded, and reports progress after each success. */
  lemma RenameCounts(plan: seq<Rename>, rename: nat -> Reply, isRate: string -> bool)
    ensures var r := TallyRow(Empty, 0, RenameRow(plan, rename, isRate));
      && r.success + r.fail == |plan|
      && |r.progress| == r.success
      && (forall i :: 0 <= i < |plan| ==> (i + 1 in r.progress <==> rename(i).Ok?))
  {
    var row := RenameRow(plan, rename, isRate);
    TallyRowSpec(Empty, 0, row);
    assert forall i :: 0 <= i < |plan| ==> (row[i].ok <==> rename(i).Ok?);
  }

  /** The pause the rename loop takes after one call: five seconds after a success,
      ten after a rate-limited failure, none after any other failure. */
  function PauseAfter(reply: Reply, isRate: string -> bool): seq<nat> {
    match reply
    case Ok(_) => [RenameDelay]
    case Fail(m) => if isRate(m) then [RateLimitDelay] else []
  }

  /** The pauses after the first `n` calls, in call order. */
  function Pauses(n: nat, rename: nat -> Reply, isRate: string -> bool): seq<nat> {
    if n == 0 then [] else Pauses(n - 1, rename, isRate) + PauseAfter(rename(n - 1), isRate)
  }

  /** A rename batch sleeps exactly the pauses its replies call for, one call after
      another. */
  lemma {:induction false} RenameDelays(plan: seq<Rename>, rename: nat -> Reply, isRate: string -> bool)
    ensures TallyRow(Empty, 0, RenameRow(plan, rename, isRate)).delays == Pauses(|plan|, rename, isRate)
  {
    if |plan| > 0 {
      var front := plan[..|plan| - 1];
      var row := RenameRow(plan, rename, isRate);
      RenameDelays(front, rename, isRate);
      assert row[..|row| - 1] == RenameRow(front, rename, isRate);
    }
  }
}
