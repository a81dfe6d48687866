/** The string operations the handlers use (`trim`, `toLowerCase`, `includes`,
    `startsWith`, `endsWith`, `replace` with a string pattern, `split(c)[0]`),
    over `seq<char>` with ASCII character classes. */
module Text {

  import opened Wrappers

  /** JavaScript's whitespace restricted to ASCII: space, and TAB, LF, VT, FF, CR. */
  predicate IsSpace(c: char) {
    c == ' ' || ('\t' <= c <= '\r')
  }

  predicate IsDigit(c: char) {
    '0' <= c <= '9'
  }

  /** No leading and no trailing whitespace. */
  predicate IsTrimmed(s: string) {
    |s| == 0 || (!IsSpace(s[0]) && !IsSpace(s[|s| - 1]))
  }

  function TrimStart(s: string): (r: string)
    ensures |r| <= |s| && r == s[|s| - |r|..]
    ensures |r| == 0 || !IsSpace(r[0])
    ensures forall k :: 0 <= k < |s| - |r| ==> IsSpace(s[k])
  {
    if |s| > 0 && IsSpace(s[0]) then TrimStart(s[1..]) else s
  }

  function TrimEnd(s: string): (r: string)
    ensures |r| <= |s| && r == s[..|r|]
    ensures |r| == 0 || !IsSpace(r[|r| - 1])
    ensures forall k :: |r| <= k < |s| ==> IsSpace(s[k])
  {
    if |s| > 0 && IsSpace(s[|s| - 1]) then TrimEnd(s[..|s| - 1]) else s
  }

  /** `String.prototype.trim`: the longest slice of `s` without whitespace at
      either end, obtained by dropping only whitespace. */
  function Trim(s: string): (r: string)
    ensures IsTrimmed(r)
    ensures forall k :: 0 <= k < |s| && !IsSpace(s[k]) ==> |r| > 0
  {
    TrimEnd(TrimStart(s))
  }

  /** Trimming drops whitespace only, and all of it from both ends: the result is
      the slice of `s` between the first and the last non-whitespace character, and
      it is empty exactly when `s` is blank. */
  lemma TrimBlank(s: string)
    ensures exists i :: SliceAt(s, Trim(s), i) && (forall k :: 0 <= k < i ==> IsSpace(s[k]))
                        && (forall k :: i + |Trim(s)| <= k < |s| ==> IsSpace(s[k]))
    ensures |Trim(s)| > 0 <==> exists k :: 0 <= k < |s| && !IsSpace(s[k])
  {
    var t := TrimStart(s);
    var i := |s| - |t|;
    assert SliceAt(s, Trim(s), i);
    forall k | i + |Trim(s)| <= k < |s| ensures IsSpace(s[k]) {
      assert s[k] == t[k - i];
    }
    if |Trim(s)| > 0 {
      assert s[i] == Trim(s)[0];
    }
  }

  /** `r` occurs in `s` starting at index `i`. */
  predicate SliceAt(s: string, r: string, i: int) {
    0 <= i <= |s| - |r| && r == s[i..i + |r|]
  }

  /** Trimming a string that already has no whitespace at its ends changes nothing. */
  lemma TrimOfTrimmed(s: string)
    requires IsTrimmed(s)
    ensures Trim(s) == s
  {
  }

  function LowerChar(c: char): (r: char)
    ensures 'A' <= c <= 'Z' ==> r as int == c as int + 32
    ensures !('A' <= c <= 'Z') ==> r == c
  {
    if 'A' <= c <= 'Z' then (c as int + 32) as char else c
  }

  /** `toLowerCase` on ASCII letters; every other character is kept. */
  function ToLower(s: string): (r: string)
    ensures |r| == |s| && forall k :: 0 <= k < |s| ==> r[k] == LowerChar(s[k])
  {
    seq(|s|, k requires 0 <= k < |s| => LowerChar(s[k]))
  }

  /** Lower-casing twice is lower-casing once. */
  lemma ToLowerIdempotent(s: string)
    ensures ToLower(ToLower(s)) == ToLower(s)
  {
  }

  predicate StartsWith(s: string, p: string) {
    |p| <= |s| && s[..|p|] == p
  }

  predicate EndsWith(s: string, p: string) {
    |p| <= |s| && s[|s| - |p|..] == p
  }

  /** `s.includes(sub)`. */
  predicate Contains(s: string, sub: string) {
    exists i | 0 <= i <= |s| :: StartsWith(s[i..], sub)
  }

  /** Index of the first occurrence of `p` in `s` at or after `from`. */
  function IndexFrom(s: string, p: string, from: nat): (r: Option<nat>)
    decreases |s| - from
    ensures r.Some? ==> from <= r.value <= |s| && StartsWith(s[r.value..], p)
    ensures r.Some? ==> forall k :: from <= k < r.value ==> !StartsWith(s[k..], p)
    ensures r.None? ==> forall k :: from <= k <= |s| ==> !StartsWith(s[k..], p)
  {
    if from > |s| then None
    else if StartsWith(s[from..], p) then Some(from)
    else IndexFrom(s, p, from + 1)
  }

  /** `s.replace(p, r)` with a string pattern: only the FIRST occurrence is replaced. */
  function ReplaceFirst(s: string, p: string, r: string): string {
    match IndexFrom(s, p, 0)
    case None => s
    case Some(i) => s[..i] + r + s[i + |p|..]
  }

  /** When `s` starts with `p`, removing the first occurrence of `p` removes exactly
      that prefix: this is how the handlers read the payload of a prefixed token. */
  lemma ReplaceFirstOfPrefix(s: string, p: string)
    requires StartsWith(s, p)
    ensures ReplaceFirst(s, p, "") == s[|p|..]
  {
    assert s[0..] == s;
  }

  /** Building a token from a prefix and a payload and then stripping the prefix
      returns the payload. */
  lemma StripPrefixRoundTrip(p: string, payload: string)
    ensures ReplaceFirst(p + payload, p, "") == payload
  {
    assert (p + payload)[..|p|] == p;
    ReplaceFirstOfPrefix(p + payload, p);
    assert (p + payload)[|p|..] == payload;
  }

  /** `s.split(c)[0]`: everything before the first `c` (all of `s` if there is none). */
  function Before(s: string, c: char): (r: string)
    ensures |r| <= |s| && r == s[..|r|] && c !in r
    ensures |r| < |s| ==> s[|r|] == c
  {
    if |s| == 0 then "" else if s[0] == c then "" else [s[0]] + Before(s[1..], c)
  }

  /** If `c` does not occur in `s`, nothing is cut, also when more text follows
      after a `c`. */
  lemma {:induction false} BeforeOfAppend(s: string, c: char, rest: string)
    requires c !in s
    ensures Before(s + [c] + rest, c) == s
  {
    if |s| > 0 {
      assert (s + [c] + rest)[1..] == s[1..] + [c] + rest;
      BeforeOfAppend(s[1..], c, rest);
    }
  }
}
