/** JavaScript's `parseInt(text)` (no radix) and the decimal rendering of
    integers used when a new group name is built (`${name} ${n}`). */
module Numbers {

  import opened Wrappers
  import opened Text

  function DigitValue(c: char): (d: nat)
    requires IsDigit(c)
    ensures d < 10
  {
    c as int - '0' as int
  }

  function DigitChar(d: nat): (c: char)
    requires d < 10
    ensures IsDigit(c) && DigitValue(c) == d
  {
    ('0' as int + d) as char
  }

  predicate IsHexDigit(c: char) {
    IsDigit(c) || ('a' <= c <= 'f') || ('A' <= c <= 'F')
  }

  function HexValue(c: char): (d: nat)
    requires IsHexDigit(c)
    ensures d < 16
  {
    if IsDigit(c) then DigitValue(c)
    else if 'a' <= c <= 'f' then c as int - 'a' as int + 10
    else c as int - 'A' as int + 10
  }

  /** Decimal text of a natural number, without leading zeros. */
  function Decimal(n: nat): (s: string)
    ensures |s| > 0 && forall k :: 0 <= k < |s| ==> IsDigit(s[k])
    ensures (s[0] == '0') == (n == 0)
    ensures n == 0 ==> s == "0"
  {
    if n < 10 then [DigitChar(n)] else Decimal(n / 10) + [DigitChar(n % 10)]
  }

  /** Decimal text of an integer, as JavaScript prints it. */
  function IntText(n: int): (s: string)
    ensures |s| > 0
  {
    if n < 0 then "-" + Decimal(-n) else Decimal(n)
  }

  /** The value of a run of decimal digits, most significant first. */
  function DigitsValue(s: string): (v: nat)
    requires forall k :: 0 <= k < |s| ==> IsDigit(s[k])
  {
    if |s| == 0 then 0 else DigitsValue(s[..|s| - 1]) * 10 + DigitValue(s[|s| - 1])
  }

  /** The value of a run of hexadecimal digits, most significant first. */
  function HexDigitsValue(s: string): (v: nat)
    requires forall k :: 0 <= k < |s| ==> IsHexDigit(s[k])
  {
    if |s| == 0 then 0 else HexDigitsValue(s[..|s| - 1]) * 16 + HexValue(s[|s| - 1])
  }

  /** Length of the leading run of whitespace. */
  function SpaceRun(s: string): (n: nat)
    ensures n <= |s| && forall k :: 0 <= k < n ==> IsSpace(s[k])
    ensures n < |s| ==> !IsSpace(s[n])
  {
    if |s| > 0 && IsSpace(s[0]) then 1 + SpaceRun(s[1..]) else 0
  }

  /** Length of the leading run of decimal digits. */
  function DigitRun(s: string): (n: nat)
    ensures n <= |s| && forall k :: 0 <= k < n ==> IsDigit(s[k])
    ensures n < |s| ==> !IsDigit(s[n])
  {
    if |s| > 0 && IsDigit(s[0]) then 1 + DigitRun(s[1..]) else 0
  }

  /** Length of the leading run of hexadecimal digits. */
  function HexRun(s: string): (n: nat)
    ensures n <= |s| && forall k :: 0 <= k < n ==> IsHexDigit(s[k])
    ensures n < |s| ==> !IsHexDigit(s[n])
  {
    if |s| > 0 && IsHexDigit(s[0]) then 1 + HexRun(s[1..]) else 0
  }

  predicate HasHexPrefix(u: string) {
    |u| >= 2 && u[0] == '0' && (u[1] == 'x' || u[1] == 'X')
  }

  /** Whether a leading `-` is present, and the text after a leading `-` or `+`. */
  function SplitSign(t: string): (r: (bool, string))
    ensures |r.1| <= |t|
  {
    if |t| > 0 && t[0] == '-' then (true, t[1..])
    else if |t| > 0 && t[0] == '+' then (false, t[1..])
    else (false, t)
  }

  function Signed(negative: bool, v: nat): int {
    if negative then 0 - v as int else v
  }

  /** `parseInt(s)` without a radix: leading whitespace is skipped, an optional sign
      is read, a `0x`/`0X` prefix switches to base 16, and then the longest run of
      digits is read; anything after that run is ignored. No digit at all gives
      `NaN`, here `None`. */
  function ParseInt(s: string): (r: Option<int>)
  {
    var (negative, u) := SplitSign(s[SpaceRun(s)..]);
    if HasHexPrefix(u) then
      var h := HexRun(u[2..]);
      if h == 0 then None else Some(Signed(negative, HexDigitsValue(u[2..][..h])))
    else
      var d := DigitRun(u);
      if d == 0 then None else Some(Signed(negative, DigitsValue(u[..d])))
  }

  /** Reading back the decimal text of `n` gives `n`. */
  lemma {:induction false} DigitsValueOfDecimal(n: nat)
    ensures DigitsValue(Decimal(n)) == n
  {
    if n >= 10 {
      var s := Decimal(n);
      assert s[..|s| - 1] == Decimal(n / 10);
      DigitsValueOfDecimal(n / 10);
    }
  }

  /** A digit run stops at the first non-digit. */
  lemma {:induction false} DigitRunOfAppend(d: string, rest: string)
    requires forall k :: 0 <= k < |d| ==> IsDigit(d[k])
    requires rest == [] || !IsDigit(rest[0])
    ensures DigitRun(d + rest) == |d|
  {
    if |d| > 0 {
      assert (d + rest)[1..] == d[1..] + rest;
      DigitRunOfAppend(d[1..], rest);
    }
  }

  /** `parseInt` reads back the decimal text of a natural number, whatever
      non-digit text follows it ("3abc" gives 3). The one exception is a lone `0`
      followed by `x`, which JavaScript reads as a hexadecimal prefix. */
  lemma ParseIntOfDecimal(n: nat, rest: string)
    requires rest == [] || !IsDigit(rest[0])
    requires n == 0 && |rest| > 0 ==> rest[0] != 'x' && rest[0] != 'X'
    ensures ParseInt(Decimal(n) + rest) == Some(n)
  {
    var s := Decimal(n) + rest;
    assert s[0] == Decimal(n)[0];
    assert TrimStart(s) == s;
    assert SplitSign(s) == (false, s);
    assert !HasHexPrefix(s) by {
      if n == 0 && |rest| > 0 { assert s[1] == rest[0]; }
    }
    DigitRunOfAppend(Decimal(n), rest);
    assert s[..|Decimal(n)|] == Decimal(n);
    DigitsValueOfDecimal(n);
  }

  /** Trailing junk after the digits is ignored. */
  lemma ParseIntIgnoresJunk()
    ensures ParseInt("3abc") == Some(3)
  {
    ParseIntOfDecimal(3, "abc");
    assert Decimal(3) == "3";
  }

  /** A `0x` prefix makes `parseInt` read hexadecimal digits. */
  lemma ParseIntReadsHex(u: string)
    requires u == "0x1F"
    ensures ParseInt(u) == Some(31)
  {
    var h := u[2..];
    assert h == "1F";
    HexRunOneF();
    assert h[..HexRun(h)] == h;
    HexOneF();
    ParseIntOfHexText(u);
  }

  lemma ParseIntOfHexText(s: string)
    requires TrimStart(s) == s && SplitSign(s) == (false, s) && HasHexPrefix(s)
    requires HexRun(s[2..]) > 0
    ensures ParseInt(s) == Some(HexDigitsValue(s[2..][..HexRun(s[2..])]))
  {
  }

  lemma HexRunOneF()
    ensures HexRun("1F") == 2
  {
    assert "1F"[1..] == "F";
    assert "F"[1..] == "";
    assert HexRun("") == 0;
    assert HexRun("F") == 1;
  }

  lemma HexOneF()
    ensures HexDigitsValue("1F") == 31
  {
    assert "1F"[..1] == "1";
    assert "1"[..0] == "";
    assert HexValue('F') == 15;
  }

  /** Text without a leading digit is `NaN`. */
  lemma ParseIntRejectsWords()
    ensures ParseInt("abc") == None
  {
    assert TrimStart("abc") == "abc";
    assert SplitSign("abc") == (false, "abc");
  }
}
