/**
 * The few string operations the handlers borrow from Go's standard library:
 * the digit test behind the UPC regular expression, ASCII lower-casing,
 * `strings.Trim` with a one-character cut set, `%d` formatting, and `len`,
 * which counts the UTF-8 bytes of a string.
 */
module Text {

  predicate IsDigit(c: char) { '0' <= c <= '9' }

  /** `^[0-9]*$`; the UPC pattern `^[0-9]+$` adds non-emptiness. */
  predicate AllDigits(s: string) { forall i :: 0 <= i < |s| ==> IsDigit(s[i]) }

  function LowerChar(c: char): char
  {
    if 'A' <= c <= 'Z' then (c as int + 32) as char else c
  }

  /** `strings.ToLower`, on the ASCII letters. */
  function ToLower(s: string): string
  {
    seq(|s|, i requires 0 <= i < |s| => LowerChar(s[i]))
  }

  /** Drops every leading `c`. */
  function TrimLeft(s: string, c: char): (r: string)
    ensures |r| <= |s| && r == s[|s| - |r|..]
    ensures forall i :: 0 <= i < |s| - |r| ==> s[i] == c
    ensures |r| > 0 ==> r[0] != c
  {
    if |s| > 0 && s[0] == c then TrimLeft(s[1..], c) else s
  }

  /** Drops every trailing `c`. */
  function TrimRight(s: string, c: char): (r: string)
    ensures |r| <= |s| && r == s[..|r|]
    ensures forall i :: |r| <= i < |s| ==> s[i] == c
    ensures |r| > 0 ==> r[|r| - 1] != c
  {
    if |s| > 0 && s[|s| - 1] == c then TrimRight(s[..|s| - 1], c) else s
  }

  /** The number of leading `c` in `s`. */
  function Leading(s: string, c: char): (n: nat)
    ensures n <= |s|
    ensures forall i :: 0 <= i < n ==> s[i] == c
    ensures n < |s| ==> s[n] != c
  {
    if |s| > 0 && s[0] == c then 1 + Leading(s[1..], c) else 0
  }

  /**
   * `strings.Trim(s, string(c))`: the part of `s` between its leading and
   * its trailing run of `c`; everything cut off is `c`.
   */
  function Trim(s: string, c: char): (r: string)
    ensures Leading(s, c) + |r| <= |s|
    ensures r == s[Leading(s, c)..Leading(s, c) + |r|]
    ensures forall i :: Leading(s, c) + |r| <= i < |s| ==> s[i] == c
    ensures |r| > 0 ==> r[0] != c && r[|r| - 1] != c
  {
    var t := TrimLeft(s, c);
    LeadingTrimmed(s, c);
    TrimRight(t, c)
  }

  /** TrimLeft cuts exactly the leading run. */
  lemma {:induction false} LeadingTrimmed(s: string, c: char)
    ensures |s| - |TrimLeft(s, c)| == Leading(s, c)
  {
    if |s| > 0 && s[0] == c {
      LeadingTrimmed(s[1..], c);
    }
  }

  /** Position of the first `c` in `s`, or `|s|` when there is none. */
  function IndexOf(s: string, c: char): (k: nat)
    ensures k <= |s|
    ensures c !in s[..k]
    ensures k < |s| ==> s[k] == c
  {
    if |s| == 0 || s[0] == c then 0 else 1 + IndexOf(s[1..], c)
  }

  /** Searching past a prefix free of `c` lands on the `c` that follows it. */
  lemma {:induction false} IndexOfAfter(x: string, c: char, rest: string)
    requires forall j :: 0 <= j < |x| ==> x[j] != c
    requires |rest| > 0 && rest[0] == c
    ensures IndexOf(x + rest, c) == |x|
  {
    if |x| > 0 {
      assert (x + rest)[1..] == x[1..] + rest;
      IndexOfAfter(x[1..], c, rest);
    } else {
      assert x + rest == rest;
    }
  }

  function DigitChar(d: nat): char
    requires d < 10
  {
    ('0' as int + d) as char
  }

  /** The number a run of decimal digits denotes. */
  function DecimalValue(s: string): nat
    requires AllDigits(s)
  {
    if s == [] then 0 else 10 * DecimalValue(s[..|s| - 1]) + (s[|s| - 1] as int - '0' as int)
  }

  /** Decimal digits of `n`, most significant first, no leading zeros. */
  function NatDecimal(n: nat): (r: string)
    ensures |r| > 0 && AllDigits(r)
    ensures DecimalValue(r) == n
    ensures r[0] == '0' ==> n == 0
  {
    if n < 10 then [DigitChar(n)]
    else
      var h := NatDecimal(n / 10);
      var r := h + [DigitChar(n % 10)];
      assert r[..|r| - 1] == h;
      r
  }

  /** `fmt.Sprintf("%d", i)`: a minus sign for negatives, then the digits of the magnitude. */
  function IntDecimal(i: int): (r: string)
    ensures |r| > 0 && (r[0] == '-' <==> i < 0)
    ensures i >= 0 ==> AllDigits(r) && DecimalValue(r) == i && (r[0] == '0' ==> i == 0)
    ensures i < 0 ==> AllDigits(r[1..]) && DecimalValue(r[1..]) == -i && r[1] != '0'
  {
    if i < 0 then
      var d := NatDecimal(-i);
      assert ("-" + d)[1..] == d;
      "-" + d
    else NatDecimal(i)
  }

  /** The UTF-8 length of one character. */
  function Utf8Width(c: char): nat
  {
    if c as int < 0x80 then 1
    else if c as int < 0x800 then 2
    else if c as int < 0x1_0000 then 3
    else 4
  }

  /** Go's `len` of a string: its length in UTF-8 bytes; it equals the character count exactly on ASCII. */
  function Utf8Len(s: string): (n: nat)
    ensures |s| <= n <= 4 * |s|
    ensures n == |s| <==> forall i :: 0 <= i < |s| ==> s[i] as int < 0x80
  {
    if s == [] then 0
    else
      var p := s[..|s| - 1];
      assert forall i :: 0 <= i < |p| ==> p[i] == s[i];
      Utf8Len(p) + Utf8Width(s[|s| - 1])
  }
}
