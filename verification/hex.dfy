/**
 * Hexadecimal digits, shared by the colour decoder (`Scanner.scanHexInt64`)
 * and by UUID strings (`UUID.uuidString`, `UUID(uuidString:)`).
 */
module Hex {
  import opened Wrappers

  type Nibble = x: int | 0 <= x < 16

  /** The value of a hexadecimal digit of either case; `None` for any other character. */
  function DigitValue(c: char): Option<Nibble>
  {
    if '0' <= c <= '9' then Some(c as int - '0' as int)
    else if 'a' <= c <= 'f' then Some(c as int - 'a' as int + 10)
    else if 'A' <= c <= 'F' then Some(c as int - 'A' as int + 10)
    else None
  }

  predicate IsDigit(c: char)
  {
    DigitValue(c).Some?
  }

  /** The upper-case digit for a nibble, as `uuidString` prints it. */
  function DigitChar(n: Nibble): (c: char)
    ensures DigitValue(c) == Some(n) && DigitValue(Lower(c)) == Some(n)
  {
    if n < 10 then ('0' as int + n) as char else ('A' as int + n - 10) as char
  }

  /** ASCII lower-casing of one character (`lowercased()` on hexadecimal text). */
  function Lower(c: char): char
  {
    if 'A' <= c <= 'Z' then (c as int + 32) as char else c
  }

  function LowerString(s: string): (r: string)
    ensures |r| == |s| && forall i :: 0 <= i < |s| ==> r[i] == Lower(s[i])
  {
    seq(|s|, i requires 0 <= i < |s| => Lower(s[i]))
  }

  /** Upper-case hexadecimal text of a digit sequence. */
  function DigitString(ds: seq<Nibble>): (r: string)
    ensures |r| == |ds| && forall i :: 0 <= i < |ds| ==> r[i] == DigitChar(ds[i])
  {
    seq(|ds|, i requires 0 <= i < |ds| => DigitChar(ds[i]))
  }

  /** The digits of `s` when every character is a hexadecimal digit. */
  function ParseDigits(s: string): (r: Option<seq<Nibble>>)
    ensures r.Some? <==> forall i :: 0 <= i < |s| ==> IsDigit(s[i])
    ensures r.Some? ==> |r.value| == |s| && forall i :: 0 <= i < |s| ==> DigitValue(s[i]) == Some(r.value[i])
  {
    if forall i :: 0 <= i < |s| ==> IsDigit(s[i])
    then Some(seq(|s|, i requires 0 <= i < |s| => DigitValue(s[i]).value))
    else None
  }

  lemma ParseDigitString(ds: seq<Nibble>)
    ensures ParseDigits(DigitString(ds)) == Some(ds)
    ensures ParseDigits(LowerString(DigitString(ds))) == Some(ds)
  {
    var u := DigitString(ds);
    var r := ParseDigits(u);
    assert r.Some?;
    assert r.value == ds;
    var l := LowerString(u);
    forall i | 0 <= i < |l| ensures DigitValue(l[i]) == Some(ds[i]) {
      assert l[i] == Lower(DigitChar(ds[i]));
    }
    assert ParseDigits(l).value == ds;
  }

  function Pow16(n: nat): (p: nat)
    ensures p >= 1
  {
    if n == 0 then 1 else 16 * Pow16(n - 1)
  }

  /** The number written by the digits `ds`, most significant first. */
  function Value(ds: seq<Nibble>): (v: nat)
    ensures v < Pow16(|ds|)
    decreases |ds|
  {
    if ds == [] then 0
    else
      var high := Value(ds[..|ds| - 1]);
      assert high <= Pow16(|ds| - 1) - 1;
      assert high * 16 <= Pow16(|ds|) - 16;
      high * 16 + ds[|ds| - 1]
  }
}
