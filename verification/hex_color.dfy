/**
 * `Color(hex:)`, down to its integer channels: trim the string of
 * non-alphanumeric characters at both ends, scan a hexadecimal number from
 * its start, and split that number into alpha, red, green and blue by the
 * length of the trimmed string (3, 6 or 8 characters; anything else is no
 * colour). Both targets carry the same decoder.
 */
module HexColor {
  import opened Wrappers
  import opened Hex

  /** Integer channels, alpha first. */
  datatype Argb = Argb(a: int, r: int, g: int, b: int)

  predicate InByteRange(x: int)
  {
    0 <= x < 256
  }

  predicate IsAlphanumeric(c: char)
  {
    'a' <= c <= 'z' || 'A' <= c <= 'Z' || '0' <= c <= '9'
  }

  /** Where the trimmed text starts: the first alphanumeric position at or after `i`, else `|s|`. */
  function TrimStart(s: string, i: nat): (lo: nat)
    requires i <= |s|
    ensures i <= lo <= |s|
    ensures forall k :: i <= k < lo ==> !IsAlphanumeric(s[k])
    ensures lo == |s| || IsAlphanumeric(s[lo])
    decreases |s| - i
  {
    if i == |s| || IsAlphanumeric(s[i]) then i else TrimStart(s, i + 1)
  }

  /** Where the trimmed text ends: just after the last alphanumeric position in `s[lo..j]`, else `lo`. */
  function TrimEnd(s: string, lo: nat, j: nat): (hi: nat)
    requires lo <= j <= |s|
    ensures lo <= hi <= j
    ensures forall k :: hi <= k < j ==> !IsAlphanumeric(s[k])
    ensures hi == lo || IsAlphanumeric(s[hi - 1])
    decreases j
  {
    if j == lo || IsAlphanumeric(s[j - 1]) then j else TrimEnd(s, lo, j - 1)
  }

  /** `trimmingCharacters(in: CharacterSet.alphanumerics.inverted)`. */
  function Trimmed(s: string): (r: string)
    ensures |r| <= |s|
    ensures r == [] || (IsAlphanumeric(r[0]) && IsAlphanumeric(r[|r| - 1]))
  {
    var lo := TrimStart(s, 0);
    s[lo..TrimEnd(s, lo, |s|)]
  }

  /** Trimming removes only non-alphanumeric characters, and only at the two ends. */
  lemma TrimmedSpec(s: string)
    ensures exists lo, hi :: 0 <= lo <= hi <= |s| && Trimmed(s) == s[lo..hi]
                             && (forall i :: 0 <= i < lo ==> !IsAlphanumeric(s[i]))
                             && (forall i :: hi <= i < |s| ==> !IsAlphanumeric(s[i]))
  {
    var lo := TrimStart(s, 0);
    var hi := TrimEnd(s, lo, |s|);
    assert Trimmed(s) == s[lo..hi];
  }

  /** A string that begins and ends with an alphanumeric character is its own trimming. */
  lemma TrimmedKeeps(s: string)
    requires s == [] || (IsAlphanumeric(s[0]) && IsAlphanumeric(s[|s| - 1]))
    ensures Trimmed(s) == s
  {
    assert TrimStart(s, 0) == 0;
    assert TrimEnd(s, 0, |s|) == |s|;
    assert s[0..|s|] == s;
  }

  /** Trimming twice is trimming once. */
  lemma TrimmedIdempotent(s: string)
    ensures Trimmed(Trimmed(s)) == Trimmed(s)
  {
    TrimmedKeeps(Trimmed(s));
  }

  /** The number of hexadecimal digits at the start of `s`. */
  function DigitRun(s: string): (n: nat)
    ensures n <= |s|
    ensures forall i :: 0 <= i < n ==> IsDigit(s[i])
    ensures n == |s| || !IsDigit(s[n])
  {
    if s == [] || !IsDigit(s[0]) then 0 else 1 + DigitRun(s[1..])
  }

  /** Where the digits start: after a `0x` or `0X` that a digit follows, else at the beginning. */
  function ScanStart(s: string): (k: nat)
    ensures k == 0 || k == 2
    ensures k <= |s|
  {
    if |s| > 2 && s[0] == '0' && (s[1] == 'x' || s[1] == 'X') && IsDigit(s[2]) then 2 else 0
  }

  /**
   * `Scanner.scanHexInt64`: the value of the digits found at the start (0
   * when there are none). At most `|s|` digits are read.
   */
  function Scanned(s: string): (v: nat)
    ensures v < Pow16(|s|)
  {
    var rest := s[ScanStart(s)..];
    var digits := rest[..DigitRun(rest)];
    var v := Value(ParseDigits(digits).value);
    Pow16Monotonic(|digits|, |s|);
    v
  }

  lemma {:induction false} Pow16Monotonic(m: nat, n: nat)
    requires m <= n
    ensures Pow16(m) <= Pow16(n)
    decreases n
  {
    if m < n {
      Pow16Monotonic(m, n - 1);
    }
  }

  /** The channels of a three-, six- or eight-digit number, as the `switch` splits them. */
  function Channels(count: int, v: nat): Option<Argb>
  {
    if count == 3 then Some(Argb(255, (v / 256) * 17, (v / 16 % 16) * 17, (v % 16) * 17))
    else if count == 6 then Some(Argb(255, v / 65536, v / 256 % 256, v % 256))
    else if count == 8 then Some(Argb(v / 16777216, v / 65536 % 256, v / 256 % 256, v % 256))
    else None
  }

  /** `Color(hex:)` up to the conversion of the channels to fractions. */
  function Decode(hex: string): (r: Option<Argb>)
    ensures r.Some? <==> |Trimmed(hex)| in {3, 6, 8}
  {
    var t := Trimmed(hex);
    Channels(|t|, Scanned(t))
  }

  predicate IsColor(c: Argb)
  {
    InByteRange(c.a) && InByteRange(c.r) && InByteRange(c.g) && InByteRange(c.b)
  }

  lemma ShortChannels(v: nat)
    requires v < 4096
    ensures IsColor(Channels(3, v).value)
    ensures Channels(3, v).value.a == 255
    ensures var c := Channels(3, v).value; c.r % 17 == 0 && c.g % 17 == 0 && c.b % 17 == 0
  {
    assert v / 256 < 16;
    Stretch(v / 256);
    Stretch(v / 16 % 16);
    Stretch(v % 16);
  }

  /** A nibble times 17 is a byte, and a multiple of 17. */
  lemma Stretch(x: int)
    requires 0 <= x < 16
    ensures InByteRange(x * 17) && (x * 17) % 17 == 0
  {
  }

  lemma RgbChannels(v: nat)
    requires v < 16777216
    ensures IsColor(Channels(6, v).value) && Channels(6, v).value.a == 255
  {
  }

  lemma ArgbChannels(v: nat)
    requires v < 4294967296
    ensures IsColor(Channels(8, v).value)
  {
  }

  /** Every decoded channel is a byte; only eight digits carry an alpha other than 255, and three digits give multiples of 17. */
  lemma DecodeChannelsInRange(hex: string)
    ensures Decode(hex).Some? ==> IsColor(Decode(hex).value)
    ensures Decode(hex).Some? && |Trimmed(hex)| != 8 ==> Decode(hex).value.a == 255
    ensures Decode(hex).Some? && |Trimmed(hex)| == 3 ==>
              Decode(hex).value.r % 17 == 0 && Decode(hex).value.g % 17 == 0 && Decode(hex).value.b % 17 == 0
  {
    var t := Trimmed(hex);
    var v := Scanned(t);
    if |t| == 3 {
      assert Pow16(3) == 4096;
      ShortChannels(v);
    } else if |t| == 6 {
      assert Pow16(6) == 16777216;
      RgbChannels(v);
    } else if |t| == 8 {
      assert Pow16(8) == 4294967296;
      ArgbChannels(v);
    }
  }

  /** Decoding looks only at the trimmed string. */
  lemma DecodeTrimmed(hex: string)
    ensures Decode(Trimmed(hex)) == Decode(hex)
  {
    TrimmedIdempotent(hex);
  }

  /** The value of digits written one after the other. */
  lemma {:induction false} ValueAppend(xs: seq<Nibble>, ys: seq<Nibble>)
    ensures Value(xs + ys) == Value(xs) * Pow16(|ys|) + Value(ys)
    decreases |ys|
  {
    if ys == [] {
      assert xs + ys == xs;
    } else {
      var ys' := ys[..|ys| - 1];
      assert (xs + ys)[..|xs + ys| - 1] == xs + ys';
      ValueAppend(xs, ys');
      var a, p, b, d := Value(xs), Pow16(|ys'|), Value(ys'), ys[|ys| - 1];
      assert Pow16(|ys|) == 16 * p;
      assert Value(ys) == b * 16 + d;
      assert Value(xs + ys) == (a * p + b) * 16 + d;
      assert (a * p + b) * 16 == (a * p) * 16 + b * 16;
      ScaleBy16(a, p);
    }
  }

  lemma ScaleBy16(a: int, p: int)
    ensures (a * p) * 16 == a * (16 * p)
  {
  }

  /** The two digits of a byte, high first. */
  function ByteDigits(x: int): (ds: seq<Nibble>)
    requires InByteRange(x)
    ensures |ds| == 2 && Value(ds) == x
  {
    var ds := [x / 16, x % 16];
    assert ds[..1] == [x / 16];
    assert Value([x / 16]) == x / 16 by { assert [x / 16][..0] == []; }
    ds
  }

  /** Upper-case digits always read back: a digit string is alphanumeric and never starts a `0x`. */
  lemma ScannedDigitString(ds: seq<Nibble>)
    ensures Trimmed(DigitString(ds)) == DigitString(ds)
    ensures Scanned(DigitString(ds)) == Value(ds)
  {
    var s := DigitString(ds);
    if s != [] {
      TrimmedKeeps(s);
    }
    assert ScanStart(s) == 0;
    assert s[0..] == s;
    assert DigitRun(s) == |s|;
    assert s[..|s|] == s;
    ParseDigitString(ds);
  }

  lemma DigitIsAlphanumeric(c: char)
    requires IsDigit(c)
    ensures IsAlphanumeric(c)
  {
  }

  lemma TrimmedHashDigits(ds: seq<Nibble>)
    ensures Trimmed("#" + DigitString(ds)) == DigitString(ds)
  {
    var s := DigitString(ds);
    var t := "#" + s;
    assert t[0] == '#';
    assert TrimStart(t, 0) == TrimStart(t, 1);
    if s != [] {
      DigitIsAlphanumeric(s[0]);
      DigitIsAlphanumeric(s[|s| - 1]);
      assert t[1] == s[0] && t[|t| - 1] == s[|s| - 1];
    }
    assert TrimStart(t, 1) == 1;
    assert TrimEnd(t, 1, |t|) == |t|;
    assert t[1..|t|] == s;
  }

  /** `#` followed by upper-case digits decodes to the channels of their value. */
  lemma DecodeHashDigits(ds: seq<Nibble>)
    ensures Decode("#" + DigitString(ds)) == Channels(|ds|, Value(ds))
  {
    var s := DigitString(ds);
    TrimmedHashDigits(ds);
    ScannedDigitString(ds);
    var t := Trimmed("#" + s);
    assert t == s;
    assert Scanned(t) == Value(ds);
    assert |t| == |ds|;
  }

  /** Digits after `#` whose value splits into `c` decode to `c`. */
  lemma DecodeHashValue(ds: seq<Nibble>, v: nat, c: Argb)
    requires Value(ds) == v && Channels(|ds|, v) == Some(c)
    ensures Decode("#" + DigitString(ds)) == Some(c)
  {
    DecodeHashDigits(ds);
  }

  lemma RgbValue(r: int, g: int, b: int)
    requires InByteRange(r) && InByteRange(g) && InByteRange(b)
    ensures Value(ByteDigits(r) + ByteDigits(g) + ByteDigits(b)) == (r * 256 + g) * 256 + b
  {
    ValueAppend(ByteDigits(r), ByteDigits(g));
    ValueAppend(ByteDigits(r) + ByteDigits(g), ByteDigits(b));
    assert Pow16(2) == 256;
  }

  lemma Split16(q: int, b: int)
    requires 0 <= b < 16
    ensures (q * 16 + b) / 16 == q && (q * 16 + b) % 16 == b
  {
  }

  lemma Split256(q: int, b: int)
    requires InByteRange(b)
    ensures (q * 256 + b) / 256 == q && (q * 256 + b) % 256 == b
  {
  }

  /** `v >> 8` is two four-bit shifts. */
  lemma Shift8(v: nat)
    ensures v / 256 == v / 16 / 16
  {
    var q, m, b := v / 16 / 16, v / 16 % 16, v % 16;
    assert v == (q * 16 + m) * 16 + b;
    assert v == q * 256 + (m * 16 + b);
  }

  /** `v >> 16` is two eight-bit shifts. */
  lemma Shift16(v: nat)
    ensures v / 65536 == v / 256 / 256
  {
    var q, m, b := v / 256 / 256, v / 256 % 256, v % 256;
    assert v == (q * 256 + m) * 256 + b;
    assert v == q * 65536 + (m * 256 + b);
  }

  /** `v >> 24` is `v >> 16` shifted by eight more. */
  lemma Shift24(v: nat)
    ensures v / 16777216 == v / 65536 / 256
  {
    var q, m, b := v / 65536 / 256, v / 65536 % 256, v % 65536;
    assert v == (q * 256 + m) * 65536 + b;
    assert v == q * 16777216 + (m * 65536 + b);
  }

  lemma RgbChannelsOf(r: int, g: int, b: int)
    requires InByteRange(r) && InByteRange(g) && InByteRange(b)
    ensures Channels(6, (r * 256 + g) * 256 + b) == Some(Argb(255, r, g, b))
  {
    var v := (r * 256 + g) * 256 + b;
    Split256(r * 256 + g, b);
    Split256(r, g);
    Shift16(v);
  }

  /** `#RRGGBB` written with upper-case digits decodes to the same bytes, fully opaque. */
  lemma RgbRoundTrip(r: int, g: int, b: int)
    requires InByteRange(r) && InByteRange(g) && InByteRange(b)
    ensures Decode("#" + DigitString(ByteDigits(r) + ByteDigits(g) + ByteDigits(b))) == Some(Argb(255, r, g, b))
  {
    var ds := ByteDigits(r) + ByteDigits(g) + ByteDigits(b);
    RgbValue(r, g, b);
    RgbChannelsOf(r, g, b);
    assert |ds| == 6;
    DecodeHashValue(ds, (r * 256 + g) * 256 + b, Argb(255, r, g, b));
  }

  lemma ArgbValue(a: int, r: int, g: int, b: int)
    requires InByteRange(a) && InByteRange(r) && InByteRange(g) && InByteRange(b)
    ensures Value(ByteDigits(a) + ByteDigits(r) + ByteDigits(g) + ByteDigits(b)) == ((a * 256 + r) * 256 + g) * 256 + b
  {
    ValueAppend(ByteDigits(a), ByteDigits(r));
    ValueAppend(ByteDigits(a) + ByteDigits(r), ByteDigits(g));
    ValueAppend(ByteDigits(a) + ByteDigits(r) + ByteDigits(g), ByteDigits(b));
    assert Pow16(2) == 256;
  }

  lemma ArgbChannelsOf(a: int, r: int, g: int, b: int)
    requires InByteRange(a) && InByteRange(r) && InByteRange(g) && InByteRange(b)
    ensures Channels(8, ((a * 256 + r) * 256 + g) * 256 + b) == Some(Argb(a, r, g, b))
  {
    var w := (a * 256 + r) * 256 + g;
    var v := w * 256 + b;
    Split256(w, b);
    Split256(a * 256 + r, g);
    Split256(a, r);
    Shift16(v);
    Shift24(v);
  }

  /** `#AARRGGBB` is read in ARGB order. */
  lemma ArgbRoundTrip(a: int, r: int, g: int, b: int)
    requires InByteRange(a) && InByteRange(r) && InByteRange(g) && InByteRange(b)
    ensures Decode("#" + DigitString(ByteDigits(a) + ByteDigits(r) + ByteDigits(g) + ByteDigits(b))) == Some(Argb(a, r, g, b))
  {
    var ds := ByteDigits(a) + ByteDigits(r) + ByteDigits(g) + ByteDigits(b);
    ArgbValue(a, r, g, b);
    ArgbChannelsOf(a, r, g, b);
    assert |ds| == 8;
    DecodeHashValue(ds, ((a * 256 + r) * 256 + g) * 256 + b, Argb(a, r, g, b));
  }

  lemma ShortValue(r: Nibble, g: Nibble, b: Nibble)
    ensures Value([r, g, b]) == (r * 16 + g) * 16 + b
  {
    assert [r, g, b][..2] == [r, g];
    assert [r, g][..1] == [r];
    assert [r][..0] == [];
    assert Value([r]) == r;
    assert Value([r, g]) == r * 16 + g;
  }

  lemma ShortChannelsOf(r: Nibble, g: Nibble, b: Nibble)
    ensures Channels(3, (r * 16 + g) * 16 + b) == Some(Argb(255, r * 17, g * 17, b * 17))
  {
    var v := (r * 16 + g) * 16 + b;
    Split16(r * 16 + g, b);
    Split16(r, g);
    Shift8(v);
  }

  /** `#RGB` stretches each nibble to a byte by repeating it (times 17). */
  lemma ShortRoundTrip(r: Nibble, g: Nibble, b: Nibble)
    ensures Decode("#" + DigitString([r, g, b])) == Some(Argb(255, r * 17, g * 17, b * 17))
  {
    ShortValue(r, g, b);
    ShortChannelsOf(r, g, b);
    DecodeHashValue([r, g, b], (r * 16 + g) * 16 + b, Argb(255, r * 17, g * 17, b * 17));
  }

  /** Any other number of digits gives no colour, e.g. the five of `#12345`; so does the empty string. */
  lemma OtherLengthsRejected(ds: seq<Nibble>)
    requires |ds| != 3 && |ds| != 6 && |ds| != 8
    ensures Decode("#" + DigitString(ds)) == None
    ensures Decode("") == None
  {
    TrimmedHashDigits(ds);
    assert |Trimmed("")| == 0;
  }
}
