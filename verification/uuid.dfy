/**
 * Foundation's `UUID` as far as the model needs it: its canonical text
 * (`uuidString`: upper-case, hyphenated 8-4-4-4-12) and the parser
 * `UUID(uuidString:)`, which accepts that layout in either case.
 */
module Uuids {
  import opened Wrappers
  import opened Hex

  /** A UUID is 128 bits, written as 32 hexadecimal digits. */
  type Uuid = ds: seq<Nibble> | |ds| == 32 witness seq(32, i => 0)

  function UuidString(u: Uuid): (s: string)
    ensures |s| == 36
  {
    DigitString(u[..8]) + "-" + DigitString(u[8..12]) + "-" + DigitString(u[12..16]) + "-"
      + DigitString(u[16..20]) + "-" + DigitString(u[20..])
  }

  /** `UUID(uuidString:)`: `None` unless `s` has the hyphenated layout with hexadecimal digits elsewhere. */
  function ParseUuid(s: string): Option<Uuid>
  {
    if |s| == 36 && s[8] == '-' && s[13] == '-' && s[18] == '-' && s[23] == '-' then
      match ParseDigits(s[..8] + s[9..13] + s[14..18] + s[19..23] + s[24..])
      case Some(ds) => Some(ds)
      case None => None
    else None
  }

  /** Where the `i`-th digit sits in the hyphenated text. */
  function Pos(i: nat): nat
  {
    i + (if i < 8 then 0 else if i < 12 then 1 else if i < 16 then 2 else if i < 20 then 3 else 4)
  }

  /** Removing the four hyphens of a 36-character text leaves the digits at `Pos`. */
  lemma {:induction false} Dehyphen(s: string)
    requires |s| == 36
    ensures var t := s[..8] + s[9..13] + s[14..18] + s[19..23] + s[24..];
      |t| == 32 && forall i :: 0 <= i < 32 ==> t[i] == s[Pos(i)]
  {
  }

  lemma {:induction false} UuidStringAt(u: Uuid, i: nat)
    requires i < 32
    ensures UuidString(u)[Pos(i)] == DigitChar(u[i])
    ensures UuidString(u)[8] == '-' && UuidString(u)[13] == '-' && UuidString(u)[18] == '-' && UuidString(u)[23] == '-'
  {
  }

  /** The canonical text of a UUID parses back to it, in upper or lower case. */
  lemma ParseUuidString(u: Uuid)
    ensures ParseUuid(UuidString(u)) == Some(u)
    ensures ParseUuid(LowerString(UuidString(u))) == Some(u)
  {
    var s := UuidString(u);
    var l := LowerString(s);
    UuidStringAt(u, 0);
    Dehyphen(s);
    Dehyphen(l);
    var d := DigitString(u);
    forall i | 0 <= i < 32
      ensures (s[..8] + s[9..13] + s[14..18] + s[19..23] + s[24..])[i] == d[i]
      ensures (l[..8] + l[9..13] + l[14..18] + l[19..23] + l[24..])[i] == LowerString(d)[i]
    {
      UuidStringAt(u, i);
    }
    assert s[..8] + s[9..13] + s[14..18] + s[19..23] + s[24..] == d;
    assert l[..8] + l[9..13] + l[14..18] + l[19..23] + l[24..] == LowerString(d);
    ParseDigitString(u);
  }

  lemma UuidStringInjective(u: Uuid, v: Uuid)
    requires UuidString(u) == UuidString(v)
    ensures u == v
  {
    ParseUuidString(u);
    ParseUuidString(v);
  }
}
