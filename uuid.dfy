/**
 * UUIDs and their canonical text form (RFC 4122 section 3): 32 lower-case hex digits in
 * groups of 8-4-4-4-12 separated by hyphens. Python's `str(uuid)` produces exactly this form,
 * and every id of the system (rows, jobs keys, event entity ids) is rendered through it.
 */
module Uuids {
  import opened Wrappers

  newtype Byte = x: int | 0 <= x < 256

  /** A UUID is its 16 octets. */
  type Uuid = b: seq<Byte> | |b| == 16 witness seq(16, _ => 0 as Byte)

  predicate IsLowerHex(c: char) {
    '0' <= c <= '9' || 'a' <= c <= 'f'
  }

  function HexDigit(d: nat): (c: char)
    requires d < 16
    ensures IsLowerHex(c)
  {
    if d < 10 then ('0' as int + d) as char else ('a' as int + d - 10) as char
  }

  function HexValue(c: char): (d: nat)
    requires IsLowerHex(c)
    ensures d < 16 && HexDigit(d) == c
  {
    if c <= '9' then c as int - '0' as int else c as int - 'a' as int + 10
  }

  lemma HexValueOfDigit(d: nat)
    requires d < 16
    ensures HexValue(HexDigit(d)) == d
  {
  }

  /** Two hex digits per octet, high nibble first. */
  function Hex(bs: seq<Byte>): (s: string)
    ensures |s| == 2 * |bs|
  {
    if bs == [] then [] else [HexDigit(bs[0] as nat / 16), HexDigit(bs[0] as nat % 16)] + Hex(bs[1..])
  }

  lemma {:induction false} HexIsLowerHex(bs: seq<Byte>)
    ensures forall i :: 0 <= i < |Hex(bs)| ==> IsLowerHex(Hex(bs)[i])
  {
    if bs != [] {
      HexIsLowerHex(bs[1..]);
    }
  }

  /** Inverse of `Hex`: an even number of lower-case hex digits back to octets. */
  function ParseHex(s: string): (r: Option<seq<Byte>>)
    ensures r.Some? ==> 2 * |r.value| == |s|
    decreases |s|
  {
    if s == [] then Some([])
    else if |s| == 1 || !IsLowerHex(s[0]) || !IsLowerHex(s[1]) then None
    else match ParseHex(s[2..])
      case None => None
      case Some(rest) => Some([(HexValue(s[0]) * 16 + HexValue(s[1])) as Byte] + rest)
  }

  lemma {:induction false} ParseHexOfHex(bs: seq<Byte>)
    ensures ParseHex(Hex(bs)) == Some(bs)
  {
    if bs != [] {
      var s := Hex(bs);
      var hi, lo := bs[0] as nat / 16, bs[0] as nat % 16;
      assert s[2..] == Hex(bs[1..]);
      ParseHexOfHex(bs[1..]);
      HexValueOfDigit(hi);
      HexValueOfDigit(lo);
      assert (hi * 16 + lo) as Byte == bs[0];
      assert [bs[0]] + bs[1..] == bs;
    }
  }

  lemma {:induction false} HexOfParseHex(s: string)
    requires ParseHex(s).Some?
    ensures Hex(ParseHex(s).value) == s
    decreases |s|
  {
    if s != [] {
      var rest := ParseHex(s[2..]).value;
      HexOfParseHex(s[2..]);
      var b := (HexValue(s[0]) * 16 + HexValue(s[1])) as Byte;
      assert ParseHex(s).value == [b] + rest;
      assert ([b] + rest)[1..] == rest;
      assert b as nat / 16 == HexValue(s[0]) && b as nat % 16 == HexValue(s[1]);
    }
  }

  /** Offsets of the four hyphens of the canonical form. */
  predicate HyphenAt(i: int) {
    i == 8 || i == 13 || i == 18 || i == 23
  }

  /** `str(uuid)`: the canonical 8-4-4-4-12 form. */
  function Canonical(u: Uuid): (s: string)
    ensures |s| == 36
    ensures forall i :: 0 <= i < 36 ==> (s[i] == '-' <==> HyphenAt(i))
    ensures forall i :: 0 <= i < 36 && !HyphenAt(i) ==> IsLowerHex(s[i])
  {
    HexIsLowerHex(u[..4]);
    HexIsLowerHex(u[4..6]);
    HexIsLowerHex(u[6..8]);
    HexIsLowerHex(u[8..10]);
    HexIsLowerHex(u[10..]);
    Hex(u[..4]) + "-" + Hex(u[4..6]) + "-" + Hex(u[6..8]) + "-" + Hex(u[8..10]) + "-" + Hex(u[10..])
  }

  /** Reads the canonical form back; anything else is rejected. */
  function Parse(s: string): (r: Option<Uuid>)
  {
    if |s| != 36 || s[8] != '-' || s[13] != '-' || s[18] != '-' || s[23] != '-' then None
    else match (ParseHex(s[..8]), ParseHex(s[9..13]), ParseHex(s[14..18]), ParseHex(s[19..23]), ParseHex(s[24..]))
      case (Some(a), Some(b), Some(c), Some(d), Some(e)) => Some(a + b + c + d + e)
      case _ => None
  }

  /** Parsing the canonical form gives back the UUID. */
  lemma ParseCanonical(u: Uuid)
    ensures Parse(Canonical(u)) == Some(u)
  {
    var s := Canonical(u);
    assert s[..8] == Hex(u[..4]);
    assert s[9..13] == Hex(u[4..6]);
    assert s[14..18] == Hex(u[6..8]);
    assert s[19..23] == Hex(u[8..10]);
    assert s[24..] == Hex(u[10..]);
    ParseHexOfHex(u[..4]);
    ParseHexOfHex(u[4..6]);
    ParseHexOfHex(u[6..8]);
    ParseHexOfHex(u[8..10]);
    ParseHexOfHex(u[10..]);
    assert u[..4] + u[4..6] + u[6..8] + u[8..10] + u[10..] == u;
  }

  /** Whatever parses is in canonical form already. */
  lemma CanonicalOfParse(s: string)
    requires Parse(s).Some?
    ensures Canonical(Parse(s).value) == s
  {
    var a, b, c, d, e := ParseHex(s[..8]).value, ParseHex(s[9..13]).value, ParseHex(s[14..18]).value,
      ParseHex(s[19..23]).value, ParseHex(s[24..]).value;
    HexOfParseHex(s[..8]);
    HexOfParseHex(s[9..13]);
    HexOfParseHex(s[14..18]);
    HexOfParseHex(s[19..23]);
    HexOfParseHex(s[24..]);
    var u := Parse(s).value;
    assert u == a + b + c + d + e;
    assert u[..4] == a && u[4..6] == b && u[6..8] == c && u[8..10] == d && u[10..] == e;
    assert s == s[..8] + "-" + s[9..13] + "-" + s[14..18] + "-" + s[19..23] + "-" + s[24..];
  }

  /** Distinct UUIDs have distinct canonical forms. */
  lemma CanonicalInjective(u: Uuid, v: Uuid)
    ensures Canonical(u) == Canonical(v) ==> u == v
  {
    ParseCanonical(u);
    ParseCanonical(v);
  }
}
