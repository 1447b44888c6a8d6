/**
 * Command ids: 128-bit UUIDs, held as their 32 hexadecimal digits. The text
 * form is the hyphenated lower-case one that `Uuid`'s `Display` writes
 * (8-4-4-4-12 digits), and parsing accepts that form in either case.
 */
module Uuids {
  import opened Wrappers

  type Nibble = x: int | 0 <= x < 16

  type Uuid = s: seq<Nibble> | |s| == 32 witness seq(32, _ => 0)

  function HexChar(n: Nibble): char
  {
    "0123456789abcdef"[n]
  }

  function HexValue(c: char): Option<Nibble>
  {
    if '0' <= c <= '9' then Some((c as int) - ('0' as int))
    else if 'a' <= c <= 'f' then Some((c as int) - ('a' as int) + 10)
    else if 'A' <= c <= 'F' then Some((c as int) - ('A' as int) + 10)
    else None
  }

  function Hex(ns: seq<Nibble>): (s: string)
    ensures |s| == |ns|
  {
    if ns == [] then "" else [HexChar(ns[0])] + Hex(ns[1..])
  }

  function ParseHex(s: string): (r: Option<seq<Nibble>>)
    ensures r.Some? ==> |r.value| == |s|
  {
    if s == [] then Some([])
    else match (HexValue(s[0]), ParseHex(s[1..]))
      case (Some(n), Some(rest)) => Some([n] + rest)
      case _ => None
  }

  /** The hyphenated text of a UUID (`cmd_id.to_string()`). */
  function UuidText(u: Uuid): (s: string)
    ensures |s| == 36
  {
    Hex(u[..8]) + "-" + Hex(u[8..12]) + "-" + Hex(u[12..16]) + "-" + Hex(u[16..20]) + "-" + Hex(u[20..])
  }

  predicate Hyphenated(s: string)
  {
    |s| == 36 && s[8] == '-' && s[13] == '-' && s[18] == '-' && s[23] == '-'
  }

  /** The text with its four hyphens taken out. */
  function Digits(s: string): string
    requires Hyphenated(s)
  {
    s[..8] + s[9..13] + s[14..18] + s[19..23] + s[24..]
  }

  /** Parses the hyphenated form; any other text is rejected. */
  function ParseUuid(s: string): (r: Option<Uuid>)
    ensures r.Some? ==> Hyphenated(s)
  {
    if !Hyphenated(s) then None
    else match ParseHex(Digits(s))
      case Some(ns) => Some(ns)
      case None => None
  }

  lemma {:induction false} ParseHexOfHex(ns: seq<Nibble>)
    ensures ParseHex(Hex(ns)) == Some(ns)
  {
    if ns != [] {
      ParseHexOfHex(ns[1..]);
      var s := Hex(ns);
      assert s[0] == HexChar(ns[0]);
      assert s[1..] == Hex(ns[1..]);
      assert ns == [ns[0]] + ns[1..];
    }
  }

  lemma {:induction false} HexSplit(a: seq<Nibble>, b: seq<Nibble>)
    ensures Hex(a + b) == Hex(a) + Hex(b)
  {
    if a == [] {
      assert a + b == b;
    } else {
      HexSplit(a[1..], b);
      assert (a + b)[1..] == a[1..] + b;
      assert (a + b)[0] == a[0];
    }
  }

  /** The text a UUID is written as parses back to the same UUID. */
  lemma UuidTextRoundTrip(u: Uuid)
    ensures ParseUuid(UuidText(u)) == Some(u)
  {
    var s := UuidText(u);
    var a, b, c, d, e := Hex(u[..8]), Hex(u[8..12]), Hex(u[12..16]), Hex(u[16..20]), Hex(u[20..]);
    assert s == a + "-" + b + "-" + c + "-" + d + "-" + e;
    assert s[..8] == a;
    assert s[9..13] == b;
    assert s[14..18] == c;
    assert s[19..23] == d;
    assert s[24..] == e;
    assert Hyphenated(s);
    HexSplit(u[..8], u[8..12]);
    HexSplit(u[..8] + u[8..12], u[12..16]);
    HexSplit(u[..8] + u[8..12] + u[12..16], u[16..20]);
    HexSplit(u[..8] + u[8..12] + u[12..16] + u[16..20], u[20..]);
    assert u[..8] + u[8..12] + u[12..16] + u[16..20] + u[20..] == u;
    assert Digits(s) == Hex(u);
    ParseHexOfHex(u);
  }
}
