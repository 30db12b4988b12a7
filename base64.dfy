/**
 * The base 64 encoding of section 4 of RFC 4648, which the back end uses to
 * store an uploaded file's bytes inside a text field (`base64.b64encode`) and
 * to read them back (`base64.b64decode`).
 */
module Base64 {
  import opened Wrappers

  type byte = x: int | 0 <= x < 256
  type sextet = x: int | 0 <= x < 64

  /** The alphabet of Table 1 of RFC 4648. */
  function SextetChar(v: sextet): (c: char)
    ensures c != '='
  {
    if v < 26 then ('A' as int + v) as char
    else if v < 52 then ('a' as int + (v - 26)) as char
    else if v < 62 then ('0' as int + (v - 52)) as char
    else if v == 62 then '+'
    else '/'
  }

  /** The value of an alphabet character; None for any other character,
      the pad character '=' included. */
  function CharSextet(c: char): (r: Option<sextet>)
    ensures r.Some? ==> SextetChar(r.value) == c
  {
    if 'A' <= c <= 'Z' then Some(c as int - 'A' as int)
    else if 'a' <= c <= 'z' then Some(c as int - 'a' as int + 26)
    else if '0' <= c <= '9' then Some(c as int - '0' as int + 52)
    else if c == '+' then Some(62)
    else if c == '/' then Some(63)
    else None
  }

  lemma SextetRoundTrip(v: sextet)
    ensures CharSextet(SextetChar(v)) == Some(v)
  {
  }

  /** Three bytes as four characters (section 4, a full 24-bit group). */
  function EncodeGroup(b0: byte, b1: byte, b2: byte): string {
    [ SextetChar(b0 / 4),
      SextetChar((b0 % 4) * 16 + b1 / 16),
      SextetChar((b1 % 16) * 4 + b2 / 64),
      SextetChar(b2 % 64) ]
  }

  /** `b64encode`: full groups, then a final group of one byte padded with
      "==" or of two bytes padded with "=". */
  function Encode(b: seq<byte>): string
    decreases |b|
  {
    if |b| == 0 then ""
    else if |b| == 1 then
      [SextetChar(b[0] / 4), SextetChar((b[0] % 4) * 16), '=', '=']
    else if |b| == 2 then
      [SextetChar(b[0] / 4), SextetChar((b[0] % 4) * 16 + b[1] / 16), SextetChar((b[1] % 16) * 4), '=']
    else
      EncodeGroup(b[0], b[1], b[2]) + Encode(b[3..])
  }

  /** The encoding has four characters per started group of three bytes. */
  lemma {:induction false} EncodeLength(b: seq<byte>)
    ensures |Encode(b)| == 4 * ((|b| + 2) / 3)
    decreases |b|
  {
    if |b| >= 3 {
      EncodeLength(b[3..]);
      EncodeFullGroup(b);
      var n := |b| - 3;
      assert (n + 3 + 2) / 3 == (n + 2) / 3 + 1;
    }
  }

  /** Four alphabet characters as three bytes. */
  function DecodeGroup(s: string): Option<seq<byte>>
    requires |s| == 4
  {
    match (CharSextet(s[0]), CharSextet(s[1]), CharSextet(s[2]), CharSextet(s[3]))
    case (Some(c0), Some(c1), Some(c2), Some(c3)) =>
      var b0: byte, b1: byte, b2: byte := c0 as int * 4 + c1 / 16, (c1 as int % 16) * 16 + c2 / 4, (c2 as int % 4) * 64 + c3;
      Some([b0, b1, b2])
    case _ => None
  }

  /** The last group, which may end in one or two pad characters. */
  function DecodeFinal(s: string): Option<seq<byte>>
    requires |s| == 4
  {
    if s[2] == '=' && s[3] == '=' then
      match (CharSextet(s[0]), CharSextet(s[1]))
      case (Some(c0), Some(c1)) =>
        var b0: byte := c0 as int * 4 + c1 / 16;
        Some([b0])
      case _ => None
    else if s[3] == '=' then
      match (CharSextet(s[0]), CharSextet(s[1]), CharSextet(s[2]))
      case (Some(c0), Some(c1), Some(c2)) =>
        var b0: byte, b1: byte := c0 as int * 4 + c1 / 16, (c1 as int % 16) * 16 + c2 / 4;
        Some([b0, b1])
      case _ => None
    else DecodeGroup(s)
  }

  /** `b64decode` on well-formed input: a length that is a multiple of four,
      alphabet characters only, padding only in the last group. */
  function Decode(s: string): Option<seq<byte>>
    decreases |s|
  {
    if s == [] then Some([])
    else if |s| < 4 then None
    else if |s| == 4 then DecodeFinal(s)
    else
      match (DecodeGroup(s[..4]), Decode(s[4..]))
      case (Some(g), Some(rest)) => Some(g + rest)
      case _ => None
  }

  lemma GroupRoundTrip(b0: byte, b1: byte, b2: byte)
    ensures DecodeGroup(EncodeGroup(b0, b1, b2)) == Some([b0, b1, b2])
  {
    var c0, c1, c2, c3 := b0 / 4, (b0 % 4) * 16 + b1 / 16, (b1 % 16) * 4 + b2 / 64, b2 % 64;
    SextetRoundTrip(c0); SextetRoundTrip(c1); SextetRoundTrip(c2); SextetRoundTrip(c3);
    assert c1 / 16 == b0 % 4 && c1 % 16 == b1 / 16;
    assert c2 / 4 == b1 % 16 && c2 % 4 == b2 / 64;
  }

  /** A text of one group decodes as a final group. */
  lemma DecodeSingleGroup(s: string)
    requires |s| == 4
    ensures Decode(s) == DecodeFinal(s)
  {
  }

  /** A one-byte tail encodes as two sextets and two pad characters. */
  lemma EncodeOneByte(b: seq<byte>)
    requires |b| == 1
    ensures Encode(b) == [SextetChar(b[0] / 4), SextetChar((b[0] % 4) * 16), '=', '=']
  {
  }

  /** The final group of one byte decodes to it. */
  lemma OneByteFinal(x: byte)
    ensures DecodeFinal([SextetChar(x / 4), SextetChar((x % 4) * 16), '=', '=']) == Some([x])
  {
    var c0: sextet, c1: sextet := x / 4, (x % 4) * 16;
    SextetRoundTrip(c0); SextetRoundTrip(c1);
    assert c1 / 16 == x % 4;
  }

  /** The final group of a one-byte tail decodes to that byte. */
  lemma OneByteRoundTrip(b: seq<byte>)
    requires |b| == 1
    ensures Decode(Encode(b)) == Some(b)
  {
    EncodeOneByte(b);
    DecodeSingleGroup(Encode(b));
    OneByteFinal(b[0]);
    assert [b[0]] == b;
  }

  /** A two-byte tail encodes as three sextets and one pad character. */
  lemma EncodeTwoBytes(b: seq<byte>)
    requires |b| == 2
    ensures Encode(b) == [SextetChar(b[0] / 4), SextetChar((b[0] % 4) * 16 + b[1] / 16), SextetChar((b[1] % 16) * 4), '=']
  {
  }

  /** A final group with one pad character decodes its three sextets. */
  lemma DecodeFinalOnePad(s0: char, s1: char, s2: char, c0: sextet, c1: sextet, c2: sextet)
    requires CharSextet(s0) == Some(c0) && CharSextet(s1) == Some(c1) && CharSextet(s2) == Some(c2)
    ensures DecodeFinal([s0, s1, s2, '=']) == Some([c0 * 4 + c1 / 16, (c1 % 16) * 16 + c2 / 4])
  {
  }

  /** The final group of two bytes decodes to them. */
  lemma TwoByteFinal(x: byte, y: byte)
    ensures DecodeFinal([SextetChar(x / 4), SextetChar((x % 4) * 16 + y / 16), SextetChar((y % 16) * 4), '=']) == Some([x, y])
  {
    var c1 := (x % 4) * 16 + y / 16;
    assert c1 < 64 && c1 / 16 == x % 4 && c1 % 16 == y / 16;
    var c0: sextet, c2: sextet := x / 4, (y % 16) * 4;
    SextetRoundTrip(c0); SextetRoundTrip(c1); SextetRoundTrip(c2);
    DecodeFinalOnePad(SextetChar(c0), SextetChar(c1), SextetChar(c2), c0, c1, c2);
  }

  /** The final group of a two-byte tail decodes to those bytes. */
  lemma TwoByteRoundTrip(b: seq<byte>)
    requires |b| == 2
    ensures Decode(Encode(b)) == Some(b)
  {
    EncodeTwoBytes(b);
    DecodeSingleGroup(Encode(b));
    TwoByteFinal(b[0], b[1]);
    assert [b[0], b[1]] == b;
  }

  /** A sequence of three or more is its first three, then the rest. */
  lemma SplitThree<T>(b: seq<T>)
    requires |b| >= 3
    ensures [b[0], b[1], b[2]] + b[3..] == b
  {
  }

  /** Three or more bytes encode as a full group, then the rest. */
  lemma EncodeFullGroup(b: seq<byte>)
    requires |b| >= 3
    ensures Encode(b) == EncodeGroup(b[0], b[1], b[2]) + Encode(b[3..])
  {
  }

  /** Some bytes encode as some text. */
  lemma EncodeNonEmpty(b: seq<byte>)
    requires b != []
    ensures Encode(b) != []
  {
    if |b| >= 3 { EncodeFullGroup(b); }
  }

  /** A full group alone decodes as the last group. */
  lemma FullGroupFinal(b0: byte, b1: byte, b2: byte)
    ensures Decode(EncodeGroup(b0, b1, b2)) == Some([b0, b1, b2])
  {
    var g := EncodeGroup(b0, b1, b2);
    DecodeSingleGroup(g);
    GroupRoundTrip(b0, b1, b2);
    assert g[2] != '=' && g[3] != '=';
  }

  /** A full group followed by more text decodes group by group. */
  lemma DecodeGroupThenRest(g: string, rest: string)
    requires |g| == 4 && rest != []
    requires DecodeGroup(g).Some? && Decode(rest).Some?
    ensures Decode(g + rest) == Some(DecodeGroup(g).value + Decode(rest).value)
  {
    var s := g + rest;
    assert s[..4] == g && s[4..] == rest;
  }

  /** Three bytes decode back from their single group. */
  lemma ThreeByteRoundTrip(b: seq<byte>)
    requires |b| == 3
    ensures Decode(Encode(b)) == Some(b)
  {
    EncodeFullGroup(b);
    assert Encode(b[3..]) == [];
    assert Encode(b) == EncodeGroup(b[0], b[1], b[2]);
    FullGroupFinal(b[0], b[1], b[2]);
    assert [b[0], b[1], b[2]] == b;
  }

  /** When the rest round-trips, a leading full group does too. */
  lemma GroupThenRestRoundTrip(b: seq<byte>)
    requires |b| > 3 && Decode(Encode(b[3..])) == Some(b[3..])
    ensures Decode(Encode(b)) == Some(b)
  {
    EncodeFullGroup(b);
    GroupRoundTrip(b[0], b[1], b[2]);
    EncodeNonEmpty(b[3..]);
    DecodeGroupThenRest(EncodeGroup(b[0], b[1], b[2]), Encode(b[3..]));
    SplitThree(b);
  }

  /** Decoding an encoding gives back the bytes: what `get_file` serves is what
      `upload_file` received. */
  lemma {:induction false} DecodeEncode(b: seq<byte>)
    ensures Decode(Encode(b)) == Some(b)
    decreases |b|
  {
    if |b| == 1 {
      OneByteRoundTrip(b);
    } else if |b| == 2 {
      TwoByteRoundTrip(b);
    } else if |b| == 3 {
      ThreeByteRoundTrip(b);
    } else if |b| > 3 {
      DecodeEncode(b[3..]);
      GroupThenRestRoundTrip(b);
    }
  }
}
