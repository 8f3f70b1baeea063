/** Base64 with the standard alphabet and `=` padding (section 4 of RFC 4648),
    the encoding `Buffer.from(bytes).toString('base64')` produces. */
module Base64 {

  import opened Types

  /** The 64-character alphabet of section 4 of RFC 4648. */
  function Alphabet(i: nat): (c: char)
    requires i < 64
  {
    if i < 26 then (65 + i) as char        // 'A'..'Z'
    else if i < 52 then (97 + i - 26) as char   // 'a'..'z'
    else if i < 62 then (48 + i - 52) as char   // '0'..'9'
    else if i == 62 then '+'
    else '/'
  }

  predicate IsAlphabetChar(c: char)
  {
    'A' <= c <= 'Z' || 'a' <= c <= 'z' || '0' <= c <= '9' || c == '+' || c == '/'
  }

  /** The alphabet position of a character; the inverse of `Alphabet`. */
  function CharValue(c: char): (v: nat)
    requires IsAlphabetChar(c)
    ensures v < 64 && Alphabet(v) == c
  {
    if 'A' <= c <= 'Z' then c as int - 65
    else if 'a' <= c <= 'z' then c as int - 97 + 26
    else if '0' <= c <= '9' then c as int - 48 + 52
    else if c == '+' then 62
    else 63
  }

  lemma AlphabetValue(i: nat)
    requires i < 64
    ensures IsAlphabetChar(Alphabet(i)) && CharValue(Alphabet(i)) == i
  {
  }

  /** Three bytes as four alphabet characters. */
  function EncodeGroup(a: byte, b: byte, c: byte): string
  {
    [Alphabet(a as int / 4), Alphabet((a as int % 4) * 16 + b as int / 16),
     Alphabet((b as int % 16) * 4 + c as int / 64), Alphabet(c as int % 64)]
  }

  /** The last one or two bytes as a group padded with `=`. */
  function EncodeFinal(bs: seq<byte>): (s: string)
    requires 1 <= |bs| <= 2
    ensures |s| == 4
    ensures s[3] == '=' && (s[2] == '=' <==> |bs| == 1)
  {
    if |bs| == 1 then
      [Alphabet(bs[0] as int / 4), Alphabet((bs[0] as int % 4) * 16), '=', '=']
    else
      [Alphabet(bs[0] as int / 4), Alphabet((bs[0] as int % 4) * 16 + bs[1] as int / 16),
       Alphabet((bs[1] as int % 16) * 4), '=']
  }

  /** The Base64 text of a byte sequence, padded to a multiple of four characters. */
  function Encode(bs: seq<byte>): (s: string)
    ensures |s| % 4 == 0
    ensures |s| == 4 * ((|bs| + 2) / 3)
    decreases |bs|
  {
    if |bs| == 0 then ""
    else if |bs| <= 2 then EncodeFinal(bs)
    else EncodeGroup(bs[0], bs[1], bs[2]) + Encode(bs[3..])
  }

  /** Decodes one four-character group; `last` says whether padding may appear.
      Padding bits that are not zero are rejected, so every text has at most
      one decoding and it is the one `Encode` produces. */
  function DecodeGroup(q: string, last: bool): (r: Option<seq<byte>>)
    requires |q| == 4
    ensures r.Some? ==> 1 <= |r.value| <= 3 && (!last ==> |r.value| == 3)
  {
    if !IsAlphabetChar(q[0]) || !IsAlphabetChar(q[1]) then None
    else
      var v0, v1 := CharValue(q[0]), CharValue(q[1]);
      if last && q[2] == '=' && q[3] == '=' then
        if v1 % 16 == 0 then Some([(v0 * 4 + v1 / 16) as byte]) else None
      else if !IsAlphabetChar(q[2]) then None
      else
        var v2 := CharValue(q[2]);
        if last && q[3] == '=' then
          if v2 % 4 == 0 then Some([(v0 * 4 + v1 / 16) as byte, ((v1 % 16) * 16 + v2 / 4) as byte])
          else None
        else if !IsAlphabetChar(q[3]) then None
        else
          var v3 := CharValue(q[3]);
          Some([(v0 * 4 + v1 / 16) as byte, ((v1 % 16) * 16 + v2 / 4) as byte, ((v2 % 4) * 64 + v3) as byte])
  }

  /** The bytes a Base64 text stands for, or `None` when it is not the
      padded, canonical Base64 of any byte sequence. */
  function Decode(s: string): (r: Option<seq<byte>>)
    decreases |s|
  {
    if |s| == 0 then Some([])
    else if |s| % 4 != 0 then None
    else if |s| == 4 then DecodeGroup(s, true)
    else match DecodeGroup(s[..4], false)
      case None => None
      case Some(head) =>
        match Decode(s[4..])
        case None => None
        case Some(tail) => Some(head + tail)
  }

  /** The byte arithmetic of a group: the four 6-bit values put back
      together give the three bytes they were cut from. */
  lemma Recombine(a: int, b: int, c: int)
    requires 0 <= a < 256 && 0 <= b < 256 && 0 <= c < 256
    ensures (a / 4) * 4 + ((a % 4) * 16 + b / 16) / 16 == a
    ensures (((a % 4) * 16 + b / 16) % 16) * 16 + ((b % 16) * 4 + c / 64) / 4 == b
    ensures (((b % 16) * 4 + c / 64) % 4) * 64 + c % 64 == c
  {
  }

  /** A full group of alphabet characters decodes to the bytes its values spell. */
  lemma DecodeFull(v0: nat, v1: nat, v2: nat, v3: nat, last: bool)
    requires v0 < 64 && v1 < 64 && v2 < 64 && v3 < 64
    ensures DecodeGroup([Alphabet(v0), Alphabet(v1), Alphabet(v2), Alphabet(v3)], last) ==
      Some([(v0 * 4 + v1 / 16) as byte, ((v1 % 16) * 16 + v2 / 4) as byte, ((v2 % 4) * 64 + v3) as byte])
  {
    AlphabetValue(v0);
    AlphabetValue(v1);
    AlphabetValue(v2);
    AlphabetValue(v3);
  }

  lemma GroupRoundTrip(a: byte, b: byte, c: byte)
    ensures DecodeGroup(EncodeGroup(a, b, c), false) == Some([a, b, c])
    ensures DecodeGroup(EncodeGroup(a, b, c), true) == Some([a, b, c])
  {
    var v0, v1 := a as int / 4, (a as int % 4) * 16 + b as int / 16;
    var v2, v3 := (b as int % 16) * 4 + c as int / 64, c as int % 64;
    Recombine(a as int, b as int, c as int);
    DecodeFull(v0, v1, v2, v3, false);
    DecodeFull(v0, v1, v2, v3, true);
  }

  /** A single trailing byte survives its padded group. */
  lemma OneByteRoundTrip(a: byte)
    ensures Decode(Encode([a])) == Some([a])
  {
    var v0, v1 := a as int / 4, (a as int % 4) * 16;
    AlphabetValue(v0);
    AlphabetValue(v1);
    assert v1 / 16 == a as int % 4 && v1 % 16 == 0;
    var q := Encode([a]);
    assert q == EncodeFinal([a]) == [Alphabet(v0), Alphabet(v1), '=', '='];
    assert DecodeGroup(q, true) == Some([(v0 * 4 + v1 / 16) as byte]);
  }

  /** Two trailing bytes survive their padded group. */
  lemma TwoBytesRoundTrip(a: byte, b: byte)
    ensures Decode(Encode([a, b])) == Some([a, b])
  {
    var v0, v1, v2 := a as int / 4, (a as int % 4) * 16 + b as int / 16, (b as int % 16) * 4;
    Recombine(a as int, b as int, 0);
    var q := Encode([a, b]);
    assert q == EncodeFinal([a, b]) == [Alphabet(v0), Alphabet(v1), Alphabet(v2), '='];
    DecodePadded(v0, v1, v2);
  }

  /** A group with one `=` decodes to the two bytes its values spell. */
  lemma DecodePadded(v0: nat, v1: nat, v2: nat)
    requires v0 < 64 && v1 < 64 && v2 < 64 && v2 % 4 == 0
    ensures DecodeGroup([Alphabet(v0), Alphabet(v1), Alphabet(v2), '='], true) ==
      Some([(v0 * 4 + v1 / 16) as byte, ((v1 % 16) * 16 + v2 / 4) as byte])
  {
    AlphabetValue(v0);
    AlphabetValue(v1);
    AlphabetValue(v2);
  }

  /** Three bytes make one group without padding. */
  lemma ThreeBytesRoundTrip(a: byte, b: byte, c: byte)
    ensures Decode(Encode([a, b, c])) == Some([a, b, c])
  {
    GroupRoundTrip(a, b, c);
    assert [a, b, c][3..] == [];
    assert Encode([a, b, c]) == EncodeGroup(a, b, c);
  }

  /** Decoding undoes encoding. */
  lemma {:induction false} DecodeEncode(bs: seq<byte>)
    ensures Decode(Encode(bs)) == Some(bs)
    decreases |bs|
  {
    if 1 <= |bs| <= 3 {
      ShortRoundTrip(bs);
    } else if |bs| > 3 {
      var tail := bs[3..];
      SplitThree(bs);
      DecodeEncode(tail);
      FullGroupRoundTrip(bs[0], bs[1], bs[2], tail);
    }
  }

  lemma SplitThree(bs: seq<byte>)
    requires |bs| >= 3
    ensures bs == [bs[0], bs[1], bs[2]] + bs[3..]
  {
  }

  /** One to three bytes make one group. */
  lemma ShortRoundTrip(bs: seq<byte>)
    requires 1 <= |bs| <= 3
    ensures Decode(Encode(bs)) == Some(bs)
  {
    ShortElements(bs);
    if |bs| == 1 {
      OneByteRoundTrip(bs[0]);
    } else if |bs| == 2 {
      TwoBytesRoundTrip(bs[0], bs[1]);
    } else {
      ThreeBytesRoundTrip(bs[0], bs[1], bs[2]);
    }
  }

  lemma ShortElements(bs: seq<byte>)
    requires 1 <= |bs| <= 3
    ensures |bs| == 1 ==> bs == [bs[0]]
    ensures |bs| == 2 ==> bs == [bs[0], bs[1]]
    ensures |bs| == 3 ==> bs == [bs[0], bs[1], bs[2]]
  {
  }

  /** A full leading group followed by a text that decodes. */
  lemma FullGroupRoundTrip(a: byte, b: byte, c: byte, tail: seq<byte>)
    requires tail != [] && Decode(Encode(tail)) == Some(tail)
    ensures Decode(Encode([a, b, c] + tail)) == Some([a, b, c] + tail)
  {
    var bs := [a, b, c] + tail;
    assert bs[0] == a && bs[1] == b && bs[2] == c && bs[3..] == tail;
    var s := Encode(bs);
    var g := EncodeGroup(a, b, c);
    var rest := Encode(tail);
    assert s == g + rest;
    assert |rest| > 0 && |rest| % 4 == 0;
    assert s[..4] == g && s[4..] == rest;
    GroupRoundTrip(a, b, c);
    DecodeLong(s);
  }

  /** A text of one group is decoded as the last group. */
  lemma DecodeShort(s: string)
    requires |s| == 4
    ensures Decode(s) == DecodeGroup(s, true)
  {
  }

  /** How `Decode` splits a text of more than one group. */
  lemma DecodeLong(s: string)
    requires |s| > 4 && |s| % 4 == 0
    ensures Decode(s) ==
      match DecodeGroup(s[..4], false)
      case None => None
      case Some(head) => match Decode(s[4..]) case None => None case Some(tail) => Some(head + tail)
  {
  }

  lemma DecodeGroupEncodes(q: string, last: bool)
    requires |q| == 4 && DecodeGroup(q, last).Some?
    ensures var g := DecodeGroup(q, last).value;
      if |g| == 3 then EncodeGroup(g[0], g[1], g[2]) == q else last && Encode(g) == q
  {
    var v0, v1 := CharValue(q[0]), CharValue(q[1]);
    var g := DecodeGroup(q, last).value;
    if |g| == 3 {
      var v2, v3 := CharValue(q[2]), CharValue(q[3]);
      assert g[0] as int / 4 == v0 && (g[0] as int % 4) * 16 + g[1] as int / 16 == v1;
      assert (g[1] as int % 16) * 4 + g[2] as int / 64 == v2 && g[2] as int % 64 == v3;
    } else if |g| == 2 {
      var v2 := CharValue(q[2]);
      assert g[0] as int / 4 == v0 && (g[0] as int % 4) * 16 + g[1] as int / 16 == v1;
      assert (g[1] as int % 16) * 4 == v2;
    } else {
      assert g[0] as int / 4 == v0 && (g[0] as int % 4) * 16 == v1;
    }
  }

  /** Every text `Decode` accepts is the encoding of what it decodes to:
      together with `DecodeEncode`, `Decode(s) == Some(bs)` exactly when `s == Encode(bs)`. */
  lemma {:induction false} EncodeDecode(s: string)
    requires Decode(s).Some?
    ensures Encode(Decode(s).value) == s
    decreases |s|
  {
    if |s| == 4 {
      DecodeShort(s);
      DecodeGroupEncodes(s, true);
    } else if |s| > 4 {
      DecodeLong(s);
      var head := DecodeGroup(s[..4], false).value;
      var tail := Decode(s[4..]).value;
      DecodeGroupEncodes(s[..4], false);
      EncodeDecode(s[4..]);
      assert |tail| > 0 by { assert |Encode(tail)| == |s| - 4; }
      EncodeCons(head, tail);
      assert Encode(head + tail) == s[..4] + s[4..];
      SplitFour(s);
      assert Decode(s).value == head + tail;
    }
  }

  /** Encoding a full group followed by more bytes. */
  lemma EncodeCons(head: seq<byte>, tail: seq<byte>)
    requires |head| == 3 && tail != []
    ensures Encode(head + tail) == EncodeGroup(head[0], head[1], head[2]) + Encode(tail)
  {
    var bs := head + tail;
    assert bs[0] == head[0] && bs[1] == head[1] && bs[2] == head[2] && bs[3..] == tail;
  }

  lemma SplitFour(s: string)
    requires |s| >= 4
    ensures s == s[..4] + s[4..]
  {
  }
}
