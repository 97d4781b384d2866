/** Convert.ToBase64String: the base 64 encoding of section 4 of RFC 4648,
    with '=' padding and no line breaks, and the decoding that undoes it. */
module Base64 {
  import opened Common

  /** The pad character of section 4 of RFC 4648. */
  const Pad: char := '='

  /** The character the alphabet of section 4 of RFC 4648 gives a 6-bit value. */
  function CharOf(v: bv8): (c: char)
    requires v < 64
    ensures c != Pad
  {
    if v < 26 then ('A' as int + v as int) as char
    else if v < 52 then ('a' as int + (v as int - 26)) as char
    else if v < 62 then ('0' as int + (v as int - 52)) as char
    else if v == 62 then '+'
    else '/'
  }

  /** The 6-bit value of an alphabet character; None for any other character, the pad included. */
  function ValueOf(c: char): (v: Option<bv8>)
    ensures v.Some? ==> v.value < 64
    ensures c == Pad ==> v.None?
  {
    if 'A' <= c <= 'Z' then Some((c as int - 'A' as int) as bv8)
    else if 'a' <= c <= 'z' then Some((c as int - 'a' as int + 26) as bv8)
    else if '0' <= c <= '9' then Some((c as int - '0' as int + 52) as bv8)
    else if c == '+' then Some(62)
    else if c == '/' then Some(63)
    else None
  }

  /** ValueOf undoes CharOf on every 6-bit value. */
  lemma ValueOfCharOf(v: bv8)
    requires v < 64
    ensures ValueOf(CharOf(v)) == Some(v)
  {
  }

  /** Three bytes make four characters. */
  function EncodeTriple(a: bv8, b: bv8, c: bv8): (quad: string) {
    [CharOf(a >> 2), CharOf(((a & 3) << 4) | (b >> 4)), CharOf(((b & 15) << 2) | (c >> 6)), CharOf(c & 63)]
  }

  /** Two final bytes make three characters and one pad. */
  function EncodePair(a: bv8, b: bv8): (quad: string) {
    [CharOf(a >> 2), CharOf(((a & 3) << 4) | (b >> 4)), CharOf((b & 15) << 2), Pad]
  }

  /** One final byte makes two characters and two pads. */
  function EncodeSingle(a: bv8): (quad: string) {
    [CharOf(a >> 2), CharOf((a & 3) << 4), Pad, Pad]
  }

  /** The base 64 text of `data`. */
  function Encode(data: seq<bv8>): (text: string)
    ensures |text| == 4 * ((|data| + 2) / 3)
    decreases |data|
  {
    if |data| == 0 then []
    else if |data| == 1 then EncodeSingle(data[0])
    else if |data| == 2 then EncodePair(data[0], data[1])
    else EncodeTriple(data[0], data[1], data[2]) + Encode(data[3..])
  }

  /** The first byte of a group, from its first two 6-bit values. */
  function FirstByte(s0: bv8, s1: bv8): bv8 {
    (s0 << 2) | (s1 >> 4)
  }

  /** The second byte of a group, from its second and third 6-bit values. */
  function SecondByte(s1: bv8, s2: bv8): bv8 {
    ((s1 & 15) << 4) | (s2 >> 2)
  }

  /** The third byte of a group, from its last two 6-bit values. */
  function ThirdByte(s2: bv8, s3: bv8): bv8 {
    ((s2 & 3) << 6) | s3
  }

  /** The bytes of one group of four characters; only the last group may be padded. */
  function DecodeQuad(quad: string, last: bool): Option<seq<bv8>>
    requires |quad| == 4
  {
    var s0, s1, s2, s3 := ValueOf(quad[0]), ValueOf(quad[1]), ValueOf(quad[2]), ValueOf(quad[3]);
    if s0.None? || s1.None? then None
    else if s2.Some? && s3.Some? then
      Some([FirstByte(s0.value, s1.value), SecondByte(s1.value, s2.value), ThirdByte(s2.value, s3.value)])
    else if last && s2.Some? && quad[3] == Pad then
      Some([FirstByte(s0.value, s1.value), SecondByte(s1.value, s2.value)])
    else if last && quad[2] == Pad && quad[3] == Pad then
      Some([FirstByte(s0.value, s1.value)])
    else None
  }

  /** The bytes a base 64 text stands for; None when it is not base 64. */
  function Decode(text: string): Option<seq<bv8>>
    decreases |text|
  {
    if text == [] then Some([])
    else if |text| < 4 then None
    else
      match DecodeQuad(text[..4], |text| == 4)
      case None => None
      case Some(bytes) =>
        match Decode(text[4..])
        case None => None
        case Some(rest) => Some(bytes + rest)
  }

  /** Splitting three bytes into four 6-bit values and joining them back gives the bytes. */
  lemma TripleBits(a: bv8, b: bv8, c: bv8)
    ensures FirstByte(a >> 2, ((a & 3) << 4) | (b >> 4)) == a
    ensures SecondByte(((a & 3) << 4) | (b >> 4), ((b & 15) << 2) | (c >> 6)) == b
    ensures ThirdByte(((b & 15) << 2) | (c >> 6), c & 63) == c
  {
  }

  /** The same for a final pair and a final single byte, whose spare bits are zero. */
  lemma ShortGroupBits(a: bv8, b: bv8)
    ensures FirstByte(a >> 2, (a & 3) << 4) == a
    ensures SecondByte(((a & 3) << 4) | (b >> 4), (b & 15) << 2) == b
  {
  }

  /** A group of three bytes decodes to those bytes, padded group or not. */
  lemma DecodeTriple(a: bv8, b: bv8, c: bv8, last: bool)
    ensures DecodeQuad(EncodeTriple(a, b, c), last) == Some([a, b, c])
  {
    ValueOfCharOf(a >> 2);
    ValueOfCharOf(((a & 3) << 4) | (b >> 4));
    ValueOfCharOf(((b & 15) << 2) | (c >> 6));
    ValueOfCharOf(c & 63);
    TripleBits(a, b, c);
  }

  /** A final pair of bytes decodes to that pair. */
  lemma DecodePair(a: bv8, b: bv8)
    ensures DecodeQuad(EncodePair(a, b), true) == Some([a, b])
  {
    ValueOfCharOf(a >> 2);
    ValueOfCharOf(((a & 3) << 4) | (b >> 4));
    ValueOfCharOf((b & 15) << 2);
    TripleBits(a, b, 0);
    ShortGroupBits(a, b);
  }

  /** A final single byte decodes to that byte. */
  lemma DecodeSingle(a: bv8)
    ensures DecodeQuad(EncodeSingle(a), true) == Some([a])
  {
    ValueOfCharOf(a >> 2);
    ValueOfCharOf((a & 3) << 4);
    ShortGroupBits(a, 0);
  }

  /** A text of one group decodes as a final group. */
  lemma DecodeLastGroup(quad: string)
    requires |quad| == 4
    ensures Decode(quad) == DecodeQuad(quad, true)
  {
    assert quad[..4] == quad && quad[4..] == [];
    if DecodeQuad(quad, true).Some? {
      var bytes := DecodeQuad(quad, true).value;
      assert bytes + [] == bytes;
    }
  }

  /** A group followed by more text decodes as an unpadded group, then the rest. */
  lemma DecodeFirstGroup(quad: string, rest: string, bytes: seq<bv8>, restBytes: seq<bv8>)
    requires |quad| == 4 && rest != []
    requires DecodeQuad(quad, false) == Some(bytes) && Decode(rest) == Some(restBytes)
    ensures Decode(quad + rest) == Some(bytes + restBytes)
  {
    var text := quad + rest;
    assert text[..4] == quad && text[4..] == rest;
  }

  /** Decoding the encoding gives back the bytes. */
  lemma {:induction false} DecodeEncode(data: seq<bv8>)
    ensures Decode(Encode(data)) == Some(data)
    decreases |data|
  {
    if |data| == 1 {
      DecodeSingle(data[0]);
      DecodeLastGroup(EncodeSingle(data[0]));
      assert [data[0]] == data;
    } else if |data| == 2 {
      DecodePair(data[0], data[1]);
      DecodeLastGroup(EncodePair(data[0], data[1]));
      assert [data[0], data[1]] == data;
    } else if |data| == 3 {
      DecodeTriple(data[0], data[1], data[2], true);
      assert Encode(data) == EncodeTriple(data[0], data[1], data[2]) + [];
      assert EncodeTriple(data[0], data[1], data[2]) + [] == EncodeTriple(data[0], data[1], data[2]);
      DecodeLastGroup(EncodeTriple(data[0], data[1], data[2]));
      assert [data[0], data[1], data[2]] == data;
    } else if |data| > 3 {
      var rest := data[3..];
      DecodeTriple(data[0], data[1], data[2], false);
      DecodeEncode(rest);
      DecodeFirstGroup(EncodeTriple(data[0], data[1], data[2]), Encode(rest), [data[0], data[1], data[2]], rest);
      assert [data[0], data[1], data[2]] + rest == data;
    }
  }

  /** A text whose every character is from the alphabet or is the pad. */
  predicate InAlphabet(text: string) {
    forall i :: 0 <= i < |text| ==> text[i] == Pad || ValueOf(text[i]).Some?
  }

  /** Each kind of group is written in the alphabet and the pad. */
  lemma GroupsInAlphabet(a: bv8, b: bv8, c: bv8)
    ensures InAlphabet(EncodeTriple(a, b, c))
    ensures InAlphabet(EncodePair(a, b))
    ensures InAlphabet(EncodeSingle(a))
  {
    ValueOfCharOf(a >> 2);
    ValueOfCharOf(((a & 3) << 4) | (b >> 4));
    ValueOfCharOf(((b & 15) << 2) | (c >> 6));
    ValueOfCharOf(c & 63);
    ValueOfCharOf((b & 15) << 2);
    ValueOfCharOf((a & 3) << 4);
  }

  /** Every character of an encoding is from the alphabet or is the pad. */
  lemma {:induction false} EncodeAlphabet(data: seq<bv8>)
    ensures InAlphabet(Encode(data))
    decreases |data|
  {
    if |data| >= 3 {
      EncodeAlphabet(data[3..]);
      GroupsInAlphabet(data[0], data[1], data[2]);
      var head, tail := EncodeTriple(data[0], data[1], data[2]), Encode(data[3..]);
      assert Encode(data) == head + tail;
      forall i | 0 <= i < |head + tail|
        ensures (head + tail)[i] == Pad || ValueOf((head + tail)[i]).Some?
      {
        if i >= |head| {
          assert (head + tail)[i] == tail[i - |head|];
        }
      }
    } else if |data| == 2 {
      GroupsInAlphabet(data[0], data[1], 0);
    } else if |data| == 1 {
      GroupsInAlphabet(data[0], 0, 0);
    }
  }
}
