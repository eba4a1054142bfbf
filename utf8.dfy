/**
 * The two text decodings `parse_txt` uses: strict UTF-8 as defined in
 * section 4 of RFC 3629 (Python's `bytes.decode('utf-8')`, which rejects
 * overlong forms, surrogates and values above U+10FFFF), and Latin-1
 * (`bytes.decode('latin-1')`, which maps every byte to the character with
 * the same number).
 */
module Utf8 {
  import opened Wrappers
  import opened Bytes

  /** A continuation byte, `%x80-BF` in the syntax of RFC 3629 section 4. */
  predicate IsTail(b: Byte) {
    0x80 <= b <= 0xBF
  }

  /**
   * The range allowed for the second byte after a three- or four-byte lead
   * byte: narrower after E0, ED, F0 and F4, which is what excludes overlong
   * forms, surrogates and values past U+10FFFF.
   */
  function SecondLow(b0: Byte): Byte {
    if b0 == 0xE0 then 0xA0 else if b0 == 0xF0 then 0x90 else 0x80
  }

  function SecondHigh(b0: Byte): Byte {
    if b0 == 0xED then 0x9F else if b0 == 0xF4 then 0x8F else 0xBF
  }

  /**
   * The first character of `bs` and the number of bytes it takes, or `None`
   * when `bs` does not start with a well-formed UTF-8 sequence.
   */
  function DecodeFirst(bs: seq<Byte>): (r: Option<(char, nat)>)
    requires |bs| > 0
    ensures r.Some? ==> 1 <= r.value.1 <= 4 && r.value.1 <= |bs|
  {
    var b0: int := bs[0];
    if b0 < 0x80 then Some((b0 as char, 1))
    else if 0xC2 <= b0 <= 0xDF then
      if |bs| >= 2 && IsTail(bs[1]) then Some((((b0 - 0xC0) * 64 + (bs[1] as int - 0x80)) as char, 2))
      else None
    else if 0xE0 <= b0 <= 0xEF then
      if |bs| >= 3 && SecondLow(b0) <= bs[1] <= SecondHigh(b0) && IsTail(bs[2]) then
        Some((((b0 - 0xE0) * 4096 + (bs[1] as int - 0x80) * 64 + (bs[2] as int - 0x80)) as char, 3))
      else None
    else if 0xF0 <= b0 <= 0xF4 then
      if |bs| >= 4 && SecondLow(b0) <= bs[1] <= SecondHigh(b0) && IsTail(bs[2]) && IsTail(bs[3]) then
        Some((((b0 - 0xF0) * 0x40000 + (bs[1] as int - 0x80) * 4096 + (bs[2] as int - 0x80) * 64 + (bs[3] as int - 0x80)) as char, 4))
      else None
    else None
  }

  /** `bytes.decode('utf-8')`: `None` where Python raises `UnicodeDecodeError`. */
  function Decode(bs: seq<Byte>): Option<string>
    decreases |bs|
  {
    if |bs| == 0 then Some("")
    else
      match DecodeFirst(bs)
      case None => None
      case Some((c, n)) =>
        match Decode(bs[n..])
        case None => None
        case Some(rest) => Some([c] + rest)
  }

  /** The UTF-8 form of one character: one to four bytes by the table of RFC 3629 section 3. */
  function EncodeChar(c: char): (r: seq<Byte>)
    ensures 1 <= |r| <= 4
  {
    var n := c as int;
    var n1, n2 := n / 64, n / 64 / 64;
    if n < 0x80 then [n]
    else if n < 0x800 then [0xC0 + n1, 0x80 + n % 64]
    else if n < 0x10000 then [0xE0 + n2, 0x80 + n1 % 64, 0x80 + n % 64]
    else [0xF0 + n2 / 64, 0x80 + n2 % 64, 0x80 + n1 % 64, 0x80 + n % 64]
  }

  function Encode(s: string): seq<Byte> {
    if s == [] then [] else EncodeChar(s[0]) + Encode(s[1..])
  }

  /** `bytes.decode('latin-1')`: one character per byte, with the byte's number. */
  function Latin1(bs: seq<Byte>): (r: string)
    ensures |r| == |bs|
    ensures forall i :: 0 <= i < |bs| ==> r[i] as int == bs[i]
  {
    seq(|bs|, i requires 0 <= i < |bs| => bs[i] as char)
  }

  lemma DecodeOneByte(c: char, rest: seq<Byte>)
    requires c as int < 0x80
    ensures DecodeFirst(EncodeChar(c) + rest) == Some((c, 1))
  {
  }

  lemma DecodeTwoBytes(c: char, rest: seq<Byte>)
    requires 0x80 <= c as int < 0x800
    ensures DecodeFirst(EncodeChar(c) + rest) == Some((c, 2))
  {
    var n := c as int;
    var bs := EncodeChar(c) + rest;
    assert bs[0] == 0xC0 + n / 64 && bs[1] == 0x80 + n % 64;
  }

  lemma DecodeThreeBytes(c: char, rest: seq<Byte>)
    requires 0x800 <= c as int < 0x10000
    ensures DecodeFirst(EncodeChar(c) + rest) == Some((c, 3))
  {
    var n := c as int;
    var n1 := n / 64;
    var n2 := n1 / 64;
    var bs := EncodeChar(c) + rest;
    assert bs[0] == 0xE0 + n2 && bs[1] == 0x80 + n1 % 64 && bs[2] == 0x80 + n % 64;
    assert n == (n2 * 64 + n1 % 64) * 64 + n % 64;
  }

  lemma DecodeFourBytes(c: char, rest: seq<Byte>)
    requires 0x10000 <= c as int
    ensures DecodeFirst(EncodeChar(c) + rest) == Some((c, 4))
  {
    var n := c as int;
    var n1 := n / 64;
    var n2 := n1 / 64;
    var n3 := n2 / 64;
    var bs := EncodeChar(c) + rest;
    assert bs[0] == 0xF0 + n3 && bs[1] == 0x80 + n2 % 64;
    assert bs[2] == 0x80 + n1 % 64 && bs[3] == 0x80 + n % 64;
    assert n == ((n3 * 64 + n2 % 64) * 64 + n1 % 64) * 64 + n % 64;
  }

  lemma DecodeFirstEncodeChar(c: char, rest: seq<Byte>)
    ensures DecodeFirst(EncodeChar(c) + rest) == Some((c, |EncodeChar(c)|))
  {
    var n := c as int;
    if n < 0x80 {
      DecodeOneByte(c, rest);
    } else if n < 0x800 {
      DecodeTwoBytes(c, rest);
    } else if n < 0x10000 {
      DecodeThreeBytes(c, rest);
    } else {
      DecodeFourBytes(c, rest);
    }
  }

  /** Every string is recovered from its UTF-8 form. */
  lemma {:induction false} DecodeEncode(s: string)
    ensures Decode(Encode(s)) == Some(s)
  {
    if s != [] {
      var head := EncodeChar(s[0]);
      var bs := Encode(s);
      assert bs == head + Encode(s[1..]);
      DecodeFirstEncodeChar(s[0], Encode(s[1..]));
      assert bs[|head|..] == Encode(s[1..]);
      DecodeEncode(s[1..]);
      assert s == [s[0]] + s[1..];
    }
  }

  /** Decoding is strict: the bytes of each decoded character are exactly that character's UTF-8 form. */
  lemma DecodeFirstCanonical(bs: seq<Byte>)
    requires |bs| > 0 && DecodeFirst(bs).Some?
    ensures EncodeChar(DecodeFirst(bs).value.0) == bs[..DecodeFirst(bs).value.1]
  {
    if bs[0] < 0x80 {
    } else if bs[0] <= 0xDF {
      CanonicalTwo(bs);
    } else if bs[0] <= 0xEF {
      CanonicalThree(bs);
    } else {
      CanonicalFour(bs);
    }
  }

  lemma CanonicalTwo(bs: seq<Byte>)
    requires |bs| > 0 && 0x80 <= bs[0] <= 0xDF && DecodeFirst(bs).Some?
    ensures EncodeChar(DecodeFirst(bs).value.0) == bs[..DecodeFirst(bs).value.1]
  {
    var b0: int := bs[0];
    var t1 := bs[1] as int - 0x80;
    var n := (b0 - 0xC0) * 64 + t1;
    assert n / 64 == b0 - 0xC0 && n % 64 == t1;
  }

  lemma CanonicalThree(bs: seq<Byte>)
    requires |bs| > 0 && 0xE0 <= bs[0] <= 0xEF && DecodeFirst(bs).Some?
    ensures EncodeChar(DecodeFirst(bs).value.0) == bs[..DecodeFirst(bs).value.1]
  {
    var b0: int := bs[0];
    var t1, t2 := bs[1] as int - 0x80, bs[2] as int - 0x80;
    var n := (b0 - 0xE0) * 4096 + t1 * 64 + t2;
    assert n / 64 == (b0 - 0xE0) * 64 + t1 && n % 64 == t2;
    assert n / 64 / 64 == b0 - 0xE0 && (n / 64) % 64 == t1;
  }

  lemma CanonicalFour(bs: seq<Byte>)
    requires |bs| > 0 && 0xF0 <= bs[0] && DecodeFirst(bs).Some?
    ensures EncodeChar(DecodeFirst(bs).value.0) == bs[..DecodeFirst(bs).value.1]
  {
    var b0: int := bs[0];
    var t1, t2, t3 := bs[1] as int - 0x80, bs[2] as int - 0x80, bs[3] as int - 0x80;
    var n := (b0 - 0xF0) * 0x40000 + t1 * 4096 + t2 * 64 + t3;
    assert n / 64 == ((b0 - 0xF0) * 64 + t1) * 64 + t2 && n % 64 == t3;
    assert n / 64 / 64 == (b0 - 0xF0) * 64 + t1 && (n / 64) % 64 == t2;
    assert n / 64 / 64 / 64 == b0 - 0xF0 && (n / 64 / 64) % 64 == t1;
  }

  /** A successful decoding is the first character followed by the decoding of the rest. */
  lemma DecodeStep(bs: seq<Byte>)
    requires |bs| > 0 && Decode(bs).Some?
    ensures DecodeFirst(bs).Some?
    ensures var n := DecodeFirst(bs).value.1;
      Decode(bs[n..]).Some? && Decode(bs).value == [DecodeFirst(bs).value.0] + Decode(bs[n..]).value
  {
  }

  /** The converse of `DecodeStep`: a character followed by a decodable rest decodes. */
  lemma DecodeCons(bs: seq<Byte>, c: char, n: nat, rest: string)
    requires |bs| > 0 && DecodeFirst(bs) == Some((c, n)) && Decode(bs[n..]) == Some(rest)
    ensures Decode(bs) == Some([c] + rest)
  {
  }

  lemma EncodeCons(c: char, s: string)
    ensures Encode([c] + s) == EncodeChar(c) + Encode(s)
  {
    assert ([c] + s)[1..] == s;
  }

  /** Whatever decodes is the UTF-8 form of what it decodes to, so no two byte strings decode to the same text. */
  lemma {:induction false} EncodeDecode(bs: seq<Byte>)
    requires Decode(bs).Some?
    ensures Encode(Decode(bs).value) == bs
    decreases |bs|
  {
    if |bs| > 0 {
      DecodeStep(bs);
      var c, n := DecodeFirst(bs).value.0, DecodeFirst(bs).value.1;
      var rest := Decode(bs[n..]).value;
      DecodeFirstCanonical(bs);
      EncodeDecode(bs[n..]);
      EncodeSplit(bs, c, n, rest);
    }
  }

  /** The encoding of a character and a rest, when they encode the two parts of `bs`. */
  lemma EncodeSplit(bs: seq<Byte>, c: char, n: nat, rest: string)
    requires n <= |bs| && EncodeChar(c) == bs[..n] && Encode(rest) == bs[n..]
    ensures Encode([c] + rest) == bs
  {
    EncodeCons(c, rest);
    assert bs == bs[..n] + bs[n..];
  }

  /** On ASCII bytes both decodings agree. */
  lemma {:induction false} AsciiDecodes(bs: seq<Byte>)
    requires IsAscii(bs)
    ensures Decode(bs) == Some(Latin1(bs))
    decreases |bs|
  {
    if |bs| > 0 {
      assert IsAscii(bs[1..]) by {
        forall i | 0 <= i < |bs[1..]| ensures bs[1..][i] < 128 { assert bs[1..][i] == bs[i + 1]; }
      }
      AsciiDecodes(bs[1..]);
      assert DecodeFirst(bs) == Some((bs[0] as char, 1));
      DecodeCons(bs, bs[0] as char, 1, Latin1(bs[1..]));
      assert Latin1(bs) == [bs[0] as char] + Latin1(bs[1..]);
    }
  }

  lemma DecodeExamples()
    ensures Decode([0x68, 0x69]) == Some("hi")
    ensures Decode([0xC3, 0xA9]) == Some("é")
    ensures Decode([0xC0, 0x80]) == None
    ensures Decode([0xED, 0xA0, 0x80]) == None
    ensures Decode([0xE9]) == None
    ensures Latin1([0xE9]) == "é"
  {
    var hi: seq<Byte> := [0x68, 0x69];
    assert hi[1..][1..] == [];
    DecodeCons(hi[1..], 'i', 1, "");
    assert ['i'] + "" == "i";
    DecodeCons(hi, 'h', 1, "i");
    assert ['h'] + "i" == "hi";
    var e: seq<Byte> := [0xC3, 0xA9];
    assert e[2..] == [];
    DecodeCons(e, 'é', 2, "");
    assert ['é'] + "" == "é";
  }
}
