/**
 * Base 64 encoding with the standard alphabet and `=` padding, as in
 * section 4 of RFC 4648 (Python's `base64.b64encode`), together with the
 * decoding it is the inverse of.
 */
module Base64 {
  import opened Wrappers
  import opened Bytes

  const UpperCase: string := "ABCDEFGHIJKLMNOPQRSTUVWXYZ"
  const LowerCase: string := "abcdefghijklmnopqrstuvwxyz"
  const DecimalDigits: string := "0123456789"

  /** The 64-character alphabet of Table 1 in RFC 4648, indexed by 6-bit value. */
  const Alphabet: string := UpperCase + LowerCase + DecimalDigits + "+/"

  /** The padding character of RFC 4648 section 4. */
  const Pad: char := '='

  /** Whether `c` is one of the 64 alphabet characters. */
  predicate IsSymbol(c: char) {
    ('A' <= c <= 'Z') || ('a' <= c <= 'z') || ('0' <= c <= '9') || c == '+' || c == '/'
  }

  /** The character for a 6-bit value, by the ranges of Table 1. */
  function Symbol(v: int): (c: char)
    requires 0 <= v < 64
    ensures IsSymbol(c) && c != Pad
  {
    if v < 26 then ('A' as int + v) as char
    else if v < 52 then ('a' as int + v - 26) as char
    else if v < 62 then ('0' as int + v - 52) as char
    else if v == 62 then '+'
    else '/'
  }

  /** The 6-bit value of an alphabet character; `None` for any other character, `=` included. */
  function SymbolValue(c: char): (r: Option<int>)
    ensures r.Some? ==> 0 <= r.value < 64 && Symbol(r.value) == c
    ensures r.None? <==> !IsSymbol(c)
  {
    if 'A' <= c <= 'Z' then Some(c as int - 'A' as int)
    else if 'a' <= c <= 'z' then Some(c as int - 'a' as int + 26)
    else if '0' <= c <= '9' then Some(c as int - '0' as int + 52)
    else if c == '+' then Some(62)
    else if c == '/' then Some(63)
    else None
  }

  /** `Symbol` is the table: the character for value `v` is the `v`-th alphabet character. */
  lemma AlphabetTable(v: int)
    requires 0 <= v < 64
    ensures |Alphabet| == 64 && Alphabet[v] == Symbol(v)
  {
    if v < 26 {
      UpperCaseTable(v);
      assert Alphabet[v] == UpperCase[v];
    } else if v < 52 {
      LowerCaseTable(v - 26);
      assert Alphabet[v] == LowerCase[v - 26];
    } else if v < 62 {
      DigitsTable(v - 52);
      assert Alphabet[v] == DecimalDigits[v - 52];
    }
  }

  lemma UpperCaseTable(k: int)
    requires 0 <= k < 26
    ensures UpperCase[k] == ('A' as int + k) as char
  {
  }

  lemma LowerCaseTable(k: int)
    requires 0 <= k < 26
    ensures LowerCase[k] == ('a' as int + k) as char
  {
  }

  lemma DigitsTable(k: int)
    requires 0 <= k < 10
    ensures DecimalDigits[k] == ('0' as int + k) as char
  {
  }

  lemma SymbolRoundTrip(v: int)
    requires 0 <= v < 64
    ensures SymbolValue(Symbol(v)) == Some(v)
  {
  }

  /** The four characters for one complete three-byte group. */
  function EncodeTriple(b0: Byte, b1: Byte, b2: Byte): string {
    [Symbol(b0 / 4), Symbol((b0 % 4) * 16 + b1 / 16), Symbol((b1 % 16) * 4 + b2 / 64), Symbol(b2 % 64)]
  }

  /** A final single byte: two characters and `==`. */
  function EncodeSingle(b0: Byte): string {
    [Symbol(b0 / 4), Symbol((b0 % 4) * 16), Pad, Pad]
  }

  /** A final pair of bytes: three characters and `=`. */
  function EncodePair(b0: Byte, b1: Byte): string {
    [Symbol(b0 / 4), Symbol((b0 % 4) * 16 + b1 / 16), Symbol((b1 % 16) * 4), Pad]
  }

  /**
   * `b64encode`: each group of three bytes becomes four characters; a final
   * group of one or two bytes is padded with `==` or `=`.
   */
  function Encode(b: seq<Byte>): (r: string)
    ensures |r| == 4 * ((|b| + 2) / 3)
    decreases |b|
  {
    if |b| == 0 then ""
    else if |b| == 1 then EncodeSingle(b[0])
    else if |b| == 2 then EncodePair(b[0], b[1])
    else EncodeTriple(b[0], b[1], b[2]) + Encode(b[3..])
  }

  /** Three bytes from four 6-bit values. */
  function Join4(c0: int, c1: int, c2: int, c3: int): seq<Byte>
    requires 0 <= c0 < 64 && 0 <= c1 < 64 && 0 <= c2 < 64 && 0 <= c3 < 64
  {
    [c0 * 4 + c1 / 16, (c1 % 16) * 16 + c2 / 4, (c2 % 4) * 64 + c3]
  }

  /** A group of four alphabet characters: three bytes. */
  function DecodeFull(g: string): Option<seq<Byte>>
    requires |g| == 4
  {
    var v0, v1, v2, v3 := SymbolValue(g[0]), SymbolValue(g[1]), SymbolValue(g[2]), SymbolValue(g[3]);
    if v0.Some? && v1.Some? && v2.Some? && v3.Some? then Some(Join4(v0.value, v1.value, v2.value, v3.value))
    else None
  }

  /** The last group of four characters, which may end in `=` or `==`. */
  function DecodeLast(g: string): Option<seq<Byte>>
    requires |g| == 4
  {
    var v0, v1, v2 := SymbolValue(g[0]), SymbolValue(g[1]), SymbolValue(g[2]);
    if g[2] == Pad && g[3] == Pad then
      if v0.Some? && v1.Some? then Some(Join4(v0.value, v1.value, 0, 0)[..1]) else None
    else if g[3] == Pad then
      if v0.Some? && v1.Some? && v2.Some? then Some(Join4(v0.value, v1.value, v2.value, 0)[..2]) else None
    else DecodeFull(g)
  }

  /**
   * Decoding of a padded base 64 text: `None` when the length is not a
   * multiple of four, a character is outside the alphabet, or padding
   * appears before the last group.
   */
  function Decode(s: string): Option<seq<Byte>>
    decreases |s|
  {
    if |s| == 0 then Some([])
    else if |s| < 4 then None
    else if |s| == 4 then DecodeLast(s)
    else
      match DecodeFull(s[..4])
      case None => None
      case Some(g) =>
        match Decode(s[4..])
        case None => None
        case Some(rest) => Some(g + rest)
  }

  lemma TripleBits(b0: Byte, b1: Byte, b2: Byte)
    ensures Join4(b0 / 4, (b0 % 4) * 16 + b1 / 16, (b1 % 16) * 4 + b2 / 64, b2 % 64) == [b0, b1, b2]
  {
  }

  lemma DecodeTriple(b0: Byte, b1: Byte, b2: Byte)
    ensures DecodeFull(EncodeTriple(b0, b1, b2)) == Some([b0, b1, b2])
  {
    var g := EncodeTriple(b0, b1, b2);
    SymbolRoundTrip(b0 / 4);
    SymbolRoundTrip((b0 % 4) * 16 + b1 / 16);
    SymbolRoundTrip((b1 % 16) * 4 + b2 / 64);
    SymbolRoundTrip(b2 % 64);
    TripleBits(b0, b1, b2);
  }

  lemma DecodeSingle(b0: Byte)
    ensures DecodeLast(EncodeSingle(b0)) == Some([b0])
  {
    var v0, v1 := b0 / 4, (b0 % 4) * 16;
    SymbolRoundTrip(v0);
    SymbolRoundTrip(v1);
    SingleBits(b0);
    var g := EncodeSingle(b0);
    assert g[0] == Symbol(v0) && g[1] == Symbol(v1) && g[2] == Pad && g[3] == Pad;
    assert Join4(v0, v1, 0, 0)[..1] == [b0];
  }

  /** The arithmetic behind `DecodeSingle`: the first byte comes back from its two 6-bit parts. */
  lemma SingleBits(b0: Byte)
    ensures (b0 / 4) * 4 + ((b0 % 4) * 16) / 16 == b0
  {
    assert ((b0 % 4) * 16) / 16 == b0 % 4;
  }

  lemma DecodePair(b0: Byte, b1: Byte)
    ensures DecodeLast(EncodePair(b0, b1)) == Some([b0, b1])
  {
    var v0, v1, v2 := b0 / 4, (b0 % 4) * 16 + b1 / 16, (b1 % 16) * 4;
    SymbolRoundTrip(v0);
    SymbolRoundTrip(v1);
    SymbolRoundTrip(v2);
    var g := EncodePair(b0, b1);
    assert g[0] == Symbol(v0) && g[1] == Symbol(v1) && g[2] == Symbol(v2) && g[3] == Pad;
    TripleBits(b0, b1, 0);
    assert Join4(v0, v1, v2, 0)[..2] == [b0, b1];
  }

  lemma DecodeShort(b: seq<Byte>)
    requires 1 <= |b| <= 3
    ensures DecodeLast(Encode(b)) == Some(b)
  {
    if |b| == 1 {
      DecodeOneGroup(b);
    } else if |b| == 2 {
      DecodeTwoGroup(b);
    } else {
      DecodeThreeGroup(b);
    }
  }

  lemma DecodeOneGroup(b: seq<Byte>)
    requires |b| == 1
    ensures DecodeLast(Encode(b)) == Some(b)
  {
    EncodeShort(b);
    DecodeSingle(b[0]);
    assert b == [b[0]];
  }

  lemma DecodeTwoGroup(b: seq<Byte>)
    requires |b| == 2
    ensures DecodeLast(Encode(b)) == Some(b)
  {
    EncodeShort(b);
    DecodePair(b[0], b[1]);
    assert b == [b[0], b[1]];
  }

  lemma DecodeThreeGroup(b: seq<Byte>)
    requires |b| == 3
    ensures DecodeLast(Encode(b)) == Some(b)
  {
    EncodeShort(b);
    LastTriple(b[0], b[1], b[2]);
    ThreeElements(b);
  }

  lemma ThreeElements(b: seq<Byte>)
    requires |b| == 3
    ensures b == [b[0], b[1], b[2]]
  {
  }

  lemma LastTriple(b0: Byte, b1: Byte, b2: Byte)
    ensures DecodeLast(EncodeTriple(b0, b1, b2)) == Some([b0, b1, b2])
  {
    TripleUnpadded(b0, b1, b2);
    LastIsFull(EncodeTriple(b0, b1, b2));
    DecodeTriple(b0, b1, b2);
  }

  /** A last group without padding is decoded as a full group. */
  lemma LastIsFull(g: string)
    requires |g| == 4 && g[3] != Pad
    ensures DecodeLast(g) == DecodeFull(g)
  {
  }

  lemma EncodeStep(b: seq<Byte>)
    requires |b| > 3
    ensures Encode(b) == EncodeTriple(b[0], b[1], b[2]) + Encode(b[3..])
    ensures |Encode(b[3..])| >= 4
  {
  }

  lemma DecodeFirstGroup(b: seq<Byte>)
    requires |b| >= 3
    ensures DecodeFull(EncodeTriple(b[0], b[1], b[2])) == Some(b[..3])
  {
    FirstThree(b);
    DecodeTriple(b[0], b[1], b[2]);
  }

  lemma FirstThree(b: seq<Byte>)
    requires |b| >= 3
    ensures b[..3] == [b[0], b[1], b[2]]
  {
  }

  /** A full group in front of a decodable text decodes to its three bytes in front. */
  lemma DecodeGroupThen(b: seq<Byte>, head: string, rest: string)
    requires |b| > 3 && |head| == 4 && |rest| >= 4
    requires DecodeFull(head) == Some(b[..3]) && Decode(rest) == Some(b[3..])
    ensures Decode(head + rest) == Some(b)
  {
    var s := head + rest;
    assert s[..4] == head;
    assert s[4..] == rest;
    assert b[..3] + b[3..] == b;
  }

  /** Decoding undoes encoding: the payload of a data URI gives back the file's bytes. */
  lemma {:induction false} DecodeEncode(b: seq<Byte>)
    ensures Decode(Encode(b)) == Some(b)
    decreases |b|
  {
    if |b| == 0 {
    } else if |b| <= 3 {
      DecodeShort(b);
    } else {
      DecodeEncode(b[3..]);
      EncodeStep(b);
      DecodeFirstGroup(b);
      DecodeGroupThen(b, EncodeTriple(b[0], b[1], b[2]), Encode(b[3..]));
    }
  }

  /** Every encoded character is an alphabet character or the padding character. */
  lemma {:induction false} EncodeCharacters(b: seq<Byte>)
    ensures forall i :: 0 <= i < |Encode(b)| ==> IsSymbol(Encode(b)[i]) || Encode(b)[i] == Pad
    decreases |b|
  {
    if |b| > 3 {
      EncodeCharacters(b[3..]);
      EncodeStep(b);
      TripleCharacters(b[0], b[1], b[2]);
      CharactersAfter(EncodeTriple(b[0], b[1], b[2]), Encode(b[3..]));
    } else if |b| > 0 {
      EncodeShort(b);
    }
  }

  lemma TripleCharacters(b0: Byte, b1: Byte, b2: Byte)
    ensures forall i :: 0 <= i < 4 ==> IsSymbol(EncodeTriple(b0, b1, b2)[i])
  {
  }

  /** Two texts of alphabet and padding characters make one such text. */
  lemma CharactersAfter(head: string, tail: string)
    requires forall i :: 0 <= i < |head| ==> IsSymbol(head[i]) || head[i] == Pad
    requires forall i :: 0 <= i < |tail| ==> IsSymbol(tail[i]) || tail[i] == Pad
    ensures forall i :: 0 <= i < |head + tail| ==> IsSymbol((head + tail)[i]) || (head + tail)[i] == Pad
  {
    forall i | 0 <= i < |head + tail| ensures IsSymbol((head + tail)[i]) || (head + tail)[i] == Pad {
      if i >= |head| { assert (head + tail)[i] == tail[i - |head|]; }
    }
  }

  function PadCount(n: nat): nat {
    (3 - n % 3) % 3
  }

  /** `e` ends in exactly `k` padding characters and has none before them. */
  predicate PaddedWith(e: string, k: nat) {
    && k <= |e|
    && (forall i :: |e| - k <= i < |e| ==> e[i] == Pad)
    && (forall i :: 0 <= i < |e| - k ==> e[i] != Pad)
  }

  lemma PaddedAfter(head: string, tail: string, k: nat)
    requires forall i :: 0 <= i < |head| ==> head[i] != Pad
    requires PaddedWith(tail, k)
    ensures PaddedWith(head + tail, k)
  {
    var e := head + tail;
    forall i | 0 <= i < |e| - k ensures e[i] != Pad {
      if i >= |head| { assert e[i] == tail[i - |head|]; }
    }
    forall i | |e| - k <= i < |e| ensures e[i] == Pad {
      assert e[i] == tail[i - |head|];
    }
  }

  /**
   * Padding appears only at the end: none when the length is a multiple of
   * three, `==` after one leftover byte, `=` after two.
   */
  lemma {:induction false} EncodePadding(b: seq<Byte>)
    ensures PaddedWith(Encode(b), PadCount(|b|))
    decreases |b|
  {
    if |b| > 3 {
      EncodePadding(b[3..]);
      PaddingStep(b);
    } else if |b| > 0 {
      PaddingShort(b);
    }
  }

  /** The four characters of a full group are not padding. */
  lemma TripleUnpadded(b0: Byte, b1: Byte, b2: Byte)
    ensures forall i :: 0 <= i < 4 ==> EncodeTriple(b0, b1, b2)[i] != Pad
  {
  }

  lemma PaddingStep(b: seq<Byte>)
    requires |b| > 3 && PaddedWith(Encode(b[3..]), PadCount(|b[3..]|))
    ensures PaddedWith(Encode(b), PadCount(|b|))
  {
    EncodeStep(b);
    TripleUnpadded(b[0], b[1], b[2]);
    PadCountStep(|b|);
    PaddedAfter(EncodeTriple(b[0], b[1], b[2]), Encode(b[3..]), PadCount(|b|));
  }

  /** Three more bytes need the same padding. */
  lemma PadCountStep(n: nat)
    requires n >= 3
    ensures PadCount(n - 3) == PadCount(n)
  {
    assert (n - 3) % 3 == n % 3;
  }

  lemma PaddingShort(b: seq<Byte>)
    requires 1 <= |b| <= 3
    ensures PaddedWith(Encode(b), PadCount(|b|))
  {
    var e := Encode(b);
    EncodeShort(b);
    if |b| == 3 {
      TriplePadded(b[0], b[1], b[2]);
    } else if |b| == 2 {
      PairPadded(b[0], b[1]);
    } else {
      SinglePadded(b[0]);
    }
  }

  /** The encoding of a final group of one to three bytes. */
  lemma EncodeShort(b: seq<Byte>)
    requires 1 <= |b| <= 3
    ensures |b| == 1 ==> Encode(b) == EncodeSingle(b[0])
    ensures |b| == 2 ==> Encode(b) == EncodePair(b[0], b[1])
    ensures |b| == 3 ==> Encode(b) == EncodeTriple(b[0], b[1], b[2])
  {
    if |b| == 3 {
      assert Encode(b[3..]) == "";
    }
  }

  lemma TriplePadded(b0: Byte, b1: Byte, b2: Byte)
    ensures PaddedWith(EncodeTriple(b0, b1, b2), 0)
  {
    TripleUnpadded(b0, b1, b2);
  }

  lemma PairPadded(b0: Byte, b1: Byte)
    ensures PaddedWith(EncodePair(b0, b1), 1)
  {
  }

  lemma SinglePadded(b0: Byte)
    ensures PaddedWith(EncodeSingle(b0), 2)
  {
  }

  /** The test vectors of section 10 of RFC 4648: "", "f", "fo", "foo", "foob", "fooba", "foobar". */
  lemma EncodeExamples()
    ensures Encode([]) == ""
    ensures Encode([0x66]) == "Zg=="
    ensures Encode([0x66, 0x6f]) == "Zm8="
    ensures Encode([0x66, 0x6f, 0x6f]) == "Zm9v"
    ensures Encode([0x66, 0x6f, 0x6f, 0x62]) == "Zm9vYg=="
    ensures Encode([0x66, 0x6f, 0x6f, 0x62, 0x61]) == "Zm9vYmE="
    ensures Encode([0x66, 0x6f, 0x6f, 0x62, 0x61, 0x72]) == "Zm9vYmFy"
  {
    FooVectors();
    BarVectors();
    assert [0x66, 0x6f, 0x6f, 0x62][3..] == [0x62];
    assert [0x66, 0x6f, 0x6f, 0x62, 0x61][3..] == [0x62, 0x61];
    assert [0x66, 0x6f, 0x6f, 0x62, 0x61, 0x72][3..] == [0x62, 0x61, 0x72];
  }

  lemma FooVectors()
    ensures EncodeSingle(0x66) == "Zg=="
    ensures EncodePair(0x66, 0x6f) == "Zm8="
    ensures EncodeTriple(0x66, 0x6f, 0x6f) == "Zm9v"
  {
  }

  lemma BarVectors()
    ensures EncodeSingle(0x62) == "Yg=="
    ensures EncodePair(0x62, 0x61) == "YmE="
    ensures EncodeTriple(0x62, 0x61, 0x72) == "YmFy"
  {
  }
}
