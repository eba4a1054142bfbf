/**
 * The parts of Python's `str` that the modelled code relies on:
 * `lower`, `strip`, `split(sep)`, `join`, `endswith`, `str(int)` and
 * `int(str)`.
 */
module Text {
  import opened Wrappers

  /** Python's `str.isspace()`: the characters that `str.strip()` removes by default. */
  predicate IsSpace(c: char) {
    || c == ' '
    || ('\t' <= c <= '\r')
    || ('\U{001C}' <= c <= '\U{001F}')
    || c == '\U{0085}' || c == '\U{00A0}' || c == '\U{1680}'
    || ('\U{2000}' <= c <= '\U{200A}')
    || c == '\U{2028}' || c == '\U{2029}' || c == '\U{202F}' || c == '\U{205F}' || c == '\U{3000}'
  }

  /**
   * Lower-casing of one character, restricted to ASCII. Every string the
   * modelled code compares a lowered value with is ASCII, and no other
   * character lowers to one of the letters those strings use, so the
   * decisions come out as with Python's full Unicode `lower()`.
   */
  function LowerChar(c: char): (r: char)
    ensures 'A' <= c <= 'Z' ==> r as int == c as int + 32
    ensures !('A' <= c <= 'Z') ==> r == c
    ensures !('A' <= r <= 'Z')
  {
    if 'A' <= c <= 'Z' then (c as int + 32) as char else c
  }

  function Lower(s: string): (r: string)
  {
    seq(|s|, i requires 0 <= i < |s| => LowerChar(s[i]))
  }

  /** Lower-casing leaves every character other than A-Z where it was, in particular '.'. */
  lemma LowerIdempotent(s: string)
    ensures Lower(Lower(s)) == Lower(s)
  {
  }

  /** Whether `prefix` starts `s` (Python's `s.startswith(prefix)`). */
  predicate StartsWith(s: string, prefix: string) {
    |prefix| <= |s| && s[..|prefix|] == prefix
  }

  /** Whether `suffix` ends `s` (Python's `s.endswith(suffix)`). */
  predicate EndsWith(s: string, suffix: string) {
    |suffix| <= |s| && s[|s| - |suffix|..] == suffix
  }

  /** Python's `s.lstrip()`. */
  function TrimLeft(s: string): (r: string)
    ensures |r| <= |s|
  {
    if s != [] && IsSpace(s[0]) then TrimLeft(s[1..]) else s
  }

  /** `lstrip` leaves a suffix of its input that does not start with white space. */
  lemma {:induction false} TrimLeftShape(s: string)
    ensures |TrimLeft(s)| <= |s| && TrimLeft(s) == s[|s| - |TrimLeft(s)|..]
    ensures TrimLeft(s) == [] || !IsSpace(TrimLeft(s)[0])
  {
    if s != [] && IsSpace(s[0]) {
      TrimLeftShape(s[1..]);
      assert s[1..][|s[1..]| - |TrimLeft(s)|..] == s[|s| - |TrimLeft(s)|..];
    }
  }

  /** `lstrip` removes only white space. */
  lemma {:induction false} TrimLeftSpaces(s: string)
    ensures forall i :: 0 <= i < |s| - |TrimLeft(s)| ==> IsSpace(s[i])
  {
    if s != [] && IsSpace(s[0]) {
      TrimLeftSpaces(s[1..]);
      forall i | 1 <= i < |s| - |TrimLeft(s)| ensures IsSpace(s[i]) {
        assert s[i] == s[1..][i - 1];
      }
    }
  }

  /** Python's `s.rstrip()`. */
  function TrimRight(s: string): (r: string)
    ensures |r| <= |s|
  {
    if s != [] && IsSpace(s[|s| - 1]) then TrimRight(s[..|s| - 1]) else s
  }

  /** `rstrip` leaves a prefix of its input that does not end with white space. */
  lemma {:induction false} TrimRightShape(s: string)
    ensures |TrimRight(s)| <= |s| && TrimRight(s) == s[..|TrimRight(s)|]
    ensures TrimRight(s) == [] || !IsSpace(TrimRight(s)[|TrimRight(s)| - 1])
  {
    if s != [] && IsSpace(s[|s| - 1]) {
      TrimRightShape(s[..|s| - 1]);
      assert s[..|s| - 1][..|TrimRight(s)|] == s[..|TrimRight(s)|];
    }
  }

  /** `rstrip` removes only white space. */
  lemma {:induction false} TrimRightSpaces(s: string)
    ensures forall i :: |TrimRight(s)| <= i < |s| ==> IsSpace(s[i])
  {
    if s != [] && IsSpace(s[|s| - 1]) {
      TrimRightSpaces(s[..|s| - 1]);
      forall i | |TrimRight(s)| <= i < |s| - 1 ensures IsSpace(s[i]) {
        assert s[i] == s[..|s| - 1][i];
      }
    }
  }

  /** Python's `s.strip()`. */
  function Strip(s: string): (r: string)
  {
    TrimRight(TrimLeft(s))
  }

  /** What `Strip` leaves starts and ends with a non-space. */
  lemma StripEnds(s: string)
    ensures var r := Strip(s); r == [] || (!IsSpace(r[0]) && !IsSpace(r[|r| - 1]))
  {
    var l := TrimLeft(s);
    var r := TrimRight(l);
    TrimLeftShape(s);
    TrimRightShape(l);
    if r != [] {
      assert r[0] == l[0];
    }
  }

  /** Taking `m` elements after dropping `k` is the slice from `k` to `k + m`. */
  lemma SliceOfSlice<T>(s: seq<T>, k: nat, m: nat)
    requires k + m <= |s|
    ensures s[k..][..m] == s[k..k + m]
  {
  }

  /** What `Strip` leaves is the piece of `s` after its leading white space. */
  lemma StripSlice(s: string)
    ensures var r, k := Strip(s), |s| - |TrimLeft(s)|;
      k + |r| <= |s| && s[k..k + |r|] == r
  {
    var l := TrimLeft(s);
    var r := TrimRight(l);
    var k := |s| - |l|;
    TrimLeftShape(s);
    TrimRightShape(l);
    SliceOfSlice(s, k, |r|);
  }

  /** Everything after what `Strip` leaves is white space. */
  lemma StripTrailing(s: string)
    ensures var r, k := Strip(s), |s| - |TrimLeft(s)|;
      forall i :: k + |r| <= i < |s| ==> IsSpace(s[i])
  {
    var l := TrimLeft(s);
    var r := TrimRight(l);
    var k := |s| - |l|;
    TrimLeftShape(s);
    TrimRightShape(l);
    TrimRightSpaces(l);
    forall i | k + |r| <= i < |s| ensures IsSpace(s[i]) {
      assert s[i] == l[i - k];
    }
  }

  /**
   * `Strip` removes exactly the leading and trailing white space: what is
   * left starts and ends with a non-space, and it is a contiguous piece of
   * the input with only white space around it.
   */
  lemma StripSpec(s: string)
    ensures var r, k := Strip(s), |s| - |TrimLeft(s)|;
      && (r == [] || (!IsSpace(r[0]) && !IsSpace(r[|r| - 1])))
      && k + |r| <= |s| && s[k..k + |r|] == r
      && (forall i :: 0 <= i < k ==> IsSpace(s[i]))
      && (forall i :: k + |r| <= i < |s| ==> IsSpace(s[i]))
  {
    StripEnds(s);
    StripSlice(s);
    TrimLeftSpaces(s);
    StripTrailing(s);
  }

  lemma StripIdempotent(s: string)
    ensures Strip(Strip(s)) == Strip(s)
  {
    StripEnds(s);
    StripUnpadded(Strip(s));
  }

  /** Python's `s.split(sep)` with a one-character separator. */
  function Split(s: string, sep: char): (r: seq<string>)
    ensures |r| >= 1
  {
    if s == [] then [""]
    else
      var rest := Split(s[1..], sep);
      if s[0] == sep then [""] + rest else [[s[0]] + rest[0]] + rest[1..]
  }

  /** One step of `Split`: the first character either ends the first piece or joins it. */
  lemma SplitCons(c: char, t: string, sep: char)
    ensures Split([c] + t, sep) ==
      if c == sep then [""] + Split(t, sep) else [[c] + Split(t, sep)[0]] + Split(t, sep)[1..]
  {
    assert ([c] + t)[1..] == t;
  }

  /** Python's `sep.join(pieces)`. */
  function Join(pieces: seq<string>, sep: string): string {
    if pieces == [] then ""
    else if |pieces| == 1 then pieces[0]
    else pieces[0] + sep + Join(pieces[1..], sep)
  }

  /** The sum of the lengths of the pieces. */
  function TotalLength(pieces: seq<string>): nat {
    if pieces == [] then 0 else |pieces[0]| + TotalLength(pieces[1..])
  }

  /** The number of occurrences of `c` in `s`. */
  function Count(s: string, c: char): nat {
    if s == [] then 0 else (if s[0] == c then 1 else 0) + Count(s[1..], c)
  }

  /**
   * The pieces of `Split` contain no separator, there is one more piece
   * than there are separators (empty pieces are kept), and joining them
   * with the separator gives the input back.
   */
  lemma {:induction false} SplitSpec(s: string, sep: char)
    ensures forall i :: 0 <= i < |Split(s, sep)| ==> sep !in Split(s, sep)[i]
    ensures |Split(s, sep)| == Count(s, sep) + 1
    ensures Join(Split(s, sep), [sep]) == s
  {
    if s != [] {
      var rest := Split(s[1..], sep);
      SplitSpec(s[1..], sep);
      if s[0] == sep {
        assert Split(s, sep) == [""] + rest;
        assert [s[0]] + s[1..] == s;
      } else {
        var r := Split(s, sep);
        assert r[0] == [s[0]] + rest[0];
        assert r[1..] == rest[1..];
        if |rest| == 1 {
          assert Join(r, [sep]) == r[0];
        } else {
          assert Join(r, [sep]) == r[0] + [sep] + Join(r[1..], [sep]);
          assert Join(rest, [sep]) == rest[0] + [sep] + Join(rest[1..], [sep]);
        }
        assert [s[0]] + s[1..] == s;
      }
    }
  }

  /** A separator-free prefix becomes the start of the first piece. */
  lemma {:induction false} SplitPrefix(p: string, t: string, sep: char)
    requires sep !in p
    ensures Split(p + t, sep) == [p + Split(t, sep)[0]] + Split(t, sep)[1..]
  {
    var rest := Split(t, sep);
    if p == [] {
      assert p + t == t;
      assert p + rest[0] == rest[0];
      assert rest == [rest[0]] + rest[1..];
    } else {
      var q := p[1..];
      SplitPrefix(q, t, sep);
      SplitConsPiece(p[0], q + t, sep, q + rest[0], rest[1..]);
      assert [p[0]] + (q + t) == p + t;
      assert [p[0]] + (q + rest[0]) == p + rest[0];
    }
  }

  /** A character other than the separator joins the first piece. */
  lemma SplitConsPiece(c: char, u: string, sep: char, first: string, more: seq<string>)
    requires c != sep && Split(u, sep) == [first] + more
    ensures Split([c] + u, sep) == [[c] + first] + more
  {
    SplitCons(c, u, sep);
    assert ([first] + more)[0] == first;
    assert ([first] + more)[1..] == more;
  }

  /** Splitting undoes joining, when no piece holds the separator. */
  lemma {:induction false} SplitJoin(pieces: seq<string>, sep: char)
    requires |pieces| >= 1
    requires forall i :: 0 <= i < |pieces| ==> sep !in pieces[i]
    ensures Split(Join(pieces, [sep]), sep) == pieces
  {
    if |pieces| == 1 {
      SplitWithout(pieces[0], sep);
    } else {
      var t := Join(pieces[1..], [sep]);
      SplitJoin(pieces[1..], sep);
      assert Join(pieces, [sep]) == pieces[0] + ([sep] + t);
      SplitPrefix(pieces[0], [sep] + t, sep);
      SplitCons(sep, t, sep);
      assert pieces[0] + "" == pieces[0];
      assert pieces == [pieces[0]] + pieces[1..];
    }
  }

  /** The last piece of `Split(s, sep)`: Python's `s.split(sep)[-1]`. */
  function LastPiece(s: string, sep: char): (r: string)
  {
    var pieces := Split(s, sep);
    pieces[|pieces| - 1]
  }

  /** A string without the separator is a single piece. */
  lemma {:induction false} SplitWithout(s: string, sep: char)
    requires sep !in s
    ensures Split(s, sep) == [s]
  {
    if s != [] {
      SplitWithout(s[1..], sep);
      assert [s[0]] + s[1..] == s;
    }
  }

  /** A string holding the separator splits into at least two pieces. */
  lemma {:induction false} SplitWith(s: string, sep: char)
    requires sep in s
    ensures |Split(s, sep)| >= 2
  {
    if s[0] != sep {
      assert sep in s[1..] by {
        var i :| 0 <= i < |s| && s[i] == sep;
        assert s[1..][i - 1] == sep;
      }
      SplitWith(s[1..], sep);
    }
  }

  /** How the last piece of `s` relates to the last piece of its tail. */
  lemma LastPieceStep(s: string, sep: char)
    requires s != []
    ensures s[0] == sep || sep in s[1..] ==> LastPiece(s, sep) == LastPiece(s[1..], sep)
    ensures s[0] != sep && sep !in s[1..] ==> LastPiece(s, sep) == s
  {
    if sep in s[1..] {
      SplitWith(s[1..], sep);
    } else {
      SplitWithout(s[1..], sep);
      assert [s[0]] + s[1..] == s;
    }
  }

  /** The last piece holds no separator. */
  lemma {:induction false} LastPieceNoSep(s: string, sep: char)
    ensures sep !in LastPiece(s, sep)
  {
    if sep !in s {
      SplitWithout(s, sep);
    } else {
      LastPieceStep(s, sep);
      LastPieceNoSep(s[1..], sep);
    }
  }

  /** The last piece ends the input. */
  lemma {:induction false} LastPieceEnds(s: string, sep: char)
    ensures EndsWith(s, LastPiece(s, sep))
  {
    if sep !in s {
      SplitWithout(s, sep);
    } else {
      var p := LastPiece(s[1..], sep);
      LastPieceStep(s, sep);
      LastPieceEnds(s[1..], sep);
      assert s[1..][|s[1..]| - |p|..] == s[|s| - |p|..];
    }
  }

  /** When the input holds the separator, a separator comes just before the last piece. */
  lemma {:induction false} LastPieceAfterSep(s: string, sep: char)
    requires sep in s
    ensures |LastPiece(s, sep)| < |s| && s[|s| - |LastPiece(s, sep)| - 1] == sep
  {
    LastPieceStep(s, sep);
    if sep in s[1..] {
      var p := LastPiece(s[1..], sep);
      LastPieceAfterSep(s[1..], sep);
      assert s[1..][|s[1..]| - |p| - 1] == s[|s| - |p| - 1];
    } else {
      SplitWithout(s[1..], sep);
    }
  }

  /**
   * The last piece is the text after the last separator: it contains no
   * separator, and when `s` contains one, `s` is some prefix, the separator
   * and the last piece.
   */
  lemma LastPieceSpec(s: string, sep: char)
    ensures sep !in LastPiece(s, sep)
    ensures EndsWith(s, LastPiece(s, sep))
    ensures sep !in s ==> LastPiece(s, sep) == s
    ensures sep in s ==> |LastPiece(s, sep)| < |s| && s[|s| - |LastPiece(s, sep)| - 1] == sep
  {
    LastPieceNoSep(s, sep);
    LastPieceEnds(s, sep);
    if sep in s {
      LastPieceAfterSep(s, sep);
    } else {
      SplitWithout(s, sep);
    }
  }

  /** When `s` holds the separator, it ends with the last separator and the last piece. */
  lemma EndsWithLastPiece(s: string, sep: char)
    requires sep in s
    ensures EndsWith(s, [sep] + LastPiece(s, sep))
  {
    var p := LastPiece(s, sep);
    LastPieceSpec(s, sep);
    assert s[|s| - |p| - 1..] == [s[|s| - |p| - 1]] + s[|s| - |p|..];
  }

  /** When `s` ends with the separator and a separator-free `p`, the last piece is `p`. */
  lemma LastPieceOfSuffix(s: string, sep: char, p: string)
    requires sep !in p && EndsWith(s, [sep] + p)
    ensures LastPiece(s, sep) == p
  {
    var q := LastPiece(s, sep);
    LastPieceSpec(s, sep);
    var n := |s|;
    assert s[n - |p| - 1] == sep by { assert s[n - |p| - 1..] == [sep] + p; }
    assert sep in s;
    assert q == s[n - |q|..] == p;
  }

  /** Lower-casing neither creates nor removes a character outside A-Z, such as the separator `.`. */
  lemma LowerKeeps(s: string, c: char)
    requires !('A' <= c <= 'Z') && !('a' <= c <= 'z')
    ensures c in Lower(s) <==> c in s
  {
    if c in s {
      var i :| 0 <= i < |s| && s[i] == c;
      assert Lower(s)[i] == c;
    }
    if c in Lower(s) {
      var i :| 0 <= i < |s| && Lower(s)[i] == c;
      assert s[i] == c;
    }
  }

  /** Python's `str(n)` for a non-negative integer. */
  function NatToDecimal(n: nat): (r: string)
    ensures |r| >= 1
    ensures forall i :: 0 <= i < |r| ==> '0' <= r[i] <= '9'
    ensures |r| > 1 ==> r[0] != '0'
  {
    if n < 10 then [DigitChar(n)] else NatToDecimal(n / 10) + [DigitChar(n % 10)]
  }

  function DigitChar(d: nat): (c: char)
    requires d < 10
    ensures '0' <= c <= '9' && c as int - '0' as int == d
  {
    ('0' as int + d) as char
  }

  /** Python's `str(n)` for any integer. */
  function IntToDecimal(n: int): (r: string)
  {
    if n < 0 then "-" + NatToDecimal(-n) else NatToDecimal(n)
  }

  /**
   * `sys.int_info.default_max_str_digits`: from CPython 3.11 on, `str(n)`
   * and `int(text)` raise `ValueError` beyond this many decimal digits.
   */
  const MaxStrDigits: nat := 4300

  /** The number of decimal digits of `n`, without its sign. */
  function DigitCount(n: int): nat {
    |NatToDecimal(if n < 0 then -n else n)|
  }

  /** Reading a run of decimal digits as a number: the inverse of `NatToDecimal`. */
  /** The number a string of decimal digits denotes. */
  function DigitsValue(s: string): int
  {
    if s == [] then 0 else DigitsValue(s[..|s| - 1]) * 10 + (s[|s| - 1] as int - '0' as int)
  }

  lemma {:induction false} NatToDecimalRoundTrip(n: nat)
    ensures DigitsValue(NatToDecimal(n)) == n
  {
    if n >= 10 {
      var r := NatToDecimal(n);
      NatToDecimalRoundTrip(n / 10);
      assert r[..|r| - 1] == NatToDecimal(n / 10);
    }
  }

  /** `str(n)` is injective: different integers print differently. */
  lemma {:induction false} IntToDecimalInjective(m: int, n: int)
    requires IntToDecimal(m) == IntToDecimal(n)
    ensures m == n
  {
    if m < 0 {
      SignedDecimal(m);
      SignedDecimal(n);
      NatToDecimalInjective(-m, -n);
    } else {
      SignedDecimal(m);
      SignedDecimal(n);
      NatToDecimalInjective(m, n);
    }
  }

  lemma {:induction false} NatToDecimalInjective(a: nat, b: nat)
    requires NatToDecimal(a) == NatToDecimal(b)
    ensures a == b
  {
    NatToDecimalRoundTrip(a);
    NatToDecimalRoundTrip(b);
  }

  /** A printed integer starts with '-' exactly when it is negative. */
  lemma SignedDecimal(n: int)
    ensures IntToDecimal(n)[0] == '-' <==> n < 0
    ensures n < 0 ==> IntToDecimal(n)[1..] == NatToDecimal(-n)
    ensures n >= 0 ==> IntToDecimal(n) == NatToDecimal(n)
  {
    if n < 0 {
      assert ("-" + NatToDecimal(-n))[1..] == NatToDecimal(-n);
    }
  }

  /** A string with no white space at either end is its own `strip()`. */
  lemma StripUnpadded(s: string)
    requires s == [] || (!IsSpace(s[0]) && !IsSpace(s[|s| - 1]))
    ensures Strip(s) == s
  {
  }

  predicate IsDigit(c: char) {
    '0' <= c <= '9'
  }

  /**
   * The digit part `int(str)` accepts: digits, with single underscores
   * allowed between two digits.
   */
  predicate DigitGroups(s: string) {
    && |s| >= 1 && IsDigit(s[0]) && IsDigit(s[|s| - 1])
    && (forall i :: 0 <= i < |s| ==> IsDigit(s[i]) || s[i] == '_')
    && (forall i :: 0 <= i < |s| - 1 ==> s[i] == '_' ==> s[i + 1] != '_')
  }

  /** The digits of `s` with the underscores dropped. */
  function RemoveUnderscores(s: string): (r: string)
    ensures '_' !in s ==> r == s
  {
    if s == [] then []
    else if s[0] == '_' then RemoveUnderscores(s[1..])
    else [s[0]] + RemoveUnderscores(s[1..])
  }

  /** A group of digits, or `None` when it has more digits than the conversion limit allows. */
  function ParseGroup(d: string): Option<int> {
    var digits := RemoveUnderscores(d);
    if |digits| > MaxStrDigits then None else Some(DigitsValue(digits))
  }

  /** An optionally signed group of digits, with nothing around it. */
  function ParseSigned(t: string): Option<int> {
    if t != [] && (t[0] == '-' || t[0] == '+') then
      if DigitGroups(t[1..]) && ParseGroup(t[1..]).Some? then
        var n: int := ParseGroup(t[1..]).value;
        Some(if t[0] == '-' then -n else n)
      else None
    else if DigitGroups(t) then ParseGroup(t)
    else None
  }

  /**
   * Python's `int(text)` on a decimal string: white space around it is
   * ignored, a `+` or `-` sign is allowed, and anything else, or more than
   * `MaxStrDigits` digits, is a `ValueError` (`None` here).
   */
  function ParseInt(text: string): Option<int> {
    ParseSigned(Strip(text))
  }

  /** A printed natural number is a single group of digits with nothing around it. */
  lemma DecimalIsDigitGroup(n: nat)
    ensures var d := NatToDecimal(n);
      && DigitGroups(d) && RemoveUnderscores(d) == d && Strip(d) == d && d[0] != '-' && d[0] != '+'
  {
    var d := NatToDecimal(n);
    assert IsDigit(d[0]) && IsDigit(d[|d| - 1]);
    assert '_' !in d;
    StripUnpadded(d);
  }

  /**
   * `int(str(n)) == n` for every natural number `n` of at most
   * `MaxStrDigits` digits; a longer one is rejected.
   */
  lemma ParseIntRoundTrip(n: nat)
    ensures ParseInt(NatToDecimal(n)) == if |NatToDecimal(n)| <= MaxStrDigits then Some(n) else None
  {
    var d := NatToDecimal(n);
    DecimalIsDigitGroup(n);
    ParseUnsignedGroup(d);
    NatToDecimalRoundTrip(n);
  }

  /** An unsigned, unpadded group of digits without underscores reads as its value, within the limit. */
  lemma ParseUnsignedGroup(d: string)
    requires DigitGroups(d) && RemoveUnderscores(d) == d && Strip(d) == d
    ensures ParseInt(d) == if |d| <= MaxStrDigits then Some(DigitsValue(d)) else None
  {
    assert d[0] != '-' && d[0] != '+';
  }

  /** A group of more than `MaxStrDigits` digits is rejected, whatever its sign and underscores. */
  lemma ParseIntLimit(t: string)
    requires DigitGroups(t) && |RemoveUnderscores(t)| > MaxStrDigits
    ensures ParseInt(t) == None
    ensures ParseInt("-" + t) == None
  {
    assert IsDigit(t[0]) && IsDigit(t[|t| - 1]);
    StripUnpadded(t);
    assert ParseGroup(t) == None;
    var m := "-" + t;
    assert m[0] == '-' && m[|m| - 1] == t[|t| - 1];
    StripUnpadded(m);
    assert m[1..] == t;
  }

  lemma ParseStripped(t: string)
    requires Strip(t) == t
    ensures ParseInt(t) == ParseSigned(t)
  {
  }

  /** Surrounding white space does not change what `int` reads. */
  lemma ParseIntIgnoresSpace(text: string)
    ensures ParseInt(Strip(text)) == ParseInt(text)
  {
    StripIdempotent(text);
  }

  /** One leading space before an unpadded string is stripped away. */
  lemma StripLeadingSpace(t: string)
    requires t != [] && !IsSpace(t[0]) && !IsSpace(t[|t| - 1])
    ensures Strip([' '] + t) == t
  {
    assert ([' '] + t)[1..] == t;
    StripUnpadded(t);
  }

  /** One space on each side of an unpadded string is stripped away. */
  lemma StripSurrounded(t: string)
    requires t != [] && !IsSpace(t[0]) && !IsSpace(t[|t| - 1])
    ensures Strip([' '] + t + [' ']) == t
  {
    var u := [' '] + t + [' '];
    assert u[1..] == t + [' '];
    assert (t + [' '])[0] == t[0];
    assert TrimLeft(u) == t + [' '];
    assert (t + [' '])[..|t|] == t;
    assert TrimRight(t) == t;
  }

  lemma ParseIntNegativeExample()
    ensures ParseInt(" -3") == Some(-3)
  {
    StripLeadingSpace("-3");
    assert " -3" == [' '] + "-3";
    assert ("-3")[1..] == "3";
    assert RemoveUnderscores("3") == "3";
  }

  lemma ParseIntUnderscoreExample()
    ensures ParseInt("1_0") == Some(10)
  {
    StripUnpadded("1_0");
    assert DigitGroups("1_0");
    assert RemoveUnderscores("1_0") == "10";
    assert ("10")[..1] == "1";
    assert DigitsValue("1") == 1;
  }

  lemma ParseIntEmptyExample()
    ensures ParseInt("") == None
  {
  }

  lemma ParseIntRejects()
    ensures ParseInt("1__0") == None
    ensures ParseInt("_1") == None
  {
    StripUnpadded("1__0");
    assert "1__0"[1] == '_' && "1__0"[2] == '_';
    StripUnpadded("_1");
  }
}
