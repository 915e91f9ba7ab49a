/**
 * String helpers the bot relies on: Python's `str.strip()` (Trim), the
 * accumulation of pieces into one reply (Concat), and the decimal rendering
 * of a line number that an f-string performs (NatToDecimal).
 */
module Text {

  /** The characters for which Python's `str.isspace()` holds. `str.strip()` removes exactly these. */
  predicate IsSpace(c: char)
  {
    ('\U{0009}' <= c <= '\U{000D}') || ('\U{001C}' <= c <= '\U{001F}') || c == ' '
    || c == '\U{0085}' || c == '\U{00A0}' || c == '\U{1680}'
    || ('\U{2000}' <= c <= '\U{200A}') || c == '\U{2028}' || c == '\U{2029}'
    || c == '\U{202F}' || c == '\U{205F}' || c == '\U{3000}'
  }

  /** The number of white-space characters `s` starts with. */
  function TrimStart(s: string): (i: nat)
    ensures i <= |s|
  {
    if s != [] && IsSpace(s[0]) then 1 + TrimStart(s[1..]) else 0
  }

  /** The leading white space ends exactly at `TrimStart(s)`. */
  lemma {:induction false} TrimStartSpec(s: string)
    ensures forall k :: 0 <= k < TrimStart(s) ==> IsSpace(s[k])
    ensures TrimStart(s) < |s| ==> !IsSpace(s[TrimStart(s)])
    decreases |s|
  {
    if s != [] && IsSpace(s[0]) {
      TrimStartSpec(s[1..]);
    }
  }

  /** A string made of white space only is all leading white space, so Trim leaves nothing of it. */
  lemma {:induction false} TrimBlank(s: string)
    requires forall k :: 0 <= k < |s| ==> IsSpace(s[k])
    ensures TrimStart(s) == |s|
    ensures Trim(s) == []
    decreases |s|
  {
    if s != [] {
      assert IsSpace(s[0]);
      TrimBlank(s[1..]);
    }
  }

  /** Drops the trailing white space of `s`. */
  function TrimRight(s: string): (r: string)
    ensures |r| <= |s|
  {
    if s != [] && IsSpace(s[|s| - 1]) then TrimRight(s[..|s| - 1]) else s
  }

  /** TrimRight keeps a prefix, removes white space only, and leaves no white space at the end. */
  lemma {:induction false} TrimRightSpec(s: string)
    ensures TrimRight(s) == s[..|TrimRight(s)|]
    ensures forall k :: |TrimRight(s)| <= k < |s| ==> IsSpace(s[k])
    ensures TrimRight(s) == [] || !IsSpace(TrimRight(s)[|TrimRight(s)| - 1])
    decreases |s|
  {
    if s != [] && IsSpace(s[|s| - 1]) {
      TrimRightSpec(s[..|s| - 1]);
    }
  }

  /**
   * Python's `s.strip()`: what is left of `s` once its leading and trailing
   * white space is dropped.
   */
  function Trim(s: string): (r: string)
    ensures TrimStart(s) + |r| <= |s|
  {
    TrimRight(s[TrimStart(s)..])
  }

  /** Trim keeps the infix of `s` that starts after the leading white space. */
  lemma TrimInfix(s: string)
    ensures Trim(s) == s[TrimStart(s)..TrimStart(s) + |Trim(s)|]
  {
    var i := TrimStart(s);
    var t := s[i..];
    var r := TrimRight(t);
    TrimRightSpec(t);
    assert t[..|r|] == s[i..i + |r|];
  }

  /** Everything Trim drops at the end of `s` is white space. */
  lemma TrimTail(s: string)
    ensures forall k :: TrimStart(s) + |Trim(s)| <= k < |s| ==> IsSpace(s[k])
  {
    var i := TrimStart(s);
    var t := s[i..];
    var r := TrimRight(t);
    TrimRightSpec(t);
    forall k | i + |r| <= k < |s|
      ensures IsSpace(s[k])
    {
      assert s[k] == t[k - i];
    }
  }

  /** The result of Trim neither starts nor ends with white space. */
  lemma TrimEnds(s: string)
    ensures Trim(s) == [] || (!IsSpace(Trim(s)[0]) && !IsSpace(Trim(s)[|Trim(s)| - 1]))
  {
    var i := TrimStart(s);
    var t := s[i..];
    var r := TrimRight(t);
    TrimRightSpec(t);
    if r != [] {
      TrimStartSpec(s);
      assert r[0] == s[i];
    }
  }

  /** Trim keeps the infix between the leading and the trailing white space, which neither starts nor ends with white space. */
  lemma TrimSpec(s: string)
    ensures Trim(s) == s[TrimStart(s)..TrimStart(s) + |Trim(s)|]
    ensures forall k :: 0 <= k < TrimStart(s) ==> IsSpace(s[k])
    ensures forall k :: TrimStart(s) + |Trim(s)| <= k < |s| ==> IsSpace(s[k])
    ensures Trim(s) == [] || (!IsSpace(Trim(s)[0]) && !IsSpace(Trim(s)[|Trim(s)| - 1]))
  {
    TrimInfix(s);
    TrimStartSpec(s);
    TrimTail(s);
    TrimEnds(s);
  }

  /** A string that neither starts nor ends with white space is left alone by Trim. */
  lemma TrimUnchanged(s: string)
    requires s == [] || (!IsSpace(s[0]) && !IsSpace(s[|s| - 1]))
    ensures Trim(s) == s
  {
    if s != [] {
      assert TrimStart(s) == 0;
      assert s[0..] == s;
    }
  }

  /** Stripping twice is stripping once. */
  lemma TrimIdempotent(s: string)
    ensures Trim(Trim(s)) == Trim(s)
  {
    TrimSpec(s);
    TrimUnchanged(Trim(s));
  }

  /** Trim removes white space only: a non-space character of `s` lies inside the kept part. */
  lemma TrimKeepsNonSpace(s: string, k: nat)
    requires k < |s| && !IsSpace(s[k])
    ensures TrimStart(s) <= k < TrimStart(s) + |Trim(s)|
  {
    TrimSpec(s);
  }

  /** The pieces of `ss` joined in order, as a loop of `out += piece` builds them. */
  function Concat(ss: seq<string>): (r: string)
  {
    if ss == [] then [] else Concat(ss[..|ss| - 1]) + ss[|ss| - 1]
  }

  /** Joining is a homomorphism from sequence concatenation to string concatenation. */
  lemma {:induction false} ConcatAppend(a: seq<string>, b: seq<string>)
    ensures Concat(a + b) == Concat(a) + Concat(b)
    decreases |b|
  {
    if b == [] {
      assert a + b == a;
    } else {
      var b', last := b[..|b| - 1], b[|b| - 1];
      assert (a + b)[..|a + b| - 1] == a + b';
      assert (a + b)[|a + b| - 1] == last;
      assert Concat(a + b) == Concat(a + b') + last;
      ConcatAppend(a, b');
      assert Concat(b) == Concat(b') + last;
    }
  }

  /** Piece `k` stands, unchanged, right after the pieces before it. */
  lemma ConcatAt(ss: seq<string>, k: nat)
    requires k < |ss|
    ensures Concat(ss) == Concat(ss[..k]) + ss[k] + Concat(ss[k + 1..])
  {
    var front, back := ss[..k + 1], ss[k + 1..];
    assert ss == front + back;
    ConcatAppend(front, back);
    assert front[..k] == ss[..k];
    assert Concat(front) == Concat(ss[..k]) + ss[k];
  }

  /** The position at which piece `k` starts in `Concat(ss)`. */
  function Offset(ss: seq<string>, k: nat): nat
    requires k <= |ss|
  {
    |Concat(ss[..k])|
  }

  /**
   * Order preservation: piece `k` occupies `Concat(ss)` from `Offset(ss, k)` to
   * `Offset(ss, k + 1)`, and a later piece starts no earlier than an earlier one.
   */
  lemma PieceAt(ss: seq<string>, k: nat)
    requires k < |ss|
    ensures Offset(ss, k + 1) == Offset(ss, k) + |ss[k]| <= |Concat(ss)|
    ensures Concat(ss)[Offset(ss, k)..Offset(ss, k + 1)] == ss[k]
  {
    ConcatAt(ss, k);
    assert ss[..k + 1][..k] == ss[..k];
  }

  /** Pieces come out in order: piece `j` starts no earlier than piece `i` ends, for `i < j`. */
  lemma {:induction false} OffsetsOrdered(ss: seq<string>, i: nat, j: nat)
    requires i < j <= |ss|
    ensures Offset(ss, i) + |ss[i]| <= Offset(ss, j)
    decreases j - i
  {
    PieceAt(ss, i);
    if i + 1 < j {
      OffsetsOrdered(ss, i + 1, j);
      PieceAt(ss, i + 1);
    }
  }

  /** Number of occurrences of `c` in `s`. */
  function Count(s: string, c: char): nat
  {
    if s == [] then 0 else Count(s[..|s| - 1], c) + (if s[|s| - 1] == c then 1 else 0)
  }

  lemma {:induction false} CountAppend(a: string, b: string, c: char)
    ensures Count(a + b, c) == Count(a, c) + Count(b, c)
    decreases |b|
  {
    if b == [] {
      assert a + b == a;
    } else {
      assert (a + b)[..|a + b| - 1] == a + b[..|b| - 1];
      CountAppend(a, b[..|b| - 1], c);
    }
  }

  lemma {:induction false} CountAbsent(s: string, c: char)
    requires c !in s
    ensures Count(s, c) == 0
    decreases |s|
  {
    if s != [] {
      assert s == s[..|s| - 1] + [s[|s| - 1]];
      CountAbsent(s[..|s| - 1], c);
    }
  }

  predicate IsDigit(c: char)
  {
    '0' <= c <= '9'
  }

  /** The decimal digit character for `d`. */
  function DigitChar(d: nat): (c: char)
    requires d < 10
    ensures IsDigit(c) && c as int - '0' as int == d
  {
    ('0' as int + d) as char
  }

  /** Python's `str(n)` for a natural number, as the f-string `{i}` renders it. */
  function NatToDecimal(n: nat): (s: string)
    ensures |s| >= 1
    ensures forall k :: 0 <= k < |s| ==> IsDigit(s[k])
    ensures s[0] == '0' ==> n == 0
  {
    if n < 10 then [DigitChar(n)] else NatToDecimal(n / 10) + [DigitChar(n % 10)]
  }

  function DigitValue(c: char): (d: nat)
    requires IsDigit(c)
    ensures d < 10 && DigitChar(d) == c
  {
    c as int - '0' as int
  }

  /** The value a string of decimal digits denotes, read left to right. */
  function DecimalValue(s: string): nat
    requires forall k :: 0 <= k < |s| ==> IsDigit(s[k])
  {
    if s == [] then 0 else 10 * DecimalValue(s[..|s| - 1]) + DigitValue(s[|s| - 1])
  }

  /** Rendering a number in decimal and reading it back gives the number again. */
  lemma {:induction false} DecimalRoundTrip(n: nat)
    ensures DecimalValue(NatToDecimal(n)) == n
  {
    if n >= 10 {
      var s := NatToDecimal(n);
      assert s[..|s| - 1] == NatToDecimal(n / 10);
      DecimalRoundTrip(n / 10);
    }
  }

  /** Decimal rendering is injective: distinct numbers give distinct strings. */
  lemma DecimalInjective(m: nat, n: nat)
    requires NatToDecimal(m) == NatToDecimal(n)
    ensures m == n
  {
    DecimalRoundTrip(m);
    DecimalRoundTrip(n);
  }
}
