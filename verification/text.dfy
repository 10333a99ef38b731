/**
 * The handful of Go `strings`/`strconv` functions the core relies on, on
 * strings as sequences of characters.
 */
module Text {

  /** The white-space characters outside the U+2000..U+200A block. */
  const SpaceChars: set<char> := {' ', '\t', '\n', '\U{000B}', '\U{000C}', '\r', '\U{0085}', '\U{00A0}',
                                  '\U{1680}', '\U{2028}', '\U{2029}', '\U{202F}', '\U{205F}', '\U{3000}'}

  /** Go's `unicode.IsSpace`. */
  predicate IsSpace(c: char)
  {
    c in SpaceChars || '\U{2000}' <= c <= '\U{200A}'
  }

  predicate AllSpace(s: string)
  {
    forall i :: 0 <= i < |s| ==> IsSpace(s[i])
  }

  /** The number of white-space characters `s` starts with. */
  function LeadingSpace(s: string): (n: nat)
    ensures n <= |s|
    ensures forall i :: 0 <= i < n ==> IsSpace(s[i])
    ensures n < |s| ==> !IsSpace(s[n])
  {
    if s == [] || !IsSpace(s[0]) then 0 else 1 + LeadingSpace(s[1..])
  }

  /** The number of white-space characters `s` ends with. */
  function TrailingSpace(s: string): (n: nat)
    ensures n <= |s|
    ensures forall i :: |s| - n <= i < |s| ==> IsSpace(s[i])
    ensures n < |s| ==> !IsSpace(s[|s| - n - 1])
  {
    if s == [] || !IsSpace(s[|s| - 1]) then 0 else 1 + TrailingSpace(s[..|s| - 1])
  }

  /** A white-space run followed by a non-space character (or the end) is the leading run. */
  lemma {:induction false} LeadingSpaceUnique(s: string, k: nat)
    requires k <= |s|
    requires forall i :: 0 <= i < k ==> IsSpace(s[i])
    requires k < |s| ==> !IsSpace(s[k])
    ensures LeadingSpace(s) == k
  {
    if k > 0 {
      assert IsSpace(s[0]);
      LeadingSpaceUnique(s[1..], k - 1);
    }
  }

  /** A white-space run preceded by a non-space character (or the start) is the trailing run. */
  lemma {:induction false} TrailingSpaceUnique(s: string, k: nat)
    requires k <= |s|
    requires forall i :: |s| - k <= i < |s| ==> IsSpace(s[i])
    requires k < |s| ==> !IsSpace(s[|s| - k - 1])
    ensures TrailingSpace(s) == k
  {
    if k > 0 {
      assert IsSpace(s[|s| - 1]);
      TrailingSpaceUnique(s[..|s| - 1], k - 1);
    }
  }

  /** Leading white space removed. */
  function TrimLeftSpace(s: string): (r: string)
    ensures |r| <= |s|
    ensures r == s[|s| - |r|..]
    ensures r == [] || !IsSpace(r[0])
  {
    s[LeadingSpace(s)..]
  }

  /** Trailing white space removed. */
  function TrimRightSpace(s: string): (r: string)
    ensures |r| <= |s|
    ensures r == s[..|r|]
    ensures r == [] || !IsSpace(r[|r| - 1])
  {
    s[..|s| - TrailingSpace(s)]
  }

  /** Go's `strings.TrimSpace`. */
  function TrimSpace(s: string): string
  {
    TrimRightSpace(TrimLeftSpace(s))
  }

  /** `TrimSpace` cuts an infix whose both ends are not white space and drops only white space. */
  lemma {:induction false} TrimSpaceShape(s: string)
    ensures var r := TrimSpace(s);
      var i := LeadingSpace(s);
      0 <= i <= |s| - |r| && r == s[i..i + |r|]
      && AllSpace(s[..i]) && AllSpace(s[i + |r|..])
      && (r == [] || (!IsSpace(r[0]) && !IsSpace(r[|r| - 1])))
  {
    var i := LeadingSpace(s);
    var l := s[i..];
    var j := |l| - TrailingSpace(l);
    LeadingRunIsSpace(s);
    TrailingRunIsSpace(l);
    assert TrimSpace(s) == l[..j] == s[i..i + j];
    assert s[i + j..] == l[j..];
  }

  lemma LeadingRunIsSpace(s: string)
    ensures AllSpace(s[..LeadingSpace(s)])
  {
  }

  lemma TrailingRunIsSpace(s: string)
    ensures AllSpace(s[|s| - TrailingSpace(s)..])
  {
  }

  lemma {:induction false} TrimLeftSpacePrefix(w: string, s: string)
    requires AllSpace(w)
    ensures TrimLeftSpace(w + s) == TrimLeftSpace(s)
  {
    var k := LeadingSpace(s);
    LeadingSpaceUnique(w + s, |w| + k);
    assert (w + s)[|w| + k..] == s[k..];
  }

  lemma {:induction false} TrimRightSpaceSuffix(s: string, w: string)
    requires AllSpace(w)
    ensures TrimRightSpace(s + w) == TrimRightSpace(s)
  {
    var k := TrailingSpace(s);
    TrailingSpaceUnique(s + w, k + |w|);
    assert (s + w)[..|s + w| - (k + |w|)] == s[..|s| - k];
  }

  lemma {:induction false} TrimLeftSpaceAppend(s: string, w: string)
    requires AllSpace(w)
    ensures TrimLeftSpace(s + w) == if AllSpace(s) then [] else TrimLeftSpace(s) + w
  {
    if AllSpace(s) {
      LeadingSpaceUnique(s + w, |s| + |w|);
    } else {
      var k := LeadingSpace(s);
      LeadingSpaceUnique(s + w, k);
      assert (s + w)[k..] == s[k..] + w;
    }
  }

  lemma {:induction false} TrimLeftAllSpace(w: string)
    requires AllSpace(w)
    ensures TrimLeftSpace(w) == []
  {
    LeadingSpaceUnique(w, |w|);
  }

  lemma {:induction false} TrimRightAllSpace(w: string)
    requires AllSpace(w)
    ensures TrimRightSpace(w) == []
  {
    TrailingSpaceUnique(w, |w|);
  }

  /** Surrounding white space never changes what `TrimSpace` returns. */
  lemma {:induction false} TrimSpacePadded(w1: string, s: string, w2: string)
    requires AllSpace(w1) && AllSpace(w2)
    ensures TrimSpace(w1 + s + w2) == TrimSpace(s)
  {
    assert w1 + s + w2 == w1 + (s + w2);
    TrimLeftSpacePrefix(w1, s + w2);
    TrimLeftSpaceAppend(s, w2);
    if AllSpace(s) {
      TrimLeftAllSpace(s);
      TrimRightAllSpace([]);
    } else {
      TrimRightSpaceSuffix(TrimLeftSpace(s), w2);
    }
  }

  /** Trimming twice is trimming once. */
  lemma {:induction false} TrimSpaceIdempotent(s: string)
    ensures TrimSpace(TrimSpace(s)) == TrimSpace(s)
  {
    var r := TrimSpace(s);
    if r != [] {
      LeadingSpaceUnique(r, 0);
      assert TrimLeftSpace(r) == r;
      TrailingSpaceUnique(r, 0);
    }
  }

  predicate HasPrefix(s: string, p: string)
  {
    |p| <= |s| && s[..|p|] == p
  }

  predicate HasSuffix(s: string, p: string)
  {
    |p| <= |s| && s[|s| - |p|..] == p
  }

  /** Go's `strings.TrimPrefix`. */
  function TrimPrefix(s: string, p: string): (r: string)
    ensures HasPrefix(s, p) ==> s == p + r
    ensures !HasPrefix(s, p) ==> r == s
  {
    if HasPrefix(s, p) then s[|p|..] else s
  }

  /** Go's `strings.TrimSuffix`. */
  function TrimSuffix(s: string, p: string): (r: string)
    ensures HasSuffix(s, p) ==> s == r + p
    ensures !HasSuffix(s, p) ==> r == s
  {
    if HasSuffix(s, p) then s[..|s| - |p|] else s
  }

  /** Go's `strings.Join`. */
  function Join(parts: seq<string>, sep: string): string
  {
    if parts == [] then ""
    else if |parts| == 1 then parts[0]
    else parts[0] + sep + Join(parts[1..], sep)
  }

  /** `w` occurs somewhere in `s` (Go's `strings.Contains`). */
  predicate Contains(s: string, w: string)
  {
    exists i, j :: 0 <= i <= j <= |s| && s[i..j] == w
  }

  lemma ContainsSelf(w: string)
    ensures Contains(w, w)
  {
    assert w[0..|w|] == w;
    assert 0 <= 0 <= |w| <= |w|;
  }

  lemma ContainsLeft(a: string, b: string, w: string)
    requires Contains(a, w)
    ensures Contains(a + b, w)
  {
    var i, j :| 0 <= i <= j <= |a| && a[i..j] == w;
    assert (a + b)[i..j] == a[i..j];
  }

  lemma ContainsRight(a: string, b: string, w: string)
    requires Contains(b, w)
    ensures Contains(a + b, w)
  {
    var i, j :| 0 <= i <= j <= |b| && b[i..j] == w;
    assert (a + b)[|a| + i..|a| + j] == b[i..j];
  }

  /** Every part appears in the joined string. */
  lemma {:induction false} JoinContains(parts: seq<string>, sep: string, k: nat)
    requires k < |parts|
    ensures Contains(Join(parts, sep), parts[k])
    decreases |parts|
  {
    ContainsSelf(parts[k]);
    if |parts| > 1 {
      if k == 0 {
        ContainsLeft(parts[0], sep, parts[0]);
        ContainsLeft(parts[0] + sep, Join(parts[1..], sep), parts[0]);
      } else {
        JoinContains(parts[1..], sep, k - 1);
        ContainsRight(parts[0] + sep, Join(parts[1..], sep), parts[k]);
      }
    }
  }

  predicate IsDigit(c: char) { '0' <= c <= '9' }

  function DigitChar(d: nat): (c: char)
    requires d < 10
    ensures IsDigit(c)
  {
    ['0', '1', '2', '3', '4', '5', '6', '7', '8', '9'][d]
  }

  function DigitValue(c: char): (d: nat)
    requires IsDigit(c)
    ensures d < 10 && DigitChar(d) == c
  {
    (c as int - '0' as int) as nat
  }

  /** Decimal text of a natural number, as `%d` and `strconv.Itoa` print it. */
  function NatToString(n: nat): (s: string)
    ensures |s| > 0
    ensures forall i :: 0 <= i < |s| ==> IsDigit(s[i])
    decreases n
  {
    if n < 10 then [DigitChar(n)] else NatToString(n / 10) + [DigitChar(n % 10)]
  }

  /** Value of a non-empty string of decimal digits. */
  function ParseNat(s: string): nat
    requires forall i :: 0 <= i < |s| ==> IsDigit(s[i])
  {
    if s == [] then 0 else 10 * ParseNat(s[..|s| - 1]) + DigitValue(s[|s| - 1])
  }

  lemma {:induction false} ParseNatToString(n: nat)
    ensures ParseNat(NatToString(n)) == n
    decreases n
  {
    var s := NatToString(n);
    if n >= 10 {
      assert s[..|s| - 1] == NatToString(n / 10);
      ParseNatToString(n / 10);
    } else {
      assert s[..|s| - 1] == [];
    }
  }

  /** Decimal text of an integer, with a leading '-' when negative (`%d`). */
  function IntToString(n: int): (s: string)
    ensures |s| > 0
    ensures forall i :: 0 <= i < |s| ==> IsDigit(s[i]) || (i == 0 && s[i] == '-')
  {
    if n < 0 then "-" + NatToString(-n) else NatToString(n)
  }

  function ParseInt(s: string): int
    requires forall i :: 0 <= i < |s| ==> IsDigit(s[i]) || (i == 0 && s[i] == '-')
  {
    if s != [] && s[0] == '-' then -(ParseNat(s[1..]) as int) else ParseNat(s)
  }

  lemma {:induction false} ParseIntToString(n: int)
    ensures ParseInt(IntToString(n)) == n
  {
    var t := NatToString(if n < 0 then -n else n);
    ParseNatToString(if n < 0 then -n else n);
    if n < 0 {
      ParseNegative(t);
    } else {
      assert IsDigit(t[0]);
    }
  }

  /** A '-' followed by digits parses as the negated digits. */
  lemma ParseNegative(t: string)
    requires forall i :: 0 <= i < |t| ==> IsDigit(t[i])
    ensures ParseInt(['-'] + t) == -(ParseNat(t) as int)
  {
    assert (['-'] + t)[1..] == t;
  }

  // ----- UTF-8: Go strings are byte sequences -----

  type Byte = b: int | 0 <= b < 256

  /** Characters below U+0080, which UTF-8 stores in one byte each. */
  predicate IsAscii(s: string)
  {
    forall i :: 0 <= i < |s| ==> s[i] < '\U{0080}'
  }

  /** The UTF-8 encoding of one character: one to four bytes by code point range. */
  function EncodeChar(c: char): (r: seq<Byte>)
    ensures |r| == if c < '\U{0080}' then 1 else if c < '\U{0800}' then 2 else if c < '\U{10000}' then 3 else 4
  {
    var n := c as int;
    if n < 0x80 then [n]
    else if n < 0x800 then [0xC0 + n / 0x40, 0x80 + n % 0x40]
    else if n < 0x10000 then [0xE0 + n / 0x1000, 0x80 + n / 0x40 % 0x40, 0x80 + n % 0x40]
    else [0xF0 + n / 0x40000, 0x80 + n / 0x1000 % 0x40, 0x80 + n / 0x40 % 0x40, 0x80 + n % 0x40]
  }

  /**
   * The code point an encoded character carries: the payload bits of the
   * lead byte followed by six bits from each continuation byte.
   */
  function DecodeChar(b: seq<Byte>): int
    requires 1 <= |b| <= 4
  {
    var b0: int := b[0];
    if |b| == 1 then b0
    else if |b| == 2 then (b0 - 0xC0) * 0x40 + Payload(b[1..])
    else if |b| == 3 then (b0 - 0xE0) * 0x1000 + Payload(b[1..])
    else (b0 - 0xF0) * 0x40000 + Payload(b[1..])
  }

  /** Six bits from each continuation byte, most significant first. */
  function Payload(b: seq<Byte>): int
  {
    if b == [] then 0 else Payload(b[..|b| - 1]) * 0x40 + (b[|b| - 1] as int - 0x80)
  }

  lemma PayloadOne(x: Byte)
    ensures Payload([x]) == x - 0x80
  {
    assert [x][..0] == [];
  }

  /** Decoding an encoded character gives back its code point, and continuation bytes are 10xxxxxx. */
  lemma EncodeCharRoundTrip(c: char)
    ensures DecodeChar(EncodeChar(c)) == c as int
    ensures forall i :: 1 <= i < |EncodeChar(c)| ==> 0x80 <= EncodeChar(c)[i] < 0xC0
    ensures |EncodeChar(c)| > 1 ==> EncodeChar(c)[0] >= 0xC0
  {
    var n := c as int;
    if 0x80 <= n < 0x800 {
      RoundTripTwo(c);
    } else if 0x800 <= n < 0x10000 {
      RoundTripThree(c);
    } else if n >= 0x10000 {
      RoundTripFour(c);
    }
  }

  lemma RoundTripTwo(c: char)
    requires '\U{0080}' <= c < '\U{0800}'
    ensures DecodeChar(EncodeChar(c)) == c as int
  {
    var e := EncodeChar(c);
    PayloadOne(e[1]);
    assert e[1..] == [e[1]];
  }

  lemma RoundTripThree(c: char)
    requires '\U{0800}' <= c < '\U{10000}'
    ensures DecodeChar(EncodeChar(c)) == c as int
  {
    var n := c as int;
    var e := EncodeChar(c);
    var m := n / 0x40;
    assert e[1..][..1] == [e[1]];
    PayloadOne(e[1]);
    assert Payload(e[1..]) == (m % 0x40) * 0x40 + n % 0x40;
    Digits(n, m);
  }

  lemma RoundTripFour(c: char)
    requires c >= '\U{10000}'
    ensures DecodeChar(EncodeChar(c)) == c as int
  {
    var n := c as int;
    var e := EncodeChar(c);
    assert e[1..] == [e[1], e[2], e[3]];
    PayloadThree(e[1], e[2], e[3]);
    FourDigits(n);
  }

  /** A code point of four bytes is its lead bits and three base-64 digits. */
  lemma FourDigits(n: nat)
    ensures n == (n / 0x40000) * 0x40000 + (n / 0x1000 % 0x40) * 0x1000 + (n / 0x40 % 0x40) * 0x40 + n % 0x40
  {
    var m := n / 0x40;
    var k := n / 0x1000;
    assert k == m / 0x40;
    assert n / 0x40000 == k / 0x40;
    Digits(n, m);
    Digits(m, k);
  }


  lemma PayloadThree(x: Byte, y: Byte, z: Byte)
    ensures Payload([x, y, z]) == ((x - 0x80) * 0x40 + (y - 0x80)) * 0x40 + (z - 0x80)
  {
    assert [x, y, z][..2] == [x, y];
    assert [x, y][..1] == [x];
    PayloadOne(x);
  }



  /** Base-64 digits: a number is its quotient's digits followed by its last digit. */
  lemma Digits(n: nat, m: nat)
    requires m == n / 0x40
    ensures n == (m / 0x40) * 0x1000 + (m % 0x40) * 0x40 + n % 0x40
  {
  }

  /** The bytes Go stores for a string, whose `len` and `[:n]` count bytes. */
  function Utf8(s: string): (r: seq<Byte>)
    ensures |s| <= |r| <= 4 * |s|
  {
    if s == [] then [] else EncodeChar(s[0]) + Utf8(s[1..])
  }

  /** Encoding distributes over concatenation. */
  lemma {:induction false} Utf8Append(a: string, b: string)
    ensures Utf8(a + b) == Utf8(a) + Utf8(b)
  {
    if a == [] {
      assert a + b == b;
    } else {
      assert (a + b)[1..] == a[1..] + b;
      Utf8Append(a[1..], b);
      assert (a + b)[0] == a[0];
    }
  }

  /** An ASCII string is its own encoding: one byte per character, equal to its code. */
  lemma {:induction false} Utf8Ascii(s: string)
    requires IsAscii(s)
    ensures |Utf8(s)| == |s|
    ensures forall i :: 0 <= i < |s| ==> Utf8(s)[i] == s[i] as int
  {
    if s != [] {
      Utf8Ascii(s[1..]);
      assert Utf8(s) == [s[0] as int] + Utf8(s[1..]);
    }
  }

  /** A string of characters from U+0800 to U+FFFF (most CJK text) takes three bytes per character. */
  lemma {:induction false} Utf8ThreeBytes(s: string)
    requires forall i :: 0 <= i < |s| ==> '\U{0800}' <= s[i] < '\U{10000}'
    ensures |Utf8(s)| == 3 * |s|
  {
    if s != [] {
      Utf8ThreeBytes(s[1..]);
    }
  }

}
