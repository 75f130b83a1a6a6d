/** Byte strings as Go's strings are: UTF-8 well-formedness (section 4 of RFC 3629) and strings.TrimSpace. */
module Utf8 {
  import Text

  newtype byte = x: int | 0 <= x < 256

  type Bytes = seq<byte>

  predicate Tail(b: byte) { 0x80 <= b < 0xC0 }

  predicate Tails(s: Bytes) { forall i :: 0 <= i < |s| ==> Tail(s[i]) }

  /** The octet sequence of exactly one character. */
  predicate IsChar(c: Bytes) {
    match |c|
    case 1 => c[0] < 0x80
    case 2 => 0xC2 <= c[0] < 0xE0 && Tails(c[1..])
    case 3 =>
      && Tails(c[1..])
      && (|| (c[0] == 0xE0 && 0xA0 <= c[1])
          || 0xE1 <= c[0] <= 0xEC
          || (c[0] == 0xED && c[1] < 0xA0)
          || 0xEE <= c[0] <= 0xEF)
    case 4 =>
      && Tails(c[1..])
      && (|| (c[0] == 0xF0 && 0x90 <= c[1])
          || 0xF1 <= c[0] <= 0xF3
          || (c[0] == 0xF4 && c[1] < 0x90))
    case _ => false
  }

  /** The length of the character s begins with; zero when it begins with none. */
  function Width(s: Bytes): (w: nat)
    ensures w <= |s| && w <= 4
    ensures w > 0 ==> IsChar(s[..w])
  {
    if |s| >= 1 && IsChar(s[..1]) then 1
    else if |s| >= 2 && IsChar(s[..2]) then 2
    else if |s| >= 3 && IsChar(s[..3]) then 3
    else if |s| >= 4 && IsChar(s[..4]) then 4
    else 0
  }

  /** utf8.ValidString. */
  predicate Valid(s: Bytes) {
    s == [] || (Width(s) > 0 && Valid(s[Width(s)..]))
  }

  /** The lead octet alone settles how long a character is, so no character begins another. */
  lemma WidthOfChar(c: Bytes, rest: Bytes)
    requires IsChar(c)
    ensures Width(c + rest) == |c|
  {
    var s := c + rest;
    assert s[..|c|] == c;
    assert s[0] == c[0];
    assert |c| >= 2 ==> c[1..][0] == c[1];
  }

  /** A boundary between characters is a position that does not hold a tail octet. */
  predicate Boundary(s: Bytes, k: nat)
    requires k <= |s|
  {
    k == |s| || !Tail(s[k])
  }

  lemma CharTails(c: Bytes, k: nat)
    requires IsChar(c) && 0 < k < |c|
    ensures Tail(c[k]) && !Tail(c[0])
  {
    assert c[1..][k - 1] == c[k];
  }

  lemma CharHead(c: Bytes)
    requires IsChar(c)
    ensures !Tail(c[0])
  {
  }

  lemma CutPastFirst(s: Bytes, k: nat)
    requires Width(s) > 0 && Width(s) <= k <= |s|
    ensures var (w, rest) := (Width(s), s[Width(s)..]);
      && (Valid(s[..k]) <==> Valid(rest[..k - w])) && s[k..] == rest[k - w..]
      && (Boundary(s, k) <==> Boundary(rest, k - w))
  {
    var w := Width(s);
    var c, rest := s[..w], s[w..];
    assert s[..k] == c + rest[..k - w];
    WidthOfChar(c, rest[..k - w]);
    assert s[..k][w..] == rest[..k - w];
  }

  /** A valid string can be cut at a boundary, and nowhere else. */
  lemma {:induction false} CutValid(s: Bytes, k: nat)
    requires Valid(s) && k <= |s|
    ensures Boundary(s, k) <==> Valid(s[..k])
    ensures Boundary(s, k) ==> Valid(s[k..])
  {
    if s == [] {
    } else {
      var w := Width(s);
      var c, rest := s[..w], s[w..];
      if k == 0 {
        assert s[..k] == [] && s[k..] == s && c[0] == s[0];
      } else if k < w {
        CharTails(c, k);
        assert s[k] == c[k];
        NoShorterChar(c, k);
        assert s[..k] == c[..k];
      } else {
        CutValid(rest, k - w);
        CutPastFirst(s, k);
      }
    }
  }

  lemma NoShorterChar(c: Bytes, k: nat)
    requires IsChar(c) && 0 < k < |c|
    ensures !Valid(c[..k])
  {
    WidthOfChar(c, []);
    assert c + [] == c;
    assert forall j :: 0 <= j <= k ==> c[..k][..j] == c[..j];
    assert Width(c[..k]) == 0;
  }

  /** No character is longer than four octets: every position is at most three past a boundary. */
  lemma {:induction false} BoundaryNearby(s: Bytes, k: nat) returns (b: nat)
    requires Valid(s) && k <= |s|
    ensures b <= k <= b + 3 && Boundary(s, b)
  {
    if s == [] || k == 0 {
      b := k;
      if s != [] { assert s[..Width(s)][0] == s[0]; }
    } else {
      var w := Width(s);
      if k < w {
        b := 0;
        assert s[..w][0] == s[0];
      } else {
        b := BoundaryNearby(s[w..], k - w);
        assert b < |s[w..]| ==> s[w + b] == s[w..][b];
        b := b + w;
      }
    }
  }

  /** The characters unicode.IsSpace accepts, as octets. */
  predicate IsSpaceChar(c: Bytes) {
    match |c|
    case 1 => 0x09 <= c[0] <= 0x0D || c[0] == 0x20
    case 2 => c[0] == 0xC2 && (c[1] == 0x85 || c[1] == 0xA0)
    case 3 =>
      || c == [0xE1, 0x9A, 0x80]
      || (c[0] == 0xE2 && c[1] == 0x80 && (0x80 <= c[2] <= 0x8A || c[2] == 0xA8 || c[2] == 0xA9 || c[2] == 0xAF))
      || c == [0xE2, 0x81, 0x9F]
      || c == [0xE3, 0x80, 0x80]
    case _ => false
  }

  /* What the octets encode. */

  predicate Scalar(n: int) { 0 <= n < 0xD800 || 0xE000 <= n < 0x11_0000 }

  function TailOf(n: int): byte { (0x80 + n % 64) as byte }

  /** The encoding of a code point, by its table of octet patterns. */
  function Encode(n: int): Bytes
    requires Scalar(n)
  {
    if n < 0x80 then [n as byte]
    else if n < 0x800 then [(0xC0 + n / 64) as byte, TailOf(n)]
    else if n < 0x1_0000 then [(0xE0 + n / 4096) as byte, TailOf(n / 64), TailOf(n)]
    else [(0xF0 + n / 262144) as byte, TailOf(n / 4096), TailOf(n / 64), TailOf(n)]
  }

  lemma SixBitDigits(n: int)
    requires 0 <= n < 0x11_0000
    ensures n == n / 64 * 64 + n % 64 && n / 64 == n / 4096 * 64 + n / 64 % 64
    ensures n / 4096 == n / 262144 * 64 + n / 4096 % 64
  {
  }

  lemma EncodingIsChar(n: int)
    requires Scalar(n)
    ensures IsChar(Encode(n))
  {
    SixBitDigits(n);
    var c := Encode(n);
    assert forall i :: 1 <= i < |c| ==> Tail(c[i]);
    assert Tails(c[1..]);
  }

  lemma TwoOctets(c: Bytes) returns (n: int)
    requires IsChar(c) && |c| == 2
    ensures Scalar(n) && Encode(n) == c
  {
    var (a, b) := (c[0] as int - 0xC0, c[1] as int - 0x80);
    assert c[1..][0] == c[1];
    n := a * 64 + b;
    assert n / 64 == a && n % 64 == b;
  }

  lemma ThreeOctets(c: Bytes) returns (n: int)
    requires IsChar(c) && |c| == 3
    ensures Scalar(n) && Encode(n) == c
  {
    assert c[1..][0] == c[1] && c[1..][1] == c[2];
    var (a, b, d) := (c[0] as int - 0xE0, c[1] as int - 0x80, c[2] as int - 0x80);
    n := a * 4096 + b * 64 + d;
    assert n / 4096 == a && n / 64 == a * 64 + b && n / 64 % 64 == b && n % 64 == d;
    assert TailOf(n / 64) == c[1] && TailOf(n) == c[2];
  }

  lemma FourOctets(c: Bytes) returns (n: int)
    requires IsChar(c) && |c| == 4
    ensures Scalar(n) && Encode(n) == c
  {
    assert c[1..][0] == c[1] && c[1..][1] == c[2] && c[1..][2] == c[3];
    var (a, b, d, e) := (c[0] as int - 0xF0, c[1] as int - 0x80, c[2] as int - 0x80, c[3] as int - 0x80);
    n := a * 262144 + b * 4096 + d * 64 + e;
    assert n / 262144 == a && n / 4096 == a * 64 + b && n / 64 == a * 4096 + b * 64 + d;
    assert n / 4096 % 64 == b && n / 64 % 64 == d && n % 64 == e;
    assert TailOf(n / 4096) == c[1] && TailOf(n / 64) == c[2] && TailOf(n) == c[3];
  }

  lemma CharIsEncoding(c: Bytes) returns (n: int)
    requires IsChar(c)
    ensures Scalar(n) && Encode(n) == c
  {
    if |c| == 1 {
      n := c[0] as int;
    } else if |c| == 2 {
      n := TwoOctets(c);
    } else if |c| == 3 {
      n := ThreeOctets(c);
    } else {
      n := FourOctets(c);
    }
  }

  /** The characters are exactly the encodings of the code points that are no surrogates. */
  lemma CharsAreEncodings(c: Bytes)
    ensures IsChar(c) <==> exists n :: Scalar(n) && c == Encode(n)
  {
    if IsChar(c) { var n := CharIsEncoding(c); }
    forall n | Scalar(n) ensures IsChar(Encode(n)) { EncodingIsChar(n); }
  }

  /** White space on octets is the white space of code points. */
  lemma SpacesAreSpaces(n: int)
    requires Scalar(n)
    ensures IsSpaceChar(Encode(n)) <==> Text.IsSpace(n as char)
  {
  }

  lemma SpaceIsChar(c: Bytes)
    requires IsSpaceChar(c)
    ensures IsChar(c)
  {
    assert |c| > 1 ==> c[1..][0] == c[1];
    assert |c| > 2 ==> c[1..][1] == c[2];
  }

  /** The length of the space character s begins with, or zero. */
  function LeadingSpace(s: Bytes): (w: nat)
    ensures w <= |s| && (w > 0 ==> IsSpaceChar(s[..w]))
  {
    if |s| >= 1 && IsSpaceChar(s[..1]) then 1
    else if |s| >= 2 && IsSpaceChar(s[..2]) then 2
    else if |s| >= 3 && IsSpaceChar(s[..3]) then 3
    else 0
  }

  function TrailingSpace(s: Bytes): (w: nat)
    ensures w <= |s| && (w > 0 ==> IsSpaceChar(s[|s| - w..]))
  {
    if |s| >= 1 && IsSpaceChar(s[|s| - 1..]) then 1
    else if |s| >= 2 && IsSpaceChar(s[|s| - 2..]) then 2
    else if |s| >= 3 && IsSpaceChar(s[|s| - 3..]) then 3
    else 0
  }

  function TrimLeft(s: Bytes): Bytes
    decreases |s|
  {
    if LeadingSpace(s) > 0 then TrimLeft(s[LeadingSpace(s)..]) else s
  }

  function TrimRight(s: Bytes): (r: Bytes)
    ensures r <= s
    decreases |s|
  {
    if TrailingSpace(s) > 0 then TrimRight(s[..|s| - TrailingSpace(s)]) else s
  }

  lemma TrimLeftOnce(s: Bytes)
    ensures TrimLeft(s) == if LeadingSpace(s) > 0 then TrimLeft(s[LeadingSpace(s)..]) else s
  {
  }

  lemma TrimRightOnce(s: Bytes)
    ensures TrimRight(s) == if TrailingSpace(s) > 0 then TrimRight(s[..|s| - TrailingSpace(s)]) else s
  {
  }

  /** strings.TrimSpace; octets that are no character are no space either. */
  function TrimSpace(s: Bytes): Bytes { TrimRight(TrimLeft(s)) }

  predicate Tight(s: Bytes) { LeadingSpace(s) == 0 && TrailingSpace(s) == 0 }

  lemma {:induction false} TrimLeftStops(s: Bytes)
    ensures LeadingSpace(TrimLeft(s)) == 0
    decreases |s|
  {
    if LeadingSpace(s) == 0 {
    } else {
      TrimLeftStops(s[LeadingSpace(s)..]);
    }
  }

  lemma {:induction false} TrimRightStops(s: Bytes)
    ensures TrailingSpace(TrimRight(s)) == 0
    decreases |s|
  {
    if TrailingSpace(s) == 0 {
    } else {
      TrimRightStops(s[..|s| - TrailingSpace(s)]);
    }
  }

  /** A prefix of a string that begins with no space begins with none. */
  lemma PrefixKeepsHead(s: Bytes, p: Bytes)
    requires LeadingSpace(s) == 0 && p <= s
    ensures LeadingSpace(p) == 0
  {
    assert |p| >= 1 ==> p[..1] == s[..1];
    assert |p| >= 2 ==> p[..2] == s[..2];
    assert |p| >= 3 ==> p[..3] == s[..3];
  }

  lemma TrimIsTight(s: Bytes)
    ensures Tight(TrimSpace(s))
  {
    TrimLeftStops(s);
    TrimRightStops(TrimLeft(s));
    PrefixKeepsHead(TrimLeft(s), TrimSpace(s));
  }

  lemma {:induction false} TrimLeftValid(s: Bytes)
    requires Valid(s)
    ensures Valid(TrimLeft(s))
    decreases |s|
  {
    var w := LeadingSpace(s);
    if w == 0 {
    } else {
      SpaceIsChar(s[..w]);
      assert s == s[..w] + s[w..];
      WidthOfChar(s[..w], s[w..]);
      TrimLeftValid(s[w..]);
    }
  }

  lemma DropLastSpace(s: Bytes)
    requires Valid(s) && TrailingSpace(s) > 0
    ensures Valid(s[..|s| - TrailingSpace(s)])
  {
    var k := |s| - TrailingSpace(s);
    SpaceIsChar(s[k..]);
    CharHead(s[k..]);
    assert s[k] == s[k..][0];
    CutValid(s, k);
  }

  lemma {:induction false} TrimRightValid(s: Bytes)
    requires Valid(s)
    ensures Valid(TrimRight(s))
    decreases |s|
  {
    if TrailingSpace(s) == 0 {
    } else {
      DropLastSpace(s);
      TrimRightValid(s[..|s| - TrailingSpace(s)]);
    }
  }

  /** Trimming never breaks a character. */
  lemma TrimKeepsValid(s: Bytes)
    requires Valid(s)
    ensures Valid(TrimSpace(s))
  {
    TrimLeftValid(s);
    TrimRightValid(TrimLeft(s));
  }

  lemma NoSpaceAsAWhole(s: Bytes)
    requires LeadingSpace(s) == 0
    ensures !IsSpaceChar(s[0..])
  {
    assert s[..|s|] == s == s[0..];
  }

  /** Something that begins with a character that is no space does not trim to nothing. */
  lemma {:induction false} TrimRightKeepsTheHead(s: Bytes)
    requires Valid(s) && s != [] && LeadingSpace(s) == 0
    ensures TrimRight(s) != []
    decreases |s|
  {
    var k := |s| - TrailingSpace(s);
    if k < |s| {
      NoSpaceAsAWhole(s);
      DropLastSpace(s);
      PrefixKeepsHead(s, s[..k]);
      TrimRightKeepsTheHead(s[..k]);
    }
  }
}
