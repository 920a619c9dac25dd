/** Which texts decodeURIComponent reads, and as what. */
module PercentDecode {
  import opened Text
  import opened PercentCode

  /** Hexadecimal digits may be written in either case. */
  function Raised(c: char): char {
    match c
    case 'a' => 'A'
    case 'b' => 'B'
    case 'c' => 'C'
    case 'd' => 'D'
    case 'e' => 'E'
    case 'f' => 'F'
    case _ => c
  }

  function AllRaised(s: string): (r: string)
    ensures |r| == |s| && forall i :: 0 <= i < |s| ==> r[i] == Raised(s[i])
  {
    seq(|s|, i requires 0 <= i < |s| => Raised(s[i]))
  }

  predicate AreBytes(b: seq<int>) { forall i :: 0 <= i < |b| ==> 0 <= b[i] < 256 }

  lemma HexIff(c: char, v: int)
    ensures HexValue(c) == Some(v) <==> 0 <= v < 16 && Raised(c) == HexDigit(v)
  {
  }

  lemma ByteIff(s: string, v: int)
    ensures ByteAt(s) == Some(v) <==> |s| >= 3 && 0 <= v < 256 && AllRaised(s[..3]) == Triplet(v)
  {
    if |s| >= 3 {
      HexIff(s[1], v / 16);
      HexIff(s[2], v % 16);
      if HexValue(s[1]).Some? { HexIff(s[1], HexValue(s[1]).value); }
      if HexValue(s[2]).Some? { HexIff(s[2], HexValue(s[2]).value); }
      assert Raised(s[0]) == '%' <==> s[0] == '%';
      if 0 <= v < 256 {
        assert AllRaised(s[..3]) == [Raised(s[0]), Raised(s[1]), Raised(s[2])];
      }
    }
  }

  lemma {:induction false} BytesIff(s: string, b: seq<int>)
    ensures TakeBytes(s, |b|) == Some(b) <==> |s| >= 3 * |b| && AreBytes(b) && AllRaised(s[..3 * |b|]) == Triplets(b)
  {
    if |s| < 3 * |b| {
      TakenFit(s, |b|);
    } else if b != [] {
      ByteIff(s, b[0]);
      BytesIff(s[3..], b[1..]);
      if AreBytes(b) { TripletsSplit(s, b); }
      TakenSplit(s, b);
    }
  }

  lemma {:induction false} TakenSplit(s: string, b: seq<int>)
    requires b != [] && |s| >= 3
    ensures TakeBytes(s, |b|) == Some(b) <==> ByteAt(s) == Some(b[0]) && TakeBytes(s[3..], |b| - 1) == Some(b[1..])
  {
    assert b == [b[0]] + b[1..];
    var rest := TakeBytes(s[3..], |b| - 1);
    if ByteAt(s).Some? && rest.Some? {
      assert ([ByteAt(s).value] + rest.value)[0] == ByteAt(s).value && ([ByteAt(s).value] + rest.value)[1..] == rest.value;
    }
  }

  lemma {:induction false} TripletsSplit(s: string, b: seq<int>)
    requires b != [] && AreBytes(b) && |s| >= 3 * |b|
    ensures AllRaised(s[..3 * |b|]) == Triplets(b)
      <==> AllRaised(s[..3]) == Triplet(b[0]) && AllRaised(s[3..][..3 * |b[1..]|]) == Triplets(b[1..])
  {
    var first, rest := AllRaised(s[..3]), AllRaised(s[3..][..3 * |b[1..]|]);
    assert s[..3 * |b|] == s[..3] + s[3..][..3 * |b[1..]|];
    assert AllRaised(s[..3 * |b|]) == first + rest;
    assert (first + rest)[..3] == first && (first + rest)[3..] == rest;
    assert Triplets(b)[..3] == Triplet(b[0]) && Triplets(b)[3..] == Triplets(b[1..]);
  }

  lemma {:induction false} TakenFit(s: string, n: nat)
    ensures TakeBytes(s, n).Some? ==> |s| >= 3 * n && |TakeBytes(s, n).value| == n
  {
    if n > 0 && ByteAt(s).Some? { TakenFit(s[3..], n - 1); }
  }

  /** Bytes are read as a character exactly when they are its UTF-8: no longer form, no surrogate, nothing past the last. */
  lemma ValueIff(b: seq<int>, n: int)
    ensures Value(b) == Some(n) <==> Scalar(n) && b == Bytes(n)
  {
    if Scalar(n) { ValueOfBytes(n); }
    if Value(b) == Some(n) {
      match |b| {
        case 1 =>
        case 2 => TwoBack(b[0] - 0xC0, b[1] - 0x80);
        case 3 => ThreeBack(b[0] - 0xE0, b[1] - 0x80, b[2] - 0x80);
        case 4 => FourBack(b[0] - 0xF0, b[1] - 0x80, b[2] - 0x80, b[3] - 0x80);
      }
    }
  }

  lemma Divided(q: int, r: int)
    requires 0 <= r < 64
    ensures (64 * q + r) / 64 == q && (64 * q + r) % 64 == r
  {
  }

  lemma TwoBack(high: int, low: int)
    requires 0 <= low < 64 && 0x80 <= 64 * high + low < 0x800
    ensures Bytes(64 * high + low) == [0xC0 + high, 0x80 + low]
  {
    Divided(high, low);
  }

  lemma ThreeBack(high: int, mid: int, low: int)
    requires 0 <= mid < 64 && 0 <= low < 64
    requires 0x800 <= 4096 * high + 64 * mid + low < 0x1_0000 && Scalar(4096 * high + 64 * mid + low)
    ensures Bytes(4096 * high + 64 * mid + low) == [0xE0 + high, 0x80 + mid, 0x80 + low]
  {
    Divided(64 * high + mid, low);
    Divided(high, mid);
  }

  lemma FourBack(top: int, high: int, mid: int, low: int)
    requires 0 <= high < 64 && 0 <= mid < 64 && 0 <= low < 64
    requires 0x1_0000 <= 262144 * top + 4096 * high + 64 * mid + low < 0x11_0000
    ensures Bytes(262144 * top + 4096 * high + 64 * mid + low) == [0xF0 + top, 0x80 + high, 0x80 + mid, 0x80 + low]
  {
    var n := 262144 * top + 4096 * high + 64 * mid + low;
    SixBits(n);
    Divided(4096 * top + 64 * high + mid, low);
    Divided(64 * top + high, mid);
    Divided(top, high);
  }

  // ---------------------------------------------------------------- whole texts

  /** How a character may be written: as itself, but for the percent sign, or as the percent-encoding of its UTF-8. */
  predicate Writes(piece: string, c: char) {
    (piece == [c] && c != '%') || (AreBytes(Bytes(c as int)) && AllRaised(piece) == Triplets(Bytes(c as int)))
  }

  lemma {:induction false} HeadIff(s: string, c: char, n: nat)
    requires s != []
    ensures DecodeHead(s) == Some(Head(c, n)) <==> n <= |s| && Writes(s[..n], c)
  {
    var b := Bytes(c as int);
    TripletsLength(b);
    ValueOfBytes(c as int);
    if s[0] != '%' {
      PlainHead(s, c, n);
    } else {
      if n <= |s| && Writes(s[..n], c) { WrittenHead(s, c, n); }
      if DecodeHead(s) == Some(Head(c, n)) { ReadHead(s, c, n); }
    }
  }

  /** Only as itself is a character written without a percent sign in front. */
  lemma {:induction false} WritesStart(piece: string, c: char)
    ensures !Writes([], c)
    ensures piece != [] && piece[0] != '%' ==> (Writes(piece, c) <==> piece == [c])
  {
    var b := Bytes(c as int);
    TripletsLength(b);
    assert Triplets(b) == Triplet(b[0]) + Triplets(b[1..]);
    assert Triplets(b)[0] == '%';
    if piece != [] { assert AllRaised(piece)[0] == '%' <==> piece[0] == '%'; }
  }

  lemma {:induction false} PlainHead(s: string, c: char, n: nat)
    requires s != [] && s[0] != '%'
    ensures DecodeHead(s) == Some(Head(c, n)) <==> n <= |s| && Writes(s[..n], c)
  {
    if n <= |s| {
      WritesStart(s[..n], c);
    }
    if n == 1 { assert s[..n] == [s[0]]; }
  }

  lemma {:induction false} WrittenHead(s: string, c: char, n: nat)
    requires s != [] && s[0] == '%' && n <= |s| && Writes(s[..n], c)
    ensures DecodeHead(s) == Some(Head(c, n))
  {
    var b := Bytes(c as int);
    TripletsLength(b);
    ValueOfBytes(c as int);
    BytesIff(s, b);
    assert s[..n] != [c] || c == '%';
    assert n == 3 * |b|;
    assert TakeBytes(s, |b|) == Some(b);
    assert ByteAt(s) == Some(b[0]);
  }

  lemma {:induction false} ReadHead(s: string, c: char, n: nat)
    requires s != [] && s[0] == '%' && DecodeHead(s) == Some(Head(c, n))
    ensures n <= |s| && Writes(s[..n], c)
  {
    var k := Announced(ByteAt(s).value);
    TakenFit(s, k);
    var b := TakeBytes(s, k).value;
    BytesIff(s, b);
    ValueIff(b, Value(b).value);
  }

  ghost predicate Written(s: string, t: string)
    decreases |t|
  {
    if t == [] then s == [] else exists n :: 0 <= n <= |s| && Writes(s[..n], t[0]) && Written(s[n..], t[1..])
  }

  lemma {:induction false} ReadIsWritten(s: string, t: string)
    requires Decode(s) == Some(t)
    ensures Written(s, t)
  {
    if s != [] {
      var h := DecodeHead(s).value;
      HeadIff(s, h.c, h.length);
      assert t[0] == h.c && t[1..] == Decode(s[h.length..]).value;
      ReadIsWritten(s[h.length..], t[1..]);
    }
  }

  lemma {:induction false} WrittenIsRead(s: string, t: string)
    requires Written(s, t)
    ensures Decode(s) == Some(t)
    decreases |t|
  {
    if t != [] {
      var n :| 0 <= n <= |s| && Writes(s[..n], t[0]) && Written(s[n..], t[1..]);
      WritesStart(s[..n], t[0]);
      HeadIff(s, t[0], n);
      WrittenIsRead(s[n..], t[1..]);
      assert t == [t[0]] + t[1..];
    }
  }

  /** A text is read as `t` exactly when it is, one after the other, ways to write the characters of `t`; when there is no
      such `t`, reading it is an error. */
  lemma {:induction false} DecodedIff(s: string, t: string)
    ensures Decode(s) == Some(t) <==> Written(s, t)
  {
    if Decode(s) == Some(t) { ReadIsWritten(s, t); }
    if Written(s, t) { WrittenIsRead(s, t); }
  }

  /** The characters that are encoded as themselves. */
  const LETTERS := "ABCDEFGHIJKLMNOPQRSTUVWXYZ"
  const SMALL_LETTERS := "abcdefghijklmnopqrstuvwxyz"
  const DIGITS_AND_MARKS := "0123456789-_.!~*'()"

  lemma Letters(c: char)
    ensures 'A' <= c <= 'Z' <==> c in LETTERS
  {
  }

  lemma SmallLetters(c: char)
    ensures 'a' <= c <= 'z' <==> c in SMALL_LETTERS
  {
  }

  lemma UnreservedIff(c: char)
    ensures Unreserved(c) <==> c in LETTERS || c in SMALL_LETTERS || c in DIGITS_AND_MARKS
  {
    Letters(c);
    SmallLetters(c);
  }

  lemma EncodedAsItselfIff(c: char)
    ensures EncodeChar(c) == [c] <==> c in LETTERS || c in SMALL_LETTERS || c in DIGITS_AND_MARKS
  {
    UnreservedIff(c);
    TripletsLength(Bytes(c as int));
  }
}
