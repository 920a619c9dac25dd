/** encodeURIComponent and decodeURIComponent over UTF-8 (section 2.1 of RFC 3986; section 3 of RFC 3629). */
module PercentCode {
  import opened Text

  /** A character and its scalar value. */
  predicate Scalar(n: int) { 0 <= n < 0xD800 || 0xE000 <= n < 0x11_0000 }

  predicate Unreserved(c: char) {
    'A' <= c <= 'Z' || 'a' <= c <= 'z' || '0' <= c <= '9'
    || c == '-' || c == '_' || c == '.' || c == '!' || c == '~' || c == '*' || c == '\'' || c == '(' || c == ')'
  }

  // ---------------------------------------------------------------- UTF-8

  function Bytes(n: int): (b: seq<int>)
    requires Scalar(n)
    ensures 1 <= |b| <= 4 && forall i :: 0 <= i < |b| ==> 0 <= b[i] < 256
  {
    if n < 0x80 then [n]
    else if n < 0x800 then [0xC0 + n / 64, 0x80 + n % 64]
    else if n < 0x1_0000 then [0xE0 + n / 4096, 0x80 + n / 64 % 64, 0x80 + n % 64]
    else [0xF0 + n / 262144, 0x80 + n / 4096 % 64, 0x80 + n / 64 % 64, 0x80 + n % 64]
  }

  /** How many bytes a leading byte announces; 0 for a byte that cannot lead. */
  function Announced(b: int): nat {
    if b < 0x80 then 1 else if b < 0xC0 then 0 else if b < 0xE0 then 2 else if b < 0xF0 then 3 else if b < 0xF8 then 4 else 0
  }

  predicate Continues(b: int) { 0x80 <= b < 0xC0 }

  /** The scalar value of a whole sequence, when every byte is in place and the shortest form was used. */
  function Value(b: seq<int>): Option<int> {
    if |b| == 1 && 0 <= b[0] < 0x80 then Some(b[0])
    else if |b| == 2 && 0xC0 <= b[0] < 0xE0 && Continues(b[1]) then Checked((b[0] - 0xC0) * 64 + (b[1] - 0x80), 0x80)
    else if |b| == 3 && 0xE0 <= b[0] < 0xF0 && Continues(b[1]) && Continues(b[2]) then
      Checked((b[0] - 0xE0) * 4096 + (b[1] - 0x80) * 64 + (b[2] - 0x80), 0x800)
    else if |b| == 4 && 0xF0 <= b[0] < 0xF8 && Continues(b[1]) && Continues(b[2]) && Continues(b[3]) then
      Checked((b[0] - 0xF0) * 262144 + (b[1] - 0x80) * 4096 + (b[2] - 0x80) * 64 + (b[3] - 0x80), 0x1_0000)
    else None
  }

  function Checked(n: int, least: int): Option<int> {
    if n >= least && Scalar(n) then Some(n) else None
  }

  lemma SixBits(n: int)
    requires 0 <= n
    ensures n == 64 * (n / 64) + n % 64 && n / 64 == 64 * (n / 4096) + n / 64 % 64
      && n / 4096 == 64 * (n / 262144) + n / 4096 % 64
  {
  }

  lemma TwoBytes(n: int)
    requires 0x80 <= n < 0x800
    ensures Value([0xC0 + n / 64, 0x80 + n % 64]) == Some(n) && 0xC0 + n / 64 < 0xE0
  {
  }

  lemma ThreeBytes(n: int, high: int, mid: int, low: int)
    requires 0x800 <= n < 0x1_0000 && Scalar(n) && 0 <= mid < 64 && 0 <= low < 64 && n == high * 4096 + mid * 64 + low
    ensures 0 <= high < 16 && Value([0xE0 + high, 0x80 + mid, 0x80 + low]) == Some(n)
  {
  }

  lemma FourBytes(n: int, top: int, high: int, mid: int, low: int)
    requires 0x1_0000 <= n < 0x11_0000 && 0 <= high < 64 && 0 <= mid < 64 && 0 <= low < 64
    requires n == top * 262144 + high * 4096 + mid * 64 + low
    ensures 0 <= top < 5 && Value([0xF0 + top, 0x80 + high, 0x80 + mid, 0x80 + low]) == Some(n)
  {
  }

  lemma ValueOfBytes(n: int)
    requires Scalar(n)
    ensures Value(Bytes(n)) == Some(n) && Announced(Bytes(n)[0]) == |Bytes(n)|
  {
    SixBits(n);
    if n < 0x80 {
    } else if n < 0x800 {
      TwoBytes(n);
    } else if n < 0x1_0000 {
      ThreeBytes(n, n / 4096, n / 64 % 64, n % 64);
    } else {
      FourBytes(n, n / 262144, n / 4096 % 64, n / 64 % 64, n % 64);
    }
  }

  // ---------------------------------------------------------------- hexadecimal

  function HexDigit(d: int): (c: char)
    requires 0 <= d < 16
    ensures !('a' <= c <= 'z') && c != '/' && c != '%' && c != '.'
  {
    if d < 10 then '0' + d as char else 'A' + (d - 10) as char
  }

  function HexValue(c: char): Option<int> {
    if '0' <= c <= '9' then Some(c as int - '0' as int)
    else if 'A' <= c <= 'F' then Some(c as int - 'A' as int + 10)
    else if 'a' <= c <= 'f' then Some(c as int - 'a' as int + 10)
    else None
  }

  function Triplet(b: int): (s: string)
    requires 0 <= b < 256
    ensures |s| == 3
  {
    ['%', HexDigit(b / 16), HexDigit(b % 16)]
  }

  function ByteAt(s: string): Option<int> {
    if |s| < 3 || s[0] != '%' then None
    else
      var high, low := HexValue(s[1]), HexValue(s[2]);
      if high.Some? && low.Some? then Some(16 * high.value + low.value) else None
  }

  lemma ByteOfTriplet(b: int, rest: string)
    requires 0 <= b < 256
    ensures ByteAt(Triplet(b) + rest) == Some(b) && (Triplet(b) + rest)[3..] == rest
  {
  }

  // ---------------------------------------------------------------- the two functions

  function Triplets(b: seq<int>): string
    requires forall i :: 0 <= i < |b| ==> 0 <= b[i] < 256
  {
    if b == [] then "" else Triplet(b[0]) + Triplets(b[1..])
  }

  function EncodeChar(c: char): string {
    if Unreserved(c) then [c] else Triplets(Bytes(c as int))
  }

  function Encode(s: string): string {
    if s == [] then "" else EncodeChar(s[0]) + Encode(s[1..])
  }

  /** The next `n` percent-encoded bytes, when they are all there. */
  function TakeBytes(s: string, n: nat): Option<seq<int>> {
    if n == 0 then Some([])
    else if ByteAt(s).None? then None
    else
      var rest := TakeBytes(s[3..], n - 1);
      if rest.None? then None else Some([ByteAt(s).value] + rest.value)
  }

  /** The first character and how much of the text it takes; None is a URIError. */
  datatype Head = Head(c: char, length: nat)

  function DecodeHead(s: string): (h: Option<Head>)
    requires s != []
    ensures h.Some? ==> 0 < h.value.length <= |s|
  {
    if s[0] != '%' then Some(Head(s[0], 1))
    else if ByteAt(s).None? then None
    else
      var n := Announced(ByteAt(s).value);
      var bytes := TakeBytes(s, n);
      if n == 0 || bytes.None? || Value(bytes.value).None? || 3 * n > |s| then None
      else if !Scalar(Value(bytes.value).value) then None
      else Some(Head(Value(bytes.value).value as char, 3 * n))
  }

  function Decode(s: string): Option<string> {
    if s == [] then Some("")
    else
      match DecodeHead(s)
      case None => None
      case Some(h) =>
        var rest := Decode(s[h.length..]);
        if rest.None? then None else Some([h.c] + rest.value)
  }

  lemma {:induction false} TripletsLength(b: seq<int>)
    requires forall i :: 0 <= i < |b| ==> 0 <= b[i] < 256
    ensures |Triplets(b)| == 3 * |b|
  {
    if b != [] { TripletsLength(b[1..]); }
  }

  lemma {:induction false} TakeTriplets(b: seq<int>, rest: string)
    requires forall i :: 0 <= i < |b| ==> 0 <= b[i] < 256
    ensures TakeBytes(Triplets(b) + rest, |b|) == Some(b)
    ensures b != [] ==> ByteAt(Triplets(b) + rest) == Some(b[0])
  {
    if b != [] {
      var more := Triplets(b[1..]) + rest;
      assert Triplets(b) + rest == Triplet(b[0]) + more;
      ByteOfTriplet(b[0], more);
      TakeTriplets(b[1..], rest);
      assert b == [b[0]] + b[1..];
    }
  }

  lemma HeadOfEncoded(c: char, rest: string)
    ensures EncodeChar(c) != [] && |EncodeChar(c)| <= |EncodeChar(c) + rest|
    ensures DecodeHead(EncodeChar(c) + rest) == Some(Head(c, |EncodeChar(c)|))
  {
    if Unreserved(c) {
      assert ([c] + rest)[0] == c;
    } else {
      var b := Bytes(c as int);
      ValueOfBytes(c as int);
      TripletsLength(b);
      TakeTriplets(b, rest);
      var s := Triplets(b) + rest;
      assert s[0] == '%' by { assert ByteAt(s).Some?; }
    }
  }

  /** Decoding undoes encoding, for every text. */
  lemma {:induction false} DecodeOfEncode(s: string)
    ensures Decode(Encode(s)) == Some(s)
  {
    if s != [] {
      HeadOfEncoded(s[0], Encode(s[1..]));
      assert Encode(s)[|EncodeChar(s[0])|..] == Encode(s[1..]);
      DecodeOfEncode(s[1..]);
      assert s == [s[0]] + s[1..];
    }
  }

  // ---------------------------------------------------------------- the shape of encoded text

  predicate Plain(c: char) { Unreserved(c) || c == '%' }

  predicate AllPlain(s: string) { forall i :: 0 <= i < |s| ==> Plain(s[i]) }

  lemma {:induction false} TripletsPlain(b: seq<int>)
    requires forall i :: 0 <= i < |b| ==> 0 <= b[i] < 256
    ensures AllPlain(Triplets(b))
  {
    if b != [] {
      TripletsPlain(b[1..]);
      assert AllPlain(Triplet(b[0]));
    }
  }

  lemma EncodedCharPlain(c: char)
    ensures AllPlain(EncodeChar(c)) && EncodeChar(c) != []
  {
    if !Unreserved(c) {
      TripletsPlain(Bytes(c as int));
      TripletsLength(Bytes(c as int));
    }
  }

  /** Encoded text is made of unreserved characters and percent signs, and is empty only for the empty text. */
  lemma {:induction false} EncodedIsPlain(s: string)
    ensures AllPlain(Encode(s)) && (Encode(s) == [] <==> s == [])
  {
    if s != [] {
      EncodedIsPlain(s[1..]);
      EncodedCharPlain(s[0]);
    }
  }
}
