/** The texts of JSON.stringify: how they are escaped, read back, and how long they get. */
module JsonText {
  import opened Text

  /** A UTF-16 code unit; a JavaScript string is a sequence of them. */
  newtype Unit = u: int | 0 <= u < 0x10000
  type Words = seq<Unit>

  predicate High(u: Unit) { 0xD800 <= u <= 0xDBFF }

  predicate Low(u: Unit) { 0xDC00 <= u <= 0xDFFF }

  function Hex(n: int): Unit
    requires 0 <= n < 16
  {
    if n < 10 then (48 + n) as Unit else (87 + n) as Unit
  }

  /** Backslash, u, and four hexadecimal digits. */
  function LongEscape(u: Unit): Words {
    var n := u as int;
    [92, 117, Hex(n / 4096), Hex(n / 256 % 16), Hex(n / 16 % 16), Hex(n % 16)]
  }

  /** The unit that follows a backslash in a short escape. */
  function ShortEscape(u: Unit): Option<Unit> {
    if u == 34 then Some(34) else if u == 92 then Some(92) else if u == 8 then Some(98) else if u == 9 then Some(116)
    else if u == 10 then Some(110) else if u == 12 then Some(102) else if u == 13 then Some(114) else None
  }

  /** How JSON.stringify writes one unit: other controls and lone surrogates take the long form. */
  function EscapedUnit(u: Unit): Words {
    if ShortEscape(u).Some? then [92, ShortEscape(u).value]
    else if u < 32 || High(u) || Low(u) then LongEscape(u) else [u]
  }

  predicate PairFirst(s: Words) { |s| >= 2 && High(s[0]) && Low(s[1]) }

  /** The text between the quotes. */
  function Escaped(s: Words): Words {
    if s == [] then [] else if PairFirst(s) then s[..2] + Escaped(s[2..]) else EscapedUnit(s[0]) + Escaped(s[1..])
  }

  lemma {:induction false} EscapedAtMost(s: Words)
    ensures |Escaped(s)| <= 6 * |s|
  {
    if s != [] { EscapedAtMost(if PairFirst(s) then s[2..] else s[1..]); }
  }

  // ---------------------------------------------------------------- reading it back

  function Digit(u: Unit): Option<int> {
    if 48 <= u <= 57 then Some(u as int - 48)
    else if 65 <= u <= 70 then Some(u as int - 55)
    else if 97 <= u <= 102 then Some(u as int - 87)
    else None
  }

  function ShortRead(u: Unit): Option<Unit> {
    match u as int
    case 34 => Some(34)
    case 47 => Some(47)
    case 92 => Some(92)
    case 98 => Some(8)
    case 116 => Some(9)
    case 110 => Some(10)
    case 102 => Some(12)
    case 114 => Some(13)
    case _ => None
  }

  function LongRead(t: Words): Option<Unit>
    requires |t| >= 6
  {
    var a, b, c, d := Digit(t[2]), Digit(t[3]), Digit(t[4]), Digit(t[5]);
    if a.None? || b.None? || c.None? || d.None? then None
    else Some((4096 * a.value + 256 * b.value + 16 * c.value + d.value) as Unit)
  }

  function Before(u: Unit, rest: Option<Words>): Option<Words> { if rest.None? then None else Some([u] + rest.value) }

  /** JSON.parse of the text between the quotes; a bare quote or control is an error. */
  function ReadText(t: Words): Option<Words> {
    if t == [] then Some([])
    else if t[0] == 92 then
      if |t| >= 6 && t[1] == 117 then
        if LongRead(t).None? then None else Before(LongRead(t).value, ReadText(t[6..]))
      else if |t| >= 2 && ShortRead(t[1]).Some? then Before(ShortRead(t[1]).value, ReadText(t[2..]))
      else None
    else if t[0] == 34 || t[0] < 32 then None
    else Before(t[0], ReadText(t[1..]))
  }

  lemma HexDigit(n: int)
    requires 0 <= n < 16
    ensures Digit(Hex(n)) == Some(n)
  {
  }

  lemma HexDigits(n: int)
    requires 0 <= n < 0x10000
    ensures 4096 * (n / 4096) + 256 * (n / 256 % 16) + 16 * (n / 16 % 16) + n % 16 == n
    ensures n / 4096 < 16
  {
    assert n / 256 == 16 * (n / 4096) + n / 256 % 16;
    assert n / 16 == 16 * (n / 256) + n / 16 % 16;
  }

  lemma LongReadBack(u: Unit, rest: Words)
    ensures |LongEscape(u) + rest| >= 6 && LongRead(LongEscape(u) + rest) == Some(u)
  {
    var n := u as int;
    HexDigits(n);
    var a, b, c, d := n / 4096, n / 256 % 16, n / 16 % 16, n % 16;
    HexDigit(a);
    HexDigit(b);
    HexDigit(c);
    HexDigit(d);
    var t := LongEscape(u) + rest;
    assert t[2] == Hex(a) && t[3] == Hex(b) && t[4] == Hex(c) && t[5] == Hex(d);
  }

  lemma {:induction false} UnitReadBack(u: Unit, rest: Words)
    ensures ReadText(EscapedUnit(u) + rest) == Before(u, ReadText(rest))
  {
    var t := EscapedUnit(u) + rest;
    if ShortEscape(u).Some? {
      assert t[0] == 92 && t[1] == ShortEscape(u).value && t[2..] == rest;
    } else if u < 32 || High(u) || Low(u) {
      LongReadBack(u, rest);
      assert t[0] == 92 && t[1] == 117 && t[6..] == rest;
    } else {
      assert t[0] == u && t[1..] == rest;
    }
  }

  lemma {:induction false} PlainReadBack(u: Unit, rest: Words)
    requires High(u) || Low(u)
    ensures ReadText([u] + rest) == Before(u, ReadText(rest))
  {
    assert ([u] + rest)[0] == u && ([u] + rest)[1..] == rest;
  }

  lemma {:induction false} PairReadBack(a: Unit, b: Unit, rest: Words)
    requires High(a) && Low(b)
    ensures ReadText([a] + ([b] + rest)) == Before(a, Before(b, ReadText(rest)))
  {
    PlainReadBack(b, rest);
    PlainReadBack(a, [b] + rest);
  }

  lemma {:induction false} PairStep(s: Words, rest: Words)
    requires PairFirst(s) && ReadText(rest) == Some(s[2..])
    ensures ReadText(s[..2] + rest) == Some(s)
  {
    PairReadBack(s[0], s[1], rest);
    assert s[..2] + rest == [s[0]] + ([s[1]] + rest);
    assert s == [s[0]] + ([s[1]] + s[2..]);
  }

  lemma {:induction false} UnitStep(s: Words, rest: Words)
    requires s != [] && ReadText(rest) == Some(s[1..])
    ensures ReadText(EscapedUnit(s[0]) + rest) == Some(s)
  {
    UnitReadBack(s[0], rest);
    assert s == [s[0]] + s[1..];
  }

  /** Every text, with quotes, controls and surrogates of any kind, is read back as it was written. */
  lemma {:induction false} TextReadBack(s: Words)
    ensures ReadText(Escaped(s)) == Some(s)
  {
    if s == [] {
    } else if PairFirst(s) {
      TextReadBack(s[2..]);
      PairStep(s, Escaped(s[2..]));
    } else {
      TextReadBack(s[1..]);
      UnitStep(s, Escaped(s[1..]));
    }
  }

  /** What is written can be stored as UTF-8: a high surrogate is followed by a low one, and every low one follows one. */
  predicate Paired(t: Words) {
    t == [] || (if High(t[0]) then |t| >= 2 && Low(t[1]) && Paired(t[2..]) else !Low(t[0]) && Paired(t[1..]))
  }

  lemma {:induction false} PlainThenPaired(a: Words, b: Words)
    requires (forall k :: 0 <= k < |a| ==> !High(a[k]) && !Low(a[k])) && Paired(b)
    ensures Paired(a + b)
  {
    if a == [] {
      assert a + b == b;
    } else {
      assert (a + b)[1..] == a[1..] + b;
      PlainThenPaired(a[1..], b);
    }
  }

  lemma {:induction false} EscapedIsPaired(s: Words)
    ensures Paired(Escaped(s))
  {
    if s == [] {
    } else if PairFirst(s) {
      EscapedIsPaired(s[2..]);
      var t := Escaped(s);
      assert t[0] == s[0] && t[1] == s[1] && t[2..] == Escaped(s[2..]);
    } else {
      EscapedIsPaired(s[1..]);
      PlainThenPaired(EscapedUnit(s[0]), Escaped(s[1..]));
    }
  }

  predicate Bare(u: Unit) { u >= 32 && u != 34 && u != 92 }

  lemma WrittenAsItself(u: Unit)
    ensures EscapedUnit(u) == [u] <==> Bare(u) && !High(u) && !Low(u)
    ensures EscapedUnit(u) == [u] || |EscapedUnit(u)| > 1
  {
  }

  lemma {:induction false} NeverShorter(s: Words)
    ensures |Escaped(s)| >= |s|
  {
    if s == [] {
    } else if PairFirst(s) {
      NeverShorter(s[2..]);
    } else {
      NeverShorter(s[1..]);
      WrittenAsItself(s[0]);
    }
  }

  lemma SameFirst(s: Words, a: Words, b: Words)
    requires |a| <= |s|
    ensures a + b == s <==> a == s[..|a|] && b == s[|a|..]
  {
    if a + b == s {
      assert (a + b)[..|a|] == a && (a + b)[|a|..] == b;
    }
  }

  /** A text is written as it stands exactly when it is paired, and has no quote, backslash or control. */
  lemma {:induction false} WrittenAsItStandsIff(s: Words)
    ensures Escaped(s) == s <==> Paired(s) && forall k :: 0 <= k < |s| ==> Bare(s[k])
  {
    if s == [] {
    } else if PairFirst(s) {
      WrittenAsItStandsIff(s[2..]);
      SameFirst(s, s[..2], Escaped(s[2..]));
      BareSplit(s, 2);
    } else {
      WrittenAsItStandsIff(s[1..]);
      WrittenAsItself(s[0]);
      BareSplit(s, 1);
      if EscapedUnit(s[0]) == [s[0]] {
        SameFirst(s, [s[0]], Escaped(s[1..]));
      } else {
        NeverShorter(s[1..]);
        assert |Escaped(s)| > |s|;
      }
    }
  }

  lemma BareSplit(s: Words, n: nat)
    requires n <= |s|
    ensures (forall k :: 0 <= k < |s| ==> Bare(s[k]))
      <==> (forall k :: 0 <= k < n ==> Bare(s[k])) && (forall k :: 0 <= k < |s[n..]| ==> Bare(s[n..][k]))
  {
    if forall k :: 0 <= k < |s[n..]| ==> Bare(s[n..][k]) {
      assert forall k :: n <= k < |s| ==> s[k] == s[n..][k - n];
    }
  }

  /** Seven units take two, other controls and lone surrogates take six, and every other unit takes one. */
  lemma EscapeLengths(u: Unit)
    ensures |EscapedUnit(u)| == if u as int in {8, 9, 10, 12, 13, 34, 92} then 2 else if u < 32 || High(u) || Low(u) then 6 else 1
  {
  }

  /** A quote or a control that is not escaped is no text. */
  lemma {:induction false} UnescapedIsNoText(u: Unit, t: Words)
    requires u == 34 || u < 32
    ensures ReadText([u] + t) == None
  {
    assert ([u] + t)[0] == u;
  }

  /** A surrogate is told by its six highest bits. */
  lemma SurrogatesAre(u: Unit)
    ensures High(u) <==> u as int / 1024 == 54
    ensures Low(u) <==> u as int / 1024 == 55
  {
  }

  /** Hexadecimal digits are read in either case, short escapes as they are written, and an escaped slash as itself. */
  lemma SignsAreRead(u: Unit, n: int, c: Unit)
    ensures Digit(u) == Some(n) <==> 0 <= n < 16 && (u == Hex(n) || (n >= 10 && u as int + 32 == Hex(n) as int))
    ensures ShortRead(u) == Some(c) <==> ShortEscape(c) == Some(u) || u == c == 47
  {
  }
}
