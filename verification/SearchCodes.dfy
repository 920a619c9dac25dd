/** What the classifier takes a query for, character by character, and searching by the order code or the id on record. */
module SearchCodes {
  import opened Text
  import opened SqlLike
  import opened BuyerSearch

  // ---------------------------------------------------------------- order codes

  predicate Separator(c: char) { IsSpace(c) || c == '-' }

  predicate Spaces(s: string) { forall k :: 0 <= k < |s| ==> IsSpace(s[k]) }

  predicate Separators(s: string) { forall k :: 0 <= k < |s| ==> Separator(s[k]) }

  predicate FourDigits(s: string) { |s| == 4 && forall k :: 0 <= k < 4 ==> '0' <= s[k] <= '9' }

  /** The text is the code of the halves `a` and `b`: ct in any case, spaces and dashes before each half, spaces around. */
  predicate SpelledFrom(raw: string, a: string, b: string, lead: string, c: char, t: char, x: string, y: string, tail: string) {
    && raw == lead + ([c, t] + (x + (a + (y + (b + tail)))))
    && Spaces(lead) && c in {'c', 'C'} && t in {'t', 'T'} && Separators(x) && Separators(y) && Spaces(tail)
    && FourDigits(a) && FourDigits(b)
  }

  ghost predicate SpellsCode(raw: string, a: string, b: string) {
    exists lead, c, t, x, y, tail :: SpelledFrom(raw, a, b, lead, c, t, x, y, tail)
  }

  lemma {:induction false} EveryIff(s: string, p: char -> bool)
    ensures Every(s, p) <==> forall k :: 0 <= k < |s| ==> p(s[k])
  {
    if s != [] {
      EveryIff(s[1..], p);
      assert s == [s[0]] + s[1..];
    }
  }

  lemma {:induction false} TrimStartAfter(lead: string, rest: string)
    requires Spaces(lead) && rest != [] && !IsSpace(rest[0])
    ensures TrimStart(lead + rest) == rest
  {
    if lead == [] {
      assert lead + rest == rest;
    } else {
      assert (lead + rest)[1..] == lead[1..] + rest;
      TrimStartAfter(lead[1..], rest);
    }
  }

  lemma {:induction false} SkipAfter(x: string, rest: string)
    requires Separators(x) && rest != [] && !Separator(rest[0])
    ensures SkipSeparators(x + rest) == rest
  {
    if x == [] {
      assert x + rest == rest;
    } else {
      assert (x + rest)[1..] == x[1..] + rest;
      SkipAfter(x[1..], rest);
    }
  }

  lemma {:induction false} SkippedIs(s: string) returns (x: string)
    ensures s == x + SkipSeparators(s) && Separators(x)
  {
    if s != [] && Separator(s[0]) {
      var more := SkippedIs(s[1..]);
      x := [s[0]] + more;
      assert s == [s[0]] + s[1..];
    } else {
      x := [];
    }
  }

  lemma FourDigitsIff(s: string)
    requires |s| == 4
    ensures AllDigits(s) <==> FourDigits(s)
  {
    EveryIff(s, IsDigit);
  }

  lemma {:induction false} HalfRead(x: string, half: string, rest: string)
    requires Separators(x) && FourDigits(half)
    ensures
      var read := SkipSeparators(x + (half + rest));
      |read| >= 4 && read[..4] == half && read[4..] == rest && AllDigits(read[..4])
  {
    assert (half + rest)[0] == half[0];
    SkipAfter(x, half + rest);
    FourDigitsIff(half);
  }

  /** Every such text is read as its code. */
  lemma {:induction false} SpelledIsRead(raw: string, a: string, b: string, lead: string, c: char, t: char, x: string,
                                         y: string, tail: string)
    requires SpelledFrom(raw, a, b, lead, c, t, x, y, tail)
    ensures ReadOrderCode(raw) == Some("CT-" + a + "-" + b)
  {
    var rest := x + (a + (y + (b + tail)));
    var coded := [c, t] + rest;
    assert coded[0] == c && coded[1] == t && coded[2..] == rest;
    TrimStartAfter(lead, coded);
    HalfRead(x, a, y + (b + tail));
    HalfRead(y, b, tail);
    EveryIff(tail, IsSpace);
  }

  /** And nothing else is read as a code. */
  lemma {:induction false} ReadIsSpelled(raw: string) returns (a: string, b: string)
    requires ReadOrderCode(raw).Some?
    ensures SpellsCode(raw, a, b) && ReadOrderCode(raw) == Some("CT-" + a + "-" + b)
  {
    TrimStartIs(raw);
    LeadIsSpaces(raw);
    var coded := TrimStart(raw);
    var lead := raw[..|raw| - |coded|];
    var first := SkipSeparators(coded[2..]);
    var x := SkippedIs(coded[2..]);
    var second := SkipSeparators(first[4..]);
    var y := SkippedIs(first[4..]);
    a, b := first[..4], second[..4];
    FourDigitsIff(a);
    FourDigitsIff(b);
    var tail := second[4..];
    EveryIff(tail, IsSpace);
    PartsOf(raw, a, b, lead, coded, x, first, y, second, tail);
    assert SpelledFrom(raw, a, b, lead, coded[0], coded[1], x, y, tail);
  }

  lemma PartsOf(raw: string, a: string, b: string, lead: string, coded: string, x: string, first: string, y: string,
                second: string, tail: string)
    requires raw == lead + coded && |coded| >= 2 && coded[2..] == x + first && |first| >= 4 && a == first[..4]
    requires first[4..] == y + second && |second| >= 4 && b == second[..4] && tail == second[4..]
    ensures raw == lead + ([coded[0], coded[1]] + (x + (a + (y + (b + tail)))))
  {
    assert second == b + tail && first == a + first[4..] && coded == [coded[0], coded[1]] + coded[2..];
  }

  lemma {:induction false} LeadIsSpaces(s: string)
    ensures |TrimStart(s)| <= |s| && Spaces(s[..|s| - |TrimStart(s)|])
  {
    if s != [] && IsSpace(s[0]) {
      LeadIsSpaces(s[1..]);
      assert s == [s[0]] + s[1..];
    }
  }

  /** A text has at most one code. */
  lemma OneCode(raw: string, a: string, b: string)
    requires SpellsCode(raw, a, b)
    ensures ReadOrderCode(raw) == Some("CT-" + a + "-" + b)
  {
    var lead, c, t, x, y, tail :| SpelledFrom(raw, a, b, lead, c, t, x, y, tail);
    SpelledIsRead(raw, a, b, lead, c, t, x, y, tail);
  }

  lemma NoAtSign(raw: string, a: string, b: string)
    requires SpellsCode(raw, a, b)
    ensures '@' !in raw && raw != ""
  {
    var lead, c, t, x, y, tail :| SpelledFrom(raw, a, b, lead, c, t, x, y, tail);
    assert '@' !in lead && '@' !in x && '@' !in a && '@' !in y && '@' !in b && '@' !in tail;
  }

  // ---------------------------------------------------------------- what a query is taken for

  predicate Hex(c: char) { '0' <= c <= '9' || 'a' <= c <= 'f' || 'A' <= c <= 'F' }

  /** Hexadecimal digits in groups of 8, 4, 4, 4 and 12. */
  predicate UuidText(s: string) {
    |s| == 36 && forall k :: 0 <= k < 36 ==> if k in {8, 13, 18, 23} then s[k] == '-' else Hex(s[k])
  }

  predicate IdText(s: string) { UuidText(s) || (|s| >= 16 && forall k :: 0 <= k < |s| ==> Hex(s[k])) }

  predicate PhoneSign(c: char) { IsSpace(c) || c in {'-', '+', '(', ')', '.'} }

  /** Digits and the signs that phones are written with, and at least one digit. */
  predicate PhoneText(s: string) {
    && (forall k :: 0 <= k < |s| ==> '0' <= s[k] <= '9' || PhoneSign(s[k]))
    && exists k :: 0 <= k < |s| && '0' <= s[k] <= '9'
  }

  ghost predicate CodeText(s: string) { exists a, b :: SpellsCode(s, a, b) }

  lemma CodeTextIff(raw: string)
    ensures CodeText(raw) <==> ReadOrderCode(raw).Some?
    ensures CodeText(raw) ==> '@' !in raw && raw != ""
  {
    if ReadOrderCode(raw).Some? { var a, b := ReadIsSpelled(raw); }
    if CodeText(raw) {
      var a, b :| SpellsCode(raw, a, b);
      OneCode(raw, a, b);
      NoAtSign(raw, a, b);
    }
  }

  lemma HexIff(s: string)
    ensures AllHex(s) <==> forall k :: 0 <= k < |s| ==> Hex(s[k])
  {
    EveryIff(s, IsHex);
  }

  lemma UuidIff(s: string)
    ensures IsUuid(s) <==> UuidText(s)
  {
    if |s| == 36 {
      HexIff(s[..8]);
      HexIff(s[9..13]);
      HexIff(s[14..18]);
      HexIff(s[19..23]);
      HexIff(s[24..]);
      UuidParts(s);
    }
  }

  lemma UuidParts(s: string)
    requires |s| == 36
    ensures UuidText(s) <==>
      && s[8] == s[13] == s[18] == s[23] == '-'
      && (forall k :: 0 <= k < 8 ==> Hex(s[..8][k])) && (forall k :: 0 <= k < 4 ==> Hex(s[9..13][k]))
      && (forall k :: 0 <= k < 4 ==> Hex(s[14..18][k])) && (forall k :: 0 <= k < 4 ==> Hex(s[19..23][k]))
      && (forall k :: 0 <= k < 12 ==> Hex(s[24..][k]))
  {
    assert forall k :: 9 <= k < 13 ==> s[9..13][k - 9] == s[k];
    assert forall k :: 14 <= k < 18 ==> s[14..18][k - 14] == s[k];
    assert forall k :: 19 <= k < 23 ==> s[19..23][k - 19] == s[k];
    assert forall k :: 24 <= k < 36 ==> s[24..][k - 24] == s[k];
    assert forall k :: 0 <= k < 8 ==> s[..8][k] == s[k];
  }

  lemma {:induction false} PhoneDigitsIff(s: string)
    ensures AllDigits(PhoneDigits(s)) <==> forall k :: 0 <= k < |s| ==> '0' <= s[k] <= '9' || PhoneSign(s[k])
    ensures PhoneDigits(s) != "" <==> exists k :: 0 <= k < |s| && !PhoneSign(s[k])
  {
    if s != [] {
      PhoneDigitsIff(s[1..]);
      assert s == [s[0]] + s[1..];
      if IsPhoneCharacter(s[0]) {
        assert PhoneDigits(s)[0] == s[0] && PhoneDigits(s)[1..] == PhoneDigits(s[1..]);
      } else {
        assert PhoneDigits(s) == PhoneDigits(s[1..]);
      }
    }
  }

  lemma PhoneIff(s: string)
    ensures PhoneDigits(s) != "" && AllDigits(PhoneDigits(s)) <==> PhoneText(s)
  {
    PhoneDigitsIff(s);
  }

  /** What a query is taken for, by its characters alone: the first of these that it is. */
  lemma ClassifiedIff(input: string)
    ensures
      var raw, intent := QueryText(input), Classify(input).intent;
      && (intent == Empty <==> raw == "")
      && (intent == Email <==> '@' in raw)
      && (intent == OrderCode <==> CodeText(raw))
      && (intent == Id <==> '@' !in raw && !CodeText(raw) && IdText(raw))
      && (intent == Phone <==> '@' !in raw && !CodeText(raw) && !IdText(raw) && PhoneText(raw))
      && (intent == Name <==> raw != "" && '@' !in raw && !CodeText(raw) && !IdText(raw) && !PhoneText(raw))
  {
    var raw := QueryText(input);
    CodeTextIff(raw);
    UuidIff(raw);
    HexIff(raw);
    PhoneIff(raw);
  }

  // ---------------------------------------------------------------- the own code, and the own id

  /** A query is looked at without the blanks around it, and up to its 120th character. */
  lemma QueryIs(input: string, core: string, lead: string, tail: string)
    requires input == lead + core + tail && Spaces(lead) && Spaces(tail)
    requires core != "" && !IsSpace(core[0]) && !IsSpace(core[|core| - 1])
    ensures QueryText(input) == if |core| <= 120 then core else core[..120]
  {
    assert lead + core + tail == lead + (core + tail) && (core + tail)[0] == core[0];
    TrimStartAfter(lead, core + tail);
    TrimEndBefore(core, tail);
  }

  lemma BlankQuery(input: string)
    ensures QueryText(input) == "" <==> Spaces(input)
  {
    TrimIsEmptyIff(input);
  }

  lemma {:induction false} SameDigits(s: string)
    requires forall k :: 0 <= k < |s| ==> '0' <= s[k] <= '9' || PhoneSign(s[k])
    ensures PhoneDigits(s) == Keep(s, IsDigit)
  {
    if s != [] {
      SameDigits(s[1..]);
      assert IsPhoneCharacter(s[0]) <==> '0' <= s[0] <= '9';
    }
  }

  /** What a query that is no name is searched as: nothing, the digits of a phone, or an id in lower case; never as words. */
  lemma PlanIs(input: string)
    ensures
      var plan, raw := Classify(input), QueryText(input);
      && plan.raw == raw
      && (plan.intent == Empty ==> plan.normalized == "")
      && (plan.intent == Phone ==> plan.normalized == Keep(raw, IsDigit))
      && (plan.intent == Id ==> plan.normalized == Lower(raw))
      && (plan.intent != Name ==> plan.tokens == [])
  {
    ClassifiedIff(input);
    if Classify(input).intent == Phone { SameDigits(QueryText(input)); }
  }

  lemma {:induction false} TrimEndBefore(core: string, tail: string)
    requires core != "" && !IsSpace(core[|core| - 1]) && Spaces(tail)
    ensures TrimEnd(core + tail) == core
  {
    if tail == [] {
      assert core + tail == core;
    } else {
      var n := |tail| - 1;
      assert (core + tail)[..|core + tail| - 1] == core + tail[..n] && (core + tail)[|core + tail| - 1] == tail[n];
      TrimEndBefore(core, tail[..n]);
    }
  }

  /** Searching an order code, as a person may write it, finds exactly the buyers of participations that carry the code. */
  lemma OwnCodeFound(input: string, a: string, b: string, row: Row, table: seq<Participation>, before: seq<string>)
    requires SpellsCode(QueryText(input), a, b)
    ensures Classify(input).intent == OrderCode
    ensures var f := PredicateSql(Classify(input), |before| + 1);
            Holds(f.sql, row, table, before + f.params) <==>
            exists p :: p in table && p.buyerId == row.buyerId && "CT-" + a + "-" + b in p.orderCodes
  {
    ClassifiedIff(input);
    OneCode(QueryText(input), a, b);
    OrderCodePredicateExact(Classify(input), before, row, table);
  }

  /** In particular for every way to write it within 120 characters. */
  lemma WrittenCodeFound(a: string, b: string, lead: string, c: char, t: char, x: string, y: string, tail: string,
                         row: Row, table: seq<Participation>, before: seq<string>)
    requires FourDigits(a) && FourDigits(b) && c in {'c', 'C'} && t in {'t', 'T'} && Separators(x) && Separators(y)
    requires Spaces(lead) && Spaces(tail) && |[c, t] + (x + (a + (y + b)))| <= 120
    ensures
      var input := lead + ([c, t] + (x + (a + (y + b)))) + tail;
      var f := PredicateSql(Classify(input), |before| + 1);
      && Classify(input).intent == OrderCode
      && (Holds(f.sql, row, table, before + f.params) <==>
            exists p :: p in table && p.buyerId == row.buyerId && "CT-" + a + "-" + b in p.orderCodes)
  {
    var core := [c, t] + (x + (a + (y + b)));
    assert core[|core| - 1] == b[3] && core[0] == c;
    QueryIs(lead + core + tail, core, lead, tail);
    CoreIsSpelled(core, a, b, c, t, x, y);
    OwnCodeFound(lead + core + tail, a, b, row, table, before);
  }

  lemma CoreIsSpelled(core: string, a: string, b: string, c: char, t: char, x: string, y: string)
    requires FourDigits(a) && FourDigits(b) && c in {'c', 'C'} && t in {'t', 'T'} && Separators(x) && Separators(y)
    requires core == [c, t] + (x + (a + (y + b)))
    ensures SpellsCode(core, a, b)
  {
    assert b + "" == b && "" + core == core;
    assert SpelledFrom(core, a, b, "", c, t, x, y, "");
  }

  /** Searching the id of a buyer, in any case, finds that buyer. */
  lemma OwnIdFound(input: string, row: Row, table: seq<Participation>, before: seq<string>)
    requires Classify(input).intent == Id && Lower(QueryText(input)) == Lower(row.buyerId)
    ensures var f := PredicateSql(Classify(input), |before| + 1); Holds(f.sql, row, table, before + f.params)
  {
    IdPredicateExact(Classify(input), before, row, table);
  }

  /** Searching the id of a participation, whose text is in lower case, in any case, finds its buyer. */
  lemma ParticipationIdFound(input: string, p: Participation, row: Row, table: seq<Participation>, before: seq<string>)
    requires Classify(input).intent == Id && p in table && p.buyerId == row.buyerId
    requires Lower(QueryText(input)) == p.participantId
    ensures var f := PredicateSql(Classify(input), |before| + 1); Holds(f.sql, row, table, before + f.params)
  {
    IdPredicateExact(Classify(input), before, row, table);
  }
}
