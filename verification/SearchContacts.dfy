/** Searching for a buyer by the phone or the e-mail that is on record. */
module SearchContacts {
  import opened Text
  import opened SqlLike
  import opened BuyerSearch
  import opened SearchWords

  // ---------------------------------------------------------------- phones

  lemma {:induction false} KeepConcat(a: string, b: string, keep: char -> bool)
    ensures Keep(a + b, keep) == Keep(a, keep) + Keep(b, keep)
  {
    if a == [] {
      assert a + b == b;
    } else {
      var head := if keep(a[0]) then [a[0]] else [];
      assert (a + b)[1..] == a[1..] + b;
      KeepConcat(a[1..], b, keep);
      assert Keep(a + b, keep) == head + (Keep(a[1..], keep) + Keep(b, keep));
      assert Keep(a, keep) == head + Keep(a[1..], keep);
    }
  }

  lemma {:induction false} KeepSlice(s: string, lo: nat, hi: nat, keep: char -> bool)
    requires lo <= hi <= |s|
    ensures Contains(Keep(s, keep), Keep(s[lo..hi], keep))
  {
    var a, b, c := s[..lo], s[lo..hi], s[hi..];
    assert s == a + (b + c);
    KeepConcat(a, b + c, keep);
    KeepConcat(b, c, keep);
    var i := |Keep(a, keep)|;
    assert Keep(s, keep)[i..i + |Keep(b, keep)|] == Keep(b, keep);
    assert OccursAt(Keep(s, keep), Keep(b, keep), i);
  }

  /** Without its separators a phone query is its digits. */
  lemma {:induction false} DigitsLeft(s: string)
    requires AllDigits(PhoneDigits(s))
    ensures PhoneDigits(s) == Keep(s, IsDigit)
  {
    if s != [] {
      if IsPhoneCharacter(s[0]) {
        assert PhoneDigits(s) == [s[0]] + PhoneDigits(s[1..]);
        assert PhoneDigits(s)[1..] == PhoneDigits(s[1..]) && PhoneDigits(s)[0] == s[0];
      } else {
        assert PhoneDigits(s) == PhoneDigits(s[1..]);
      }
      DigitsLeft(s[1..]);
    }
  }

  /** A phone that is searched as a phone finds its own row, however it is written. */
  lemma OwnPhoneFound(phone: string, row: Row, table: seq<Participation>, before: seq<string>)
    requires row.phone == Some(phone) && Classify(phone).intent == Phone
    ensures var f := PredicateSql(Classify(phone), |before| + 1); Holds(f.sql, row, table, before + f.params)
  {
    PhonePredicateExact(Classify(phone), before, row, table);
    DigitsLeft(QueryText(phone));
    var lo, hi := QueryIsSlice(phone);
    KeepSlice(phone, lo, hi, IsDigit);
  }

  // ---------------------------------------------------------------- e-mails

  /** What the normaliser leaves of one character of an e-mail query: nothing of blanks and points. */
  function EmailChar(c: char): string { if IsBlank(c) then [] else Lower(FoldChar(c)) }

  predicate Dropped(c: char) { IsBlank(c) || c in HEBREW_MARKS }

  /** Neither dropped nor written otherwise than the database has it. */
  predicate Plain(c: char) { !Dropped(c) && c !in HEBREW_FINALS }

  lemma EmailCharCases(c: char)
    ensures EmailChar(c) == [] <==> Dropped(c)
    ensures !Dropped(c) ==> |EmailChar(c)| == 1 && !Dropped(EmailChar(c)[0])
    ensures Plain(c) ==> EmailChar(c) == [LowerChar(c)]
    ensures !Dropped(c) && c in HEBREW_FINALS ==> EmailChar(c) != [LowerChar(c)]
  {
    FoldCharCases(c);
  }

  /** What is left of one character of a collapsed text once the spaces are gone. */
  function Shown(c: char): string { Keep(Lower(FoldChar(c)), NotSpace) }

  lemma ShownCases(c: char)
    ensures IsSpace(c) ==> Shown(c) == []
    ensures !IsBlank(c) ==> Shown(c) == EmailChar(c)
  {
    FoldCharCases(c);
    EmailCharCases(c);
    var folded := Lower(FoldChar(c));
    if folded != [] {
      assert Keep(folded, NotSpace) == (if NotSpace(folded[0]) then [folded[0]] else []) + Keep(folded[1..], NotSpace);
      assert folded[1..] == [];
    }
  }

  lemma {:induction false} ShownOfFolded(s: string)
    ensures Keep(Folded(s), NotSpace) == FlatMap(Shown, s)
  {
    if s != [] {
      FoldedCons(s);
      KeepConcat(Lower(FoldChar(s[0])), Folded(s[1..]), NotSpace);
      ShownOfFolded(s[1..]);
    }
  }

  lemma {:induction false} DroppedBlanks(s: string)
    ensures FlatMap(EmailChar, DropBlanks(s)) == FlatMap(EmailChar, s)
  {
    if s != [] && IsBlank(s[0]) { DroppedBlanks(s[1..]); }
  }

  lemma {:induction false} ShownOfCollapsed(s: string)
    ensures FlatMap(Shown, Collapse(s)) == FlatMap(EmailChar, s)
    decreases |s|
  {
    if s != [] {
      ShownCases(' ');
      ShownCases(s[0]);
      if IsBlank(s[0]) {
        ShownOfCollapsed(DropBlanks(s[1..]));
        DroppedBlanks(s[1..]);
        assert Collapse(s)[1..] == Collapse(DropBlanks(s[1..]));
      } else {
        ShownOfCollapsed(s[1..]);
        assert Collapse(s)[1..] == Collapse(s[1..]);
      }
    }
  }

  lemma {:induction false} TrimStartShown(s: string, f: char -> string)
    requires forall c :: IsSpace(c) ==> f(c) == []
    ensures FlatMap(f, TrimStart(s)) == FlatMap(f, s)
  {
    if s != [] && IsSpace(s[0]) { TrimStartShown(s[1..], f); }
  }

  lemma {:induction false} TrimEndShown(s: string, f: char -> string)
    requires forall c :: IsSpace(c) ==> f(c) == []
    ensures FlatMap(f, TrimEnd(s)) == FlatMap(f, s)
  {
    if s != [] && IsSpace(s[|s| - 1]) {
      var front, last := s[..|s| - 1], s[|s| - 1];
      TrimEndShown(front, f);
      FlatMapConcat(f, front, [last]);
      assert front + [last] == s && [last][1..] == [];
    }
  }

  lemma TrimShown(s: string, f: char -> string)
    requires forall c :: IsSpace(c) ==> f(c) == []
    ensures FlatMap(f, Trim(s)) == FlatMap(f, s)
  {
    TrimStartShown(s, f);
    TrimEndShown(TrimStart(s), f);
  }

  /** The e-mail query is what is left of its characters, one by one. */
  lemma EmailQueryIs(raw: string)
    ensures PlanOf(Email, raw).normalized == FlatMap(EmailChar, raw)
  {
    forall c | IsSpace(c) ensures Shown(c) == [] { ShownCases(c); }
    ShownOfFolded(Trim(Collapse(raw)));
    TrimShown(Collapse(raw), Shown);
    ShownOfCollapsed(raw);
  }

  // ---------------------------------------------------------------- the own e-mail

  predicate AllDropped(s: string) { forall k :: 0 <= k < |s| ==> Dropped(s[k]) }

  predicate AllPlain(s: string) { forall k :: 0 <= k < |s| ==> Plain(s[k]) }

  lemma {:induction false} EmailLength(s: string)
    ensures |FlatMap(EmailChar, s)| <= |s|
    ensures FlatMap(EmailChar, s) == [] <==> AllDropped(s)
    ensures forall k :: 0 <= k < |FlatMap(EmailChar, s)| ==> !Dropped(FlatMap(EmailChar, s)[k])
  {
    if s != [] {
      EmailCharCases(s[0]);
      EmailLength(s[1..]);
      assert AllDropped(s) <==> Dropped(s[0]) && AllDropped(s[1..]) by {
        assert s == [s[0]] + s[1..];
      }
    }
  }

  /** A text of which nothing is dropped: one character for each. */
  lemma {:induction false} EmailCharAt(s: string, k: nat)
    requires k < |s| && forall j :: 0 <= j < |s| ==> !Dropped(s[j])
    ensures |FlatMap(EmailChar, s)| == |s| && [FlatMap(EmailChar, s)[k]] == EmailChar(s[k])
  {
    EmailCharCases(s[0]);
    if |s| > 1 {
      EmailCharAt(s[1..], if k > 0 then k - 1 else 0);
    } else {
      assert s[1..] == [];
    }
  }

  lemma {:induction false} LowerAt(s: string, k: nat)
    requires k < |s|
    ensures Lower(s)[k] == LowerChar(s[k])
  {
    if k > 0 { LowerAt(s[1..], k - 1); }
  }

  lemma {:induction false} LowerSlice(s: string, lo: nat, hi: nat)
    requires lo <= hi <= |s|
    ensures Lower(s)[lo..hi] == Lower(s[lo..hi])
  {
    forall k | 0 <= k < hi - lo ensures Lower(s)[lo..hi][k] == Lower(s[lo..hi])[k] {
      LowerAt(s, lo + k);
      LowerAt(s[lo..hi], k);
    }
  }

  lemma {:induction false} PlainIsLowered(s: string)
    requires AllPlain(s)
    ensures FlatMap(EmailChar, s) == Lower(s)
  {
    if s != [] {
      EmailCharCases(s[0]);
      assert AllPlain(s[1..]);
      PlainIsLowered(s[1..]);
    }
  }

  lemma {:induction false} EmailOfParts(s: string, i: nat, j: nat)
    requires i <= j <= |s|
    ensures FlatMap(EmailChar, s) == FlatMap(EmailChar, s[..i]) + FlatMap(EmailChar, s[i..j]) + FlatMap(EmailChar, s[j..])
  {
    assert s == s[..i] + s[i..j] + s[j..];
    FlatMapConcat(EmailChar, s[..i] + s[i..j], s[j..]);
    FlatMapConcat(EmailChar, s[..i], s[i..j]);
  }

  /** All that is not plain is dropped at the two ends. */
  ghost predicate PlainInside(s: string) {
    exists i, j :: 0 <= i <= j <= |s| && AllDropped(s[..i]) && AllPlain(s[i..j]) && AllDropped(s[j..])
  }

  lemma NoneLeft(s: string)
    ensures FlatMap(EmailChar, s) == [] <==> AllDropped(s)
  {
    EmailLength(s);
  }

  lemma {:induction false} PlainQuery(s: string, i: nat, j: nat)
    requires i <= j <= |s| && AllDropped(s[..i]) && AllPlain(s[i..j]) && AllDropped(s[j..])
    ensures FlatMap(EmailChar, s) == Lower(s[i..j])
  {
    EmailOfParts(s, i, j);
    NoneLeft(s[..i]);
    NoneLeft(s[j..]);
    PlainIsLowered(s[i..j]);
  }

  lemma {:induction false} PlainOccurs(s: string, i: nat, j: nat)
    requires i <= j <= |s| && AllDropped(s[..i]) && AllPlain(s[i..j]) && AllDropped(s[j..])
    ensures Contains(Lower(s), FlatMap(EmailChar, s))
  {
    PlainQuery(s, i, j);
    LowerSlice(s, i, j);
    assert OccursAt(Lower(s), Lower(s[i..j]), i);
  }

  lemma LowerKeepsDropped(c: char)
    requires Dropped(LowerChar(c)) || Dropped(c)
    ensures LowerChar(c) == c
  {
  }

  /** Where the query occurs nothing is dropped. */
  lemma {:induction false} OccursAtChar(s: string, p: nat, k: nat)
    requires OccursAt(Lower(s), FlatMap(EmailChar, s), p) && k < |FlatMap(EmailChar, s)|
    ensures p + k < |s| && !Dropped(s[p + k]) && LowerChar(s[p + k]) == FlatMap(EmailChar, s)[k]
  {
    var q := FlatMap(EmailChar, s);
    EmailLength(s);
    LowerAt(s, p + k);
    assert Lower(s)[p..p + |q|][k] == q[k];
    if Dropped(s[p + k]) { LowerKeepsDropped(s[p + k]); }
  }

  lemma {:induction false} OccursUndropped(s: string, p: nat)
    requires OccursAt(Lower(s), FlatMap(EmailChar, s), p)
    ensures
      var n := |FlatMap(EmailChar, s)|;
      p + n <= |s| && |FlatMap(EmailChar, s[p..p + n])| == n
  {
    var n := |FlatMap(EmailChar, s)|;
    var inside := s[p..p + n];
    forall k | 0 <= k < |inside| ensures !Dropped(inside[k]) { OccursAtChar(s, p, k); }
    if n > 0 { EmailCharAt(inside, 0); }
  }

  lemma MiddleIsAll(a: string, b: string, c: string, q: string)
    requires q == a + b + c && |b| == |q|
    ensures a == [] && c == [] && b == q
  {
  }

  /** So all that is kept lies there. */
  lemma {:induction false} OccursWhole(s: string, p: nat)
    requires OccursAt(Lower(s), FlatMap(EmailChar, s), p)
    ensures
      var q := FlatMap(EmailChar, s);
      p + |q| <= |s| && AllDropped(s[..p]) && AllDropped(s[p + |q|..]) && FlatMap(EmailChar, s[p..p + |q|]) == q
  {
    var q := FlatMap(EmailChar, s);
    var end := p + |q|;
    OccursUndropped(s, p);
    EmailOfParts(s, p, end);
    MiddleIsAll(FlatMap(EmailChar, s[..p]), FlatMap(EmailChar, s[p..end]), FlatMap(EmailChar, s[end..]), q);
    NoneLeft(s[..p]);
    NoneLeft(s[end..]);
  }

  lemma PlainAt(inside: string, q: string, k: nat)
    requires k < |inside| == |q| && q == FlatMap(EmailChar, inside)
    requires forall j :: 0 <= j < |inside| ==> !Dropped(inside[j]) && LowerChar(inside[j]) == q[j]
    ensures Plain(inside[k])
  {
    EmailCharAt(inside, k);
    EmailCharCases(inside[k]);
  }

  lemma {:induction false} OccursPlain(s: string, p: nat)
    requires OccursAt(Lower(s), FlatMap(EmailChar, s), p)
    ensures PlainInside(s)
  {
    var q := FlatMap(EmailChar, s);
    OccursWhole(s, p);
    var inside := s[p..p + |q|];
    forall k | 0 <= k < |inside| ensures !Dropped(inside[k]) && LowerChar(inside[k]) == q[k] { OccursAtChar(s, p, k); }
    forall k | 0 <= k < |inside| ensures Plain(inside[k]) { PlainAt(inside, q, k); }
    assert AllPlain(s[p..p + |q|]);
  }

  lemma OccursIff(s: string)
    ensures Contains(Lower(s), FlatMap(EmailChar, s)) <==> PlainInside(s)
  {
    if Contains(Lower(s), FlatMap(EmailChar, s)) {
      var p :| OccursAt(Lower(s), FlatMap(EmailChar, s), p);
      OccursPlain(s, p);
    }
    if PlainInside(s) {
      var i, j :| 0 <= i <= j <= |s| && AllDropped(s[..i]) && AllPlain(s[i..j]) && AllDropped(s[j..]);
      PlainOccurs(s, i, j);
    }
  }

  /** An e-mail of up to 120 characters finds its own row if and only if blanks, points and final letters stand nowhere
      but, the first two, at its ends: the query is folded like a name, the e-mail on record only lower-cased. */
  lemma OwnEmailFoundIff(email: string, row: Row, table: seq<Participation>, before: seq<string>)
    requires row.email == Some(email) && Classify(email).intent == Email && |Trim(email)| <= 120
    ensures var f := PredicateSql(Classify(email), |before| + 1);
            Holds(f.sql, row, table, before + f.params) <==> PlainInside(email)
  {
    EmailPredicateExact(Classify(email), before, row, table);
    EmailQueryIs(QueryText(email));
    forall c | IsSpace(c) ensures EmailChar(c) == [] { EmailCharCases(c); }
    TrimShown(email, EmailChar);
    OccursIff(email);
  }

  /** The folded query occurs in the e-mail, lower-cased, in a place that reaches past the part that was searched for.
      */
  ghost predicate OccursBeyond(email: string) {
    exists p :: OccursAt(Lower(email), FlatMap(EmailChar, QueryText(email)), p)
      && p + |FlatMap(EmailChar, QueryText(email))| > QueryEnd(email)
  }

  /** Where the part of a text that is searched for ends. */
  function QueryEnd(input: string): int { |input| - |TrimStart(input)| + |QueryText(input)| }

  lemma {:induction false} QueryPlace(input: string)
    ensures
      var lo := |input| - |TrimStart(input)|;
      && 0 <= lo <= QueryEnd(input) <= |input| && QueryText(input) == input[lo..QueryEnd(input)]
      && forall k :: 0 <= k < lo ==> IsSpace(input[k])
  {
    var started := TrimStart(input);
    TrimStartIs(input);
    TrimEndIs(started);
    var lo := |input| - |started|;
    SliceOfSlice(input, lo, |TrimEnd(started)|);
    PrefixOfSlice(input, lo, lo + |TrimEnd(started)|, |QueryText(input)|);
    LeadingSpaces(input);
  }

  lemma {:induction false} LeadingSpaces(s: string)
    ensures |TrimStart(s)| <= |s| && forall k :: 0 <= k < |s| - |TrimStart(s)| ==> IsSpace(s[k])
  {
    if s != [] && IsSpace(s[0]) {
      LeadingSpaces(s[1..]);
      assert s == [s[0]] + s[1..];
    }
  }

  lemma {:induction false} OccursInSlice(s: string, lo: nat, hi: nat, t: string, p: nat)
    requires lo <= p && p + |t| <= hi <= |s| && OccursAt(s, t, p)
    ensures OccursAt(s[lo..hi], t, p - lo)
  {
    var slice, i := s[lo..hi], p - lo;
    forall k | 0 <= k < |t| ensures slice[i..i + |t|][k] == t[k] {
      assert slice[i + k] == s[p + k] == s[p..p + |t|][k];
    }
    assert slice[i..i + |t|] == t;
  }

  /** The query cannot occur from a leading space on. */
  lemma {:induction false} OccursUnspaced(email: string, q: string, p: nat)
    requires q != [] && !Dropped(q[0]) && OccursAt(Lower(email), q, p)
    ensures p < |email| && !IsSpace(email[p])
  {
    LowerAt(email, p);
    assert Lower(email)[p..p + |q|][0] == q[0];
    if Dropped(email[p]) { LowerKeepsDropped(email[p]); }
  }

  /** An occurrence that does not reach past the query's own place is an occurrence in the query. */
  lemma {:induction false} OccursWithin(email: string, p: nat)
    requires FlatMap(EmailChar, QueryText(email)) != []
    requires OccursAt(Lower(email), FlatMap(EmailChar, QueryText(email)), p)
    requires p + |FlatMap(EmailChar, QueryText(email))| <= QueryEnd(email)
    ensures Contains(Lower(QueryText(email)), FlatMap(EmailChar, QueryText(email)))
  {
    var q, lo, hi := FlatMap(EmailChar, QueryText(email)), |email| - |TrimStart(email)|, QueryEnd(email);
    QueryPlace(email);
    EmailLength(QueryText(email));
    OccursUnspaced(email, q, p);
    LowerSlice(email, lo, hi);
    OccursInSlice(Lower(email), lo, hi, q, p);
  }

  /** An e-mail of any length finds its row if that holds of the part that is searched for. */
  lemma OwnEmailFound(email: string, row: Row, table: seq<Participation>, before: seq<string>)
    requires row.email == Some(email) && Classify(email).intent == Email && PlainInside(QueryText(email))
    ensures var f := PredicateSql(Classify(email), |before| + 1); Holds(f.sql, row, table, before + f.params)
  {
    EmailPredicateExact(Classify(email), before, row, table);
    EmailQueryIs(QueryText(email));
    OccursIff(QueryText(email));
    var lo, hi := QueryIsSlice(email);
    LowerSlice(email, lo, hi);
    ContainsSlice(Lower(email), lo, hi, Classify(email).normalized);
  }

  lemma AtSignStays(s: string)
    requires '@' in s
    ensures FlatMap(EmailChar, s) != []
  {
    var k :| 0 <= k < |s| && s[k] == '@';
    assert !Dropped(s[k]);
    NoneLeft(s);
  }

  /** An e-mail of any length finds its row if and only if the part that is searched for is plain but for its ends, or
      what is left of it occurs once more, further on. */
  lemma {:induction false} OwnEmailFoundExactly(email: string, row: Row, table: seq<Participation>, before: seq<string>)
    requires row.email == Some(email) && Classify(email).intent == Email
    ensures var f := PredicateSql(Classify(email), |before| + 1);
            Holds(f.sql, row, table, before + f.params) <==> PlainInside(QueryText(email)) || OccursBeyond(email)
  {
    EmailPredicateExact(Classify(email), before, row, table);
    EmailQueryIs(QueryText(email));
    AtSignStays(QueryText(email));
    OccursIff(QueryText(email));
    var q := FlatMap(EmailChar, QueryText(email));
    if PlainInside(QueryText(email)) { OwnEmailFound(email, row, table, before); }
    if Contains(Lower(email), q) && !OccursBeyond(email) {
      var p :| OccursAt(Lower(email), q, p);
      OccursWithin(email, p);
    }
  }

  /** There is such an e-mail: with a final letter it is classified as an e-mail and does not find its row. */
  lemma FinalLetterIsMissed(email: string, row: Row, table: seq<Participation>)
    requires email == ['\U{05dd}', '@'] && row.email == Some(email)
    ensures Classify(email).intent == Email
    ensures var f := PredicateSql(Classify(email), 1); !Holds(f.sql, row, table, f.params)
  {
    TrimOfTrimmed(email);
    assert email[1] == '@';
    FinalIsNotInside(email);
    OwnEmailFoundIff(email, row, table, []);
    var f := PredicateSql(Classify(email), 1);
    assert [] + f.params == f.params;
  }

  lemma FinalIsNotInside(s: string)
    requires s != [] && s[0] == '\U{05dd}'
    ensures !PlainInside(s)
  {
    assert !Dropped('\U{05dd}') && !Plain('\U{05dd}') by { assert HEBREW_FINALS[1] == '\U{05dd}'; }
    forall i, j | 0 <= i <= j <= |s| ensures !(AllDropped(s[..i]) && AllPlain(s[i..j]) && AllDropped(s[j..])) {
      assert 0 < i ==> s[..i][0] == s[0];
      assert i == 0 < j ==> s[i..j][0] == s[0];
      assert j == 0 ==> s[j..][0] == s[0];
    }
  }
}
