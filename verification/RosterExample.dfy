/** A roster search that misses a buyer, worked out on one table. */
module RosterExample {
  import opened Text
  import opened SqlLike
  import opened BuyerSearch
  import opened SearchWords
  import opened BuyerRoster

  lemma LetterFolds(c: char)
    requires 'a' <= c <= 'z'
    ensures FoldChar(c) == [c] && !IsBlank(c) && !IsSpace(c) && LowerChar(c) == c
  {
  }

  lemma SpaceFolds()
    ensures FoldChar(' ') == " " && IsBlank(' ') && LowerChar(' ') == ' '
  {
    SpaceIsNoMark();
  }

  lemma FoldTwo()
    ensures Folded("a b") == "a b" && Folded("a") == "a"
  {
    LetterFolds('a');
    LetterFolds('b');
    SpaceFolds();
    assert "a b"[1..] == " b" && " b"[1..] == "b" && "b"[1..] == "" && "a"[1..] == "";
    assert Folded("") == "";
    FoldedCons("b");
    FoldedCons(" b");
    FoldedCons("a b");
    FoldedCons("a");
    LowerOne('a');
    LowerOne('b');
    LowerOne(' ');
    assert "b" + "" == "b" && " " + "b" == " b" && "a" + " b" == "a b" && "a" + "" == "a";
  }

  lemma LowerOne(c: char)
    ensures Lower([c]) == [LowerChar(c)]
  {
    assert [c][1..] == "";
  }

  lemma CollapseLetter(c: char, rest: string)
    requires 'a' <= c <= 'z'
    ensures Collapse([c] + rest) == [c] + Collapse(rest) && Collapse([' ', c] + rest) == [' ', c] + Collapse(rest)
  {
    LetterFolds(c);
    SpaceFolds();
    assert ([c] + rest)[1..] == rest && ([' ', c] + rest)[1..] == [c] + rest;
    assert DropBlanks([c] + rest) == [c] + rest;
  }

  lemma CollapseLast(b: char)
    requires 'a' <= b <= 'z'
    ensures Collapse([' ', b]) == [' ', b]
  {
    CollapseLetter(b, []);
    assert [' ', b] + [] == [' ', b];
  }

  lemma CollapseTwo(a: char, b: char, s: string)
    requires 'a' <= a <= 'z' && 'a' <= b <= 'z' && s == [a] + [' ', b]
    ensures Collapse(s) == s
  {
    CollapseLetter(a, [' ', b]);
    CollapseLast(b);
  }

  lemma SplitTwo()
    ensures NonEmpty(Split("a b", " ")) == ["a", "b"]
  {
    SplitOfJoin(["a", "b"], " ", 0);
    assert ["a", "b"][1..] == ["b"] && Join(["b"], " ") == "b";
    assert Join(["a", "b"], " ") == "a" + " " + "b" == "a b";
    assert NonEmpty([]) == [] && ["b"][1..] == [] && NonEmpty(["b"]) == ["b"];
  }

  lemma TokensOfTwo()
    ensures Tokens("a b") == ["a", "b"]
  {
    CollapseTwo('a', 'b', "a b");
    LetterFolds('a');
    LetterFolds('b');
    TrimOfTrimmed("a b");
    FoldTwo();
    assert Normalized("a b") == "a b";
    SplitTwo();
  }

  lemma QueryOfTwo()
    ensures QueryText("a b") == "a b" && TrimStart("a b") == "a b"
  {
    LetterFolds('a');
    LetterFolds('b');
    TrimOfTrimmed("a b");
  }

  lemma NoDigits()
    ensures PhoneDigits("a b") != "" && PhoneDigits("a b")[0] == 'a' && !AllDigits(PhoneDigits("a b"))
  {
    LetterFolds('a');
    assert "a b"[1..] == " b" && IsPhoneCharacter('a');
    assert PhoneDigits("a b") == ['a'] + Keep(" b", IsPhoneCharacter);
  }

  lemma NoCode()
    ensures ReadOrderCode("a b") == None
  {
    QueryOfTwo();
    assert "a b"[0] == 'a';
  }

  lemma TwoWordsPlan()
    ensures Classify("a b").intent == Name && Classify("a b").tokens == ["a", "b"]
  {
    QueryOfTwo();
    TokensOfTwo();
    NoCode();
    NoDigits();
    assert '@' !in "a b" && !IsUuid("a b") && |"a b"| == 3;
    assert IntentOf("a b") == Name;
  }

  lemma WordsOfTwo()
    ensures Contains(SqlNormal("a b"), "a") && Contains(SqlNormal("a b"), "b")
    ensures Contains(SqlNormal("a"), "a") && !Contains(SqlNormal("a"), "b")
  {
    FoldTwo();
    SqlFormFolds("a b");
    SqlFormFolds("a");
    assert OccursAt("a b", "a", 0) && OccursAt("a b", "b", 2) && OccursAt("a", "a", 0);
    forall i ensures !OccursAt("a", "b", i) {
      if 0 <= i && i + 1 <= 1 { assert "a"[i..i + 1][0] == 'a'; }
    }
  }

  const OLDER := Participation("1", "x", Some("a b"), None, None, 1, {})
  const NEWER := Participation("2", "x", Some("a"), None, None, 2, {})

  /** A table: the buyer once joined under the name that is searched for, later under its first word alone, has a row in
      the roster, and is not returned. */
  lemma MissedBuyer()
    ensures HoldsAll(OLDER, Classify("a b").tokens)
    ensures exists agg: Row :: agg.buyerId == "x" && Aggregated(RosterFor(Classify("a b")), [OLDER, NEWER], agg)
    ensures forall agg: Row :: agg.buyerId == "x" ==> !Returned(RosterFor(Classify("a b")), [OLDER, NEWER], agg)
  {
    var plan := Classify("a b");
    TwoWordsPlan();
    WordsOfTwo();
    assert plan.tokens[0] == "a" && plan.tokens[1] == "b";
    assert !NameHolds(NEWER, plan.tokens[1]) && NameHolds(NEWER, plan.tokens[0]);
    assert HoldsAll(OLDER, plan.tokens) && !HoldsAll(NEWER, plan.tokens);
    assert OLDER in [OLDER, NEWER];
    var row := EveryBuyerHasARow(RosterFor(plan), [OLDER, NEWER], "x");
    forall agg: Row | agg.buyerId == "x" ensures !Returned(RosterFor(plan), [OLDER, NEWER], agg) {
      if Aggregated(RosterFor(plan), [OLDER, NEWER], agg) { NewerPartialMatchHides(plan, OLDER, NEWER, agg); }
    }
  }
}
