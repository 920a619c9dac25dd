/**
  The query's normal form and the stored name's normal form are written twice, in two languages. Here they are
  shown to agree on words, so that searching for a displayed name finds it.
*/
module SearchWords {
  import opened Text
  import opened SqlLike
  import opened BuyerSearch

  // ---------------------------------------------------------------- one character

  /** Hebrew points are dropped, the five final letters become the regular ones, and all else stays. */
  lemma FoldIs(c: char)
    ensures 0x0591 <= c as int <= 0x05c7 ==> FoldChar(c) == ""
    ensures c == '\U{05da}' ==> FoldChar(c) == "\U{05db}"
    ensures c == '\U{05dd}' ==> FoldChar(c) == "\U{05de}"
    ensures c == '\U{05df}' ==> FoldChar(c) == "\U{05e0}"
    ensures c == '\U{05e3}' ==> FoldChar(c) == "\U{05e4}"
    ensures c == '\U{05e5}' ==> FoldChar(c) == "\U{05e6}"
    ensures !(0x0591 <= c as int <= 0x05c7) && c as int !in {0x05da, 0x05dd, 0x05df, 0x05e3, 0x05e5} ==> FoldChar(c) == [c]
  {
    if !(0x0591 <= c as int <= 0x05c7) {
      assert c !in HEBREW_MARKS;
      var i := CharIndex(HEBREW_FINALS, c);
      assert c in HEBREW_FINALS <==> c as int in {0x05da, 0x05dd, 0x05df, 0x05e3, 0x05e5};
      if i >= 0 { assert HEBREW_FINALS[i] == c; }
    }
  }

  /** What separates words: white space, and the controls and bidi marks that are made spaces. */
  lemma BlankIs(c: char)
    ensures IsBlank(c) <==>
      || c as int <= 0x20 || c as int in {0x7f, 0xa0, 0x1680, 0x200e, 0x200f, 0x202f, 0x205f, 0x3000, 0xfeff}
      || 0x2000 <= c as int <= 0x200a || 0x2028 <= c as int <= 0x202e
  {
  }

  // ---------------------------------------------------------------- the two normal forms agree

  /** The common meaning of both normal forms, without the treatment of blanks. */
  function Folded(s: string): string {
    Lower(Fold(s))
  }

  lemma {:induction false} LowerConcat(a: string, b: string)
    ensures Lower(a + b) == Lower(a) + Lower(b)
  {
    if a == [] {
      assert a + b == b;
    } else {
      assert (a + b)[1..] == a[1..] + b;
      LowerConcat(a[1..], b);
    }
  }

  lemma FoldedConcat(a: string, b: string)
    ensures Folded(a + b) == Folded(a) + Folded(b)
  {
    FlatMapConcat(FoldChar, a, b);
    LowerConcat(Fold(a), Fold(b));
  }

  lemma FoldedCons(s: string)
    requires s != []
    ensures Folded(s) == Lower(FoldChar(s[0])) + Folded(s[1..])
  {
    LowerConcat(FoldChar(s[0]), Fold(s[1..]));
  }

  lemma FoldCharCases(c: char)
    ensures c in HEBREW_MARKS ==> Lower(FoldChar(c)) == []
    ensures c !in HEBREW_MARKS ==> |Lower(FoldChar(c))| == 1 && (Lower(FoldChar(c)) == " " <==> c == ' ')
  {
    if c !in HEBREW_MARKS {
      var d := FoldChar(c)[0];
      assert FoldChar(c) == [d] && Lower([d]) == [LowerChar(d)] + Lower([d][1..]);
      assert Lower([d]) == [LowerChar(d)];
      assert ' ' !in HEBREW_FINALS && ' ' !in HEBREW_REGULAR;
      assert d == ' ' <==> c == ' ';
    }
  }

  lemma SqlFormFolds(s: string)
    ensures SqlNormal(s) == Folded(s)
  {
    TranslatesToFold(s);
  }

  lemma {:induction false} TranslatesToFold(s: string)
    ensures Translate(Translate(s, HEBREW_MARKS, ""), HEBREW_FINALS, HEBREW_REGULAR) == Fold(s)
  {
    if s != [] {
      TranslatesToFold(s[1..]);
      var stripped := TranslateChar(s[0], HEBREW_MARKS, "");
      var rest := Translate(s[1..], HEBREW_MARKS, "");
      assert Translate(s, HEBREW_MARKS, "") == stripped + rest;
      TranslateConcat(stripped, rest, HEBREW_FINALS, HEBREW_REGULAR);
      CharacterAgrees(s[0]);
      assert Fold(s) == FoldChar(s[0]) + Fold(s[1..]);
    }
  }

  lemma CharacterAgrees(c: char)
    ensures Translate(TranslateChar(c, HEBREW_MARKS, ""), HEBREW_FINALS, HEBREW_REGULAR) == FoldChar(c)
  {
  }

  // ---------------------------------------------------------------- words survive the treatment of blanks

  /** A word that starts the collapsed form starts the plain form. */
  lemma {:induction false} WordPrefix(s: string, w: string)
    requires ' ' !in w && StartsWith(Folded(Collapse(s)), w)
    ensures StartsWith(Folded(s), w)
    decreases |s|
  {
    if s != [] && w != [] {
      var t := Collapse(s);
      FoldedCons(t);
      FoldCharCases(t[0]);
      assert w[0] == Folded(t)[0];
      if IsBlank(s[0]) {
        SpaceIsNoMark();
      } else {
        assert t[1..] == Collapse(s[1..]);
        FoldedCons(s);
        var piece := Lower(FoldChar(s[0]));
        PrefixAfter(piece, Folded(t[1..]), w);
        WordPrefix(s[1..], w[|piece|..]);
        PrefixBefore(piece, Folded(s[1..]), w);
      }
    }
  }

  lemma PrefixAfter(piece: string, rest: string, w: string)
    requires |piece| <= |w| && StartsWith(piece + rest, w)
    ensures w == piece + w[|piece|..] && StartsWith(rest, w[|piece|..])
  {
  }

  lemma PrefixBefore(piece: string, rest: string, w: string)
    requires |piece| <= |w| && w == piece + w[|piece|..] && StartsWith(rest, w[|piece|..])
    ensures StartsWith(piece + rest, w)
  {
  }

  lemma SpaceIsNoMark()
    ensures ' ' !in HEBREW_MARKS
  {
  }

  lemma OccursAfter(piece: string, rest: string, w: string, i: nat)
    requires |piece| <= i && OccursAt(piece + rest, w, i)
    ensures OccursAt(rest, w, i - |piece|)
  {
  }

  /** A word inside the collapsed form is inside the plain form. */
  lemma {:induction false} WordInside(s: string, w: string, i: nat)
    requires ' ' !in w && w != [] && OccursAt(Folded(Collapse(s)), w, i)
    ensures Contains(Folded(s), w)
    decreases |s|
  {
    if i == 0 {
      WordPrefix(s, w);
      assert OccursAt(Folded(s), w, 0);
    } else {
      var rest, j := WordInTail(s, w, i);
      WordInside(rest, w, j);
      SliceFolds(s, |s| - |rest|, |s|, w);
    }
  }

  lemma WordInTail(s: string, w: string, i: nat) returns (rest: string, j: nat)
    requires w != [] && i > 0 && OccursAt(Folded(Collapse(s)), w, i)
    ensures |rest| < |s| && s[|s| - |rest|..|s|] == rest && OccursAt(Folded(Collapse(rest)), w, j)
  {
    var piece;
    rest, piece := CollapseStep(s);
    j := i - |piece|;
    OccursAfter(piece, Folded(Collapse(rest)), w, i);
  }

  /** The collapsed form peels off at most one folded character at a time. */
  lemma CollapseStep(s: string) returns (rest: string, piece: string)
    requires Folded(Collapse(s)) != []
    ensures |rest| < |s| && s[|s| - |rest|..|s|] == rest
    ensures |piece| <= 1 && Folded(Collapse(s)) == piece + Folded(Collapse(rest))
  {
    rest := CollapseTail(s);
    piece := FoldedStep(Collapse(s));
  }

  lemma FoldedStep(t: string) returns (piece: string)
    requires t != []
    ensures |piece| <= 1 && Folded(t) == piece + Folded(t[1..])
  {
    piece := Lower(FoldChar(t[0]));
    FoldedCons(t);
    FoldCharCases(t[0]);
  }

  lemma CollapseTail(s: string) returns (rest: string)
    requires Folded(Collapse(s)) != []
    ensures s != [] && Collapse(s) != [] && |rest| < |s|
    ensures s[|s| - |rest|..|s|] == rest && Collapse(s)[1..] == Collapse(rest)
  {
    rest := if IsBlank(s[0]) then DropBlanks(s[1..]) else s[1..];
  }

  /** What the normal form of a slice contains, the normal form of the whole contains. */
  lemma SliceFolds(s: string, lo: nat, hi: nat, w: string)
    requires lo <= hi <= |s| && Contains(Folded(s[lo..hi]), w)
    ensures Contains(Folded(s), w)
  {
    var a, m, b := Folded(s[..lo]), Folded(s[lo..hi]), Folded(s[hi..]);
    assert s == s[..lo] + s[lo..hi] + s[hi..];
    FoldedConcat(s[..lo] + s[lo..hi], s[hi..]);
    FoldedConcat(s[..lo], s[lo..hi]);
    var whole := a + m + b;
    assert whole[|a|..|a| + |m|] == m;
    ContainsSlice(whole, |a|, |a| + |m|, w);
  }

  lemma SpaceOccurs(s: string)
    ensures forall k :: 0 <= k < |s| ==> (OccursAt(s, " ", k) <==> s[k] == ' ')
  {
  }

  /** Splitting at spaces gives substrings without a space. */
  lemma {:induction false} SplitAtSpaces(s: string)
    ensures forall t :: t in Split(s, " ") ==> Contains(s, t) && ' ' !in t
    decreases |s|
  {
    var i := IndexOf(s, " ");
    SpaceOccurs(s);
    if i < 0 {
      assert OccursAt(s, s, 0);
    } else {
      assert OccursAt(s, s[..i], 0);
      var rest := s[i + 1..];
      SplitAtSpaces(rest);
      forall t | t in Split(rest, " ") ensures Contains(s, t) {
        assert rest == s[i + 1..|s|];
        ContainsSlice(s, i + 1, |s|, t);
      }
    }
  }

  lemma {:induction false} NonEmptyParts(parts: seq<string>)
    ensures forall t :: t in NonEmpty(parts) <==> t in parts && t != ""
  {
    if parts != [] { NonEmptyParts(parts[1..]); }
  }

  lemma WordOf(n: string, t: string)
    requires t in NonEmpty(Split(n, " "))
    ensures t != "" && ' ' !in t && Contains(n, t)
  {
    NonEmptyParts(Split(n, " "));
    SplitAtSpaces(n);
  }

  lemma TrimFolds(s: string, t: string)
    requires Contains(Folded(Trim(s)), t)
    ensures Contains(Folded(s), t)
  {
    var lo, hi := TrimIsSlice(s);
    SliceFolds(s, lo, hi, t);
  }

  /** Every token of a query is a non-empty word and a substring of the plain normal form of the query. */
  lemma TokenIsWord(raw: string, t: string)
    requires t in Tokens(raw)
    ensures t != "" && ' ' !in t && Contains(Folded(raw), t)
  {
    var collapsed := Collapse(raw);
    WordOf(Folded(Trim(collapsed)), t);
    TrimFolds(collapsed, t);
    var i :| OccursAt(Folded(collapsed), t, i);
    WordInside(raw, t, i);
  }

  // ---------------------------------------------------------------- searching for one's own name

  /** A character that leaves something in the normal form. */
  predicate Visible(c: char) { !IsBlank(c) && c !in HEBREW_MARKS }

  ghost predicate HasVisible(s: string) { exists c :: c in s && Visible(c) }

  lemma {:induction false} DroppedAreBlank(s: string)
    ensures forall c :: c in s && !IsBlank(c) ==> c in DropBlanks(s)
    ensures forall c :: c in DropBlanks(s) ==> c in s
  {
    if s != [] && IsBlank(s[0]) { DroppedAreBlank(s[1..]); }
  }

  lemma {:induction false} CollapseKeepsVisible(s: string)
    ensures HasVisible(Collapse(s)) <==> HasVisible(s)
    ensures forall c :: c in Collapse(s) && IsBlank(c) ==> c == ' '
    decreases |s|
  {
    if s != [] {
      assert s == [s[0]] + s[1..];
      if IsBlank(s[0]) {
        var rest := DropBlanks(s[1..]);
        CollapseKeepsVisible(rest);
        DroppedAreBlank(s[1..]);
        assert HasVisible(rest) <==> HasVisible(s);
        assert HasVisible(" " + Collapse(rest)) <==> HasVisible(Collapse(rest));
      } else {
        CollapseKeepsVisible(s[1..]);
        assert HasVisible(s) <==> Visible(s[0]) || HasVisible(s[1..]);
        assert HasVisible([s[0]] + Collapse(s[1..])) <==> Visible(s[0]) || HasVisible(Collapse(s[1..]));
      }
    }
  }

  lemma TrimKeepsVisible(s: string)
    ensures HasVisible(Trim(s)) <==> HasVisible(s)
    ensures forall c :: c in Trim(s) ==> c in s
  {
    TrimStartKeeps(s);
    TrimEndKeeps(TrimStart(s));
  }

  lemma {:induction false} TrimStartKeeps(s: string)
    ensures forall c :: c in TrimStart(s) ==> c in s
    ensures forall c :: c in s && !IsSpace(c) ==> c in TrimStart(s)
  {
    if s != [] && IsSpace(s[0]) { TrimStartKeeps(s[1..]); }
  }

  lemma {:induction false} TrimEndKeeps(s: string)
    ensures forall c :: c in TrimEnd(s) ==> c in s
    ensures forall c :: c in s && !IsSpace(c) ==> c in TrimEnd(s)
  {
    if s != [] && IsSpace(s[|s| - 1]) {
      TrimEndKeeps(s[..|s| - 1]);
      assert s == s[..|s| - 1] + [s[|s| - 1]];
    }
  }

  lemma {:induction false} FoldedVisible(s: string)
    requires forall c :: c in s && IsBlank(c) ==> c == ' '
    ensures (exists c :: c in Folded(s) && c != ' ') <==> HasVisible(s)
  {
    if s != [] {
      FoldedCons(s);
      FoldCharCases(s[0]);
      FoldedVisible(s[1..]);
      var piece := Lower(FoldChar(s[0]));
      assert s[0] in s;
      assert Visible(s[0]) <==> (exists c :: c in piece && c != ' ') by {
        if |piece| == 1 { assert piece[0] in piece; assert piece == " " <==> piece[0] == ' '; }
      }
      assert HasVisible(s) <==> Visible(s[0]) || HasVisible(s[1..]) by { assert s == [s[0]] + s[1..]; }
      assert forall c :: c in Folded(s) <==> c in piece || c in Folded(s[1..]);
    }
  }

  ghost predicate OnlySpaces(s: string) { forall k :: 0 <= k < |s| ==> s[k] == ' ' }

  lemma OnlySpacesAt(s: string, i: nat)
    requires i < |s| && s[i] == ' ' && ' ' !in s[..i]
    ensures OnlySpaces(s) <==> i == 0 && OnlySpaces(s[i + 1..])
  {
    if i > 0 { assert s[..i][0] == s[0]; }
    assert forall k :: i < k < |s| ==> s[k] == s[i + 1..][k - i - 1];
  }

  lemma {:induction false} NoWordsWhenBlank(s: string)
    ensures NonEmpty(Split(s, " ")) == [] <==> OnlySpaces(s)
    decreases |s|
  {
    var i := IndexOf(s, " ");
    SpaceOccurs(s);
    if i < 0 {
      assert Split(s, " ") == [s] && [s][1..] == [];
    } else {
      var rest := s[i + 1..];
      NoWordsWhenBlank(rest);
      OnlySpacesAt(s, i);
      NonEmptyCons(s[..i], Split(rest, " "));
    }
  }

  lemma NonEmptyCons(part: string, parts: seq<string>)
    ensures NonEmpty([part] + parts) == [] <==> part == "" && NonEmpty(parts) == []
  {
  }

  lemma TokensEmptyIff(raw: string)
    ensures Tokens(raw) == [] <==> !HasVisible(raw)
  {
    var trimmed := Trim(Collapse(raw));
    CollapseKeepsVisible(raw);
    TrimKeepsVisible(Collapse(raw));
    FoldedVisible(trimmed);
    NoWordsWhenBlank(Folded(trimmed));
    assert Tokens(raw) == NonEmpty(Split(Folded(trimmed), " "));
    var n := Folded(trimmed);
    if k :| 0 <= k < |n| && n[k] != ' ' { assert n[k] in n; }
  }

  /**
    Searching for a buyer's own displayed name finds the row exactly when the first 120 characters of the trimmed
    name hold a visible character. A name made only of Hebrew points has no token and is never found.
  */
  lemma OwnNameFound(name: string, row: Row, table: seq<Participation>, before: seq<string>)
    requires row.name == Some(name) && Classify(name).intent == Name
    ensures var f := PredicateSql(Classify(name), |before| + 1);
            Holds(f.sql, row, table, before + f.params) <==> HasVisible(QueryText(name))
  {
    var plan := Classify(name);
    NamePredicateExact(plan, before, row, table);
    TokensEmptyIff(plan.raw);
    forall t | t in plan.tokens ensures Contains(SqlNormal(name), t) {
      OwnWordFound(name, t);
    }
  }

  lemma QueryIsSlice(input: string) returns (lo: nat, hi: nat)
    ensures lo <= hi <= |input| && QueryText(input) == input[lo..hi]
  {
    var end;
    lo, end := TrimIsSlice(input);
    hi := lo + |QueryText(input)|;
    PrefixOfSlice(input, lo, end, hi - lo);
  }

  lemma PrefixOfSlice(s: string, lo: nat, hi: nat, n: nat)
    requires lo <= hi <= |s| && n <= hi - lo
    ensures s[lo..hi][..n] == s[lo..lo + n]
  {
  }

  lemma OwnWordFound(name: string, t: string)
    requires t in Tokens(QueryText(name))
    ensures Contains(SqlNormal(name), t)
  {
    TokenIsWord(QueryText(name), t);
    var lo, hi := QueryIsSlice(name);
    SliceFolds(name, lo, hi, t);
    SqlFormFolds(name);
  }

  /** There is such a name: a lone Hebrew point is classified as a name search and never found. */
  lemma LonePointIsNotFound(name: string, row: Row, table: seq<Participation>)
    requires name == [FIRST_MARK as char] && row.name == Some(name)
    ensures Classify(name).intent == Name
    ensures var f := PredicateSql(Classify(name), 1); !Holds(f.sql, row, table, f.params)
  {
    LonePointIsAName(name);
    TokensEmptyIff(QueryText(name));
    assert Classify(name).tokens == [];
  }

  lemma LonePointIsAName(name: string)
    requires name == [FIRST_MARK as char]
    ensures IntentOf(QueryText(name)) == Name && !HasVisible(QueryText(name))
  {
  }
}
