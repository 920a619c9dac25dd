/** Escaping text for HTML: five passes over the whole text that amount to one pass over its characters. */
module HtmlText {
  import opened Text

  /** replaceAll of one character: what becomes of `c`. */
  function Pass(from: char, to: string): char -> string { (c: char) => if c == from then to else [c] }

  function ReplaceAll(s: string, from: char, to: string): string { FlatMap(Pass(from, to), s) }

  function Escape(s: string): string {
    ReplaceAll(ReplaceAll(ReplaceAll(ReplaceAll(ReplaceAll(s, '&', "&amp;"), '<', "&lt;"), '>', "&gt;"), '"', "&quot;"), '\'', "&#39;")
  }

  predicate Special(c: char) { c == '&' || c == '<' || c == '>' || c == '"' || c == '\'' }

  /** The entity of a special character, and any other character as it is. */
  function Entity(c: char): string {
    if c == '&' then "&amp;" else if c == '<' then "&lt;" else if c == '>' then "&gt;"
    else if c == '"' then "&quot;" else if c == '\'' then "&#39;" else [c]
  }

  lemma PassConcat(a: string, b: string, from: char, to: string)
    ensures ReplaceAll(a + b, from, to) == ReplaceAll(a, from, to) + ReplaceAll(b, from, to)
  {
    FlatMapConcat(Pass(from, to), a, b);
  }

  lemma EscapeConcat(a: string, b: string)
    ensures Escape(a + b) == Escape(a) + Escape(b)
  {
    PassConcat(a, b, '&', "&amp;");
    var a1, b1 := ReplaceAll(a, '&', "&amp;"), ReplaceAll(b, '&', "&amp;");
    PassConcat(a1, b1, '<', "&lt;");
    var a2, b2 := ReplaceAll(a1, '<', "&lt;"), ReplaceAll(b1, '<', "&lt;");
    PassConcat(a2, b2, '>', "&gt;");
    var a3, b3 := ReplaceAll(a2, '>', "&gt;"), ReplaceAll(b2, '>', "&gt;");
    PassConcat(a3, b3, '"', "&quot;");
    var a4, b4 := ReplaceAll(a3, '"', "&quot;"), ReplaceAll(b3, '"', "&quot;");
    PassConcat(a4, b4, '\'', "&#39;");
  }

  /** A pass leaves alone what does not hold its character. */
  lemma {:induction false} PassSkips(s: string, from: char, to: string)
    requires from !in s
    ensures ReplaceAll(s, from, to) == s
  {
    if s != "" {
      assert from !in s[1..];
      PassSkips(s[1..], from, to);
      assert [s[0]] + s[1..] == s;
    }
  }

  lemma PassOne(c: char, from: char, to: string)
    ensures ReplaceAll([c], from, to) == if c == from then to else [c]
  {
    var f := Pass(from, to);
    assert [c][0] == c && [c][1..] == "" && FlatMap(f, "") == "";
    assert FlatMap(f, [c]) == f(c) + "";
  }

  function LastFour(s: string): string {
    ReplaceAll(ReplaceAll(ReplaceAll(ReplaceAll(s, '<', "&lt;"), '>', "&gt;"), '"', "&quot;"), '\'', "&#39;")
  }

  function LastThree(s: string): string { ReplaceAll(ReplaceAll(ReplaceAll(s, '>', "&gt;"), '"', "&quot;"), '\'', "&#39;") }

  function LastTwo(s: string): string { ReplaceAll(ReplaceAll(s, '"', "&quot;"), '\'', "&#39;") }

  lemma LastTwoSkip(s: string)
    requires '"' !in s && '\'' !in s
    ensures LastTwo(s) == s
  {
    PassSkips(s, '"', "&quot;");
    PassSkips(s, '\'', "&#39;");
  }

  lemma LastThreeSkip(s: string)
    requires '>' !in s && '"' !in s && '\'' !in s
    ensures LastThree(s) == s
  {
    PassSkips(s, '>', "&gt;");
    LastTwoSkip(s);
  }

  lemma LastFourSkip(s: string)
    requires '<' !in s && '>' !in s && '"' !in s && '\'' !in s
    ensures LastFour(s) == s
  {
    PassSkips(s, '<', "&lt;");
    LastThreeSkip(s);
  }

  /** No pass touches what an earlier one produced: the ampersands go first. */
  lemma EscapeOne(c: char)
    ensures Escape([c]) == Entity(c)
  {
    PassOne(c, '&', "&amp;");
    if !Special(c) {
      LastFourSkip([c]);
    } else if c == '&' {
      LastFourSkip("&amp;");
    } else {
      BracketOrQuote(c);
    }
  }

  lemma BracketOrQuote(c: char)
    requires Special(c) && c != '&'
    ensures LastFour([c]) == Entity(c)
  {
    PassOne(c, '<', "&lt;");
    if c == '<' {
      LastThreeSkip("&lt;");
    } else {
      PassOne(c, '>', "&gt;");
      if c == '>' { LastTwoSkip("&gt;"); } else { Quote(c); }
    }
  }

  lemma Quote(c: char)
    requires c == '"' || c == '\''
    ensures LastTwo([c]) == Entity(c)
  {
    PassOne(c, '"', "&quot;");
    PassOne(c, '\'', "&#39;");
    PassSkips("&quot;", '\'', "&#39;");
  }

  /** The five passes are one: every character is replaced by its own entity, wherever it stands. */
  lemma {:induction false} EscapeIsOnePass(s: string)
    ensures Escape(s) == FlatMap(Entity, s)
  {
    if s != "" {
      EscapeIsOnePass(s[1..]);
      EscapeConcat([s[0]], s[1..]);
      EscapeOne(s[0]);
      assert [s[0]] + s[1..] == s;
    }
  }

  /** What a browser shows for text with these five entities: the entity at the start, or the character itself. */
  function ShownFirst(s: string): (char, nat)
    requires s != ""
    ensures 0 < ShownFirst(s).1 <= |s|
  {
    if StartsWith(s, "&amp;") then ('&', 5)
    else if StartsWith(s, "&lt;") then ('<', 4)
    else if StartsWith(s, "&gt;") then ('>', 4)
    else if StartsWith(s, "&quot;") then ('"', 6)
    else if StartsWith(s, "&#39;") then ('\'', 5)
    else (s[0], 1)
  }

  function Shown(s: string): string {
    if s == "" then "" else [ShownFirst(s).0] + Shown(s[ShownFirst(s).1..])
  }

  lemma ShownEntity(c: char, rest: string)
    ensures Entity(c) != "" && ShownFirst(Entity(c) + rest) == (c, |Entity(c)|)
  {
    var s := Entity(c) + rest;
    assert s[..|Entity(c)|] == Entity(c);
    assert s[0] == if Special(c) then '&' else c;
    if Special(c) { assert s[1] == Entity(c)[1]; }
  }

  /** Escaped text is shown as the text itself, for every text. */
  lemma ShownEscapeIsText(s: string)
    ensures Shown(Escape(s)) == s
  {
    EscapeIsOnePass(s);
    ShownEntities(s);
  }

  lemma {:induction false} ShownEntities(s: string)
    ensures Shown(FlatMap(Entity, s)) == s
  {
    if s != "" {
      var rest := FlatMap(Entity, s[1..]);
      ShownEntity(s[0], rest);
      assert (Entity(s[0]) + rest)[|Entity(s[0])|..] == rest;
      ShownEntities(s[1..]);
      assert [s[0]] + s[1..] == s;
    }
  }

  /** Escaped text neither opens a tag nor closes an attribute, quoted either way. */
  lemma EscapedHasNoMarkup(s: string)
    ensures forall i :: 0 <= i < |Escape(s)| ==> Escape(s)[i] == '&' || !Special(Escape(s)[i])
  {
    EscapeIsOnePass(s);
    EntitiesHaveNoMarkup(s);
  }

  lemma {:induction false} EntitiesHaveNoMarkup(s: string)
    ensures forall i :: 0 <= i < |FlatMap(Entity, s)| ==>
      FlatMap(Entity, s)[i] == '&' || !Special(FlatMap(Entity, s)[i])
  {
    if s != "" { EntitiesHaveNoMarkup(s[1..]); }
  }

  /** With the ampersands replaced last, an escaped bracket would be escaped again. */
  lemma AmpersandsMustGoFirst()
    ensures ReplaceAll(ReplaceAll("<", '<', "&lt;"), '&', "&amp;") != Escape("<")
  {
    PassOne('<', '<', "&lt;");
    EscapeOne('<');
    PassConcat("&", "lt;", '&', "&amp;");
    PassOne('&', '&', "&amp;");
    assert "&lt;" == "&" + "lt;";
    assert (ReplaceAll("&", '&', "&amp;") + ReplaceAll("lt;", '&', "&amp;"))[1] == 'a';
  }
}
