/** SQL text operators: LIKE with ESCAPE '\' (SQL-92 subclause 8.5) and PostgreSQL's translate(). */
module SqlLike {
  import opened Text

  /** `s LIKE p ESCAPE '\'`. A pattern that ends in a bare escape matches nothing. */
  ghost predicate Like(s: string, p: string)
    decreases |p|
  {
    if p == [] then s == []
    else if p[0] == '%' then exists k :: 0 <= k <= |s| && Like(s[k..], p[1..])
    else if p[0] == '_' then s != [] && Like(s[1..], p[1..])
    else if p[0] == '\\' then |p| > 1 && s != [] && s[0] == p[1] && Like(s[1..], p[2..])
    else s != [] && s[0] == p[0] && Like(s[1..], p[1..])
  }

  /** A percent sign stands for any text. */
  lemma {:induction false} LikeAny(s: string, p: string)
    ensures Like(s, ['%'] + p) <==> exists u, v :: s == u + v && Like(v, p)
  {
    assert (['%'] + p)[1..] == p;
    if Like(s, ['%'] + p) {
      var k :| 0 <= k <= |s| && Like(s[k..], p);
      assert s == s[..k] + s[k..];
    }
    if u, v :| s == u + v && Like(v, p) {
      assert s[|u|..] == v;
    }
  }

  /** An underscore stands for any one character; any other sign but the backslash for itself. */
  lemma {:induction false} LikeOne(s: string, c: char, d: char, p: string)
    requires d != '%' && d != '\\'
    ensures Like([c] + s, [d] + p) <==> (d == '_' || c == d) && Like(s, p)
    ensures !Like("", [d] + p)
  {
    assert ([c] + s)[1..] == s && ([d] + p)[1..] == p;
  }

  /** After a backslash every character stands for itself; a backslash at the end matches nothing. */
  lemma {:induction false} LikeEscape(s: string, c: char, d: char, p: string)
    ensures Like([c] + s, ['\\', d] + p) <==> c == d && Like(s, p)
    ensures !Like("", ['\\', d] + p) && !Like(s, ['\\'])
  {
    assert ([c] + s)[1..] == s && (['\\', d] + p)[2..] == p;
  }

  /** Puts a backslash before every LIKE metacharacter, so the text is taken literally. */
  function EscapeLike(t: string): string {
    if t == [] then []
    else if t[0] in "\\%_" then ['\\', t[0]] + EscapeLike(t[1..])
    else [t[0]] + EscapeLike(t[1..])
  }

  /** The pattern that the search binds: anything, the literal text, anything. */
  function SubstringPattern(t: string): string {
    "%" + EscapeLike(t) + "%"
  }

  lemma StartsWithFirst(s: string, t: string)
    requires s != [] && t != []
    ensures StartsWith(s, t) <==> s[0] == t[0] && StartsWith(s[1..], t[1..])
  {
    if |t| <= |s| {
      assert s[..|t|] == [s[0]] + s[1..][..|t| - 1];
      assert t == [t[0]] + t[1..];
    }
  }

  lemma {:induction false} EscapedPrefix(s: string, t: string)
    ensures Like(s, EscapeLike(t) + "%") <==> StartsWith(s, t)
  {
    var p := EscapeLike(t) + "%";
    if t == [] {
      assert p == "%";
      assert s[|s|..] == [] && Like([], []);
      assert Like(s[|s|..], p[1..]);
    } else {
      var n := if t[0] in "\\%_" then 2 else 1;
      assert p[n..] == EscapeLike(t[1..]) + "%";
      if s != [] {
        EscapedPrefix(s[1..], t[1..]);
        StartsWithFirst(s, t);
      }
    }
  }

  /** For every text and every string, the bound pattern matches exactly when the text is a substring. */
  lemma EscapedSubstring(s: string, t: string)
    ensures Like(s, SubstringPattern(t)) <==> Contains(s, t)
  {
    var p := SubstringPattern(t);
    assert p[1..] == EscapeLike(t) + "%";
    forall k | 0 <= k <= |s|
      ensures Like(s[k..], p[1..]) <==> OccursAt(s, t, k)
    {
      EscapedPrefix(s[k..], t);
      if k + |t| <= |s| {
        assert s[k..][..|t|] == s[k..k + |t|];
      }
    }
    if Contains(s, t) {
      var k :| OccursAt(s, t, k);
      assert Like(s[k..], p[1..]);
    }
  }

  /** Without the escaping the metacharacters would match more than themselves. */
  lemma UnescapedMatchesTooMuch()
    ensures Like("ab", "%" + "_b" + "%") && !Contains("ab", "_b")
  {
    var p := "%_b%";
    assert p == "%" + "_b" + "%";
    assert Like([], p[4..]);
    assert Like("ab"[2..], p[3..]) by {
      assert "ab"[2..] == [] && p[3..] == "%" && ""[0..] == "";
      assert p[3..][1..] == p[4..];
    }
    assert Like("ab"[1..], p[2..]) by { assert "ab"[1..][1..] == "ab"[2..] && p[2..][1..] == p[3..]; }
    assert Like("ab"[0..], p[1..]) by { assert "ab"[0..][1..] == "ab"[1..] && p[1..][1..] == p[2..]; }
    assert "ab"[0..2][0] == 'a' && "_b"[0] == '_';
    assert forall i :: OccursAt("ab", "_b", i) ==> i == 0;
  }

  /** The characters that `translate(_, from, to)` puts in place of `c`. */
  function TranslateChar(c: char, from: string, to: string): string {
    var i := CharIndex(from, c);
    if i < 0 then [c] else if i < |to| then [to[i]] else []
  }

  function Translate(s: string, from: string, to: string): string {
    if s == [] then [] else TranslateChar(s[0], from, to) + Translate(s[1..], from, to)
  }

  lemma {:induction false} TranslateConcat(a: string, b: string, from: string, to: string)
    ensures Translate(a + b, from, to) == Translate(a, from, to) + Translate(b, from, to)
  {
    if a == [] {
      assert a + b == b;
    } else {
      assert (a + b)[1..] == a[1..] + b;
      TranslateConcat(a[1..], b, from, to);
    }
  }

  /** lower(), character by character. */
  function LowerChar(c: char): char {
    if 'A' <= c <= 'Z' then c + ' ' else c
  }

  function Lower(s: string): (r: string)
    ensures |r| == |s|
  {
    if s == [] then [] else [LowerChar(s[0])] + Lower(s[1..])
  }
}
