/** Strings as sequences of characters: the JavaScript string operations the modelled code relies on. */
module Text {

  datatype Option<+T> = None | Some(value: T)

  /** JavaScript white space and line terminators: what trim() removes and `\s` matches. */
  predicate IsSpace(c: char) {
    || '\t' <= c <= '\r' || c == ' ' || c == '\U{00a0}' || c == '\U{1680}'
    || '\U{2000}' <= c <= '\U{200a}' || c == '\U{2028}' || c == '\U{2029}'
    || c == '\U{202f}' || c == '\U{205f}' || c == '\U{3000}' || c == '\U{feff}'
  }

  /** The white space of JavaScript, code by code (sections 12.2 and 12.3 of ECMA-262). */
  lemma SpacesAre(c: char)
    ensures IsSpace(c) <==>
      c as int in {9, 10, 11, 12, 13, 32, 160, 5760, 8192, 8193, 8194, 8195, 8196, 8197, 8198, 8199, 8200, 8201, 8202,
                   8232, 8233, 8239, 8287, 12288, 65279}
  {
  }

  function TrimStart(s: string): string {
    if s != [] && IsSpace(s[0]) then TrimStart(s[1..]) else s
  }

  function TrimEnd(s: string): string {
    if s != [] && IsSpace(s[|s| - 1]) then TrimEnd(s[..|s| - 1]) else s
  }

  /** String.prototype.trim. */
  function Trim(s: string): string {
    TrimEnd(TrimStart(s))
  }

  predicate Trimmed(s: string) {
    s != [] ==> !IsSpace(s[0]) && !IsSpace(s[|s| - 1])
  }

  lemma {:induction false} TrimStartIs(s: string)
    ensures TrimStart(s) != [] ==> !IsSpace(TrimStart(s)[0])
    ensures |TrimStart(s)| <= |s| && TrimStart(s) == s[|s| - |TrimStart(s)|..]
  {
    if s != [] && IsSpace(s[0]) { TrimStartIs(s[1..]); }
  }

  lemma {:induction false} TrimEndIs(s: string)
    ensures TrimEnd(s) != [] ==> !IsSpace(TrimEnd(s)[|TrimEnd(s)| - 1])
    ensures |TrimEnd(s)| <= |s| && TrimEnd(s) == s[..|TrimEnd(s)|]
  {
    if s != [] && IsSpace(s[|s| - 1]) { TrimEndIs(s[..|s| - 1]); }
  }

  lemma TrimIsTrimmed(s: string)
    ensures Trimmed(Trim(s))
  {
    TrimStartIs(s);
    TrimEndIs(TrimStart(s));
  }

  lemma TrimOfTrimmed(s: string)
    requires Trimmed(s)
    ensures Trim(s) == s
  {
  }

  predicate HasText(s: string) { exists k :: 0 <= k < |s| && !IsSpace(s[k]) }

  lemma {:induction false} StartHasText(s: string)
    ensures TrimStart(s) != "" <==> HasText(s)
  {
    if s != "" {
      StartHasText(s[1..]);
      assert s == [s[0]] + s[1..];
      assert forall k :: 0 <= k < |s[1..]| ==> s[1..][k] == s[k + 1];
      if k :| 1 <= k < |s| && !IsSpace(s[k]) { assert !IsSpace(s[1..][k - 1]); }
    }
  }

  lemma {:induction false} EndHasText(s: string)
    requires s != "" && !IsSpace(s[0])
    ensures TrimEnd(s) != ""
  {
    if IsSpace(s[|s| - 1]) { EndHasText(s[..|s| - 1]); }
  }

  /** Trimming leaves something exactly when there is something but white space. */
  lemma TrimIsEmptyIff(s: string)
    ensures Trim(s) != "" <==> HasText(s)
  {
    StartHasText(s);
    TrimStartIs(s);
    if TrimStart(s) != "" { EndHasText(TrimStart(s)); }
  }

  lemma SliceOfSlice(s: string, lo: nat, n: nat)
    requires lo + n <= |s|
    ensures s[lo..][..n] == s[lo..lo + n]
  {
  }

  lemma TrimIsSlice(s: string) returns (lo: nat, hi: nat)
    ensures lo <= hi <= |s| && Trim(s) == s[lo..hi]
  {
    var started := TrimStart(s);
    var trimmed := TrimEnd(started);
    TrimStartIs(s);
    TrimEndIs(started);
    lo, hi := |s| - |started|, |s| - |started| + |trimmed|;
    SliceOfSlice(s, lo, |trimmed|);
  }

  predicate StartsWith(s: string, p: string) {
    |p| <= |s| && s[..|p|] == p
  }

  ghost predicate OccursAt(s: string, t: string, i: int) {
    0 <= i && i + |t| <= |s| && s[i..i + |t|] == t
  }

  /** `t` is a contiguous substring of `s`. */
  ghost predicate Contains(s: string, t: string) {
    exists i :: OccursAt(s, t, i)
  }

  lemma ContainsSlice(s: string, lo: nat, hi: nat, t: string)
    requires lo <= hi <= |s|
    requires Contains(s[lo..hi], t)
    ensures Contains(s, t)
  {
    var i :| OccursAt(s[lo..hi], t, i);
    forall k | 0 <= k < |t| ensures s[lo + i + k] == t[k] {
      assert s[lo..hi][i..i + |t|][k] == s[lo + i + k];
    }
    assert OccursAt(s, t, lo + i);
  }

  /** String.prototype.indexOf: the first occurrence, or -1. */
  function IndexOf(s: string, sep: string): (i: int)
    requires sep != []
    ensures -1 <= i && (i >= 0 ==> OccursAt(s, sep, i))
    ensures forall j :: OccursAt(s, sep, j) ==> 0 <= i <= j
  {
    if |s| < |sep| then -1
    else if s[..|sep|] == sep then 0
    else
      var k := IndexOf(s[1..], sep);
      assert forall j {:trigger OccursAt(s, sep, j)} :: OccursAt(s, sep, j) ==> j > 0 && OccursAt(s[1..], sep, j - 1) by {
        forall j | OccursAt(s, sep, j) ensures j > 0 && OccursAt(s[1..], sep, j - 1) {
          assert j != 0;
          assert s[1..][j - 1..j - 1 + |sep|] == s[j..j + |sep|];
        }
      }
      assert k >= 0 ==> s[1..][k..k + |sep|] == s[k + 1..k + 1 + |sep|];
      if k < 0 then -1 else k + 1
  }

  /** The first position of a character, or -1. */
  function CharIndex(s: string, c: char): (i: int)
    ensures -1 <= i < |s| && (i >= 0 ==> s[i] == c)
    ensures i < 0 <==> c !in s
  {
    if s == [] then -1 else if s[0] == c then 0 else
    var k := CharIndex(s[1..], c);
    if k < 0 then -1 else k + 1
  }

  /** The results of `f` on the characters of `s`, in order. */
  function FlatMap(f: char -> string, s: string): string {
    if s == [] then [] else f(s[0]) + FlatMap(f, s[1..])
  }

  lemma {:induction false} FlatMapConcat(f: char -> string, a: string, b: string)
    ensures FlatMap(f, a + b) == FlatMap(f, a) + FlatMap(f, b)
  {
    if a == [] {
      assert a + b == b;
    } else {
      assert (a + b)[1..] == a[1..] + b;
      FlatMapConcat(f, a[1..], b);
    }
  }

  /** String.prototype.split with a non-empty separator. */
  function Split(s: string, sep: string): (parts: seq<string>)
    requires sep != []
    ensures parts != []
    decreases |s|
  {
    var i := IndexOf(s, sep);
    if i < 0 then [s] else [s[..i]] + Split(s[i + |sep|..], sep)
  }

  /** Array.prototype.join. */
  function Join(parts: seq<string>, sep: string): string {
    if parts == [] then "" else if |parts| == 1 then parts[0] else parts[0] + sep + Join(parts[1..], sep)
  }

  /** Splitting undoes joining when the separator holds a mark at one place only and no part holds it. */
  lemma {:induction false} SplitOfJoin(parts: seq<string>, sep: string, at: nat)
    requires parts != [] && at < |sep|
    requires forall k :: 0 <= k < |sep| && k != at ==> sep[k] != sep[at]
    requires forall k :: 0 <= k < |parts| ==> sep[at] !in parts[k]
    ensures Split(Join(parts, sep), sep) == parts
  {
    var s := Join(parts, sep);
    if |parts| == 1 {
      assert s == parts[0];
      NoMarkNoSeparator(s, sep, at);
    } else {
      var rest := Join(parts[1..], sep);
      assert s == parts[0] + sep + rest;
      FirstSeparator(parts[0], sep, rest, at);
      assert s[..|parts[0]|] == parts[0];
      assert s[|parts[0]| + |sep|..] == rest;
      SplitOfJoin(parts[1..], sep, at);
    }
  }

  lemma OccurrenceHoldsMark(s: string, sep: string, at: nat)
    requires at < |sep|
    ensures forall i {:trigger OccursAt(s, sep, i)} :: OccursAt(s, sep, i) ==> s[i + at] == sep[at]
  {
  }

  lemma NoMarkNoSeparator(s: string, sep: string, at: nat)
    requires at < |sep| && sep[at] !in s
    ensures IndexOf(s, sep) == -1
  {
  }

  lemma FirstSeparator(p: string, sep: string, rest: string, at: nat)
    requires at < |sep| && sep[at] !in p
    requires forall k :: 0 <= k < |sep| && k != at ==> sep[k] != sep[at]
    ensures IndexOf(p + sep + rest, sep) == |p|
  {
    var s := p + sep + rest;
    assert s[|p|..|p| + |sep|] == sep;
    assert OccursAt(s, sep, |p|);
    OccurrenceHoldsMark(s, sep, at);
    assert forall j :: 0 <= j < |p| ==> s[j] == p[j] && s[j] in p;
    assert forall j :: |p| <= j < |p| + |sep| ==> s[j] == sep[j - |p|];
  }
}
