/** parseRoute, the links the client builds, and what the URL parser does to them on the way. */
module RouteLinks {
  import opened Text
  import opened PercentCode
  import opened Routes

  datatype Route = Home | Found(name: Name, id: Option<string>) | NotFound | BadEncoding

  /** The names for which the route carries an id. */
  predicate TakesId(name: Name) {
    name in {DealRoute, OtpRoute, PaymentRoute, ConfirmationRoute, TrackingRoute, RecoveryRoute, SellerEditRoute,
             SellerDealRoute, AdminDealRoute, AdminParticipantRoute, AdminUserRoute}
  }

  function StripSlashes(path: string): string {
    if path != "" && path[|path| - 1] == '/' then StripSlashes(path[..|path| - 1]) else path
  }

  function Normalized(path: string): string { if StripSlashes(path) == "" then "/" else StripSlashes(path) }

  /** The first entry that matches. */
  function FirstMatch(table: seq<Name>, path: string): Option<Name> {
    if table == [] then None else if Match(path, Pattern(table[0])).Some? then Some(table[0]) else FirstMatch(table[1..], path)
  }

  function RouteFor(name: Name, path: string): Route {
    if !TakesId(name) then Found(name, None)
    else
      var captured := Match(path, Pattern(name));
      if captured.None? || Decode(captured.value).None? then BadEncoding else Found(name, Decode(captured.value))
  }

  predicate IsHome(path: string) { path == "/" || path == "/app" }

  function Parse(table: seq<Name>, path: string): Route {
    var normalized := Normalized(path);
    if IsHome(normalized) then Home
    else
      var name := FirstMatch(table, normalized);
      if name.None? then NotFound else RouteFor(name.value, normalized)
  }

  method ParseRoute(path: string) returns (route: Route)
    ensures route == Parse(TABLE, path)
  {
    var normalized := Normalized(path);
    if IsHome(normalized) { return Home; }
    var k := 0;
    while k < |TABLE|
      invariant 0 <= k <= |TABLE|
      invariant FirstMatch(TABLE, normalized) == FirstMatch(TABLE[k..], normalized)
    {
      if Match(normalized, Pattern(TABLE[k])).Some? { return RouteFor(TABLE[k], normalized); }
      assert TABLE[k..][1..] == TABLE[k + 1..];
      k := k + 1;
    }
    return NotFound;
  }

  // ---------------------------------------------------------------- the order of the table

  lemma {:induction false} FirstMatchIs(table: seq<Name>, path: string)
    ensures FirstMatch(table, path).Some? ==>
      FirstMatch(table, path).value in table && Match(path, Pattern(FirstMatch(table, path).value)).Some?
    ensures FirstMatch(table, path).None? ==> forall name :: name in table ==> Match(path, Pattern(name)).None?
  {
    if table != [] { FirstMatchIs(table[1..], path); }
  }

  lemma FoundEntry(table: seq<Name>, path: string, name: Name)
    requires name in table && Match(path, Pattern(name)).Some?
    ensures FirstMatch(table, path) == Some(name)
  {
    FirstMatchIs(table, path);
    AtMostOneEntry(path, name, FirstMatch(table, path).value);
  }

  /** Any table with the same entries, in any order and with any repetitions, parses every path alike. */
  lemma OrderIsIrrelevant(table: seq<Name>, other: seq<Name>, path: string)
    requires forall name :: name in table <==> name in other
    ensures Parse(table, path) == Parse(other, path)
  {
    var normalized := Normalized(path);
    FirstMatchIs(table, normalized);
    FirstMatchIs(other, normalized);
    if FirstMatch(table, normalized).Some? {
      FoundEntry(other, normalized, FirstMatch(table, normalized).value);
    }
  }

  lemma TrailingSlashIgnored(table: seq<Name>, path: string)
    ensures Parse(table, path + "/") == Parse(table, path)
  {
  }

  // ---------------------------------------------------------------- links

  function Link(name: Name, id: string): string { Render(Pattern(name), Encode(id)) }

  lemma EveryName(name: Name)
    ensures name in TABLE && OneHole(Pattern(name)) && (HasHole(Pattern(name)) <==> TakesId(name)) && Tail(name) != []
  {
    var p := Pattern(name);
    assert forall i :: 1 <= i < |p| ==> p[i] == Tail(name)[i - 1];
    TailHoles(name);
    if HasHole(Tail(name)) {
      var i :| 0 <= i < |Tail(name)| && Tail(name)[i] == Hole;
      assert p[i + 1] == Hole;
    }
    InTable(name);
  }

  lemma TailHoles(name: Name)
    ensures OneHole(Tail(name)) && (HasHole(Tail(name)) <==> TakesId(name)) && Tail(name) != []
  {
    var t := Tail(name);
    if TakesId(name) {
      assert if |t| == 2 then t[1] == Hole else if name in {OtpRoute, PaymentRoute, ConfirmationRoute} then t[1] == Hole else t[2] == Hole;
    }
  }

  lemma InTable(name: Name)
    ensures name in TABLE
  {
  }

  lemma EncodedSegment(id: string)
    requires id != ""
    ensures Segment(Encode(id)) && Encode(id) != ""
  {
    EncodedIsPlain(id);
  }

  lemma {:induction false} RenderEnds(pieces: seq<Piece>, hole: string)
    requires pieces != [] && Segment(hole) && hole != ""
    ensures Render(pieces, hole) != "" && Render(pieces, hole)[|Render(pieces, hole)| - 1] != '/'
  {
    if pieces[0].Fixed? { WordsAreSegments(pieces[0].word); }
    var text := PieceText(pieces[0], hole);
    assert text[|text| - 1] in text;
    if |pieces| > 1 { RenderEnds(pieces[1..], hole); }
  }

  lemma LinkIsNormal(name: Name, hole: string)
    requires Segment(hole) && hole != ""
    ensures Normalized(Render(Pattern(name), hole)) == Render(Pattern(name), hole)
      && !IsHome(Render(Pattern(name), hole))
  {
    EveryName(name);
    RenderEnds(Pattern(name), hole);
    RenderStarts(Tail(name), hole);
    var link := Render(Pattern(name), hole);
    assert Pattern(name)[1..] == Tail(name);
    assert link == "/" + Spelling(App) + Render(Tail(name), hole);
    assert |link| > 4;
  }

  /** For every non-empty id a link parses back to the route it was built for, with that id. */
  lemma LinkParses(name: Name, id: string)
    requires TakesId(name) && id != ""
    ensures Parse(TABLE, Link(name, id)) == Found(name, Some(id))
  {
    EncodedSegment(id);
    EveryName(name);
    LinkIsNormal(name, Encode(id));
    MatchOfRender(Pattern(name), Encode(id));
    FoundEntry(TABLE, Link(name, id), name);
    DecodeOfEncode(id);
  }

  /** The path is the pattern around a text that decodes to the id. */
  ghost predicate Spells(path: string, pieces: seq<Piece>, id: string) {
    exists hole :: Segment(hole) && hole != "" && Decode(hole) == Some(id) && path == Render(pieces, hole)
  }

  lemma CapturedSpells(path: string, pieces: seq<Piece>, id: string)
    requires OneHole(pieces) && HasHole(pieces)
    requires Match(path, pieces).Some? && Decode(Match(path, pieces).value) == Some(id)
    ensures Spells(path, pieces, id)
  {
    RenderOfMatch(path, pieces);
  }

  /** Conversely a path that parses to a route with an id spells that route's pattern with that id. */
  lemma ParsedSpells(path: string, name: Name, id: string)
    requires Parse(TABLE, path) == Found(name, Some(id))
    ensures TakesId(name) && Spells(Normalized(path), Pattern(name), id)
  {
    FirstMatchIs(TABLE, Normalized(path));
    EveryName(name);
    CapturedSpells(Normalized(path), Pattern(name), id);
  }

  // ---------------------------------------------------------------- the URL parser

  /** A dot segment of section 5.2.4 of RFC 3986, its dots plain or percent-encoded. */
  predicate SingleDot(s: string) { Decode(s) == Some(".") }
  predicate DoubleDot(s: string) { Decode(s) == Some("..") }
  predicate DotSegment(s: string) { SingleDot(s) || DoubleDot(s) }

  function Pop(out: seq<string>): seq<string> { if out == [] then [] else out[..|out| - 1] }

  /** remove dot segments: a last dot segment leaves an empty one. */
  function RemoveDots(segments: seq<string>, out: seq<string>): seq<string> {
    if segments == [] then out
    else
      var s, last := segments[0], |segments| == 1;
      RemoveDots(segments[1..],
                 if DoubleDot(s) then Pop(out) + (if last then [""] else [])
                 else if SingleDot(s) then out + (if last then [""] else [])
                 else out + [s])
  }

  function Concat(segments: seq<string>): string {
    if segments == [] then "" else "/" + segments[0] + Concat(segments[1..])
  }

  function Segments(path: string): seq<string> {
    if path == "" then []
    else
      var n := SegmentLength(path[1..]);
      [path[1..1 + n]] + Segments(path[1 + n..])
  }

  /** new URL(path, origin).pathname, for a path of slashes, unreserved characters and percent-encoded bytes. */
  function Pathname(path: string): string { Concat(RemoveDots(Segments(path), [])) }

  function Texts(pieces: seq<Piece>, hole: string): seq<string> {
    seq(|pieces|, i requires 0 <= i < |pieces| => PieceText(pieces[i], hole))
  }

  lemma {:induction false} RenderIsConcat(pieces: seq<Piece>, hole: string)
    ensures Render(pieces, hole) == Concat(Texts(pieces, hole))
  {
    if pieces != [] {
      RenderIsConcat(pieces[1..], hole);
      assert Texts(pieces, hole)[1..] == Texts(pieces[1..], hole);
    }
  }

  lemma ConcatStarts(segments: seq<string>)
    ensures Concat(segments) == "" || Concat(segments)[0] == '/'
  {
  }

  lemma {:induction false} SegmentsOfConcat(segments: seq<string>)
    requires forall i :: 0 <= i < |segments| ==> Segment(segments[i])
    ensures Segments(Concat(segments)) == segments
  {
    if segments != [] {
      var rest := Concat(segments[1..]);
      ConcatStarts(segments[1..]);
      SegmentThen(segments[0], rest);
      SegmentsOfConcat(segments[1..]);
      var path := Concat(segments);
      assert path[1..] == segments[0] + rest;
      assert path[1..1 + |segments[0]|] == segments[0] && path[1 + |segments[0]|..] == rest;
    }
  }

  lemma {:induction false} NoDots(segments: seq<string>, out: seq<string>)
    requires forall i :: 0 <= i < |segments| ==> !DotSegment(segments[i])
    ensures RemoveDots(segments, out) == out + segments
  {
    if segments != [] {
      NoDots(segments[1..], out + [segments[0]]);
      assert out + [segments[0]] + segments[1..] == out + segments;
    }
  }

  lemma {:induction false} DotsAfter(a: seq<string>, b: seq<string>, out: seq<string>)
    requires b != [] && forall i :: 0 <= i < |a| ==> !DotSegment(a[i])
    ensures RemoveDots(a + b, out) == RemoveDots(b, out + a)
  {
    if a == [] {
      assert a + b == b && out + a == out;
    } else {
      assert (a + b)[1..] == a[1..] + b;
      DotsAfter(a[1..], b, out + [a[0]]);
      assert out + [a[0]] + a[1..] == out + a;
    }
  }

  /** One dot segment among others takes itself away, and the one before it when it is double. */
  lemma OneDot(a: seq<string>, dot: string, b: seq<string>)
    requires DotSegment(dot)
    requires (forall i :: 0 <= i < |a| ==> !DotSegment(a[i])) && (forall i :: 0 <= i < |b| ==> !DotSegment(b[i]))
    ensures RemoveDots(a + [dot] + b, []) == (if DoubleDot(dot) then Pop(a) else a) + (if b == [] then [""] else b)
  {
    var kept := if DoubleDot(dot) then Pop(a) else a;
    assert a + [dot] + b == a + ([dot] + b);
    DotsAfter(a, [dot] + b, []);
    assert [] + a == a && ([dot] + b)[1..] == b;
    if b == [] {
      assert RemoveDots([dot] + b, a) == RemoveDots([], kept + [""]);
    } else {
      assert kept + [] == kept;
      assert RemoveDots([dot] + b, a) == RemoveDots(b, kept);
      NoDots(b, kept);
    }
  }

  lemma {:induction false} PlainDecodes(s: string)
    requires '%' !in s
    ensures Decode(s) == Some(s)
  {
    if s != [] {
      PlainDecodes(s[1..]);
      assert s == [s[0]] + s[1..];
    }
  }

  lemma WordsAreNoDots(w: Word)
    ensures !DotSegment(Spelling(w))
  {
    NoPercent(w);
    PlainDecodes(Spelling(w));
    MarkIs(w);
  }

  lemma NoPercent(w: Word)
    ensures '%' !in Spelling(w) && |Spelling(w)| > 2
  {
    match w case _ =>
  }

  lemma EncodedDots(id: string)
    ensures DotSegment(Encode(id)) <==> id == "." || id == ".."
  {
    DecodeOfEncode(id);
  }

  lemma LinkSegments(name: Name, id: string)
    requires id != ""
    ensures Segments(Link(name, id)) == Texts(Pattern(name), Encode(id))
  {
    var texts := Texts(Pattern(name), Encode(id));
    EncodedSegment(id);
    forall i | 0 <= i < |texts| ensures Segment(texts[i]) {
      if Pattern(name)[i].Fixed? { WordsAreSegments(Pattern(name)[i].word); }
    }
    RenderIsConcat(Pattern(name), Encode(id));
    SegmentsOfConcat(texts);
  }

  lemma OrdinaryIdUnchanged(name: Name, id: string)
    requires id != "" && id != "." && id != ".."
    ensures Pathname(Link(name, id)) == Link(name, id)
  {
    var texts := Texts(Pattern(name), Encode(id));
    LinkSegments(name, id);
    EncodedDots(id);
    forall i | 0 <= i < |texts| ensures !DotSegment(texts[i]) {
      if Pattern(name)[i].Fixed? { WordsAreNoDots(Pattern(name)[i].word); }
    }
    NoDots(texts, []);
    assert [] + texts == texts;
    RenderIsConcat(Pattern(name), Encode(id));
  }

  // ---------------------------------------------------------------- counting slashes

  function Slashes(s: string): nat {
    if s == "" then 0 else Slashes(s[1..]) + if s[0] == '/' then 1 else 0
  }

  lemma {:induction false} SlashesConcat(a: string, b: string)
    ensures Slashes(a + b) == Slashes(a) + Slashes(b)
  {
    if a == "" {
      assert a + b == b;
    } else {
      assert (a + b)[1..] == a[1..] + b;
      SlashesConcat(a[1..], b);
    }
  }

  lemma {:induction false} SegmentHasNone(s: string)
    requires Segment(s)
    ensures Slashes(s) == 0
  {
    if s != "" { SegmentHasNone(s[1..]); }
  }

  lemma {:induction false} SlashesOfConcat(segments: seq<string>)
    requires forall i :: 0 <= i < |segments| ==> Segment(segments[i])
    ensures Slashes(Concat(segments)) == |segments|
  {
    if segments != [] {
      SlashesOfConcat(segments[1..]);
      SegmentHasNone(segments[0]);
      SlashesConcat("/" + segments[0], Concat(segments[1..]));
      SlashesConcat("/", segments[0]);
      assert Slashes("/") == 1 by { assert "/"[1..] == ""; }
    }
  }

  lemma {:induction false} StrippedHasFewer(path: string)
    ensures Slashes(StripSlashes(path)) <= Slashes(path)
    ensures path != "" && path[|path| - 1] == '/' ==> Slashes(StripSlashes(path)) < Slashes(path)
  {
    if path != "" && path[|path| - 1] == '/' {
      var front := path[..|path| - 1];
      StrippedHasFewer(front);
      SlashesConcat(front, "/");
      assert path == front + "/";
      assert Slashes("/") == 1 by { assert "/"[1..] == ""; }
    }
  }

  /** Where the group of a pattern is. */
  lemma HoleAt(name: Name) returns (k: nat)
    requires TakesId(name)
    ensures 0 < k < |Pattern(name)| && Pattern(name)[k] == Hole
    ensures forall i :: 0 <= i < |Pattern(name)| && i != k ==> Pattern(name)[i].Fixed?
  {
    EveryName(name);
    var h :| 0 <= h < |Pattern(name)| && Pattern(name)[h] == Hole;
    k := h;
    forall i | 0 <= i < |Pattern(name)| && i != k ensures Pattern(name)[i].Fixed? {
      assert OneHole(Pattern(name));
    }
  }

  predicate Ordinary(segments: seq<string>) {
    forall i :: 0 <= i < |segments| ==> !DotSegment(segments[i]) && Segment(segments[i])
  }

  /** The texts of a pattern, but for its group, are words: segments, and no dots. */
  lemma WordsAround(pieces: seq<Piece>, hole: string, k: nat)
    requires k < |pieces| && forall i :: 0 <= i < |pieces| && i != k ==> pieces[i].Fixed?
    ensures
      var a, b := Texts(pieces, hole)[..k], Texts(pieces, hole)[k + 1..];
      Ordinary(a) && Ordinary(b)
  {
    var texts := Texts(pieces, hole);
    forall i | 0 <= i < |texts| && i != k ensures !DotSegment(texts[i]) && Segment(texts[i]) {
      WordsAreNoDots(pieces[i].word);
      WordsAreSegments(pieces[i].word);
    }
  }

  /** Fewer than `n` segments, or `n` with an empty last one. */
  predicate Shortened(out: seq<string>, n: nat) {
    (forall i :: 0 <= i < |out| ==> Segment(out[i])) && (|out| < n || (|out| == n && n > 0 && out[n - 1] == ""))
  }

  /** What is left of the segments around one dot segment. */
  lemma AroundDot(a: seq<string>, dot: string, b: seq<string>)
    requires DotSegment(dot) && a != []
    requires Ordinary(a) && Ordinary(b)
    ensures Shortened(RemoveDots(a + [dot] + b, []), |a| + 1 + |b|)
  {
    OneDot(a, dot, b);
  }

  lemma {:induction false} DotTexts(texts: seq<string>, k: nat)
    requires 0 < k < |texts| && DotSegment(texts[k]) && Ordinary(texts[..k]) && Ordinary(texts[k + 1..])
    ensures Shortened(RemoveDots(texts, []), |texts|)
  {
    SplitAt(texts, k);
    AroundDot(texts[..k], texts[k], texts[k + 1..]);
  }

  lemma SplitAt(s: seq<string>, k: nat)
    requires k < |s|
    ensures s == s[..k] + [s[k]] + s[k + 1..]
  {
  }

  lemma DotLinkSegments(name: Name, id: string)
    requires TakesId(name) && (id == "." || id == "..")
    ensures Shortened(RemoveDots(Segments(Link(name, id)), []), |Pattern(name)|)
  {
    var k := HoleAt(name);
    LinkSegments(name, id);
    EncodedDots(id);
    WordsAround(Pattern(name), Encode(id), k);
    DotTexts(Texts(Pattern(name), Encode(id)), k);
  }

  lemma {:induction false} ConcatEndsEmpty(segments: seq<string>)
    requires segments != [] && segments[|segments| - 1] == ""
    ensures Concat(segments) != "" && Concat(segments)[|Concat(segments)| - 1] == '/'
  {
    if |segments| > 1 { ConcatEndsEmpty(segments[1..]); }
  }

  /** With a dot for an id, the path that reaches the table has too few segments for the pattern it was built from. */
  lemma DotLinkIsShort(name: Name, id: string)
    requires TakesId(name) && (id == "." || id == "..")
    ensures Slashes(StripSlashes(Pathname(Link(name, id)))) < |Pattern(name)|
  {
    var out := RemoveDots(Segments(Link(name, id)), []);
    DotLinkSegments(name, id);
    SlashesOfConcat(out);
    StrippedHasFewer(Pathname(Link(name, id)));
    if |out| == |Pattern(name)| { ConcatEndsEmpty(out); }
  }

  lemma RenderedSlashes(pieces: seq<Piece>, hole: string)
    requires Segment(hole)
    ensures Slashes(Render(pieces, hole)) == |pieces|
  {
    var texts := Texts(pieces, hole);
    forall i | 0 <= i < |texts| ensures Segment(texts[i]) {
      if pieces[i].Fixed? { WordsAreSegments(pieces[i].word); }
    }
    RenderIsConcat(pieces, hole);
    SlashesOfConcat(texts);
  }

  /** Following a link finds the route and the id it was built for, if and only if the id is not a dot segment: the URL
      parser takes "." and ".." away before the table sees them. */
  lemma NavigateFindsIff(name: Name, id: string)
    requires TakesId(name) && id != ""
    ensures Parse(TABLE, Pathname(Link(name, id))) == Found(name, Some(id)) <==> id != "." && id != ".."
  {
    if id != "." && id != ".." {
      OrdinaryIdUnchanged(name, id);
      LinkParses(name, id);
    } else {
      var path := Pathname(Link(name, id));
      DotLinkIsShort(name, id);
      if Parse(TABLE, path) == Found(name, Some(id)) {
        ParsedSpells(path, name, id);
        SpelledSlashes(Normalized(path), name, id);
        assert false;
      }
    }
  }

  lemma SpelledSlashes(path: string, name: Name, id: string)
    requires Spells(path, Pattern(name), id)
    ensures Slashes(path) == |Pattern(name)| && path != "/"
  {
    var hole :| Segment(hole) && hole != "" && Decode(hole) == Some(id) && path == Render(Pattern(name), hole);
    RenderedSlashes(Pattern(name), hole);
    LinkIsNormal(name, hole);
  }
}
