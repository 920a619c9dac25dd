/** The label of a pickup point: written by the seller's form, parsed back when the draft is edited. */
module PickupLabel {
  import opened Text

  const DOT := '\U{00b7}'
  const SEPARATOR := [' ', '\U{00b7}', ' ']
  const INSTRUCTIONS := "\U{05d4}\U{05d5}\U{05e8}\U{05d0}\U{05d5}\U{05ea}: "
  const LOCATION := "\U{05e7}\U{05d9}\U{05e9}\U{05d5}\U{05e8} \U{05de}\U{05d9}\U{05e7}\U{05d5}\U{05dd}: "

  /** The fields as the form reads them: trimmed. */
  datatype Form = Form(caption: string, pointName: string, address: string, city: string, instructions: string, url: string)

  datatype Point = Point(title: string, address: string, city: string, instructions: string, url: string)

  // ---------------------------------------------------------------- lists of texts

  function NonEmpty(parts: seq<string>): seq<string> {
    if parts == [] then [] else (if parts[0] != "" then [parts[0]] else []) + NonEmpty(parts[1..])
  }

  function Trims(parts: seq<string>): seq<string> {
    if parts == [] then [] else [Trim(parts[0])] + Trims(parts[1..])
  }

  /** split(","), character by character. */
  function Items(s: string): (items: seq<string>)
    ensures items != []
  {
    if s == "" then [""]
    else if s[0] == ',' then [""] + Items(s[1..])
    else Glue(s[0], Items(s[1..]))
  }

  /** A character put before the first item. */
  function Glue(c: char, items: seq<string>): (r: seq<string>)
    requires items != []
    ensures r != []
  {
    [[c] + items[0]] + items[1..]
  }

  // ---------------------------------------------------------------- writing

  function Title(f: Form): string { if f.caption != "" then f.caption else f.pointName }

  function PlacePart(f: Form): string { Join(NonEmpty([f.address, f.city]), ", ") }

  function Parts(f: Form): seq<string> {
    (if Title(f) != "" then [Title(f)] else [])
    + (if f.address != "" || f.city != "" then [PlacePart(f)] else [])
    + (if f.instructions != "" then [INSTRUCTIONS + f.instructions] else [])
    + (if f.url != "" then [LOCATION + f.url] else [])
  }

  function Build(f: Form): string { Join(NonEmpty(Parts(f)), SEPARATOR) }

  // ---------------------------------------------------------------- parsing

  /** One round of the loop over the parts after the title. */
  function Read(p: Point, part: string): Point {
    if StartsWith(part, INSTRUCTIONS) then p.(instructions := Trim(part[|INSTRUCTIONS|..]))
    else if StartsWith(part, LOCATION) then p.(url := Trim(part[|LOCATION|..]))
    else if p.address == "" && p.city == "" then
      var items := Trims(Items(part));
      if items == [] then p else p.(address := items[0], city := Join(items[1..], ", "))
    else p
  }

  function ReadAll(p: Point, parts: seq<string>): Point {
    if parts == [] then p else Read(ReadAll(p, parts[..|parts| - 1]), parts[|parts| - 1])
  }

  function Pieces(text: string): seq<string> { NonEmpty(Trims(Split(text, SEPARATOR))) }

  function Parse(text: string): Point {
    var parts := Pieces(text);
    if parts == [] then Point("", "", "", "", "") else ReadAll(Point(parts[0], "", "", "", ""), parts[1..])
  }

  method ParseDistributionPointLabel(text: string) returns (point: Point)
    ensures point == Parse(text)
  {
    var parts := Pieces(text);
    var title := if parts == [] then "" else parts[0];
    if parts != [] { parts := parts[1..]; }
    var address, city, instructions, url := "", "", "", "";
    var k := 0;
    while k < |parts|
      invariant 0 <= k <= |parts|
      invariant Point(title, address, city, instructions, url) == ReadAll(Point(title, "", "", "", ""), parts[..k])
    {
      var part := parts[k];
      assert parts[..k + 1][..k] == parts[..k];
      if StartsWith(part, INSTRUCTIONS) {
        instructions := Trim(part[|INSTRUCTIONS|..]);
      } else if StartsWith(part, LOCATION) {
        url := Trim(part[|LOCATION|..]);
      } else if address == "" && city == "" {
        var items := Trims(Items(part));
        if items != [] { address, city := items[0], Join(items[1..], ", "); }
      }
      k := k + 1;
    }
    assert parts[..|parts|] == parts;
    return Point(title, address, city, instructions, url);
  }

  // ---------------------------------------------------------------- trimming and items

  lemma {:induction false} TrimStartSnoc(s: string, c: char)
    requires IsSpace(c)
    ensures TrimStart(s + [c]) == if TrimStart(s) == "" then "" else TrimStart(s) + [c]
  {
    if s == "" {
      assert [c][1..] == "";
      assert s + [c] == [c];
    } else {
      assert (s + [c])[1..] == s[1..] + [c];
      if IsSpace(s[0]) { TrimStartSnoc(s[1..], c); }
    }
  }

  lemma TrimTail(s: string, c: char)
    requires IsSpace(c)
    ensures Trim(s + [c]) == Trim(s)
  {
    TrimStartSnoc(s, c);
    var t := TrimStart(s);
    if t != "" { assert (t + [c])[..|t|] == t; }
  }

  function WithLast(items: seq<string>, c: char): seq<string>
    requires items != []
  {
    items[..|items| - 1] + [items[|items| - 1] + [c]]
  }

  lemma GlueWithLast(x: char, items: seq<string>, c: char)
    requires items != []
    ensures WithLast(Glue(x, items), c) == Glue(x, WithLast(items, c))
  {
    if |items| == 1 {
      assert [x] + (items[0] + [c]) == [x] + items[0] + [c];
    }
  }

  lemma ItemsOfOne(c: char)
    requires c != ','
    ensures Items([c]) == [[c]]
  {
    assert [c][1..] == "" && [c] + "" == [c];
    assert Glue(c, [""]) == [[c]];
  }

  lemma {:induction false} ItemsSnoc(s: string, c: char)
    requires c != ','
    ensures Items(s + [c]) == WithLast(Items(s), c)
  {
    if s == "" {
      assert s + [c] == [c] && "" + [c] == [c];
      ItemsOfOne(c);
    } else {
      assert (s + [c])[1..] == s[1..] + [c];
      ItemsSnoc(s[1..], c);
      if s[0] == ',' {
        assert WithLast([""] + Items(s[1..]), c) == [""] + WithLast(Items(s[1..]), c);
      } else {
        GlueWithLast(s[0], Items(s[1..]), c);
      }
    }
  }

  lemma {:induction false} TrimsConcat(a: seq<string>, b: seq<string>)
    ensures Trims(a + b) == Trims(a) + Trims(b)
  {
    if a == [] {
      assert a + b == b;
    } else {
      assert (a + b)[1..] == a[1..] + b;
      TrimsConcat(a[1..], b);
    }
  }

  lemma TrimsOne(s: string)
    ensures Trims([s]) == [Trim(s)]
  {
  }

  lemma SpaceBefore(c: char, s: string)
    requires IsSpace(c)
    ensures Trims(Items([c] + s)) == Trims(Items(s))
  {
  }

  lemma SpaceAfter(s: string, c: char)
    requires IsSpace(c)
    ensures Trims(Items(s + [c])) == Trims(Items(s))
  {
    var items := Items(s);
    var front, last := items[..|items| - 1], items[|items| - 1];
    assert c != ',';
    ItemsSnoc(s, c);
    TrimTail(last, c);
    TrimsConcat(front, [last + [c]]);
    TrimsConcat(front, [last]);
    TrimsOne(last + [c]);
    TrimsOne(last);
    assert front + [last] == items;
  }

  lemma {:induction false} TrimStartKeepsItems(s: string)
    ensures Trims(Items(TrimStart(s))) == Trims(Items(s))
  {
    if s != "" && IsSpace(s[0]) {
      TrimStartKeepsItems(s[1..]);
      SpaceBefore(s[0], s[1..]);
      assert [s[0]] + s[1..] == s;
    }
  }

  lemma {:induction false} TrimEndKeepsItems(s: string)
    ensures Trims(Items(TrimEnd(s))) == Trims(Items(s))
  {
    if s != "" && IsSpace(s[|s| - 1]) {
      var front := s[..|s| - 1];
      TrimEndKeepsItems(front);
      SpaceAfter(front, s[|s| - 1]);
      assert front + [s[|s| - 1]] == s;
    }
  }

  lemma TrimKeepsItems(s: string)
    ensures Trims(Items(Trim(s))) == Trims(Items(s))
  {
    TrimStartKeepsItems(s);
    TrimEndKeepsItems(TrimStart(s));
  }

  lemma {:induction false} ItemsOfPlain(s: string)
    requires ',' !in s
    ensures Items(s) == [s]
  {
    if s != "" {
      assert ',' !in s[1..];
      ItemsOfPlain(s[1..]);
      assert [s[0]] + s[1..] == s;
    }
  }

  lemma {:induction false} ItemsConcat(a: string, b: string)
    requires ',' !in a
    ensures Items(a + [','] + b) == [a] + Items(b)
  {
    if a == "" {
      assert a + [','] + b == [','] + b;
      assert ([','] + b)[1..] == b;
    } else {
      assert ',' !in a[1..];
      assert (a + [','] + b)[1..] == a[1..] + [','] + b;
      ItemsConcat(a[1..], b);
      assert [a[0]] + a[1..] == a;
    }
  }

  lemma CommaOccurs(s: string, k: nat)
    requires k < |s|
    ensures OccursAt(s, ",", k) <==> s[k] == ','
  {
  }

  /** Splitting at commas character by character is String.prototype.split. */
  lemma {:induction false} ItemsAreSplit(s: string)
    ensures Items(s) == Split(s, ",")
    decreases |s|
  {
    var i := IndexOf(s, ",");
    if i < 0 {
      assert ',' !in s by {
        forall k | 0 <= k < |s| ensures s[k] != ',' {
          CommaOccurs(s, k);
        }
      }
      ItemsOfPlain(s);
    } else {
      var a, b := s[..i], s[i + 1..];
      assert s[i..i + 1][0] == ',';
      forall k | 0 <= k < i ensures a[k] != ',' {
        CommaOccurs(s, k);
      }
      assert s == a + [','] + b;
      ItemsConcat(a, b);
      ItemsAreSplit(b);
    }
  }

  predicate CommaFree(items: seq<string>) { forall i :: 0 <= i < |items| ==> ',' !in items[i] }

  lemma {:induction false} ItemsAreCommaFree(s: string)
    ensures CommaFree(Items(s))
  {
    if s != "" { ItemsAreCommaFree(s[1..]); }
  }

  lemma TrimHasNoNew(s: string, c: char)
    requires c !in s
    ensures c !in Trim(s)
  {
    var lo, hi := TrimIsSlice(s);
  }

  /** Trimmed items without a comma. */
  predicate Clean(items: seq<string>) { forall i :: 0 <= i < |items| ==> ',' !in items[i] && Trimmed(items[i]) }

  lemma {:induction false} TrimsAreClean(items: seq<string>)
    requires CommaFree(items)
    ensures Clean(Trims(items)) && |Trims(items)| == |items|
  {
    if items != [] {
      assert CommaFree(items[1..]);
      TrimsAreClean(items[1..]);
      TrimHasNoNew(items[0], ',');
      TrimIsTrimmed(items[0]);
    }
  }

  /** Joining with ", " and splitting at commas gives the items back, up to white space. */
  lemma {:induction false} ItemsOfJoin(items: seq<string>)
    requires items != [] && Clean(items)
    ensures Trims(Items(Join(items, ", "))) == items
  {
    TrimOfTrimmed(items[0]);
    if |items| == 1 {
      ItemsOfPlain(items[0]);
      TrimsOne(items[0]);
    } else {
      var rest := Join(items[1..], ", ");
      assert Clean(items[1..]);
      ItemsOfJoin(items[1..]);
      assert Join(items, ", ") == items[0] + [','] + ([' '] + rest);
      ItemsConcat(items[0], [' '] + rest);
      SpaceBefore(' ', rest);
      TrimsConcat([items[0]], Items([' '] + rest));
      TrimsOne(items[0]);
      assert [items[0]] + items[1..] == items;
    }
  }

  // ---------------------------------------------------------------- the city

  /** The comma spacing the parser leaves. */
  function SpacedCity(city: string): string { Join(Trims(Items(city)), ", ") }

  /** What the form then reads. */
  function NormalCity(city: string): string { Trim(SpacedCity(city)) }

  lemma NormalCityStable(city: string)
    ensures NormalCity(NormalCity(city)) == NormalCity(city)
  {
    var items := Trims(Items(city));
    ItemsAreCommaFree(city);
    TrimsAreClean(Items(city));
    ItemsOfJoin(items);
    TrimKeepsItems(SpacedCity(city));
  }

  lemma PlaceItems(address: string, city: string)
    requires ',' !in address && Trimmed(address)
    ensures Trims(Items(address + ", " + city)) == [address] + Trims(Items(city))
  {
    assert address + ", " + city == address + [','] + ([' '] + city);
    ItemsConcat(address, [' '] + city);
    TrimsConcat([address], Items([' '] + city));
    TrimsOne(address);
    TrimOfTrimmed(address);
    SpaceBefore(' ', city);
  }

  // ---------------------------------------------------------------- parsing what was written

  /** What the form's validation accepts, with every field trimmed and free of the separator's dot. */
  predicate Valid(f: Form) {
    && f.pointName != "" && f.address != "" && f.city != ""
    && Trimmed(f.caption) && Trimmed(f.pointName) && Trimmed(f.address) && Trimmed(f.city) && Trimmed(f.instructions)
        && Trimmed(f.url)
    && DOT !in f.caption && DOT !in f.pointName && DOT !in f.address && DOT !in f.city && DOT !in f.instructions
        && DOT !in f.url
  }

  predicate Reserved(s: string) { StartsWith(s, INSTRUCTIONS) || StartsWith(s, LOCATION) }

  /** The address can be told from the city, and from the other parts. */
  predicate PlainAddress(f: Form) { ',' !in f.address && !Reserved(f.address) }

  lemma PrefixFacts()
    ensures INSTRUCTIONS != "" && !IsSpace(INSTRUCTIONS[0]) && ',' !in INSTRUCTIONS && DOT !in INSTRUCTIONS
    ensures LOCATION != "" && !IsSpace(LOCATION[0]) && ',' !in LOCATION && DOT !in LOCATION
    ensures INSTRUCTIONS[0] != LOCATION[0]
  {
  }

  predicate Solid(part: string) { part != "" && Trimmed(part) && DOT !in part }

  predicate AllSolid(parts: seq<string>) { forall i :: 0 <= i < |parts| ==> Solid(parts[i]) }

  lemma {:induction false} SolidStays(parts: seq<string>)
    requires AllSolid(parts)
    ensures NonEmpty(parts) == parts && Trims(parts) == parts
  {
    if parts != [] {
      TrimOfTrimmed(parts[0]);
      assert AllSolid(parts[1..]);
      SolidStays(parts[1..]);
      assert [parts[0]] + parts[1..] == parts;
    }
  }

  /** Solid parts survive being joined, split, trimmed and filtered. */
  lemma PiecesOfJoin(parts: seq<string>)
    requires AllSolid(parts) && parts != []
    ensures Pieces(Join(NonEmpty(parts), SEPARATOR)) == parts
  {
    SolidStays(parts);
    assert SEPARATOR[1] == DOT;
    SplitOfJoin(parts, SEPARATOR, 1);
  }

  lemma PlaceIs(f: Form)
    requires Valid(f)
    ensures PlacePart(f) == f.address + ", " + f.city
  {
    assert [f.address, f.city][1..] == [f.city] && [f.city][1..] == [];
    assert NonEmpty([]) == [] && NonEmpty([f.city]) == [f.city];
    assert Join([f.city], ", ") == f.city;
    assert NonEmpty([f.address, f.city]) == [f.address, f.city];
  }

  lemma SolidPrefixed(prefix: string, s: string)
    requires prefix != "" && !IsSpace(prefix[0]) && DOT !in prefix && Solid(s)
    ensures Solid(prefix + s)
  {
  }

  lemma SolidPlace(f: Form)
    requires Valid(f)
    ensures Solid(f.address + ", " + f.city)
  {
  }

  /** The parts after the title. */
  function Rest(f: Form): seq<string> {
    [f.address + ", " + f.city]
    + (if f.instructions != "" then [INSTRUCTIONS + f.instructions] else [])
    + (if f.url != "" then [LOCATION + f.url] else [])
  }

  lemma PartsAre(f: Form)
    requires Valid(f)
    ensures Parts(f) == [Title(f)] + Rest(f) && AllSolid(Parts(f))
  {
    PlaceIs(f);
    PrefixFacts();
    SolidPlace(f);
    if f.instructions != "" { SolidPrefixed(INSTRUCTIONS, f.instructions); }
    if f.url != "" { SolidPrefixed(LOCATION, f.url); }
    assert Solid(Title(f));
  }

  lemma ParseIs(f: Form)
    requires Valid(f)
    ensures Parse(Build(f)) == ReadAll(Point(Title(f), "", "", "", ""), Rest(f))
  {
    PartsAre(f);
    PiecesOfJoin(Parts(f));
    assert Parts(f)[1..] == Rest(f);
  }

  lemma ReadInstructions(p: Point, instructions: string)
    requires Trimmed(instructions)
    ensures Read(p, INSTRUCTIONS + instructions) == p.(instructions := instructions)
  {
  }

  lemma ReadLocation(p: Point, url: string)
    requires Trimmed(url)
    ensures Read(p, LOCATION + url) == p.(url := url)
  {
    var part := LOCATION + url;
    PrefixFacts();
    assert part[0] == LOCATION[0];
    assert !StartsWith(part, INSTRUCTIONS) by { assert part[..|INSTRUCTIONS|][0] == part[0]; }
    assert part[..|LOCATION|] == LOCATION && part[|LOCATION|..] == url;
    TrimOfTrimmed(url);
  }

  /** A comma cannot complete a reserved prefix: the place is read as one exactly when its address is reserved. */
  lemma PrefixOfPlace(prefix: string, address: string, city: string)
    requires ',' !in prefix
    ensures StartsWith(address + ", " + city, prefix) <==> StartsWith(address, prefix)
  {
    var place := address + ", " + city;
    if |prefix| <= |address| {
      assert place[..|prefix|] == address[..|prefix|];
    } else {
      assert prefix[|address|] in prefix;
      assert place[|address|] == ',';
      assert |prefix| <= |place| ==> place[..|prefix|][|address|] == place[|address|];
    }
  }

  lemma ReadPlace(p: Point, f: Form)
    requires Valid(f) && p.address == "" && p.city == "" && !Reserved(f.address)
    ensures
      var items := Trims(Items(f.address + ", " + f.city));
      items != [] && Read(p, f.address + ", " + f.city) == p.(address := items[0], city := Join(items[1..], ", "))
  {
    PrefixFacts();
    PrefixOfPlace(INSTRUCTIONS, f.address, f.city);
    PrefixOfPlace(LOCATION, f.address, f.city);
  }

  lemma ReadOnly(p: Point, part: string)
    ensures ReadAll(p, [part]) == Read(p, part)
  {
  }

  lemma {:induction false} ReadTwo(p: Point, first: string, rest: seq<string>)
    ensures ReadAll(p, [first] + rest) == ReadAll(Read(p, first), rest)
  {
    if rest == [] {
      assert [first] + rest == [first];
      ReadOnly(p, first);
    } else {
      var front := rest[..|rest| - 1];
      var all := [first] + rest;
      assert all[..|all| - 1] == [first] + front && all[|all| - 1] == rest[|rest| - 1];
      ReadTwo(p, first, front);
      assert ReadAll(p, all) == Read(ReadAll(p, [first] + front), rest[|rest| - 1]);
    }
  }

  function Extras(f: Form): seq<string> {
    (if f.instructions != "" then [INSTRUCTIONS + f.instructions] else []) + (if f.url != "" then [LOCATION + f.url] else [])
  }

  lemma ReadExtras(p: Point, f: Form)
    requires Valid(f) && p.instructions == "" && p.url == ""
    ensures ReadAll(p, Extras(f)) == p.(instructions := f.instructions, url := f.url)
  {
    ReadInstructions(p, f.instructions);
    var q := if f.instructions != "" then Read(p, INSTRUCTIONS + f.instructions) else p;
    ReadLocation(q, f.url);
    if f.instructions != "" && f.url != "" {
      ReadTwo(p, INSTRUCTIONS + f.instructions, [LOCATION + f.url]);
      ReadOnly(q, LOCATION + f.url);
    } else if f.instructions != "" {
      assert Extras(f) == [INSTRUCTIONS + f.instructions];
      ReadOnly(p, INSTRUCTIONS + f.instructions);
    } else if f.url != "" {
      assert Extras(f) == [LOCATION + f.url];
      ReadOnly(p, LOCATION + f.url);
    }
  }

  lemma ReadRest(f: Form)
    requires Valid(f)
    ensures
      var start := Point(Title(f), "", "", "", "");
      ReadAll(start, Rest(f)) == ReadAll(Read(start, f.address + ", " + f.city), Extras(f))
  {
    assert Rest(f) == [f.address + ", " + f.city] + Extras(f);
    ReadTwo(Point(Title(f), "", "", "", ""), f.address + ", " + f.city, Extras(f));
  }

  /** With no comma and no reserved prefix in the address, parsing recovers every field; the city with the spacing of
      its commas made regular. */
  lemma ParseOfBuild(f: Form)
    requires Valid(f) && PlainAddress(f)
    ensures Parse(Build(f)) == Point(Title(f), f.address, SpacedCity(f.city), f.instructions, f.url)
  {
    var start := Point(Title(f), "", "", "", "");
    ParseIs(f);
    ReadRest(f);
    ReadPlace(start, f);
    PlaceItems(f.address, f.city);
    ReadExtras(start.(address := f.address, city := SpacedCity(f.city)), f);
  }

  /** The address comes back if and only if it is plain: a comma ends it early, and a reserved prefix hides it. */
  lemma AddressRecoveredIff(f: Form)
    requires Valid(f)
    ensures Parse(Build(f)).address == f.address <==> PlainAddress(f)
  {
    if PlainAddress(f) {
      ParseOfBuild(f);
    } else if Reserved(f.address) {
      HiddenAddress(f);
    } else {
      CutAddress(f);
    }
  }

  lemma ExtrasKeepAddress(p: Point, f: Form)
    requires Valid(f)
    ensures ReadAll(p, Extras(f)).address == p.address
  {
    var parts := Extras(f);
    ExtrasReserved(f);
    ReservedKeepAddress(p, parts);
  }

  lemma ExtrasReserved(f: Form)
    ensures forall i :: 0 <= i < |Extras(f)| ==> Reserved(Extras(f)[i])
  {
  }

  lemma {:induction false} ReservedKeepAddress(p: Point, parts: seq<string>)
    requires forall i :: 0 <= i < |parts| ==> Reserved(parts[i])
    ensures ReadAll(p, parts).address == p.address
  {
    if parts != [] {
      var front := parts[..|parts| - 1];
      assert forall i :: 0 <= i < |front| ==> front[i] == parts[i];
      ReservedKeepAddress(p, front);
      assert Reserved(parts[|parts| - 1]);
    }
  }

  lemma HiddenAddress(f: Form)
    requires Valid(f) && Reserved(f.address)
    ensures Parse(Build(f)).address == ""
  {
    var start := Point(Title(f), "", "", "", "");
    PrefixFacts();
    PrefixOfPlace(INSTRUCTIONS, f.address, f.city);
    PrefixOfPlace(LOCATION, f.address, f.city);
    ParseIs(f);
    ReadRest(f);
    ExtrasKeepAddress(Read(start, f.address + ", " + f.city), f);
  }

  lemma CutAddress(f: Form)
    requires Valid(f) && ',' in f.address && !Reserved(f.address)
    ensures ',' !in Parse(Build(f)).address
  {
    var start := Point(Title(f), "", "", "", "");
    var place := f.address + ", " + f.city;
    ParseIs(f);
    ReadRest(f);
    ReadPlace(start, f);
    ItemsAreCommaFree(place);
    TrimsAreClean(Items(place));
    ExtrasKeepAddress(Read(start, place), f);
  }

  // ---------------------------------------------------------------- the label of any form

  /** `more`, if there is any, after `text`, if there is any. */
  function Also(text: string, sep: string, more: string): string {
    if more == "" then text else if text == "" then more else text + sep + more
  }

  lemma {:induction false} JoinAlso(parts: seq<string>, more: string, sep: string)
    requires sep != "" && forall k :: 0 <= k < |parts| ==> parts[k] != ""
    ensures Join(if more == "" then parts else parts + [more], sep) == Also(Join(parts, sep), sep, more)
    ensures Join(parts, sep) == "" <==> parts == []
  {
    if |parts| > 1 {
      JoinAlso(parts[1..], more, sep);
      assert (parts + [more])[1..] == parts[1..] + [more];
    } else if |parts| == 1 && more != "" {
      assert (parts + [more])[1..] == [more];
    }
  }

  lemma {:induction false} NonEmptyOf(parts: seq<string>)
    requires forall k :: 0 <= k < |parts| ==> parts[k] != ""
    ensures NonEmpty(parts) == parts
  {
    if parts != [] {
      NonEmptyOf(parts[1..]);
      assert [parts[0]] + parts[1..] == parts;
    }
  }

  lemma PlaceIsAlso(f: Form)
    ensures PlacePart(f) == Also(f.address, ", ", f.city)
  {
    assert [f.address, f.city][1..] == [f.city] && [f.city][1..] == [];
    assert NonEmpty([]) == [];
    assert NonEmpty([f.city]) == if f.city == "" then [] else [f.city];
    assert NonEmpty([f.address, f.city]) == (if f.address == "" then [] else [f.address]) + NonEmpty([f.city]);
    assert Join([f.city], ", ") == f.city;
  }

  function IfAny(part: string): seq<string> { if part == "" then [] else [part] }

  lemma FourParts(a: string, b: string, c: string, d: string, sep: string)
    requires sep != ""
    ensures Join(IfAny(a) + IfAny(b) + IfAny(c) + IfAny(d), sep) == Also(Also(Also(a, sep, b), sep, c), sep, d)
  {
    JoinAlso(IfAny(a), b, sep);
    JoinAlso(IfAny(a) + IfAny(b), c, sep);
    JoinAlso(IfAny(a) + IfAny(b) + IfAny(c), d, sep);
    assert forall p, q {:trigger p + IfAny(q)} :: p + IfAny(q) == if q == "" then p else p + [q];
  }

  /** Every form, complete or not: the caption or else the name, the place, the instructions and the link, in this order,
      each only if it is given, with one separator between any two. */
  lemma BuildIs(f: Form)
    ensures
      var dot := " \U{00b7} ";
      var title := if f.caption == "" then f.pointName else f.caption;
      var told := if f.instructions == "" then "" else "\U{05d4}\U{05d5}\U{05e8}\U{05d0}\U{05d5}\U{05ea}: " + f.instructions;
      var link := if f.url == "" then ""
                  else "\U{05e7}\U{05d9}\U{05e9}\U{05d5}\U{05e8} \U{05de}\U{05d9}\U{05e7}\U{05d5}\U{05dd}: " + f.url;
      Build(f) == Also(Also(Also(title, dot, Also(f.address, ", ", f.city)), dot, told), dot, link)
  {
    var told := if f.instructions == "" then "" else INSTRUCTIONS + f.instructions;
    var link := if f.url == "" then "" else LOCATION + f.url;
    PlaceIsAlso(f);
    PrefixFacts();
    assert " \U{00b7} " == SEPARATOR;
    assert Parts(f) == IfAny(Title(f)) + IfAny(PlacePart(f)) + IfAny(told) + IfAny(link);
    NonEmptyOf(Parts(f));
    FourParts(Title(f), PlacePart(f), told, link, SEPARATOR);
  }

  // ---------------------------------------------------------------- saving an unedited draft again

  /** The form that opening the draft fills in, as it is read when it is submitted unedited. */
  function Reopened(text: string): Form {
    var p := Parse(text);
    Form(Trim(if p.title != "" then p.title else text), Trim(p.title), Trim(p.address), Trim(p.city), Trim(p.instructions),
         Trim(p.url))
  }

  lemma ReopenedIs(f: Form)
    requires Valid(f) && PlainAddress(f)
    ensures Reopened(Build(f)) == Form(Title(f), Title(f), f.address, NormalCity(f.city), f.instructions, f.url)
  {
    ParseOfBuild(f);
    TrimOfTrimmed(Title(f));
    TrimOfTrimmed(f.address);
    TrimOfTrimmed(f.instructions);
    TrimOfTrimmed(f.url);
  }

  lemma JoinedNotEmpty(items: seq<string>)
    requires items != [] && (items[0] != "" || |items| > 1)
    ensures HasText(Join(items, ", "))
    requires Clean(items)
  {
    var s := Join(items, ", ");
    if |items| > 1 {
      assert s[|items[0]|] == ',';
    } else {
      assert !IsSpace(s[0]);
    }
  }

  predicate NoDot(items: seq<string>) { forall i :: 0 <= i < |items| ==> DOT !in items[i] }

  lemma {:induction false} ItemsNoDot(s: string)
    requires DOT !in s
    ensures NoDot(Items(s))
  {
    if s != "" { ItemsNoDot(s[1..]); }
  }

  lemma {:induction false} TrimsNoDot(items: seq<string>)
    requires NoDot(items)
    ensures NoDot(Trims(items))
  {
    if items != [] {
      assert NoDot(items[1..]);
      TrimsNoDot(items[1..]);
      TrimHasNoNew(items[0], DOT);
    }
  }

  lemma {:induction false} JoinNoDot(items: seq<string>)
    requires NoDot(items)
    ensures DOT !in Join(items, ", ")
  {
    if |items| > 1 {
      assert NoDot(items[1..]);
      JoinNoDot(items[1..]);
    }
  }

  lemma NormalCityValid(city: string)
    requires city != "" && Trimmed(city) && DOT !in city
    ensures NormalCity(city) != "" && Trimmed(NormalCity(city)) && DOT !in NormalCity(city)
  {
    var items := Trims(Items(city));
    ItemsAreCommaFree(city);
    TrimsAreClean(Items(city));
    ItemsNoDot(city);
    TrimsNoDot(Items(city));
    JoinNoDot(items);
    TrimHasNoNew(SpacedCity(city), DOT);
    TrimIsTrimmed(SpacedCity(city));
    if |items| == 1 { OneItem(city); }
    JoinedNotEmpty(items);
    TrimIsEmptyIff(SpacedCity(city));
  }

  lemma OneItem(city: string)
    requires city != "" && Trimmed(city) && |Trims(Items(city))| == 1
    ensures Trims(Items(city)) == [city]
  {
    ItemsAreCommaFree(city);
    TrimsAreClean(Items(city));
    OneItemIs(city);
    TrimsOne(city);
    TrimOfTrimmed(city);
  }

  lemma {:induction false} OneItemIs(s: string)
    requires |Items(s)| == 1
    ensures Items(s) == [s]
  {
    if s != "" {
      OneItemIs(s[1..]);
      assert [s[0]] + s[1..] == s;
    }
  }

  /** Reopening and saving an unedited draft settles after one round: the label changes at most once, in the spacing of
      the city's commas, and is reproduced from then on. */
  lemma ResaveSettles(f: Form)
    requires Valid(f) && PlainAddress(f)
    ensures
      var once := Reopened(Build(f));
      && Valid(once) && PlainAddress(once)
      && Reopened(Build(once)) == once
      && (Build(once) == Build(f) <==> NormalCity(f.city) == f.city)
  {
    var once := Reopened(Build(f));
    ReopenedIs(f);
    NormalCityValid(f.city);
    NormalCityStable(f.city);
    ReopenedIs(once);
    SameLabel(f, once);
  }

  lemma SameLabel(f: Form, g: Form)
    requires Valid(f) && Valid(g) && PlainAddress(f) && PlainAddress(g)
    requires g == Form(Title(f), Title(f), f.address, g.city, f.instructions, f.url)
    ensures Build(g) == Build(f) <==> g.city == f.city
  {
    PartsAre(f);
    PartsAre(g);
    PiecesOfJoin(Parts(f));
    PiecesOfJoin(Parts(g));
    if Build(g) == Build(f) {
      assert Parts(g)[1] == Parts(f)[1];
      assert f.address + ", " + f.city == g.address + ", " + g.city;
      assert (f.address + ", " + f.city)[|f.address| + 2..] == f.city;
      assert (g.address + ", " + g.city)[|g.address| + 2..] == g.city;
    }
  }
}
