/** The seller's image gallery: normalisation, the five edits, and the cached primary image. */
module Gallery {
  import opened Text

  /** Upload keys and image ids are random, modelled as numbers that were never drawn before. "" is a missing text. */
  datatype Image = Image(dataUrl: string, filename: string, mimeType: string, size: int, isPrimary: bool,
                         persistedId: Option<nat>, uploadState: UploadState, key: Option<nat>)
  datatype UploadState = Missing | Pending | Uploaded

  const MAX_IMAGES := 5

  /** An image without its primary mark: what must travel unchanged. */
  function Core(image: Image): Image { image.(isPrimary := false) }

  function Cores(images: seq<Image>): seq<Image> {
    seq(|images|, i requires 0 <= i < |images| => Core(images[i]))
  }

  // ---------------------------------------------------------------- normalisation

  function WithData(images: seq<Image>): (r: seq<Image>)
    ensures |r| <= |images| && forall i :: 0 <= i < |r| ==> r[i].dataUrl != ""
  {
    if images == [] then []
    else (if images[0].dataUrl != "" then [images[0]] else []) + WithData(images[1..])
  }

  function Clip(images: seq<Image>): (r: seq<Image>)
    ensures |r| <= MAX_IMAGES && |r| <= |images|
    ensures forall i :: 0 <= i < |r| ==> r[i] == images[i]
  {
    if |images| > MAX_IMAGES then images[..MAX_IMAGES] else images
  }

  function Kept(images: seq<Image>): seq<Image> { Clip(WithData(images)) }

  /** findIndex of the first primary image, or -1. */
  function FirstPrimary(images: seq<Image>, from: nat): (i: int)
    requires from <= |images|
    ensures -1 <= i < |images|
    ensures i >= 0 ==> from <= i && images[i].isPrimary && forall k :: from <= k < i ==> !images[k].isPrimary
    ensures i < 0 ==> forall k :: from <= k < |images| ==> !images[k].isPrimary
    decreases |images| - from
  {
    if from == |images| then -1 else if images[from].isPrimary then from else FirstPrimary(images, from + 1)
  }

  /** The image that ends up primary: the first one marked, else the first. */
  function PrimaryOf(images: seq<Image>): nat {
    if FirstPrimary(images, 0) >= 0 then FirstPrimary(images, 0) else 0
  }

  function Filled(image: Image, nextKey: nat): Image {
    image.(filename := if image.filename == "" then "product-image" else image.filename,
           uploadState := if image.uploadState != Missing then image.uploadState else if image.persistedId.Some? then Uploaded else Pending,
           key := if image.key.Some? then image.key else Some(nextKey))
  }

  function NormalImage(image: Image, primary: bool, nextKey: nat): Image { Filled(image, nextKey).(isPrimary := primary) }

  function Normalize(images: seq<Image>, nextKey: nat): seq<Image> {
    var source := Kept(images);
    seq(|source|, i requires 0 <= i < |source| => NormalImage(source[i], i == PrimaryOf(source), nextKey + i))
  }

  /** The map: a mark where there was one, or on the first image when none was marked. */
  function FirstPass(source: seq<Image>, hasExplicitPrimary: bool, nextKey: nat): seq<Image> {
    seq(|source|, i requires 0 <= i < |source| =>
      NormalImage(source[i], if hasExplicitPrimary then source[i].isPrimary else i == 0, nextKey + i))
  }

  lemma FirstPassPrimary(source: seq<Image>, nextKey: nat)
    ensures
      var explicit := FirstPrimary(source, 0) >= 0;
      FirstPrimary(FirstPass(source, explicit, nextKey), 0) == if |source| == 0 then -1 else PrimaryOf(source)
  {
    var explicit := FirstPrimary(source, 0) >= 0;
    var pass := FirstPass(source, explicit, nextKey);
    assert forall i :: 0 <= i < |source| ==> pass[i].isPrimary == if explicit then source[i].isPrimary else i == 0;
    if |source| > 0 { assert pass[PrimaryOf(source)].isPrimary; }
  }

  lemma MarkedPass(source: seq<Image>, nextKey: nat, i: nat)
    requires i < |source|
    ensures
      var explicit := FirstPrimary(source, 0) >= 0;
      FirstPass(source, explicit, nextKey)[i].(isPrimary := i == PrimaryOf(source)) == NormalImage(source[i], i == PrimaryOf(source), nextKey + i)
  {
  }

  /** map, findIndex, then forEach over the result. */
  method NormalizeSellerImages(images: seq<Image>, nextKey: nat) returns (normalized: seq<Image>)
    ensures normalized == Normalize(images, nextKey)
  {
    var source := Kept(images);
    var hasExplicitPrimary := FirstPrimary(source, 0) >= 0;
    normalized := FirstPass(source, hasExplicitPrimary, nextKey);
    var primaryIndex := FirstPrimary(normalized, 0);
    FirstPassPrimary(source, nextKey);
    var index := 0;
    while index < |normalized|
      invariant 0 <= index <= |normalized| == |source|
      invariant forall i :: 0 <= i < index ==> normalized[i] == Normalize(images, nextKey)[i]
      invariant forall i :: index <= i < |source| ==> normalized[i] == FirstPass(source, hasExplicitPrimary, nextKey)[i]
      invariant primaryIndex == if |source| == 0 then -1 else PrimaryOf(source)
    {
      MarkedPass(source, nextKey, index);
      normalized := normalized[index := normalized[index].(isPrimary := index == if primaryIndex >= 0 then primaryIndex else 0)];
      index := index + 1;
    }
  }

  predicate Complete(image: Image) {
    image.dataUrl != "" && image.filename != "" && image.uploadState != Missing && image.key.Some?
  }

  /** At most five complete images, exactly one primary unless there is none. */
  predicate WellFormed(images: seq<Image>) {
    && |images| <= MAX_IMAGES
    && (forall i :: 0 <= i < |images| ==> Complete(images[i]))
    && (images != [] ==> exists p :: 0 <= p < |images| && OnlyPrimary(images, p))
  }

  predicate OnlyPrimary(images: seq<Image>, p: int) {
    forall i :: 0 <= i < |images| ==> (images[i].isPrimary <==> i == p)
  }

  lemma PrimaryIsOnly(images: seq<Image>, p: nat)
    requires p < |images| && OnlyPrimary(images, p)
    ensures PrimaryOf(images) == p
  {
    assert images[p].isPrimary;
  }

  lemma {:induction false} WithDataKeeps(images: seq<Image>)
    requires forall i :: 0 <= i < |images| ==> images[i].dataUrl != ""
    ensures WithData(images) == images
  {
    if images != [] {
      WithDataKeeps(images[1..]);
      assert images == [images[0]] + images[1..];
    }
  }

  /** Whatever comes in, what comes out is well formed: the clipped input, every missing field filled, one primary. */
  lemma NormalizeWellFormed(images: seq<Image>, nextKey: nat)
    ensures WellFormed(Normalize(images, nextKey))
    ensures |Normalize(images, nextKey)| == |Kept(images)|
    ensures Kept(images) != [] ==> OnlyPrimary(Normalize(images, nextKey), PrimaryOf(Kept(images)))
  {
    var r := Normalize(images, nextKey);
    if r != [] { assert OnlyPrimary(r, PrimaryOf(Kept(images))); }
  }

  /** Normalising changes nothing exactly when the gallery is already well formed. */
  lemma NormalizeFixedPoints(images: seq<Image>, nextKey: nat)
    ensures Normalize(images, nextKey) == images <==> WellFormed(images)
  {
    NormalizeWellFormed(images, nextKey);
    if WellFormed(images) {
      WithDataKeeps(images);
      assert Kept(images) == images;
      if images != [] {
        var p :| 0 <= p < |images| && OnlyPrimary(images, p);
        PrimaryIsOnly(images, p);
        forall i | 0 <= i < |images| ensures Normalize(images, nextKey)[i] == images[i] {
          assert Complete(images[i]);
        }
      }
    }
  }

  /** What an image carries travels through normalisation: only gaps are filled and only the primary mark moves. */
  lemma NormalizeKeepsCores(images: seq<Image>, nextKey: nat)
    requires forall i :: 0 <= i < |images| ==> Complete(images[i])
    requires |images| <= MAX_IMAGES
    ensures Cores(Normalize(images, nextKey)) == Cores(images)
  {
    WithDataKeeps(images);
    assert Kept(images) == images;
  }

  // ---------------------------------------------------------------- the edits

  function RemoveAt<T>(s: seq<T>, i: nat): seq<T>
    requires i < |s|
  {
    s[..i] + s[i + 1..]
  }

  function InsertAt<T>(s: seq<T>, i: nat, x: T): seq<T>
    requires i <= |s|
  {
    s[..i] + [x] + s[i..]
  }

  function MoveItem<T>(s: seq<T>, from: nat, to: nat): (r: seq<T>)
    requires from < |s| && to < |s|
    ensures |r| == |s|
  {
    InsertAt(RemoveAt(s, from), to, s[from])
  }

  /** Where splice starts: negative counts from the end, and both ends clamp. */
  function SpliceStart(length: nat, index: int): (start: nat)
    ensures start <= length
  {
    if index < 0 then (if length + index < 0 then 0 else length + index) else if index > length then length else index
  }

  function Marked(images: seq<Image>, selected: nat): seq<Image> {
    seq(|images|, i requires 0 <= i < |images| => images[i].(isPrimary := i == selected))
  }

  datatype Edit =
    | Append(picked: seq<Image>)
    | Move(index: int, delta: int)
    | Remove(at: int, deleted: bool)
    | MakePrimary(selected: int)
    | Clear

  /** The stored gallery, the next unused upload key, and whether a draft exists on the server. */
  datatype Store = Store(images: seq<Image>, nextKey: nat, hasDraft: bool)

  function Write(g: Store, images: seq<Image>): Store {
    g.(images := Normalize(images, g.nextKey), nextKey := g.nextKey + MAX_IMAGES)
  }

  /** The images a selection still has room for. */
  function Fitting(g: Store, picked: seq<Image>): seq<Image> {
    if |g.images| >= MAX_IMAGES then [] else if |picked| > MAX_IMAGES - |g.images| then picked[..MAX_IMAGES - |g.images|] else picked
  }

  predicate CanMove(g: Store, index: int, delta: int) {
    0 <= index < |g.images| && 0 <= index + delta < |g.images|
  }

  function Do(g: Store, e: Edit): Store {
    match e
    case Append(picked) => if Fitting(g, picked) == [] then g else Write(g, g.images + Fitting(g, picked))
    case Move(index, delta) => if CanMove(g, index, delta) then Write(g, MoveItem(g.images, index, index + delta)) else g
    case Remove(at, deleted) =>
      var start := SpliceStart(|g.images|, at);
      if start == |g.images| then Write(g, g.images)
      else if g.images[start].persistedId.Some? && g.hasDraft && !deleted then g
      else Write(g, RemoveAt(g.images, start))
    case MakePrimary(selected) => if 0 <= selected < |g.images| then Write(g, Marked(g.images, selected)) else g
    case Clear => Write(g, [])
  }

  function DoAll(g: Store, edits: seq<Edit>): Store {
    if edits == [] then g else Do(DoAll(g, edits[..|edits| - 1]), edits[|edits| - 1])
  }

  /** Every edit, on any input, leaves a well-formed gallery. */
  lemma EditWellFormed(g: Store, e: Edit)
    requires WellFormed(g.images)
    ensures WellFormed(Do(g, e).images)
  {
    NormalizeWellFormed(g.images, g.nextKey);
    match e
    case Append(picked) => NormalizeWellFormed(g.images + Fitting(g, picked), g.nextKey);
    case Move(index, delta) => if CanMove(g, index, delta) { NormalizeWellFormed(MoveItem(g.images, index, index + delta), g.nextKey); }
    case Remove(at, deleted) =>
      var start := SpliceStart(|g.images|, at);
      if start < |g.images| { NormalizeWellFormed(RemoveAt(g.images, start), g.nextKey); }
    case MakePrimary(selected) => if 0 <= selected < |g.images| { NormalizeWellFormed(Marked(g.images, selected), g.nextKey); }
    case Clear => NormalizeWellFormed([], g.nextKey);
  }

  // ---------------------------------------------------------------- moving

  /** Where a move takes position `i`. */
  function MovedTo(i: nat, from: nat, to: nat): nat {
    if i == from then to else if from < i <= to then i - 1 else if to <= i < from then i + 1 else i
  }

  lemma MoveItemAt<T>(s: seq<T>, from: nat, to: nat, i: nat)
    requires from < |s| && to < |s| && i < |s|
    ensures MovedTo(i, from, to) < |s| && MoveItem(s, from, to)[MovedTo(i, from, to)] == s[i]
  {
  }

  lemma MoveItemBack<T>(s: seq<T>, from: nat, to: nat)
    requires from < |s| && to < |s|
    ensures MoveItem(MoveItem(s, from, to), to, from) == s
  {
    var m := MoveItem(s, from, to);
    assert RemoveAt(m, to) == RemoveAt(s, from);
    assert m[to] == s[from];
  }

  lemma MoveItemPermutes<T>(s: seq<T>, from: nat, to: nat)
    requires from < |s| && to < |s|
    ensures multiset(MoveItem(s, from, to)) == multiset(s)
  {
    var rest := RemoveAt(s, from);
    assert s == s[..from] + [s[from]] + s[from + 1..];
    assert rest == rest[..to] + rest[to..];
    assert MoveItem(s, from, to) == rest[..to] + [s[from]] + rest[to..];
    assert multiset(MoveItem(s, from, to)) == multiset(rest) + multiset([s[from]]);
    assert multiset(s) == multiset(rest) + multiset([s[from]]);
  }

  lemma MovedWellFormed(images: seq<Image>, from: nat, to: nat)
    requires WellFormed(images) && from < |images| && to < |images|
    ensures WellFormed(MoveItem(images, from, to))
  {
    var m := MoveItem(images, from, to);
    var p :| 0 <= p < |images| && OnlyPrimary(images, p);
    forall k | 0 <= k < |m| ensures Complete(m[k]) && (m[k].isPrimary <==> k == MovedTo(p, from, to)) {
      var i := MovedTo(k, to, from);
      MoveItemAt(images, from, to, i);
    }
    assert OnlyPrimary(m, MovedTo(p, from, to));
  }

  lemma MoveIs(g: Store, index: int, delta: int)
    requires WellFormed(g.images) && CanMove(g, index, delta)
    ensures Do(g, Move(index, delta)).images == MoveItem(g.images, index, index + delta)
  {
    MovedWellFormed(g.images, index, index + delta);
    NormalizeFixedPoints(MoveItem(g.images, index, index + delta), g.nextKey);
  }

  lemma MovedPrimary(images: seq<Image>, from: nat, to: nat)
    requires WellFormed(images) && from < |images| && to < |images|
    ensures PrimaryOf(images) < |images| && PrimaryOf(MoveItem(images, from, to)) < |images|
    ensures MoveItem(images, from, to)[PrimaryOf(MoveItem(images, from, to))] == images[PrimaryOf(images)]
  {
    var m := MoveItem(images, from, to);
    var p :| 0 <= p < |images| && OnlyPrimary(images, p);
    PrimaryIsOnly(images, p);
    MovedWellFormed(images, from, to);
    var q :| 0 <= q < |m| && OnlyPrimary(m, q);
    PrimaryIsOnly(m, q);
    MoveItemAt(images, from, to, p);
  }

  /** A move permutes the records as they are, so the primary image stays the primary image. */
  lemma MovePermutes(g: Store, index: int, delta: int)
    requires WellFormed(g.images) && CanMove(g, index, delta)
    ensures
      var after := Do(g, Move(index, delta));
      && multiset(after.images) == multiset(g.images)
      && PrimaryOf(after.images) < |after.images| == |g.images| && PrimaryOf(g.images) < |g.images|
      && after.images[PrimaryOf(after.images)] == g.images[PrimaryOf(g.images)]
  {
    MoveIs(g, index, delta);
    MoveItemPermutes(g.images, index, index + delta);
    MovedPrimary(g.images, index, index + delta);
  }

  /** The opposite move restores the gallery, every field and the order. */
  lemma MoveUndone(g: Store, index: int, delta: int)
    requires WellFormed(g.images) && CanMove(g, index, delta)
    ensures Do(Do(g, Move(index, delta)), Move(index + delta, -delta)).images == g.images
  {
    MoveIs(g, index, delta);
    MovedWellFormed(g.images, index, index + delta);
    MoveIs(Do(g, Move(index, delta)), index + delta, -delta);
    MoveItemBack(g.images, index, index + delta);
  }

  // ---------------------------------------------------------------- the other edits

  /** Only the primary mark changes, and it goes where it was asked to. */
  lemma PrimaryChosen(g: Store, selected: nat)
    requires WellFormed(g.images) && selected < |g.images|
    ensures
      var after := Do(g, MakePrimary(selected)).images;
      Cores(after) == Cores(g.images) && OnlyPrimary(after, selected)
  {
    var marked := Marked(g.images, selected);
    assert OnlyPrimary(marked, selected);
    forall i | 0 <= i < |marked| ensures Complete(marked[i]) {
      assert Complete(g.images[i]);
    }
    NormalizeFixedPoints(marked, g.nextKey);
  }

  lemma RestComplete(images: seq<Image>, at: nat)
    requires WellFormed(images) && at < |images|
    ensures forall i :: 0 <= i < |images| - 1 ==> Complete(RemoveAt(images, at)[i])
    ensures Cores(RemoveAt(images, at)) == RemoveAt(Cores(images), at)
  {
  }

  predicate Refused(g: Store, at: nat, deleted: bool)
    requires at < |g.images|
  {
    g.images[at].persistedId.Some? && g.hasDraft && !deleted
  }

  /** The image list after a removal that goes through: the rest, with one primary. */
  lemma RemovedRest(g: Store, at: nat, deleted: bool)
    requires WellFormed(g.images) && at < |g.images| && !Refused(g, at, deleted)
    ensures
      var after := Do(g, Remove(at, deleted)).images;
      var rest := RemoveAt(g.images, at);
      && Cores(after) == RemoveAt(Cores(g.images), at)
      && |after| == |rest| && (after != [] ==> OnlyPrimary(after, PrimaryOf(rest)))
  {
    var rest := RemoveAt(g.images, at);
    assert Do(g, Remove(at, deleted)).images == Normalize(rest, g.nextKey);
    RestComplete(g.images, at);
    NormalizeKeepsCores(rest, g.nextKey);
    NormalizeWellFormed(rest, g.nextKey);
    KeptWhole(rest);
  }

  /** A removal the server refuses changes nothing; any other takes out just that image. The primary image survives if
      it was another one, and otherwise the first remaining image takes its place. */
  lemma RemovalTakesOne(g: Store, at: nat, deleted: bool)
    requires WellFormed(g.images) && at < |g.images|
    ensures Refused(g, at, deleted) ==> Do(g, Remove(at, deleted)) == g
    ensures
      var after := Do(g, Remove(at, deleted)).images;
      var p := PrimaryOf(g.images);
      !Refused(g, at, deleted) ==>
        && Cores(after) == RemoveAt(Cores(g.images), at)
        && (after != [] ==> OnlyPrimary(after, if at == p then 0 else if at < p then p - 1 else p))
  {
    if !Refused(g, at, deleted) {
      RemovedRest(g, at, deleted);
      var p :| 0 <= p < |g.images| && OnlyPrimary(g.images, p);
      PrimaryIsOnly(g.images, p);
      RestPrimary(g.images, p, at);
    }
  }

  lemma KeptWhole(images: seq<Image>)
    requires |images| <= MAX_IMAGES && forall i :: 0 <= i < |images| ==> images[i].dataUrl != ""
    ensures Kept(images) == images
  {
    WithDataKeeps(images);
  }

  lemma NormalizeAt(images: seq<Image>, nextKey: nat, i: nat)
    requires |images| <= MAX_IMAGES && i < |images| && forall k :: 0 <= k < |images| ==> images[k].dataUrl != ""
    ensures |Normalize(images, nextKey)| == |images|
    ensures Normalize(images, nextKey)[i] == NormalImage(images[i], i == PrimaryOf(images), nextKey + i)
  {
    KeptWhole(images);
  }

  lemma RestPrimary(images: seq<Image>, p: nat, at: nat)
    requires p < |images| && at < |images| && OnlyPrimary(images, p)
    ensures PrimaryOf(RemoveAt(images, at)) == if at == p then 0 else if at < p then p - 1 else p
  {
    var rest := RemoveAt(images, at);
    if at != p {
      PrimaryIsOnly(rest, if at < p then p - 1 else p);
    }
  }

  lemma JoinedPrimary(images: seq<Image>, more: seq<Image>, p: nat)
    requires p < |images| && OnlyPrimary(images, p)
    ensures PrimaryOf(images + more) == p
  {
    assert images[p].isPrimary && (images + more)[p] == images[p];
    assert forall k :: 0 <= k < p ==> (images + more)[k] == images[k];
  }

  lemma CompleteStays(image: Image, primary: bool, nextKey: nat)
    requires Complete(image) && image.isPrimary == primary
    ensures NormalImage(image, primary, nextKey) == image
  {
  }

  lemma AppendIs(g: Store, picked: seq<Image>)
    requires WellFormed(g.images) && forall i :: 0 <= i < |picked| ==> picked[i].dataUrl != ""
    ensures forall i :: 0 <= i < |g.images + Fitting(g, picked)| ==> (g.images + Fitting(g, picked))[i].dataUrl != ""
    ensures
      Do(g, Append(picked)).images
        == (if Fitting(g, picked) == [] then g.images else Normalize(g.images + Fitting(g, picked), g.nextKey))
  {
  }

  lemma AppendHead(images: seq<Image>, more: seq<Image>, nextKey: nat, i: nat)
    requires WellFormed(images) && |images| + |more| <= MAX_IMAGES && i < |images|
    requires forall k :: 0 <= k < |images + more| ==> (images + more)[k].dataUrl != ""
    ensures i < |Normalize(images + more, nextKey)| && Normalize(images + more, nextKey)[i] == images[i]
  {
    var p :| 0 <= p < |images| && OnlyPrimary(images, p);
    JoinedPrimary(images, more, p);
    NormalizeAt(images + more, nextKey, i);
    assert Complete(images[i]);
    CompleteStays(images[i], i == p, nextKey + i);
  }

  /** A selection goes to the end, as far as there is room; what was there keeps its place, its keys and its primary. */
  lemma AppendKeeps(g: Store, picked: seq<Image>)
    requires WellFormed(g.images)
    requires forall i :: 0 <= i < |picked| ==> picked[i].dataUrl != ""
    ensures
      var after := Do(g, Append(picked)).images;
      && |after| == |g.images| + |Fitting(g, picked)|
      && (forall i :: 0 <= i < |g.images| ==> after[i] == g.images[i])
      && forall k :: 0 <= k < |Fitting(g, picked)| ==> after[|g.images| + k].dataUrl == picked[k].dataUrl
  {
    var fitting := Fitting(g, picked);
    AppendIs(g, picked);
    if fitting != [] {
      var all := g.images + fitting;
      NormalizeAt(all, g.nextKey, 0);
      forall i | 0 <= i < |g.images| ensures Normalize(all, g.nextKey)[i] == g.images[i] {
        AppendHead(g.images, fitting, g.nextKey, i);
      }
      forall k | 0 <= k < |fitting| ensures Normalize(all, g.nextKey)[|g.images| + k].dataUrl == picked[k].dataUrl {
        NormalizeAt(all, g.nextKey, |g.images| + k);
      }
    }
  }

  // ---------------------------------------------------------------- keys

  /** Keys in use were drawn, and no two images share one. */
  predicate DistinctKeys(g: Store) {
    && (forall i :: 0 <= i < |g.images| ==> g.images[i].key.Some? && g.images[i].key.value < g.nextKey)
    && (forall i, j :: 0 <= i < j < |g.images| ==> g.images[i].key != g.images[j].key)
  }

  predicate Drawable(images: seq<Image>, nextKey: nat) {
    && (forall i :: 0 <= i < |images| ==> images[i].key.None? || images[i].key.value < nextKey)
    && (forall i, j :: 0 <= i < j < |images| ==> images[i].key.None? || images[i].key != images[j].key)
  }

  function KeyAt(images: seq<Image>, nextKey: nat, i: nat): nat
    requires i < |images|
  {
    if images[i].key.Some? then images[i].key.value else nextKey + i
  }

  lemma DrawnDistinct(images: seq<Image>, nextKey: nat, i: nat, j: nat)
    requires Drawable(images, nextKey) && i < j < |images|
    ensures KeyAt(images, nextKey, i) != KeyAt(images, nextKey, j)
  {
  }

  lemma WriteDistinct(g: Store, images: seq<Image>)
    requires Drawable(images, g.nextKey) && |images| <= MAX_IMAGES
    requires forall i :: 0 <= i < |images| ==> images[i].dataUrl != ""
    ensures DistinctKeys(Write(g, images))
  {
    var r := Normalize(images, g.nextKey);
    KeptWhole(images);
    forall i | 0 <= i < |r| ensures r[i].key == Some(KeyAt(images, g.nextKey, i)) {
      NormalizeAt(images, g.nextKey, i);
    }
    forall i, j | 0 <= i < j < |r| ensures r[i].key != r[j].key {
      DrawnDistinct(images, g.nextKey, i, j);
    }
  }

  /** Picked files carry no key of their own; every edit keeps keys distinct. */
  lemma EditDistinct(g: Store, e: Edit)
    requires WellFormed(g.images) && DistinctKeys(g)
    requires e.Append? ==> forall i :: 0 <= i < |e.picked| ==> e.picked[i].key.None? && e.picked[i].dataUrl != ""
    ensures DistinctKeys(Do(g, e))
  {
    assert forall i :: 0 <= i < |g.images| ==> Complete(g.images[i]);
    match e
    case Append(picked) => WriteDistinct(g, g.images + Fitting(g, picked));
    case Move(index, delta) => if CanMove(g, index, delta) { MoveDistinct(g, index, index + delta); }
    case Remove(at, deleted) => RemoveDistinct(g, SpliceStart(|g.images|, at));
    case MakePrimary(selected) => if 0 <= selected < |g.images| { WriteDistinct(g, Marked(g.images, selected)); }
    case Clear => WriteDistinct(g, []);
  }

  /** Over any sequence of edits: the gallery stays well formed and no two of its images share an upload key. */
  lemma {:induction false} EditsDistinct(g: Store, edits: seq<Edit>)
    requires WellFormed(g.images) && DistinctKeys(g)
    requires forall k :: 0 <= k < |edits| ==> edits[k].Append? ==>
      forall i :: 0 <= i < |edits[k].picked| ==> edits[k].picked[i].key.None? && edits[k].picked[i].dataUrl != ""
    ensures WellFormed(DoAll(g, edits).images) && DistinctKeys(DoAll(g, edits))
  {
    if edits != [] {
      EditsDistinct(g, edits[..|edits| - 1]);
      EditWellFormed(DoAll(g, edits[..|edits| - 1]), edits[|edits| - 1]);
      EditDistinct(DoAll(g, edits[..|edits| - 1]), edits[|edits| - 1]);
    }
  }

  lemma RemoveDistinct(g: Store, start: nat)
    requires WellFormed(g.images) && DistinctKeys(g) && start <= |g.images|
    ensures DistinctKeys(Write(g, if start < |g.images| then RemoveAt(g.images, start) else g.images))
  {
    assert forall i :: 0 <= i < |g.images| ==> Complete(g.images[i]);
    WriteDistinct(g, if start < |g.images| then RemoveAt(g.images, start) else g.images);
  }

  lemma MoveDistinct(g: Store, from: nat, to: nat)
    requires WellFormed(g.images) && DistinctKeys(g) && from < |g.images| && to < |g.images|
    ensures DistinctKeys(Write(g, MoveItem(g.images, from, to)))
  {
    var m := MoveItem(g.images, from, to);
    forall k | 0 <= k < |m| ensures m[k] == g.images[MovedTo(k, to, from)] && m[k].dataUrl != "" {
      MoveItemAt(g.images, from, to, MovedTo(k, to, from));
      assert Complete(g.images[MovedTo(k, to, from)]);
    }
    WriteDistinct(g, m);
  }

  // ---------------------------------------------------------------- the form

  /** readSellerImages after setSellerImages: stored images come back as they were written. */
  class SellerForm {
    var stored: seq<Image>
    var nextKey: nat
    var hasDraft: bool
    var imageDataUrl: string
    var imageName: string

    function State(): Store
      reads this
    {
      Store(stored, nextKey, hasDraft)
    }

    /** The cached primary fields are those of the primary image. */
    predicate Valid()
      reads this
    {
      && WellFormed(stored)
      && imageDataUrl == (if stored == [] then "" else stored[PrimaryOf(stored)].dataUrl)
      && imageName == (if stored == [] then "" else stored[PrimaryOf(stored)].filename)
    }

    constructor (hasDraft: bool)
      ensures Valid() && State() == Store([], 0, hasDraft)
    {
      stored, nextKey, this.hasDraft := [], 0, hasDraft;
      imageDataUrl, imageName := "", "";
    }

    method ReadSellerImages() returns (images: seq<Image>)
      requires Valid()
      ensures images == stored
    {
      images := NormalizeSellerImages(stored, nextKey);
      NormalizeFixedPoints(stored, nextKey);
    }

    method SetSellerImages(images: seq<Image>)
      modifies this
      ensures Valid() && State() == Write(old(State()), images)
    {
      var normalized := NormalizeSellerImages(images, nextKey);
      NormalizeWellFormed(images, nextKey);
      stored, nextKey := normalized, nextKey + MAX_IMAGES;
      if normalized == [] {
        imageDataUrl, imageName := "", "";
      } else {
        var primary := normalized[PrimaryOf(normalized)];
        imageDataUrl, imageName := primary.dataUrl, primary.filename;
      }
    }

    method AppendFiles(files: seq<Image>)
      requires Valid()
      modifies this
      ensures Valid() && State() == old(Do(State(), Append(files)))
    {
      var images := ReadSellerImages();
      var room := if MAX_IMAGES - |images| > 0 then MAX_IMAGES - |images| else 0;
      var taken := if |files| > room then files[..room] else files;
      if taken == [] { return; }
      SetSellerImages(images + taken);
    }

    method MoveSellerImage(index: int, delta: int)
      requires Valid()
      modifies this
      ensures Valid() && State() == old(Do(State(), Move(index, delta)))
    {
      var images := ReadSellerImages();
      var to := index + delta;
      if !(0 <= index < |images|) || to < 0 || to >= |images| { return; }
      var moved := images[index];
      images := images[..index] + images[index + 1..];
      images := images[..to] + [moved] + images[to..];
      SetSellerImages(images);
    }

    method RemoveSellerImage(index: int, deleted: bool)
      requires Valid()
      modifies this
      ensures Valid() && State() == old(Do(State(), Remove(index, deleted)))
    {
      var images := ReadSellerImages();
      var start := SpliceStart(|images|, index);
      if start < |images| {
        var removed := images[start];
        images := images[..start] + images[start + 1..];
        assert images == RemoveAt(stored, start);
        if removed.persistedId.Some? && hasDraft && !deleted { return; }
      }
      SetSellerImages(images);
    }

    method MakeSellerImagePrimary(selected: int)
      requires Valid()
      modifies this
      ensures Valid() && State() == old(Do(State(), MakePrimary(selected)))
    {
      var images := ReadSellerImages();
      if !(0 <= selected < |images|) { return; }
      SetSellerImages(Marked(images, selected));
    }

    method ClearSellerProductImage()
      modifies this
      ensures Valid() && State() == old(Do(State(), Clear))
    {
      SetSellerImages([]);
    }
  }
}
