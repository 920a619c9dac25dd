/** Where the images that an edit leaves come from. */
module GalleryDescent {
  import opened Gallery

  /** New pictures come from the file picker: no key, no id. */
  predicate PickedPlain(e: Edit) {
    e.Append? ==> forall i :: 0 <= i < |e.picked| ==>
        e.picked[i].key.None? && e.picked[i].persistedId.None? && e.picked[i].dataUrl != ""
  }

  /** Every image an edit leaves was there before, up to its mark, or is new and has a key never used. */
  predicate Descends(image: Image, g: Store) {
    || (exists i :: 0 <= i < |g.images| && Core(g.images[i]) == Core(image))
    || (image.persistedId.None? && image.key.Some? && image.key.value >= g.nextKey)
  }

  lemma CoreAt(a: seq<Image>, b: seq<Image>, i: nat)
    requires Cores(a) == Cores(b) && i < |a|
    ensures i < |b| && Core(a[i]) == Core(b[i])
  {
    assert |Cores(a)| == |a| && |Cores(b)| == |b|;
    assert Cores(a)[i] == Core(a[i]) && Cores(b)[i] == Core(b[i]);
  }

  lemma MoveDescends(g: Store, index: int, delta: int, k: nat)
    requires WellFormed(g.images) && CanMove(g, index, delta) && k < |Do(g, Move(index, delta)).images|
    ensures Descends(Do(g, Move(index, delta)).images[k], g)
  {
    MoveIs(g, index, delta);
    var i := MovedTo(k, index + delta, index);
    MoveItemAt(g.images, index, index + delta, i);
    assert Core(g.images[i]) == Core(Do(g, Move(index, delta)).images[k]);
  }

  lemma MarkDescends(g: Store, selected: nat, k: nat)
    requires WellFormed(g.images) && selected < |g.images| && k < |Do(g, MakePrimary(selected)).images|
    ensures Descends(Do(g, MakePrimary(selected)).images[k], g)
  {
    PrimaryChosen(g, selected);
    CoreAt(Do(g, MakePrimary(selected)).images, g.images, k);
  }

  lemma RemoveDescends(g: Store, at: nat, k: nat)
    requires WellFormed(g.images) && k < |Do(g, Remove(at, true)).images|
    ensures Descends(Do(g, Remove(at, true)).images[k], g)
  {
    var after := Do(g, Remove(at, true)).images;
    if at < |g.images| {
      RemovalTakesOne(g, at, true);
      var i := if k < at then k else k + 1;
      assert |Cores(after)| == |after| && Cores(after)[k] == Core(after[k]);
      assert Cores(after)[k] == Cores(g.images)[i] == Core(g.images[i]);
    } else {
      NormalizeFixedPoints(g.images, g.nextKey);
      assert Core(g.images[k]) == Core(after[k]);
    }
  }

  lemma AppendDescends(g: Store, picked: seq<Image>, k: nat)
    requires WellFormed(g.images) && k < |Do(g, Append(picked)).images|
    requires forall i :: 0 <= i < |picked| ==>
      picked[i].key.None? && picked[i].persistedId.None? && picked[i].dataUrl != ""
    ensures Descends(Do(g, Append(picked)).images[k], g)
  {
    AppendKeeps(g, picked);
    AppendIs(g, picked);
    if k < |g.images| {
      assert Core(g.images[k]) == Core(Do(g, Append(picked)).images[k]);
    } else {
      NormalizeAt(g.images + Fitting(g, picked), g.nextKey, k);
    }
  }

  lemma ClearLeavesNone(g: Store)
    ensures Do(g, Clear).images == []
  {
  }

  lemma EditDescends(g: Store, e: Edit, k: nat)
    requires WellFormed(g.images) && k < |Do(g, e).images| && PickedPlain(e) && !e.Remove?
    ensures Descends(Do(g, e).images[k], g)
  {
    if Do(g, e) == g { assert Core(g.images[k]) == Core(Do(g, e).images[k]); }
    match e
    case Append(picked) => AppendDescends(g, picked, k);
    case Move(index, delta) => if CanMove(g, index, delta) { MoveDescends(g, index, delta, k); }
    case MakePrimary(selected) => if 0 <= selected < |g.images| { MarkDescends(g, selected, k); }
    case Clear => ClearLeavesNone(g);
  }
}
