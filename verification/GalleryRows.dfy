/** What normalisation and the edits do to a gallery, image by image and field by field. */
module GalleryRows {
  import opened Text
  import opened Gallery

  // ---------------------------------------------------------------- which images stay

  /** How many of the first `k` images have data. */
  function DataBefore(images: seq<Image>, k: nat): (n: nat)
    requires k <= |images|
    ensures n <= k
  {
    if k == 0 then 0 else DataBefore(images, k - 1) + if images[k - 1].dataUrl != "" then 1 else 0
  }

  lemma {:induction false} WithDataConcat(a: seq<Image>, b: seq<Image>)
    ensures WithData(a + b) == WithData(a) + WithData(b)
  {
    if a == [] {
      assert a + b == b;
    } else {
      assert (a + b)[1..] == a[1..] + b;
      WithDataConcat(a[1..], b);
    }
  }

  lemma {:induction false} DataCounted(images: seq<Image>, k: nat)
    requires k <= |images|
    ensures |WithData(images[..k])| == DataBefore(images, k)
  {
    if k > 0 {
      DataCounted(images, k - 1);
      WithDataConcat(images[..k - 1], [images[k - 1]]);
      assert images[..k - 1] + [images[k - 1]] == images[..k];
      assert [images[k - 1]][1..] == [];
    }
  }

  /** An image with data stands after those with data that stood before it. */
  lemma {:induction false} DataAt(images: seq<Image>, k: nat)
    requires k < |images| && images[k].dataUrl != ""
    ensures DataBefore(images, k) < |WithData(images)| && WithData(images)[DataBefore(images, k)] == images[k]
  {
    DataCounted(images, k);
    WithDataConcat(images[..k], images[k..]);
    assert images[..k] + images[k..] == images;
  }

  /** Of an image with data that is kept, normalisation changes only what is missing, and the mark. */
  predicate FilledFrom(after: Image, image: Image) {
    && after.dataUrl == image.dataUrl && after.mimeType == image.mimeType && after.size == image.size
    && after.persistedId == image.persistedId
    && after.filename == (if image.filename == "" then "product-image" else image.filename)
    && (image.uploadState != Missing ==> after.uploadState == image.uploadState)
    && (image.uploadState == Missing ==> after.uploadState == if image.persistedId == None then Pending else Uploaded)
    && after.key.Some? && (image.key.Some? ==> after.key == image.key)
  }

  /** As many images as have data, and at most five. */
  lemma NormalizedCount(images: seq<Image>, nextKey: nat)
    ensures
      var n := DataBefore(images, |images|);
      |Normalize(images, nextKey)| == if n <= 5 then n else 5
  {
    DataCounted(images, |images|);
    assert images[..|images|] == images;
  }

  lemma FilledIs(image: Image, primary: bool, nextKey: nat)
    ensures FilledFrom(NormalImage(image, primary, nextKey), image)
    ensures image.key.None? ==> NormalImage(image, primary, nextKey).key == Some(nextKey)
  {
  }

  lemma {:induction false} KeptAt(images: seq<Image>, nextKey: nat, i: nat)
    requires i < |WithData(images)|
    ensures |Normalize(images, nextKey)| == |Kept(images)|
    ensures i < |Kept(images)| <==> i < 5
    ensures i < 5 ==>
      Normalize(images, nextKey)[i] == NormalImage(WithData(images)[i], i == PrimaryOf(Kept(images)), nextKey + i)
  {
  }

  /** An image with data is kept exactly when fewer than five with data stand before it, and in that order; a missing name,
      state or key is filled in, and a new key was never used. */
  lemma {:induction false} NormalizedRow(images: seq<Image>, nextKey: nat, k: nat)
    requires k < |images| && images[k].dataUrl != ""
    ensures
      var after, i := Normalize(images, nextKey), DataBefore(images, k);
      && (i < |after| <==> i < 5)
      && (i < 5 ==> FilledFrom(after[i], images[k])
                    && (images[k].key.None? ==> nextKey <= after[i].key.value < nextKey + MAX_IMAGES))
  {
    var i := DataBefore(images, k);
    DataAt(images, k);
    KeptAt(images, nextKey, i);
    FilledIs(images[k], i == PrimaryOf(Kept(images)), nextKey + i);
  }

  // ---------------------------------------------------------------- the edits

  /** As many of the picked images as there is room for, up to five in all, from the first on. */
  lemma RoomIs(g: Store, picked: seq<Image>)
    requires |g.images| <= 5
    ensures Fitting(g, picked) == picked[..if |picked| <= 5 - |g.images| then |picked| else 5 - |g.images|]
  {
  }

  /** A selection goes to the end as it is, without a mark unless the gallery was empty and one of them is chosen. */
  lemma {:induction false} AddedRows(g: Store, picked: seq<Image>, k: nat)
    requires WellFormed(g.images) && k < |picked| && |g.images| + k < 5
    requires forall i :: 0 <= i < |picked| ==> picked[i].dataUrl != ""
    ensures
      var after := Do(g, Append(picked)).images;
      && |g.images| + k < |after| && FilledFrom(after[|g.images| + k], picked[k])
      && (g.images != [] ==> !after[|g.images| + k].isPrimary)
  {
    var all := g.images + Fitting(g, picked);
    assert all[|g.images| + k] == picked[k];
    NormalizeAt(all, g.nextKey, |g.images| + k);
    if g.images != [] {
      var p :| 0 <= p < |g.images| && OnlyPrimary(g.images, p);
      JoinedPrimary(g.images, Fitting(g, picked), p);
    }
  }

  /** A moved image arrives where it was sent, and those it passes step back by one. */
  lemma MovedRows(g: Store, index: int, delta: int, i: nat)
    requires WellFormed(g.images) && 0 <= index < |g.images| && 0 <= index + delta < |g.images| && i < |g.images|
    ensures
      var after, to := Do(g, Move(index, delta)).images, index + delta;
      && |after| == |g.images|
      && (i == index ==> after[to] == g.images[i])
      && (index < i <= to ==> after[i - 1] == g.images[i])
      && (to <= i < index ==> after[i + 1] == g.images[i])
      && ((i < index && i < to) || (i > index && i > to) ==> after[i] == g.images[i])
  {
    MoveIs(g, index, delta);
    MoveItemAt(g.images, index, index + delta, i);
  }

  /** What is out of range changes nothing; clearing leaves nothing. */
  lemma OutOfRange(g: Store, index: int, delta: int, selected: int)
    ensures !(0 <= index < |g.images| && 0 <= index + delta < |g.images|) ==> Do(g, Move(index, delta)) == g
    ensures !(0 <= selected < |g.images|) ==> Do(g, MakePrimary(selected)) == g
    ensures Do(g, Clear).images == [] && Do(g, Clear).hasDraft == g.hasDraft
  {
  }

  /** A removal's index counts from the end when it is negative, and from the end of the list on it removes nothing. */
  lemma RemovalIndex(g: Store, at: int, deleted: bool)
    requires WellFormed(g.images)
    ensures at < 0 ==> Do(g, Remove(at, deleted)) == Do(g, Remove(if |g.images| + at >= 0 then |g.images| + at else 0, deleted))
    ensures at >= |g.images| ==> Do(g, Remove(at, deleted)).images == g.images
  {
    if at >= |g.images| { NormalizeFixedPoints(g.images, g.nextKey); }
  }
}
