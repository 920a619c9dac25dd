/** A save that nothing interrupts: what its uploads and its order keep. */
module DraftImageRuns {
  import opened Text
  import opened Gallery
  import opened DraftImages

  /** The same rows, whatever their liveness, position and mark. */
  predicate SameRows(a: seq<Stored>, b: seq<Stored>) {
    |a| == |b| && forall i :: 0 <= i < |a| ==> b[i].key == a[i].key && b[i].body == a[i].body
  }

  lemma RowsConsistent(d: Draft, stored: seq<Stored>)
    requires Consistent(d) && SameRows(d.stored, stored)
    ensures Consistent(d.(stored := stored))
  {
  }

  // ---------------------------------------------------------------- one upload

  lemma StoredImage(stored: seq<Stored>, key: nat, body: Body)
    ensures
      var after := StoreImage(stored, key, body);
      && |stored| <= |after| <= |stored| + 1 && SameRows(stored, after[..|stored|])
      && (forall i :: 0 <= i < |stored| ==> after[i].live == stored[i].live)
      && (|after| > |stored| ==> Find(stored, key, |stored|) < 0 && after[|stored|].key == key && after[|stored|].body == body && after[|stored|].live)
  {
  }

  lemma AnswerIs(stored: seq<Stored>, key: nat, body: Body)
    ensures
      var after := StoreImage(stored, key, body);
      AnswerTo(stored, key, body).Saved? ==>
        && AnswerTo(stored, key, body).id < |after|
        && after[AnswerTo(stored, key, body).id].key == key && after[AnswerTo(stored, key, body).id].body == body
  {
  }

  lemma TrackedAfterStore(image: Image, stored: seq<Stored>, key: nat, body: Body)
    requires Tracked(image, stored)
    requires KeyOf(image) == key ==> body.dataUrl == image.dataUrl && body.filename == image.filename
    ensures Tracked(image, StoreImage(stored, key, body))
  {
  }

  lemma KeysApart(d: Draft, i: nat, j: nat)
    requires DistinctKeys(d.g) && i < |d.g.images| && j < |d.g.images| && i != j
    ensures KeyOf(d.g.images[i]) != KeyOf(d.g.images[j])
  {
  }

  lemma ServedConsistent(d: Draft, index: nat)
    requires Consistent(d) && index < |d.g.images|
    ensures
      var image := d.g.images[index];
      Consistent(d.(stored := StoreImage(d.stored, KeyOf(image), BodyOf(image, index))))
  {
    var image := d.g.images[index];
    var key, body := KeyOf(image), BodyOf(image, index);
    StoredImage(d.stored, key, body);
    var after := StoreImage(d.stored, key, body);
    forall i | 0 <= i < |d.g.images| ensures Tracked(d.g.images[i], after) {
      if i != index { KeysApart(d, i, index); }
      TrackedAfterStore(d.g.images[i], d.stored, key, body);
    }
    assert forall i :: 0 <= i < |d.stored| ==> after[i].key == after[..|d.stored|][i].key;
  }

  /** Recording an id changes no other field of any image, so the gallery stays as it is. */
  lemma AckWellFormed(images: seq<Image>, index: nat, id: nat)
    requires WellFormed(images) && index < |images|
    ensures WellFormed(images[index := Acknowledged(images[index], id)])
  {
    var after := images[index := Acknowledged(images[index], id)];
    var p :| 0 <= p < |images| && OnlyPrimary(images, p);
    forall i | 0 <= i < |after| ensures Complete(after[i]) {
      assert Complete(images[i]);
    }
    assert OnlyPrimary(after, p);
  }

  /** The gallery with one image acknowledged. */
  function AckAt(d: Draft, index: nat, id: nat): Draft
    requires index < |d.g.images|
  {
    d.(acked := d.acked + {KeyOf(d.g.images[index])}, g := Write(d.g, d.g.images[index := Acknowledged(d.g.images[index], id)]))
  }

  lemma AckIs(d: Draft, index: nat, id: nat)
    requires WellFormed(d.g.images) && index < |d.g.images|
    ensures AckAt(d, index, id).g.images == d.g.images[index := Acknowledged(d.g.images[index], id)]
  {
    AckWellFormed(d.g.images, index, id);
    NormalizeFixedPoints(d.g.images[index := Acknowledged(d.g.images[index], id)], d.g.nextKey);
  }

  lemma AckConsistent(d: Draft, index: nat, id: nat)
    requires Consistent(d) && index < |d.g.images| && id < |d.stored| && d.stored[id].key == KeyOf(d.g.images[index])
    ensures Consistent(AckAt(d, index, id))
  {
    var after := AckAt(d, index, id);
    AckIs(d, index, id);
    AckWellFormed(d.g.images, index, id);
    assert DistinctKeys(after.g) by {
      assert forall i :: 0 <= i < |d.g.images| ==> after.g.images[i].key == d.g.images[i].key;
    }
    forall i | 0 <= i < |after.g.images| ensures Tracked(after.g.images[i], after.stored) {
      assert Tracked(d.g.images[i], d.stored);
      if i != index { KeysApart(d, i, index); }
    }
  }

  /** The images with everything an upload can change left out. */
  predicate SameBodies(a: seq<Image>, b: seq<Image>) {
    |a| == |b| && forall i :: 0 <= i < |a| ==> BodyOf(b[i], i) == BodyOf(a[i], i) && b[i].key == a[i].key
  }

  /** What an upload leaves alone. */
  predicate Beside(a: Draft, b: Draft, index: nat) {
    && b.g.hasDraft == a.g.hasDraft && SameBodies(a.g.images, b.g.images)
    && forall i :: 0 <= i < |a.g.images| && i != index ==> b.g.images[i] == a.g.images[i]
  }

  lemma AckBeside(d: Draft, index: nat, id: nat)
    requires WellFormed(d.g.images) && index < |d.g.images|
    ensures Beside(d, AckAt(d, index, id), index) && AckAt(d, index, id).g.images[index].persistedId == Some(id)
  {
    AckIs(d, index, id);
  }

  /** The draft after the server has processed the upload of one image. */
  function Served(d: Draft, index: nat): Draft
    requires index < |d.g.images|
  {
    var key := KeyOf(d.g.images[index]);
    d.(resent := d.resent + (if key in d.acked then 1 else 0), stored := StoreImage(d.stored, key, BodyOf(d.g.images[index], index)))
  }

  lemma UploadCases(d: Draft, index: nat, fate: Fate)
    requires index < |d.g.images| && d.g.images[index].persistedId.None?
    ensures
      var key := KeyOf(d.g.images[index]);
      var answer := AnswerTo(d.stored, key, BodyOf(d.g.images[index], index));
      Upload(d, index, fate)
        == if !Processed(fate) then Pass(d.(resent := d.resent + if key in d.acked then 1 else 0), false)
           else if fate == Answered && answer.Saved? then Pass(AckAt(Served(d, index), index, answer.id), true)
           else Pass(Served(d, index), false)
  {
  }

  lemma ServedDraftConsistent(d: Draft, index: nat)
    requires Consistent(d) && index < |d.g.images|
    ensures Consistent(Served(d, index)) && Served(d, index).g == d.g
  {
    ServedConsistent(d, index);
  }

  lemma SavedUpload(d: Draft, index: nat, id: nat)
    requires Consistent(d) && index < |d.g.images|
    requires AnswerTo(d.stored, KeyOf(d.g.images[index]), BodyOf(d.g.images[index], index)) == Saved(id)
    ensures
      var after := AckAt(Served(d, index), index, id);
      Consistent(after) && Beside(d, after, index) && after.g.images[index].persistedId == Some(id)
  {
    var served := Served(d, index);
    ServedDraftConsistent(d, index);
    AnswerIs(d.stored, KeyOf(d.g.images[index]), BodyOf(d.g.images[index], index));
    AckConsistent(served, index, id);
    AckBeside(served, index, id);
  }

  lemma UploadConsistent(d: Draft, index: nat, fate: Fate)
    requires Consistent(d) && index < |d.g.images|
    ensures
      var p := Upload(d, index, fate);
      Consistent(p.d) && Beside(d, p.d, index) && (p.ok ==> p.d.g.images[index].persistedId.Some?)
  {
    var image := d.g.images[index];
    if image.persistedId.None? {
      var answer := AnswerTo(d.stored, KeyOf(image), BodyOf(image, index));
      UploadCases(d, index, fate);
      ServedDraftConsistent(d, index);
      if fate == Answered && answer.Saved? { SavedUpload(d, index, answer.id); }
    }
  }

  lemma SameBodiesTrans(a: seq<Image>, b: seq<Image>, c: seq<Image>)
    requires SameBodies(a, b) && SameBodies(b, c)
    ensures SameBodies(a, c)
  {
  }

  predicate FirstPersisted(images: seq<Image>, k: nat) {
    k <= |images| && forall i :: 0 <= i < k ==> images[i].persistedId.Some?
  }

  lemma OneMorePersisted(a: Draft, b: Draft, k: nat)
    requires k < |a.g.images| && FirstPersisted(a.g.images, k) && Beside(a, b, k) && b.g.images[k].persistedId.Some?
    ensures FirstPersisted(b.g.images, k + 1)
  {
  }

  /** What holds after the loop has gone over the first `k` images. */
  predicate Uploads(d: Draft, k: nat, p: Pass) {
    && Consistent(p.d) && p.d.g.hasDraft == d.g.hasDraft && SameBodies(d.g.images, p.d.g.images)
    && (p.ok ==> FirstPersisted(p.d.g.images, k))
  }

  lemma UploadsOneMore(d: Draft, before: Pass, k: nat, fate: Fate)
    requires Uploads(d, k, before) && before.ok && k < |before.d.g.images|
    ensures Uploads(d, k + 1, Upload(before.d, k, fate))
  {
    var last := Upload(before.d, k, fate);
    UploadConsistent(before.d, k, fate);
    SameBodiesTrans(d.g.images, before.d.g.images, last.d.g.images);
    if last.ok { OneMorePersisted(before.d, last.d, k); }
  }

  /** What the loop's rounds keep, the loop keeps. */
  lemma {:induction false} UploadInduction(d: Draft, n: nat, fates: seq<Fate>, kept: (Pass, nat) -> bool)
    requires kept(Pass(d, true), 0)
    requires forall p: Pass, k: nat :: kept(p, k) && k < n ==> kept(NextUpload(p, k, fates), k + 1)
    ensures kept(UploadFirst(d, n, fates), n)
  {
    if n > 0 { UploadInduction(d, n - 1, fates, kept); }
  }

  lemma UploadFirstConsistent(d: Draft, n: nat, fates: seq<Fate>)
    requires Consistent(d) && n <= |d.g.images|
    ensures Uploads(d, n, UploadFirst(d, n, fates))
  {
    var kept := (p: Pass, k: nat) => Uploads(d, k, p);
    forall p: Pass, k: nat | kept(p, k) && k < n ensures kept(NextUpload(p, k, fates), k + 1) {
      if p.ok { UploadsOneMore(d, p, k, FateAt(fates, k)); }
    }
    UploadInduction(d, n, fates, kept);
  }

  lemma {:induction false} StopsForGood(d: Draft, k: nat, m: nat, fates: seq<Fate>)
    requires k <= m && !UploadFirst(d, k, fates).ok
    ensures UploadFirst(d, m, fates) == UploadFirst(d, k, fates)
  {
    if k < m {
      StopsForGood(d, k, m - 1, fates);
      assert UploadFirst(d, m, fates) == UploadFirst(d, m - 1, fates);
    }
  }

  lemma OrderConsistent(d: Draft, fate: Fate)
    requires Consistent(d)
    ensures Consistent(PersistOrder(d, fate).d) && PersistOrder(d, fate).d.g == d.g
  {
    RowsConsistent(d, PersistOrder(d, fate).d.stored);
  }

  lemma SaveConsistent(d: Draft, fates: seq<Fate>, orderFate: Fate, checkFate: Fate)
    requires Consistent(d)
    ensures Consistent(SaveImages(d, fates, orderFate, checkFate).d)
  {
    if d.g.images != [] {
      UploadFirstConsistent(d, |d.g.images|, fates);
      OrderConsistent(UploadFirst(d, |d.g.images|, fates).d, orderFate);
    }
  }
}
