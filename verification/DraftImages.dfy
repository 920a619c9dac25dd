/** Storing the gallery of a draft over a lossy network, against a server that honours upload keys. */
module DraftImages {
  import opened Text
  import opened Gallery

  const SERVER_LIMIT := 12

  /** What happens to one request: not processed, or processed with its reply lost or not. */
  datatype Fate = NotProcessed | ReplyLost | Answered

  predicate Processed(fate: Fate) { fate == ReplyLost || fate == Answered }

  /** The hashed request: the bytes, the file name, the primary mark and the position. */
  datatype Body = Body(dataUrl: string, filename: string, isPrimary: bool, sortOrder: nat)

  /** A stored image with its idempotency row; its id is its position. A deleted image keeps its idempotency row. */
  datatype Stored = Stored(key: nat, body: Body, live: bool, sort: nat, primary: bool)

  datatype ImageAnswer = Saved(id: nat) | DifferentBody | LimitReached

  /** `acked` collects the keys whose upload was answered; `resent` counts the requests that carried such a key again.
      */
  datatype Draft = Draft(g: Store, stored: seq<Stored>, acked: set<nat>, resent: nat)

  // ---------------------------------------------------------------- the server

  function Find(stored: seq<Stored>, key: nat, k: nat): (i: int)
    requires k <= |stored|
    ensures -1 <= i < k
    ensures i >= 0 ==> stored[i].key == key
    ensures i < 0 ==> forall j :: 0 <= j < k ==> stored[j].key != key
  {
    if k == 0 then -1 else if stored[k - 1].key == key then k - 1 else Find(stored, key, k - 1)
  }

  function LiveIds(stored: seq<Stored>): set<nat> {
    set i: nat | i < |stored| && stored[i].live
  }

  predicate HasPrimary(stored: seq<Stored>) {
    exists i :: 0 <= i < |stored| && stored[i].live && stored[i].primary
  }

  function Demoted(stored: seq<Stored>): seq<Stored> {
    seq(|stored|, i requires 0 <= i < |stored| => stored[i].(primary := false))
  }

  function AnswerTo(stored: seq<Stored>, key: nat, body: Body): ImageAnswer {
    var i := Find(stored, key, |stored|);
    if i >= 0 then (if stored[i].body == body then Saved(i) else DifferentBody)
    else if |LiveIds(stored)| >= SERVER_LIMIT then LimitReached
    else Saved(|stored|)
  }

  /** The table after the request: one more row, unless it was a replay or an error. */
  function StoreImage(stored: seq<Stored>, key: nat, body: Body): seq<Stored> {
    if AnswerTo(stored, key, body) != Saved(|stored|) then stored
    else
      var primary := body.isPrimary || LiveIds(stored) == {} || !HasPrimary(stored);
      var sort := if body.sortOrder < SERVER_LIMIT then body.sortOrder else SERVER_LIMIT - 1;
      (if primary then Demoted(stored) else stored) + [Stored(key, body, true, sort, primary)]
  }

  predicate DistinctIds(ids: seq<nat>) {
    forall i, j :: 0 <= i < j < |ids| ==> ids[i] != ids[j]
  }

  /** ordered_image_ids must be exactly the live images, each once. */
  predicate OrderAccepted(stored: seq<Stored>, ids: seq<nat>) {
    DistinctIds(ids) && |ids| == |LiveIds(stored)| && forall k :: 0 <= k < |ids| ==> ids[k] in LiveIds(stored)
  }

  /** The position of an id in the order, or the length of the order. */
  function PositionIn(ids: seq<nat>, id: nat): (k: nat)
    ensures k <= |ids| && (k < |ids| ==> ids[k] == id) && forall j :: 0 <= j < k ==> ids[j] != id
  {
    if ids == [] || ids[0] == id then 0 else 1 + PositionIn(ids[1..], id)
  }

  function Ordered(stored: seq<Stored>, ids: seq<nat>, primary: nat): seq<Stored> {
    seq(|stored|, i requires 0 <= i < |stored| =>
      if i in ids then stored[i].(sort := PositionIn(ids, i), primary := i == primary) else stored[i].(primary := false))
  }

  /** The live image that comes first, or -1; equal positions by age. */
  function FirstLive(stored: seq<Stored>, k: nat): (i: int)
    requires k <= |stored|
    ensures -1 <= i < k
  {
    if k == 0 then -1
    else
      var i := FirstLive(stored, k - 1);
      if stored[k - 1].live && (i < 0 || stored[k - 1].sort < stored[i].sort) then k - 1 else i
  }

  /** DELETE of a live image; a deleted primary hands its mark to the first image left. */
  function DeleteImage(stored: seq<Stored>, id: nat): seq<Stored>
    requires id < |stored|
  {
    var without := stored[id := stored[id].(live := false, primary := false)];
    var first := FirstLive(without, |without|);
    if stored[id].primary && first >= 0 then without[first := without[first].(primary := true)] else without
  }

  // ---------------------------------------------------------------- the client

  datatype Pass = Pass(d: Draft, ok: bool)

  function FateAt(fates: seq<Fate>, i: nat): Fate { if i < |fates| then fates[i] else NotProcessed }

  function KeyOf(image: Image): nat { if image.key.Some? then image.key.value else 0 }

  function BodyOf(image: Image, index: nat): Body { Body(image.dataUrl, image.filename, image.isPrimary, index) }

  function Acknowledged(image: Image, id: nat): Image { image.(persistedId := Some(id), uploadState := Uploaded) }

  /** One round of the upload loop. */
  function Upload(d: Draft, index: nat, fate: Fate): Pass
    requires index < |d.g.images|
  {
    var image := d.g.images[index];
    var key := KeyOf(image);
    if image.persistedId.Some? then Pass(d, true)
    else
      var asked := d.(resent := d.resent + if key in d.acked then 1 else 0);
      if !Processed(fate) then Pass(asked, false)
      else
        var served := asked.(stored := StoreImage(d.stored, key, BodyOf(image, index)));
        match AnswerTo(d.stored, key, BodyOf(image, index))
        case Saved(id) =>
          if fate == ReplyLost then Pass(served, false)
          else Pass(served.(acked := d.acked + {key}, g := Write(d.g, d.g.images[index := Acknowledged(image, id)])), true)
        case _ => Pass(served, false)
  }

  /** The upload loop over the first `k` images; it stops at the first failure. */
  function UploadFirst(d: Draft, k: nat, fates: seq<Fate>): Pass {
    if k == 0 then Pass(d, true) else NextUpload(UploadFirst(d, k - 1, fates), k - 1, fates)
  }

  function NextUpload(p: Pass, k: nat, fates: seq<Fate>): Pass {
    if !p.ok || k >= |p.d.g.images| then p else Upload(p.d, k, FateAt(fates, k))
  }

  predicate AllPersisted(images: seq<Image>) {
    forall i :: 0 <= i < |images| ==> images[i].persistedId.Some?
  }

  function Ids(images: seq<Image>): seq<nat>
    requires AllPersisted(images)
  {
    seq(|images|, i requires 0 <= i < |images| => images[i].persistedId.value)
  }

  /** persistSellerImageOrder: nothing to send unless every image is stored. */
  function PersistOrder(d: Draft, fate: Fate): Pass {
    if !d.g.hasDraft || d.g.images == [] || !AllPersisted(d.g.images)
        || PrimaryOf(d.g.images) >= |d.g.images| then Pass(d, true)
    else if !Processed(fate) || !OrderAccepted(d.stored, Ids(d.g.images)) then Pass(d, false)
    else
      var ids := Ids(d.g.images);
      Pass(d.(stored := Ordered(d.stored, ids, ids[PrimaryOf(d.g.images)])), fate == Answered)
  }

  /** The part of createDeal after the draft exists; `ok` is the "draft saved" banner. */
  function SaveImages(d: Draft, fates: seq<Fate>, orderFate: Fate, checkFate: Fate): Pass {
    if d.g.images == [] then Pass(d, true)
    else
      var uploaded := UploadFirst(d, |d.g.images|, fates);
      if !uploaded.ok then uploaded
      else
        var ordered := PersistOrder(uploaded.d, orderFate);
        Pass(ordered.d, ordered.ok && checkFate == Answered && |LiveIds(ordered.d.stored)| >= |ordered.d.g.images|)
  }

  // ---------------------------------------------------------------- the invariant

  predicate StoredKeys(d: Draft) {
    && (forall i :: 0 <= i < |d.stored| ==> d.stored[i].key < d.g.nextKey)
    && (forall i, j :: 0 <= i < j < |d.stored| ==> d.stored[i].key != d.stored[j].key)
    && (forall key :: key in d.acked ==> key < d.g.nextKey)
  }

  /** What the server knows of one gallery image. */
  predicate Tracked(image: Image, stored: seq<Stored>) {
    && (image.persistedId.Some? ==> image.persistedId.value < |stored| && stored[image.persistedId.value].key == KeyOf(image))
    && (forall j :: 0 <= j < |stored| && stored[j].key == KeyOf(image) ==>
          stored[j].body.dataUrl == image.dataUrl && stored[j].body.filename == image.filename)
  }

  predicate AllTracked(d: Draft) {
    forall i :: 0 <= i < |d.g.images| ==> Tracked(d.g.images[i], d.stored)
  }

  predicate Consistent(d: Draft) {
    WellFormed(d.g.images) && DistinctKeys(d.g) && StoredKeys(d) && AllTracked(d)
  }

  /** An image without an id was not acknowledged. */
  predicate Honest(images: seq<Image>, acked: set<nat>) {
    forall i :: 0 <= i < |images| && images[i].persistedId.None? ==> KeyOf(images[i]) !in acked
  }
}
