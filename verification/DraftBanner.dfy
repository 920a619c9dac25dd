/** What the "draft saved" banner says about the server, and exactly when a save can reach it. */
module DraftBanner {
  import opened Text
  import opened Gallery
  import opened DraftImages
  import opened DraftImageRuns

  // ---------------------------------------------------------------- ids

  function IdSet(ids: seq<nat>): set<nat> { set i | 0 <= i < |ids| :: ids[i] }

  lemma IdSetSnoc(front: seq<nat>, last: nat)
    requires DistinctIds(front + [last])
    ensures IdSet(front + [last]) == IdSet(front) + {last} && last !in IdSet(front) && DistinctIds(front)
  {
    var ids := front + [last];
    assert forall i :: 0 <= i < |front| ==> ids[i] == front[i];
    assert ids[|front|] == last;
  }

  lemma {:induction false} IdSetSize(ids: seq<nat>)
    requires DistinctIds(ids)
    ensures |IdSet(ids)| == |ids|
  {
    if ids != [] {
      var front, last := ids[..|ids| - 1], ids[|ids| - 1];
      assert ids == front + [last];
      IdSetSnoc(front, last);
      IdSetSize(front);
    }
  }

  lemma SubsetOfSameSize(a: set<nat>, b: set<nat>)
    requires a <= b && |a| == |b|
    ensures a == b
  {
    assert b == a + (b - a);
  }

  lemma StoredIdsDistinct(d: Draft)
    requires Consistent(d) && AllPersisted(d.g.images)
    ensures DistinctIds(Ids(d.g.images))
    ensures forall i :: 0 <= i < |d.g.images| ==>
      Ids(d.g.images)[i] < |d.stored| && d.stored[Ids(d.g.images)[i]].key == KeyOf(d.g.images[i])
  {
  }

  // ---------------------------------------------------------------- the banner

  /** The server shows the image where, and marked as, the gallery shows it. */
  predicate StoredAs(d: Draft, i: nat)
    requires i < |d.g.images|
  {
    var image := d.g.images[i];
    && image.persistedId.Some? && image.persistedId.value < |d.stored|
    && var row := d.stored[image.persistedId.value];
    row.live && row.key == KeyOf(image) && row.body.dataUrl == image.dataUrl && row.body.filename == image.filename
    && row.sort == i && row.primary == image.isPrimary
  }

  /** A live row belongs to an image of the gallery. */
  predicate Shown(d: Draft, j: nat)
    requires j < |d.stored|
  {
    exists i :: 0 <= i < |d.g.images| && KeyOf(d.g.images[i]) == d.stored[j].key
  }

  predicate Mirrored(d: Draft) {
    && (forall i :: 0 <= i < |d.g.images| ==> StoredAs(d, i))
    && (forall j :: 0 <= j < |d.stored| && d.stored[j].live ==> Shown(d, j))
  }

  /** Row `j` is that of image `i`: live, in its place, under its own key, with its bytes, its name and its mark. */
  predicate RowShows(d: Draft, i: nat, j: nat)
    requires i < |d.g.images| && j < |d.stored|
  {
    var image, row := d.g.images[i], d.stored[j];
    && row.live && row.key == KeyOf(image) && row.body.dataUrl == image.dataUrl && row.body.filename == image.filename
    && row.sort == i && row.primary == image.isPrimary
  }

  predicate HeldAs(d: Draft, i: nat)
    requires i < |d.g.images|
  {
    exists j :: 0 <= j < |d.stored| && RowShows(d, i, j)
  }

  /** What the server holds, whatever ids the form knows: every image of the gallery, and nothing else that is live. */
  predicate Held(d: Draft) {
    && (forall i :: 0 <= i < |d.g.images| ==> HeldAs(d, i))
    && (forall j :: 0 <= j < |d.stored| && d.stored[j].live ==> Shown(d, j))
  }

  /** The server mirrors the gallery exactly when it holds it and the form knows every id. */
  lemma MirroredIsHeld(d: Draft)
    requires Consistent(d)
    ensures Mirrored(d) <==> Held(d) && AllPersisted(d.g.images)
  {
    if Mirrored(d) {
      forall i | 0 <= i < |d.g.images| ensures HeldAs(d, i) {
        assert StoredAs(d, i) && RowShows(d, i, d.g.images[i].persistedId.value);
      }
      forall i | 0 <= i < |d.g.images| ensures d.g.images[i].persistedId.Some? { assert StoredAs(d, i); }
    }
    if Held(d) && AllPersisted(d.g.images) {
      forall i | 0 <= i < |d.g.images| ensures StoredAs(d, i) { ShownIsStored(d, i); }
    }
  }

  lemma ShownIsStored(d: Draft, i: nat)
    requires Consistent(d) && AllPersisted(d.g.images) && Held(d) && i < |d.g.images|
    ensures StoredAs(d, i)
  {
    assert HeldAs(d, i);
    var j :| 0 <= j < |d.stored| && RowShows(d, i, j);
    var id := d.g.images[i].persistedId.value;
    assert Tracked(d.g.images[i], d.stored);
    assert d.stored[id].key == d.stored[j].key;
    assert !(id < j) && !(j < id);
  }

  lemma AcceptedOrderIsExact(d: Draft)
    requires Consistent(d) && AllPersisted(d.g.images) && OrderAccepted(d.stored, Ids(d.g.images))
    ensures IdSet(Ids(d.g.images)) == LiveIds(d.stored)
  {
    StoredIdsDistinct(d);
    IdSetSize(Ids(d.g.images));
    SubsetOfSameSize(IdSet(Ids(d.g.images)), LiveIds(d.stored));
  }

  /** The draft after an accepted order. */
  function AfterOrder(d: Draft): Draft
    requires AllPersisted(d.g.images) && PrimaryOf(d.g.images) < |d.g.images|
  {
    d.(stored := Ordered(d.stored, Ids(d.g.images), Ids(d.g.images)[PrimaryOf(d.g.images)]))
  }

  lemma OrderedRow(stored: seq<Stored>, ids: seq<nat>, primary: nat, i: nat)
    requires DistinctIds(ids) && i < |ids| && ids[i] < |stored|
    ensures
      var row := Ordered(stored, ids, primary)[ids[i]];
      row == stored[ids[i]].(sort := i, primary := ids[i] == primary)
  {
  }

  lemma OrderedStoredAs(d: Draft, i: nat)
    requires Consistent(d) && AllPersisted(d.g.images) && OrderAccepted(d.stored, Ids(d.g.images))
    requires i < |d.g.images| && PrimaryOf(d.g.images) < |d.g.images| && OnlyPrimary(d.g.images, PrimaryOf(d.g.images))
    ensures StoredAs(AfterOrder(d), i)
  {
    var ids := Ids(d.g.images);
    var p := PrimaryOf(d.g.images);
    StoredIdsDistinct(d);
    OrderedRow(d.stored, ids, ids[p], i);
    assert Tracked(d.g.images[i], d.stored);
    assert ids[i] in LiveIds(d.stored);
    assert ids[i] == ids[p] <==> i == p;
  }

  lemma OrderedShown(d: Draft, j: nat)
    requires Consistent(d) && AllPersisted(d.g.images) && OrderAccepted(d.stored, Ids(d.g.images))
    requires PrimaryOf(d.g.images) < |d.g.images| && j < |d.stored| && d.stored[j].live
    ensures Shown(AfterOrder(d), j)
  {
    var ids := Ids(d.g.images);
    StoredIdsDistinct(d);
    AcceptedOrderIsExact(d);
    assert j in IdSet(ids);
    var i :| 0 <= i < |ids| && ids[i] == j;
    assert KeyOf(d.g.images[i]) == AfterOrder(d).stored[j].key;
  }

  lemma OrderedMirrors(d: Draft)
    requires Consistent(d) && d.g.images != [] && AllPersisted(d.g.images) && OrderAccepted(d.stored, Ids(d.g.images))
    requires PrimaryOf(d.g.images) < |d.g.images|
    ensures Mirrored(AfterOrder(d))
  {
    var p :| 0 <= p < |d.g.images| && OnlyPrimary(d.g.images, p);
    PrimaryIsOnly(d.g.images, p);
    forall i | 0 <= i < |d.g.images| ensures StoredAs(AfterOrder(d), i) {
      OrderedStoredAs(d, i);
    }
    forall j | 0 <= j < |AfterOrder(d).stored| && AfterOrder(d).stored[j].live ensures Shown(AfterOrder(d), j) {
      OrderedShown(d, j);
    }
  }

  lemma PrimaryInside(images: seq<Image>)
    requires WellFormed(images) && images != []
    ensures PrimaryOf(images) < |images|
  {
  }

  /** A save of a non-empty gallery that sets the banner: every image is on the server, in its place, under its own key,
      with its mark, and the server holds nothing else. */
  lemma BannerMeansMirrored(d: Draft, fates: seq<Fate>, orderFate: Fate, checkFate: Fate)
    requires Consistent(d) && d.g.hasDraft && d.g.images != []
    requires SaveImages(d, fates, orderFate, checkFate).ok
    ensures Consistent(SaveImages(d, fates, orderFate, checkFate).d)
      && Mirrored(SaveImages(d, fates, orderFate, checkFate).d)
    ensures SameBodies(d.g.images, SaveImages(d, fates, orderFate, checkFate).d.g.images)
  {
    SaveConsistent(d, fates, orderFate, checkFate);
    UploadFirstConsistent(d, |d.g.images|, fates);
    var uploaded := UploadFirst(d, |d.g.images|, fates).d;
    assert AllPersisted(uploaded.g.images);
    PrimaryInside(uploaded.g.images);
    OrderedMirrors(uploaded);
  }

  /** With its own key, a mirrored image is stored exactly once. */
  lemma StoredOnce(d: Draft, i: nat, j: nat)
    requires Consistent(d) && Mirrored(d) && i < |d.g.images| && j < |d.stored|
    ensures d.stored[j].key == KeyOf(d.g.images[i]) <==> d.g.images[i].persistedId == Some(j)
  {
    assert StoredAs(d, i);
  }

  // ---------------------------------------------------------------- what a save keeps

  /** Rows keep their key, body and liveness; images keep their ids. */
  predicate Extends(a: Draft, b: Draft) {
    && |a.stored| <= |b.stored| && |a.g.images| == |b.g.images|
    && (forall j :: 0 <= j < |a.stored| ==>
          b.stored[j].key == a.stored[j].key && b.stored[j].body == a.stored[j].body
              && b.stored[j].live == a.stored[j].live)
    && (forall i :: 0 <= i < |a.g.images| ==>
          KeyOf(b.g.images[i]) == KeyOf(a.g.images[i]) && BodyOf(b.g.images[i], i) == BodyOf(a.g.images[i], i)
          && (a.g.images[i].persistedId.Some? ==> b.g.images[i].persistedId == a.g.images[i].persistedId))
  }

  lemma StoreExtends(d: Draft, key: nat, body: Body)
    ensures Extends(d, d.(stored := StoreImage(d.stored, key, body)))
  {
  }

  lemma AckExtends(d: Draft, index: nat, id: nat)
    requires WellFormed(d.g.images) && index < |d.g.images| && d.g.images[index].persistedId.None?
    ensures Extends(d, AckAt(d, index, id))
  {
    AckIs(d, index, id);
  }

  lemma UploadExtends(d: Draft, index: nat, fate: Fate)
    requires Consistent(d) && index < |d.g.images|
    ensures Extends(d, Upload(d, index, fate).d)
  {
    var image := d.g.images[index];
    if image.persistedId.None? && Processed(fate) {
      var key, body := KeyOf(image), BodyOf(image, index);
      var asked := d.(resent := d.resent + if key in d.acked then 1 else 0);
      var served := asked.(stored := StoreImage(d.stored, key, body));
      StoreExtends(asked, key, body);
      if AnswerTo(d.stored, key, body).Saved? && fate == Answered {
        AckExtends(served, index, AnswerTo(d.stored, key, body).id);
        ExtendsTrans(d, served, AckAt(served, index, AnswerTo(d.stored, key, body).id));
      }
    }
  }

  lemma ExtendsTrans(a: Draft, b: Draft, c: Draft)
    requires Extends(a, b) && Extends(b, c)
    ensures Extends(a, c)
  {
  }

  lemma NextUploadExtends(d: Draft, p: Pass, k: nat, fates: seq<Fate>)
    requires Consistent(p.d) && Extends(d, p.d)
    ensures Consistent(NextUpload(p, k, fates).d) && Extends(d, NextUpload(p, k, fates).d)
  {
    if p.ok && k < |p.d.g.images| {
      UploadConsistent(p.d, k, FateAt(fates, k));
      UploadExtends(p.d, k, FateAt(fates, k));
      ExtendsTrans(d, p.d, Upload(p.d, k, FateAt(fates, k)).d);
    }
  }

  lemma UploadFirstExtends(d: Draft, n: nat, fates: seq<Fate>)
    requires Consistent(d)
    ensures Extends(d, UploadFirst(d, n, fates).d)
  {
    var kept := (p: Pass, k: nat) => Consistent(p.d) && Extends(d, p.d);
    forall p: Pass, k: nat | kept(p, k) && k < n ensures kept(NextUpload(p, k, fates), k + 1) {
      NextUploadExtends(d, p, k, fates);
    }
    UploadInduction(d, n, fates, kept);
  }

  lemma OrderExtends(d: Draft, fate: Fate)
    ensures Extends(d, PersistOrder(d, fate).d)
  {
  }

  lemma SaveExtends(d: Draft, fates: seq<Fate>, orderFate: Fate, checkFate: Fate)
    requires Consistent(d)
    ensures Extends(d, SaveImages(d, fates, orderFate, checkFate).d)
  {
    if d.g.images != [] {
      UploadFirstExtends(d, |d.g.images|, fates);
      var uploaded := UploadFirst(d, |d.g.images|, fates).d;
      OrderExtends(uploaded, orderFate);
      ExtendsTrans(d, uploaded, PersistOrder(uploaded, orderFate).d);
    }
  }

  // ---------------------------------------------------------------- what blocks a save

  /** An upload whose reply was lost is accepted again exactly as it was sent: same position, same mark. */
  lemma ReuploadAccepted(d: Draft, i: nat, j: nat)
    requires Consistent(d) && i < |d.g.images| && j < |d.stored| && d.stored[j].key == KeyOf(d.g.images[i])
    ensures
      AnswerTo(d.stored, KeyOf(d.g.images[i]), BodyOf(d.g.images[i], i)) == Saved(j)
      <==> d.stored[j].body.sortOrder == i && d.stored[j].body.isPrimary == d.g.images[i].isPrimary
  {
    assert Tracked(d.g.images[i], d.stored);
    var f := Find(d.stored, KeyOf(d.g.images[i]), |d.stored|);
    assert f == j;
  }

  /** Not yet acknowledged, but stored as something else than it is now. */
  predicate Blocked(d: Draft, i: nat, j: nat) {
    && i < |d.g.images| && j < |d.stored| && d.g.images[i].persistedId.None?
    && d.stored[j].key == KeyOf(d.g.images[i]) && d.stored[j].body != BodyOf(d.g.images[i], i)
  }

  lemma BlockedFails(d: Draft, i: nat, j: nat, fate: Fate)
    requires Consistent(d) && Blocked(d, i, j)
    ensures !Upload(d, i, fate).ok
  {
  }

  lemma OtherUpload(d: Draft, i: nat, j: nat, index: nat, fate: Fate)
    requires Consistent(d) && Blocked(d, i, j) && index < |d.g.images| && index != i
    ensures Blocked(Upload(d, index, fate).d, i, j)
  {
    UploadConsistent(d, index, fate);
    UploadExtends(d, index, fate);
  }

  /** Still blocked, with the image not yet reached. */
  predicate Stuck(p: Pass, i: nat, j: nat, k: nat) {
    Consistent(p.d) && (p.ok ==> k <= i && Blocked(p.d, i, j))
  }

  lemma NextUploadStuck(p: Pass, i: nat, j: nat, k: nat, fates: seq<Fate>)
    requires Stuck(p, i, j, k)
    ensures Stuck(NextUpload(p, k, fates), i, j, k + 1)
  {
    if p.ok {
      UploadConsistent(p.d, k, FateAt(fates, k));
      if k == i {
        BlockedFails(p.d, i, j, FateAt(fates, k));
      } else {
        OtherUpload(p.d, i, j, k, FateAt(fates, k));
      }
    }
  }

  lemma StillBlocked(d: Draft, i: nat, j: nat, n: nat, fates: seq<Fate>)
    requires Consistent(d) && Blocked(d, i, j)
    ensures Stuck(UploadFirst(d, n, fates), i, j, n)
  {
    var kept := (p: Pass, k: nat) => Stuck(p, i, j, k);
    forall p: Pass, k: nat | kept(p, k) && k < n ensures kept(NextUpload(p, k, fates), k + 1) {
      NextUploadStuck(p, i, j, k, fates);
    }
    UploadInduction(d, n, fates, kept);
  }

  /** Moved or re-marked after its reply was lost, an image blocks every save, whatever the network does. */
  lemma MovedAfterLostReply(d: Draft, i: nat, j: nat, fates: seq<Fate>, orderFate: Fate, checkFate: Fate)
    requires Consistent(d) && Blocked(d, i, j)
    ensures !SaveImages(d, fates, orderFate, checkFate).ok
  {
    StillBlocked(d, i, j, |d.g.images|, fates);
  }

  // ---------------------------------------------------------------- exactly when a save succeeds

  /** Every image is new, or stored live as it is now; and the server shows nothing the gallery does not. */
  predicate Settleable(d: Draft) {
    && (forall i :: 0 <= i < |d.g.images| ==> SettledOrNew(d, i))
    && (forall j :: 0 <= j < |d.stored| && d.stored[j].live ==> Shown(d, j))
  }

  predicate SettledOrNew(d: Draft, i: nat)
    requires i < |d.g.images|
  {
    forall j :: 0 <= j < |d.stored| && d.stored[j].key == KeyOf(d.g.images[i]) ==>
      d.stored[j].live && (d.g.images[i].persistedId.None? ==> d.stored[j].body == BodyOf(d.g.images[i], i))
  }

  lemma BannerNeedsSettleable(d: Draft, fates: seq<Fate>, orderFate: Fate, checkFate: Fate)
    requires Consistent(d) && d.g.hasDraft && d.g.images != []
    requires SaveImages(d, fates, orderFate, checkFate).ok
    ensures Settleable(d)
  {
    var after := SaveImages(d, fates, orderFate, checkFate).d;
    BannerMeansMirrored(d, fates, orderFate, checkFate);
    SaveExtends(d, fates, orderFate, checkFate);
    forall i | 0 <= i < |d.g.images| ensures SettledOrNew(d, i) {
      assert StoredAs(after, i);
      forall j | 0 <= j < |d.stored| && d.stored[j].key == KeyOf(d.g.images[i])
        ensures d.stored[j].live && (d.g.images[i].persistedId.None? ==> d.stored[j].body == BodyOf(d.g.images[i], i))
      {
        StoredOnce(after, i, j);
        StillBlockedOtherwise(d, i, j, fates, orderFate, checkFate);
      }
    }
    forall j | 0 <= j < |d.stored| && d.stored[j].live ensures Shown(d, j) {
      assert Shown(after, j);
      var i :| 0 <= i < |after.g.images| && KeyOf(after.g.images[i]) == after.stored[j].key;
      assert KeyOf(d.g.images[i]) == d.stored[j].key;
    }
  }

  lemma StillBlockedOtherwise(d: Draft, i: nat, j: nat, fates: seq<Fate>, orderFate: Fate, checkFate: Fate)
    requires Consistent(d) && i < |d.g.images| && j < |d.stored| && d.stored[j].key == KeyOf(d.g.images[i])
    requires SaveImages(d, fates, orderFate, checkFate).ok
    ensures d.g.images[i].persistedId.None? ==> d.stored[j].body == BodyOf(d.g.images[i], i)
  {
    if Blocked(d, i, j) { MovedAfterLostReply(d, i, j, fates, orderFate, checkFate); }
  }

  predicate AllAnswered(fates: seq<Fate>, n: nat) {
    n <= |fates| && forall i :: 0 <= i < n ==> fates[i] == Answered
  }

  function KeysOf(stored: seq<Stored>, ids: set<nat>): set<nat>
    requires ids <= LiveIds(stored)
  {
    set j | j in ids :: stored[j].key
  }

  function GalleryKeys(images: seq<Image>): seq<nat> {
    seq(|images|, i requires 0 <= i < |images| => KeyOf(images[i]))
  }

  lemma GalleryKeysDistinct(d: Draft)
    requires DistinctKeys(d.g)
    ensures DistinctIds(GalleryKeys(d.g.images))
  {
  }

  /** The live rows are at most as many as the images, so the server's limit is out of reach. */
  lemma FewLive(d: Draft)
    requires Consistent(d) && Settleable(d)
    ensures |LiveIds(d.stored)| <= |d.g.images|
  {
    var keys := KeysOf(d.stored, LiveIds(d.stored));
    var gallery := GalleryKeys(d.g.images);
    GalleryKeysDistinct(d);
    IdSetSize(gallery);
    forall key | key in keys ensures key in IdSet(gallery) {
      var j :| j in LiveIds(d.stored) && d.stored[j].key == key;
      assert Shown(d, j);
      var i :| 0 <= i < |d.g.images| && KeyOf(d.g.images[i]) == d.stored[j].key;
      assert gallery[i] == key;
    }
    KeysOfLive(d, LiveIds(d.stored));
    SubsetSize(keys, IdSet(gallery));
  }

  lemma SubsetSize(a: set<nat>, b: set<nat>)
    requires a <= b
    ensures |a| <= |b|
  {
    assert b == a + (b - a);
  }

  lemma OneMoreKey(d: Draft, rest: set<nat>, j: nat)
    requires StoredKeys(d) && rest <= LiveIds(d.stored) && j in LiveIds(d.stored) && j !in rest
    ensures KeysOf(d.stored, rest + {j}) == KeysOf(d.stored, rest) + {d.stored[j].key}
    ensures d.stored[j].key !in KeysOf(d.stored, rest)
  {
  }

  lemma {:induction false} KeysOfLive(d: Draft, ids: set<nat>)
    requires StoredKeys(d) && ids <= LiveIds(d.stored)
    ensures |ids| == |KeysOf(d.stored, ids)|
  {
    if ids == {} {
      assert KeysOf(d.stored, ids) == {};
    } else {
      var j :| j in ids;
      var rest := ids - {j};
      assert ids == rest + {j};
      KeysOfLive(d, rest);
      OneMoreKey(d, rest, j);
      OneLarger(KeysOf(d.stored, rest), d.stored[j].key);
      OneLarger(rest, j);
    }
  }

  lemma OneLarger(s: set<nat>, x: nat)
    requires x !in s
    ensures |s + {x}| == |s| + 1
  {
  }

  lemma AnsweredUpload(d: Draft, index: nat)
    requires Consistent(d) && Settleable(d) && index < |d.g.images|
    ensures Upload(d, index, Answered).ok
  {
    FewLive(d);
    assert SettledOrNew(d, index);
  }

  lemma UploadRows(d: Draft, index: nat)
    requires Consistent(d) && index < |d.g.images| && d.g.images[index].persistedId.None?
    ensures
      var after := Upload(d, index, Answered).d.stored;
      var image := d.g.images[index];
      && |d.stored| <= |after| <= |d.stored| + 1
      && (|after| > |d.stored| ==>
            after[|d.stored|].key == KeyOf(image) && after[|d.stored|].body == BodyOf(image, index)
                && after[|d.stored|].live
            && forall j :: 0 <= j < |d.stored| ==> d.stored[j].key != KeyOf(image))
  {
  }

  lemma RowStaysSettled(d: Draft, index: nat, i: nat)
    requires Consistent(d) && Settleable(d) && index < |d.g.images| && d.g.images[index].persistedId.None?
      && i < |d.g.images|
    ensures i < |Upload(d, index, Answered).d.g.images| && SettledOrNew(Upload(d, index, Answered).d, i)
  {
    UploadConsistent(d, index, Answered);
    UploadExtends(d, index, Answered);
    UploadRows(d, index);
    assert SettledOrNew(d, i);
    if i != index { KeysApart(d, i, index); }
  }

  lemma RowStaysShown(d: Draft, index: nat, j: nat)
    requires Consistent(d) && Settleable(d) && index < |d.g.images| && d.g.images[index].persistedId.None?
    requires j < |Upload(d, index, Answered).d.stored| && Upload(d, index, Answered).d.stored[j].live
    ensures Shown(Upload(d, index, Answered).d, j)
  {
    var after := Upload(d, index, Answered).d;
    UploadExtends(d, index, Answered);
    UploadRows(d, index);
    if j < |d.stored| {
      assert Shown(d, j);
      var i :| 0 <= i < |d.g.images| && KeyOf(d.g.images[i]) == d.stored[j].key;
      assert KeyOf(after.g.images[i]) == after.stored[j].key;
    } else {
      assert KeyOf(after.g.images[index]) == after.stored[j].key;
    }
  }

  lemma UploadStaysSettleable(d: Draft, index: nat)
    requires Consistent(d) && Settleable(d) && index < |d.g.images|
    ensures Settleable(Upload(d, index, Answered).d)
  {
    if d.g.images[index].persistedId.None? {
      var after := Upload(d, index, Answered).d;
      UploadExtends(d, index, Answered);
      forall i | 0 <= i < |after.g.images| ensures SettledOrNew(after, i) {
        RowStaysSettled(d, index, i);
      }
      forall j | 0 <= j < |after.stored| && after.stored[j].live ensures Shown(after, j) {
        RowStaysShown(d, index, j);
      }
    }
  }

  predicate Settling(p: Pass, n: nat) {
    p.ok && Consistent(p.d) && Settleable(p.d) && |p.d.g.images| == n
  }

  lemma NextUploadSettling(p: Pass, n: nat, k: nat, fates: seq<Fate>)
    requires Settling(p, n) && k < n && AllAnswered(fates, n)
    ensures Settling(NextUpload(p, k, fates), n)
  {
    UploadConsistent(p.d, k, Answered);
    AnsweredUpload(p.d, k);
    UploadStaysSettleable(p.d, k);
  }

  lemma AnsweredUploads(d: Draft, n: nat, fates: seq<Fate>)
    requires Consistent(d) && Settleable(d) && n == |d.g.images| && AllAnswered(fates, n)
    ensures Settling(UploadFirst(d, n, fates), n)
  {
    var kept := (p: Pass, k: nat) => Settling(p, n);
    forall p: Pass, k: nat | kept(p, k) && k < n ensures kept(NextUpload(p, k, fates), k + 1) {
      NextUploadSettling(p, n, k, fates);
    }
    UploadInduction(d, n, fates, kept);
  }

  lemma SettledOrderAccepted(d: Draft)
    requires Consistent(d) && Settleable(d) && AllPersisted(d.g.images)
    ensures OrderAccepted(d.stored, Ids(d.g.images)) && |LiveIds(d.stored)| == |d.g.images|
  {
    var ids := Ids(d.g.images);
    StoredIdsDistinct(d);
    IdSetSize(ids);
    forall k | 0 <= k < |ids| ensures ids[k] in LiveIds(d.stored) {
      assert SettledOrNew(d, k);
    }
    forall j | j in LiveIds(d.stored) ensures j in IdSet(ids) {
      assert Shown(d, j);
      var i :| 0 <= i < |d.g.images| && KeyOf(d.g.images[i]) == d.stored[j].key;
      assert ids[i] == j;
    }
    assert IdSet(ids) == LiveIds(d.stored);
  }

  lemma SettleableBanner(d: Draft, fates: seq<Fate>)
    requires Consistent(d) && d.g.hasDraft && d.g.images != [] && Settleable(d) && AllAnswered(fates, |d.g.images|)
    ensures SaveImages(d, fates, Answered, Answered).ok
  {
    AnsweredUploads(d, |d.g.images|, fates);
    UploadFirstConsistent(d, |d.g.images|, fates);
    var uploaded := UploadFirst(d, |d.g.images|, fates).d;
    assert AllPersisted(uploaded.g.images);
    PrimaryInside(uploaded.g.images);
    SettledOrderAccepted(uploaded);
    OrderedLive(uploaded.stored, Ids(uploaded.g.images), Ids(uploaded.g.images)[PrimaryOf(uploaded.g.images)]);
  }

  lemma OrderedLive(stored: seq<Stored>, ids: seq<nat>, primary: nat)
    ensures LiveIds(Ordered(stored, ids, primary)) == LiveIds(stored)
  {
  }

  /** On a network that answers, a save sets the banner if and only if every image is new or stored live as it is now,
      and the server shows nothing else: no orphan of a lost reply, no image changed since, no half-done deletion. */
  lemma SaveSucceedsIff(d: Draft, fates: seq<Fate>)
    requires Consistent(d) && d.g.hasDraft && d.g.images != [] && AllAnswered(fates, |d.g.images|)
    ensures SaveImages(d, fates, Answered, Answered).ok <==> Settleable(d)
  {
    if Settleable(d) { SettleableBanner(d, fates); }
    if SaveImages(d, fates, Answered, Answered).ok { BannerNeedsSettleable(d, fates, Answered, Answered); }
  }

  /** For any gallery: the banner means that the server mirrors it exactly when there is an image to save or the server
      showed none. */
  lemma BannerMirrorsIff(d: Draft, fates: seq<Fate>, orderFate: Fate, checkFate: Fate)
    requires Consistent(d) && d.g.hasDraft && SaveImages(d, fates, orderFate, checkFate).ok
    ensures Mirrored(SaveImages(d, fates, orderFate, checkFate).d) <==> d.g.images != [] || LiveIds(d.stored) == {}
  {
    if d.g.images != [] {
      BannerMeansMirrored(d, fates, orderFate, checkFate);
    } else {
      assert forall j :: 0 <= j < |d.stored| && d.stored[j].live ==> j in LiveIds(d.stored);
      assert LiveIds(d.stored) != {} ==> !Mirrored(d) by {
        if j :| j in LiveIds(d.stored) { assert !Shown(d, j); }
      }
    }
  }

  // ---------------------------------------------------------------- runs

  const PICTURE := Image("d", "f", "m", 1, true, None, Pending, Some(0))
  const PICKED := Draft(Store([PICTURE], 5, true), [], {}, 0)

  lemma LostUpload()
    ensures Consistent(PICKED)
    ensures
      var lost := SaveImages(PICKED, [ReplyLost], Answered, Answered).d;
      lost.g == PICKED.g && lost.stored == StoreImage([], 0, BodyOf(PICTURE, 0)) && LiveIds(lost.stored) == {0}
  {
    assert OnlyPrimary(PICKED.g.images, 0);
    assert AllTracked(PICKED);
    assert LiveIds([]) == {};
    assert UploadFirst(PICKED, 0, [ReplyLost]) == Pass(PICKED, true);
    assert UploadFirst(PICKED, 1, [ReplyLost]) == Upload(PICKED, 0, ReplyLost);
  }

  /** A run: the upload's reply is lost, the image is removed, and the empty gallery is announced as saved while the
      server still shows the image. */
  lemma EmptyGalleryHidesOrphan()
    ensures
      var lost := SaveImages(PICKED, [ReplyLost], Answered, Answered).d;
      var removed := lost.(g := Do(lost.g, Remove(0, true)));
      && Consistent(PICKED) && removed.g.images == [] && |LiveIds(removed.stored)| == 1
      && SaveImages(removed, [], Answered, Answered).ok
  {
    var lost := SaveImages(PICKED, [ReplyLost], Answered, Answered).d;
    LostUpload();
    assert RemoveAt(lost.g.images, 0) == [];
    assert SpliceStart(1, 0) == 0;
  }

  const SECOND := Image("e", "f", "m", 1, false, None, Pending, Some(1))
  const PAIR := Draft(Store([PICTURE, SECOND], 5, true), [], {}, 0)

  lemma PairConsistent()
    ensures Consistent(PAIR)
  {
    assert OnlyPrimary(PAIR.g.images, 0);
    assert AllTracked(PAIR);
  }

  lemma PairLost()
    ensures
      var lost := SaveImages(PAIR, [ReplyLost], Answered, Answered).d;
      lost.g == PAIR.g && lost.stored == StoreImage([], 0, BodyOf(PICTURE, 0))
  {
    var fates := [ReplyLost];
    assert UploadFirst(PAIR, 0, fates) == Pass(PAIR, true);
    assert UploadFirst(PAIR, 1, fates) == Upload(PAIR, 0, ReplyLost);
    assert UploadFirst(PAIR, 2, fates) == UploadFirst(PAIR, 1, fates);
  }

  lemma PairMarked()
    ensures
      var after := Do(PAIR.g, MakePrimary(1)).images;
      |after| == 2 && after[0].key == Some(0) && !after[0].isPrimary && after[0].persistedId == None
  {
    PairConsistent();
    PrimaryChosen(PAIR.g, 1);
    var after := Do(PAIR.g, MakePrimary(1)).images;
    assert |Cores(after)| == |after| && |Cores(PAIR.g.images)| == 2;
    assert Cores(after)[0] == Core(after[0]) && Cores(PAIR.g.images)[0] == Core(PICTURE);
    assert after[0].key == Core(after[0]).key && after[0].persistedId == Core(after[0]).persistedId;
  }

  /** A run: the first of two images is stored and its reply lost; then the second is made primary. Every later save is
      refused, whatever the network does. */
  lemma MarkedAfterLostReply(fates: seq<Fate>, orderFate: Fate, checkFate: Fate)
    ensures
      var lost := SaveImages(PAIR, [ReplyLost], Answered, Answered).d;
      var marked := lost.(g := Do(lost.g, MakePrimary(1)));
      Consistent(PAIR) && Blocked(marked, 0, 0) && !SaveImages(marked, fates, orderFate, checkFate).ok
  {
    var lost := SaveImages(PAIR, [ReplyLost], Answered, Answered).d;
    var marked := lost.(g := Do(lost.g, MakePrimary(1)));
    PairConsistent();
    PairLost();
    PairMarked();
    assert LiveIds([]) == {};
    assert Blocked(marked, 0, 0);
    SaveConsistent(PAIR, [ReplyLost], Answered, Answered);
    MarkedConsistent(lost, 1);
    MovedAfterLostReply(marked, 0, 0, fates, orderFate, checkFate);
  }

  lemma MarkedConsistent(d: Draft, selected: nat)
    requires Consistent(d) && selected < |d.g.images|
    ensures Consistent(d.(g := Do(d.g, MakePrimary(selected))))
  {
    var after := Do(d.g, MakePrimary(selected));
    EditWellFormed(d.g, MakePrimary(selected));
    EditDistinct(d.g, MakePrimary(selected));
    PrimaryChosen(d.g, selected);
    assert |Cores(after.images)| == |after.images| && |Cores(d.g.images)| == |d.g.images|;
    forall i | 0 <= i < |after.images| ensures Tracked(after.images[i], d.stored) {
      assert Cores(after.images)[i] == Core(after.images[i]) && Cores(d.g.images)[i] == Core(d.g.images[i]);
      assert Tracked(d.g.images[i], d.stored);
      SameCoreTracked(d.g.images[i], after.images[i], d.stored);
    }
  }

  lemma SameCoreTracked(a: Image, b: Image, stored: seq<Stored>)
    requires Tracked(a, stored) && Core(a) == Core(b)
    ensures Tracked(b, stored)
  {
    assert KeyOf(a) == KeyOf(b) && a.dataUrl == Core(a).dataUrl == b.dataUrl
        && a.filename == Core(a).filename == b.filename;
    assert a.persistedId == Core(a).persistedId == b.persistedId;
  }
}
