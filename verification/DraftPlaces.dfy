/** Overlapping submits of images that are in their places, or not stored yet: the server holds the gallery at the
    banner. */
module DraftPlaces {
  import opened Gallery
  import opened DraftImages
  import opened DraftImageRuns
  import opened DraftBanner
  import opened DraftTasks
  import opened DraftTaskRuns
  import opened DraftAlone
  import opened DraftOverlaps

  // ---------------------------------------------------------------- rows in their places

  /** The row is what an upload of image `i` stored, where it stored it. */
  predicate InPlace(row: Stored, start: seq<Image>, i: nat)
    requires i < |start|
  {
    row.live && row.key == KeyOf(start[i]) && row.body == BodyOf(start[i], i) && row.sort == i
  }

  predicate HasPlace(row: Stored, start: seq<Image>) { exists i :: 0 <= i < |start| && InPlace(row, start, i) }

  predicate PrimaryRow(row: Stored, start: seq<Image>) {
    PrimaryOf(start) < |start| && row.key == KeyOf(start[PrimaryOf(start)])
  }

  /** Every row has its place; once the primary image is stored, it alone has the mark. */
  predicate Placed(stored: seq<Stored>, start: seq<Image>) {
    && (forall j :: 0 <= j < |stored| ==> HasPlace(stored[j], start))
    && (forall j, m :: 0 <= j < |stored| && 0 <= m < |stored| && PrimaryRow(stored[j], start) ==>
          (stored[m].primary <==> m == j))
  }

  /** What a submit of this gallery may ask of these rows. */
  predicate Fine(stored: seq<Stored>, r: Request, start: seq<Image>) {
    match r
    case PostImage(key, body) => exists i :: 0 <= i < |start| && key == KeyOf(start[i]) && body == BodyOf(start[i], i)
    case PatchOrder(ids, primary) =>
      && |ids| == |start| && PrimaryOf(start) < |start| && primary == ids[PrimaryOf(start)]
      && forall i :: 0 <= i < |start| ==> ids[i] < |stored| && stored[ids[i]].key == KeyOf(start[i])
    case DropImage(_) => false
    case _ => true
  }

  predicate UniqueKeys(stored: seq<Stored>) { forall j, m :: 0 <= j < m < |stored| ==> stored[j].key != stored[m].key }

  predicate OwnKeys(start: seq<Image>) { forall i, k :: 0 <= i < k < |start| ==> KeyOf(start[i]) != KeyOf(start[k]) }

  lemma OnePlace(row: Stored, start: seq<Image>, i: nat, k: nat)
    requires OwnKeys(start) && i < |start| && k < |start| && row.key == KeyOf(start[i]) == KeyOf(start[k])
    ensures i == k
  {
    assert !(i < k) && !(k < i);
  }

  // ---------------------------------------------------------------- an upload is processed

  /** A new row: in its place, and with the mark unless the primary image is stored already. */
  lemma NewRow(stored: seq<Stored>, key: nat, body: Body)
    requires AnswerTo(stored, key, body) == Saved(|stored|)
    ensures
      var after := StoreImage(stored, key, body);
      && |after| == |stored| + 1
      && after[|stored|] == Stored(key, body, true, if body.sortOrder < SERVER_LIMIT then body.sortOrder else SERVER_LIMIT - 1,
                                   body.isPrimary || LiveIds(stored) == {} || !HasPrimary(stored))
      && forall j :: 0 <= j < |stored| ==>
           after[j] == if after[|stored|].primary then stored[j].(primary := false) else stored[j]
  {
  }

  lemma PostPlaces(stored: seq<Stored>, start: seq<Image>, i: nat)
    requires Placed(stored, start) && i < |start| && |start| <= MAX_IMAGES
    ensures forall j :: 0 <= j < |StoreImage(stored, KeyOf(start[i]), BodyOf(start[i], i))| ==>
      HasPlace(StoreImage(stored, KeyOf(start[i]), BodyOf(start[i], i))[j], start)
  {
    var key, body := KeyOf(start[i]), BodyOf(start[i], i);
    var after := StoreImage(stored, key, body);
    if AnswerTo(stored, key, body) == Saved(|stored|) {
      NewRow(stored, key, body);
      assert InPlace(after[|stored|], start, i);
      forall j | 0 <= j < |stored| ensures HasPlace(after[j], start) {
        var k :| 0 <= k < |start| && InPlace(stored[j], start, k);
        assert InPlace(after[j], start, k);
      }
    }
  }

  /** Once the primary image has a row, that row is live and has the mark. */
  lemma PrimaryIsMarked(stored: seq<Stored>, start: seq<Image>, j: nat)
    requires Placed(stored, start) && j < |stored| && PrimaryRow(stored[j], start)
    ensures j in LiveIds(stored) && HasPrimary(stored)
  {
    assert HasPlace(stored[j], start);
    assert stored[j].live && stored[j].primary;
  }

  lemma PostMarks(stored: seq<Stored>, start: seq<Image>, i: nat, j: nat, m: nat)
    requires Placed(stored, start) && WellFormed(start) && OwnKeys(start) && UniqueKeys(stored) && i < |start|
    requires
      var after := StoreImage(stored, KeyOf(start[i]), BodyOf(start[i], i));
      j < |after| && m < |after| && PrimaryRow(after[j], start)
    ensures
      var after := StoreImage(stored, KeyOf(start[i]), BodyOf(start[i], i));
      after[m].primary <==> m == j
  {
    var key, body := KeyOf(start[i]), BodyOf(start[i], i);
    var p :| 0 <= p < |start| && OnlyPrimary(start, p);
    PrimaryIsOnly(start, p);
    if AnswerTo(stored, key, body) == Saved(|stored|) {
      NewRow(stored, key, body);
      if j < |stored| {
        PrimaryIsMarked(stored, start, j);
        assert i != p;
      } else {
        OnePlace(StoreImage(stored, key, body)[j], start, i, p);
      }
    }
  }

  // ---------------------------------------------------------------- an order is processed

  lemma OrderedPlace(stored: seq<Stored>, start: seq<Image>, ids: seq<nat>, primary: nat, j: nat) returns (i: nat)
    requires Placed(stored, start) && OwnKeys(start) && UniqueKeys(stored)
      && Fine(stored, PatchOrder(ids, primary), start)
    requires j < |stored|
    ensures i < |start| && InPlace(stored[j], start, i) && ids[i] == j && PositionIn(ids, j) == i
    ensures Ordered(stored, ids, primary)[j] == stored[j].(primary := j == primary)
  {
    assert HasPlace(stored[j], start);
    i :| 0 <= i < |start| && InPlace(stored[j], start, i);
    assert stored[ids[i]].key == stored[j].key;
    assert !(ids[i] < j) && !(j < ids[i]);
    var k := PositionIn(ids, j);
    assert ids[i] == j && k <= i;
    OnePlace(stored[j], start, i, k);
  }

  lemma OrderPlaces(stored: seq<Stored>, start: seq<Image>, ids: seq<nat>, primary: nat)
    requires Placed(stored, start) && OwnKeys(start) && UniqueKeys(stored)
      && Fine(stored, PatchOrder(ids, primary), start)
    ensures Placed(Ordered(stored, ids, primary), start)
  {
    var after := Ordered(stored, ids, primary);
    forall j | 0 <= j < |after|
      ensures HasPlace(after[j], start) && after[j] == stored[j].(primary := j == primary)
    {
      var i := OrderedPlace(stored, start, ids, primary, j);
      assert InPlace(after[j], start, i);
    }
    forall j, m | 0 <= j < |after| && 0 <= m < |after| && PrimaryRow(after[j], start) ensures after[m].primary <==> m == j {
      assert stored[primary].key == stored[j].key;
      assert !(primary < j) && !(j < primary);
    }
  }

  lemma ServerPlaces(stored: seq<Stored>, r: Request, start: seq<Image>)
    requires Placed(stored, start) && WellFormed(start) && OwnKeys(start) && UniqueKeys(stored)
      && Fine(stored, r, start)
    ensures Placed(ServerStored(stored, r), start)
  {
    match r
    case PostImage(key, body) =>
      var i :| 0 <= i < |start| && key == KeyOf(start[i]) && body == BodyOf(start[i], i);
      PostPlaces(stored, start, i);
      var after := StoreImage(stored, key, body);
      forall j, m | 0 <= j < |after| && 0 <= m < |after| && PrimaryRow(after[j], start) ensures after[m].primary <==> m == j {
        PostMarks(stored, start, i, j, m);
      }
    case PatchOrder(ids, primary) => if OrderAccepted(stored, ids) { OrderPlaces(stored, start, ids, primary); }
    case _ =>
  }

  // ---------------------------------------------------------------- what is under way

  /** Only submits of this gallery are under way, with requests for it alone. */
  predicate FineTasks(w: World, start: seq<Image>) {
    && (forall t :: 0 <= t < |w.tasks| && Running(w, t) ==> Fine(w.d.stored, w.tasks[t].request, start))
    && (forall k :: 0 <= k < |w.stray| ==> Fine(w.d.stored, w.stray[k], start))
  }

  predicate Placing(w: World, start: seq<Image>) {
    && WellFormed(start) && OwnKeys(start)
    && Overlapping(w, start) && Placed(w.d.stored, start) && FineTasks(w, start)
  }

  lemma StillFine(a: seq<Stored>, b: seq<Stored>, r: Request, start: seq<Image>)
    requires Fine(a, r, start) && |a| <= |b| && forall j :: 0 <= j < |a| ==> b[j].key == a[j].key
    ensures Fine(b, r, start)
  {
  }

  lemma SamePrimary(a: seq<Image>, b: seq<Image>)
    requires WellFormed(a) && WellFormed(b) && SameBodies(a, b)
    ensures PrimaryOf(a) == PrimaryOf(b) && (a != [] ==> PrimaryOf(a) < |a|)
  {
    if a != [] {
      var p :| 0 <= p < |a| && OnlyPrimary(a, p);
      forall i | 0 <= i < |b| ensures b[i].isPrimary <==> i == p { assert BodyOf(b[i], i) == BodyOf(a[i], i); }
      PrimaryIsOnly(a, p);
      PrimaryIsOnly(b, p);
    }
  }

  /** The order that is sent is one of this gallery. */
  lemma OrderIsFine(w: World, start: seq<Image>)
    requires Sound(w) && WellFormed(start) && SameBodies(start, w.d.g.images) && OrderDue(w.d)
    ensures Fine(w.d.stored, OrderRequest(w.d), start)
  {
    SamePrimary(start, w.d.g.images);
    forall i | 0 <= i < |start| ensures Ids(w.d.g.images)[i] < |w.d.stored| && w.d.stored[Ids(w.d.g.images)[i]].key == KeyOf(start[i]) {
      assert Known(w, w.d.g.images[i]);
    }
  }

  lemma UploadIsFine(stored: seq<Stored>, copy: seq<Image>, start: seq<Image>, i: nat)
    requires SameBodies(start, copy) && i < |copy|
    ensures Fine(stored, PostImage(KeyOf(copy[i]), BodyOf(copy[i], i)), start)
  {
    assert KeyOf(copy[i]) == KeyOf(start[i]) && BodyOf(copy[i], i) == BodyOf(start[i], i);
  }

  /** Only task `t` has changed, and what it asks for now is fine. */
  predicate OneFineTask(w: World, after: World, start: seq<Image>, t: nat) {
    && t < |w.tasks| == |after.tasks| && (forall u :: 0 <= u < |w.tasks| && u != t ==> after.tasks[u] == w.tasks[u])
    && after.d.stored == w.d.stored && after.stray == w.stray
    && (Running(after, t) ==> Fine(w.d.stored, after.tasks[t].request, start))
  }

  /** The request with which a submit goes on. */
  lemma ProceedIsFine(w: World, start: seq<Image>, t: nat, copy: seq<Image>, k: nat)
    requires Sound(w) && WellFormed(start) && SameBodies(start, w.d.g.images) && SameBodies(start, copy)
    requires t < |w.tasks| && k <= |copy|
    ensures OneFineTask(w, Proceed(w, t, copy, k), start, t)
  {
    var i := NextWithoutId(copy, k);
    if i < |copy| {
      UploadIsFine(w.d.stored, copy, start, i);
    } else if copy != [] && OrderDue(w.d) {
      OrderIsFine(w, start);
    }
  }

  lemma AckedIsFine(w: World, start: seq<Image>, t: nat, copy: seq<Image>, i: nat, id: nat)
    requires Sound(w) && GoodList(w, copy) && WellFormed(start) && Overlapping(w, start) && SameBodies(start, copy)
    requires t < |w.tasks| && i < |copy| && id < |w.d.stored| && w.d.stored[id].key == KeyOf(copy[i])
    ensures OneFineTask(w, Proceed(AckedWorld(w, copy, i, id), t, copy[i := Acknowledged(copy[i], id)], i + 1), start, t)
  {
    AckedOverlaps(w, start, copy, i, id);
    AckedSound(w, copy, i, id);
    ProceedIsFine(AckedWorld(w, copy, i, id), start, t, copy[i := Acknowledged(copy[i], id)], i + 1);
  }

  lemma DraftedIsFine(w: World, start: seq<Image>, t: nat, copy: seq<Image>, hasDraft: bool)
    requires Sound(w) && WellFormed(start) && Overlapping(w, start) && SameBodies(start, copy) && t < |w.tasks|
    ensures OneFineTask(w, Proceed(w.(d := w.d.(g := w.d.g.(hasDraft := hasDraft))), t, copy, 0), start, t)
  {
    FlagsSound(w, hasDraft, w.d.resent, w.closed);
    ProceedIsFine(w.(d := w.d.(g := w.d.g.(hasDraft := hasDraft))), start, t, copy, 0);
  }

  lemma UploadedIsFine(w: World, start: seq<Image>, t: nat, copy: seq<Image>, i: nat)
    requires Sound(w) && WellFormed(start) && Overlapping(w, start) && Running(w, t) && w.tasks[t].answer.Some?
    requires w.tasks[t].job == Saving(copy, Uploading(i))
    ensures OneFineTask(w, Continue(w, t, copy, Uploading(i), w.tasks[t].answer.value), start, t)
  {
    var a := w.tasks[t].answer.value;
    assert SoundTask(w, w.tasks[t]) && Submitting(w.tasks[t], start);
    if a.Kept? && i < |copy| {
      ContinueUploaded(w, t, copy, i, a.id);
      AckedIsFine(w, start, t, copy, i, a.id);
    } else {
      assert Continue(w, t, copy, Uploading(i), a) == Finish(w, t, false);
    }
  }

  lemma ContinuedIsFine(w: World, start: seq<Image>, t: nat, copy: seq<Image>, stage: Stage)
    requires Sound(w) && WellFormed(start) && Overlapping(w, start) && Running(w, t) && w.tasks[t].answer.Some?
    requires w.tasks[t].job == Saving(copy, stage)
    ensures OneFineTask(w, Continue(w, t, copy, stage, w.tasks[t].answer.value), start, t)
  {
    assert Submitting(w.tasks[t], start);
    match stage
    case Drafting(creates) => DraftedIsFine(w, start, t, copy, creates || w.d.g.hasDraft);
    case Uploading(i) => UploadedIsFine(w, start, t, copy, i);
    case Ordering =>
    case Checking =>
  }

  lemma ReceivedIsFine(w: World, start: seq<Image>, t: nat)
    requires Sound(w) && WellFormed(start) && Overlapping(w, start) && Running(w, t) && w.tasks[t].answer.Some?
    ensures OneFineTask(w, Receive(w, t), start, t)
  {
    assert Submitting(w.tasks[t], start);
    if w.tasks[t].job.Saving? { ContinuedIsFine(w, start, t, w.tasks[t].job.copy, w.tasks[t].job.stage); }
  }

  // ---------------------------------------------------------------- one step

  lemma DeliveredPlaces(w: World, start: seq<Image>, t: nat)
    requires Sound(w) && Placing(w, start) && Running(w, t) && w.tasks[t].answer.Some?
    ensures Placing(Receive(w, t), start)
  {
    DeliveredOverlaps(w, start, t);
    ReceivedIsFine(w, start, t);
    var after := Receive(w, t);
    forall u | 0 <= u < |after.tasks| && Running(after, u) ensures Fine(after.d.stored, after.tasks[u].request, start) {
      if u != t { assert Running(w, u); }
    }
  }

  lemma ServerGoesOn(w: World, start: seq<Image>, r: Request)
    requires Sound(w) && Placing(w, start) && Fine(w.d.stored, r, start)
    ensures
      var after := ServerStored(w.d.stored, r);
      && Placed(after, start)
      && (forall t :: 0 <= t < |w.tasks| && Running(w, t) ==> Fine(after, w.tasks[t].request, start))
      && (forall k :: 0 <= k < |w.stray| ==> Fine(after, w.stray[k], start))
  {
    ServerPlaces(w.d.stored, r, start);
    ServerRows(w.d.stored, r);
    var after := ServerStored(w.d.stored, r);
    forall t | 0 <= t < |w.tasks| && Running(w, t) ensures Fine(after, w.tasks[t].request, start) {
      StillFine(w.d.stored, after, w.tasks[t].request, start);
    }
    forall k | 0 <= k < |w.stray| ensures Fine(after, w.stray[k], start) {
      StillFine(w.d.stored, after, w.stray[k], start);
    }
  }

  lemma ServedPlaces(w: World, start: seq<Image>, t: nat)
    requires Sound(w) && Placing(w, start) && Running(w, t) && w.tasks[t].answer.None?
    ensures Placing(Apply(w, Serve(t)), start)
  {
    var after := Apply(w, Serve(t));
    StepOverlaps(w, start, Serve(t));
    ServerGoesOn(w, start, w.tasks[t].request);
    forall u | 0 <= u < |after.tasks| && Running(after, u) ensures Fine(after.d.stored, after.tasks[u].request, start) {
      assert Running(w, u) && after.tasks[u].request == w.tasks[u].request;
    }
  }

  lemma GivenUpPlaces(w: World, start: seq<Image>, t: nat)
    requires Sound(w) && Placing(w, start) && Running(w, t)
    ensures Placing(Apply(w, GiveUp(t)), start)
  {
    var after := Apply(w, GiveUp(t));
    StepOverlaps(w, start, GiveUp(t));
    forall u | 0 <= u < |after.tasks| && Running(after, u) ensures Fine(after.d.stored, after.tasks[u].request, start) {
      assert u != t && Running(w, u);
    }
  }

  lemma StrayPlaces(w: World, start: seq<Image>, k: nat)
    requires Sound(w) && Placing(w, start) && k < |w.stray|
    ensures Placing(Apply(w, ServeStray(k)), start)
  {
    var after := Apply(w, ServeStray(k));
    StepOverlaps(w, start, ServeStray(k));
    ServerGoesOn(w, start, w.stray[k]);
    forall u | 0 <= u < |after.tasks| && Running(after, u) ensures Fine(after.d.stored, after.tasks[u].request, start) {
      assert Running(w, u);
    }
  }

  lemma StartedPlaces(w: World, start: seq<Image>)
    requires Sound(w) && Placing(w, start)
    ensures Placing(Apply(w, StartSaving), start)
  {
    var after := Apply(w, StartSaving);
    StepOverlaps(w, start, StartSaving);
    forall u | 0 <= u < |after.tasks| && Running(after, u) ensures Fine(after.d.stored, after.tasks[u].request, start) {
      if u < |w.tasks| { assert Running(w, u); }
    }
  }

  lemma StepPlaces(w: World, start: seq<Image>, e: Event)
    requires Sound(w) && Placing(w, start) && OfSubmits(e)
    ensures Placing(Apply(w, e), start)
  {
    match e
    case StartSaving => StartedPlaces(w, start);
    case Serve(t) => if Running(w, t) && w.tasks[t].answer.None? { ServedPlaces(w, start, t); }
    case Deliver(t) => if Running(w, t) && w.tasks[t].answer.Some? { DeliveredPlaces(w, start, t); }
    case GiveUp(t) => if Running(w, t) { GivenUpPlaces(w, start, t); }
    case ServeStray(k) => if k < |w.stray| { StrayPlaces(w, start, k); }
  }

  lemma RunPlaces(w: World, start: seq<Image>, events: seq<Event>)
    requires Sound(w) && Placing(w, start) && AllOfSubmits(events)
    ensures Sound(Run(w, events)) && Placing(Run(w, events), start)
  {
    if events != [] {
      var front := events[..|events| - 1];
      assert forall k :: 0 <= k < |front| ==> front[k] == events[k];
      RunPlaces(w, start, front);
      StepSound(Run(w, front), events[|events| - 1]);
      StepPlaces(Run(w, front), start, events[|events| - 1]);
    }
  }

  // ---------------------------------------------------------------- the banner

  lemma PlacedIsHeldAs(d: Draft, start: seq<Image>, i: nat)
    requires WellFormed(start) && OwnKeys(start) && SameBodies(start, d.g.images) && Placed(d.stored, start)
    requires i < |start| && HasOnlyRow(d.stored, d.g.images[i]) && HasOnlyRow(d.stored, d.g.images[PrimaryOf(start)])
    requires PrimaryOf(start) < |start| && OnlyPrimary(start, PrimaryOf(start))
    ensures HeldAs(d, i)
  {
    var j :| 0 <= j < |d.stored| && OnlyRow(d.stored, d.g.images[i], j);
    assert HasPlace(d.stored[j], start);
    var k :| 0 <= k < |start| && InPlace(d.stored[j], start, k);
    assert KeyOf(d.g.images[i]) == KeyOf(start[i]) && BodyOf(d.g.images[i], i) == BodyOf(start[i], i);
    OnePlace(d.stored[j], start, i, k);
    var p := PrimaryOf(start);
    var q :| 0 <= q < |d.stored| && OnlyRow(d.stored, d.g.images[p], q);
    assert KeyOf(d.g.images[p]) == KeyOf(start[p]);
    assert PrimaryRow(d.stored[q], start);
    if j == q { OnePlace(d.stored[j], start, i, p); }
    assert RowShows(d, i, j);
  }

  lemma PlacedIsHeld(d: Draft, start: seq<Image>)
    requires WellFormed(start) && OwnKeys(start) && SameBodies(start, d.g.images) && Placed(d.stored, start)
    requires forall i :: 0 <= i < |d.g.images| ==> HasOnlyRow(d.stored, d.g.images[i])
    ensures Held(d)
  {
    if start != [] {
      var p :| 0 <= p < |start| && OnlyPrimary(start, p);
      PrimaryIsOnly(start, p);
    }
    forall i | 0 <= i < |d.g.images| ensures HeldAs(d, i) { PlacedIsHeldAs(d, start, i); }
    forall j | 0 <= j < |d.stored| ensures Shown(d, j) {
      assert HasPlace(d.stored[j], start);
      var i :| 0 <= i < |start| && InPlace(d.stored[j], start, i);
      assert KeyOf(d.g.images[i]) == d.stored[j].key;
    }
  }

  /** Overlapping submits of images that are not stored yet, or are stored in their places: as soon as one of them sets
      the banner, the server holds the gallery that was submitted, and nothing else. */
  lemma OverlapHolds(w: World, events: seq<Event>, t: nat)
    requires Sound(w) && HasUploaded(w) && Placing(w, w.d.g.images) && AllOfSubmits(events)
    requires SetsBanner(Run(w, events), t)
    ensures
      var after := Apply(Run(w, events), Deliver(t)).d;
      SameBodies(w.d.g.images, after.g.images) && Held(after)
  {
    RunPlaces(w, w.d.g.images, events);
    RunUploaded(w, events);
    BannerOverlaps(Run(w, events), w.d.g.images, t);
    PlacedIsHeld(Apply(Run(w, events), Deliver(t)).d, w.d.g.images);
  }

  /** In particular from any form whose images are not stored yet and where nothing is under way. */
  lemma UnstoredOverlapHolds(w: World, events: seq<Event>, t: nat)
    requires Sound(w) && w.d.stored == [] && w.stray == []
      && (forall u :: 0 <= u < |w.tasks| ==> w.tasks[u].job.Finished?)
    requires AllOfSubmits(events) && SetsBanner(Run(w, events), t)
    ensures
      var after := Apply(Run(w, events), Deliver(t)).d;
      SameBodies(w.d.g.images, after.g.images) && Held(after) && (Mirrored(after) <==> AllPersisted(after.g.images))
  {
    forall i, k | 0 <= i < k < |w.d.g.images| ensures KeyOf(w.d.g.images[i]) != KeyOf(w.d.g.images[k]) { KeysDiffer(w.d.g, i, k); }
    OverlapHolds(w, events, t);
    RunOverlaps(w, w.d.g.images, events);
    StepSound(Run(w, events), Deliver(t));
    SoundConsistent(Apply(Run(w, events), Deliver(t)));
    MirroredIsHeld(Apply(Run(w, events), Deliver(t)).d);
  }
}
