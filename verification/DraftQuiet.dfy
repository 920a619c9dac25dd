/** While a submit waits for its last answer: exactly which events leave the server mirroring the gallery. */
module DraftQuiet {
  import opened Text
  import opened Gallery
  import opened DraftImages
  import opened DraftImageRuns
  import opened DraftBanner
  import opened DraftTasks
  import opened DraftTaskRuns
  import opened DraftAlone
  import opened DraftFresh

  // ---------------------------------------------------------------- what form and server show

  predicate SamePicture(a: Image, b: Image) {
    a.key == b.key && a.persistedId == b.persistedId && a.dataUrl == b.dataUrl && a.filename == b.filename
        && a.isPrimary == b.isPrimary
  }

  predicate SameSeen(a: seq<Image>, b: seq<Image>) {
    |a| == |b| && forall i :: 0 <= i < |a| ==> SamePicture(a[i], b[i])
  }

  predicate SameShown(a: seq<Stored>, b: seq<Stored>) {
    && |a| <= |b|
    && (forall j :: 0 <= j < |a| ==> b[j].live == a[j].live && (a[j].live ==> b[j].sort == a[j].sort && b[j].primary == a[j].primary))
    && (forall j :: |a| <= j < |b| ==> !b[j].live)
  }

  /** The row of a mirrored image is the only one with its key. */
  lemma OwnRow(d: Draft, i: nat, j: nat)
    requires StoredKeys(d) && i < |d.g.images| && StoredAs(d, i) && j < |d.stored|
      && d.stored[j].key == KeyOf(d.g.images[i])
    ensures d.g.images[i].persistedId == Some(j)
  {
    var id := d.g.images[i].persistedId.value;
    assert d.stored[id].key == d.stored[j].key;
    if id < j { assert false; }
    if j < id { assert false; }
  }

  /** Two galleries that one server mirrors agree image by image. */
  lemma MirrorsOne(d: Draft, e: Draft, i: nat)
    requires StoredKeys(d) && Mirrored(d) && Mirrored(e) && e.stored == d.stored && i < |e.g.images|
    requires e.g.images[i].key.Some? && forall k :: 0 <= k < |d.g.images| ==> d.g.images[k].key.Some?
    ensures i < |d.g.images| && SamePicture(d.g.images[i], e.g.images[i])
  {
    assert StoredAs(e, i);
    var j := e.g.images[i].persistedId.value;
    assert Shown(d, j);
    var k :| 0 <= k < |d.g.images| && KeyOf(d.g.images[k]) == d.stored[j].key;
    assert StoredAs(d, k);
    OwnRow(d, k, j);
  }

  lemma MirrorsSame(d: Draft, e: Draft)
    requires Mirrored(d) && e.stored == d.stored && SameSeen(d.g.images, e.g.images)
    ensures Mirrored(e)
  {
    forall i | 0 <= i < |e.g.images| ensures StoredAs(e, i) { assert StoredAs(d, i) && SamePicture(d.g.images[i], e.g.images[i]); }
    forall j | 0 <= j < |e.stored| && e.stored[j].live ensures Shown(e, j) {
      assert Shown(d, j);
      var i :| 0 <= i < |d.g.images| && KeyOf(d.g.images[i]) == d.stored[j].key;
      assert SamePicture(d.g.images[i], e.g.images[i]);
      assert KeyOf(e.g.images[i]) == e.stored[j].key;
    }
  }

  lemma GalleryMirrorsIff(d: Draft, e: Draft)
    requires StoredKeys(d) && StoredKeys(e) && Mirrored(d) && e.stored == d.stored && WellFormed(d.g.images)
      && WellFormed(e.g.images)
    ensures Mirrored(e) <==> SameSeen(d.g.images, e.g.images)
  {
    if Mirrored(e) {
      forall i | 0 <= i < |d.g.images| && i < |e.g.images| ensures SamePicture(d.g.images[i], e.g.images[i]) { MirrorsOne(d, e, i); }
      if |e.g.images| < |d.g.images| { MirrorsOne(e, d, |e.g.images|); }
      if |d.g.images| < |e.g.images| { MirrorsOne(d, e, |d.g.images|); }
    } else if SameSeen(d.g.images, e.g.images) {
      MirrorsSame(d, e);
    }
  }

  predicate SameBeginning(a: seq<Stored>, b: seq<Stored>) {
    |a| <= |b| && forall j :: 0 <= j < |a| ==> b[j].key == a[j].key && b[j].body == a[j].body
  }

  lemma StillShown(d: Draft, e: Draft, j: nat)
    requires StoredKeys(d) && StoredKeys(e) && Mirrored(d) && Mirrored(e) && e.g.images == d.g.images
      && SameBeginning(d.stored, e.stored)
    requires j < |d.stored| && d.stored[j].live
    ensures e.stored[j].live && e.stored[j].sort == d.stored[j].sort && e.stored[j].primary == d.stored[j].primary
  {
    assert Shown(d, j);
    var i :| 0 <= i < |d.g.images| && KeyOf(d.g.images[i]) == d.stored[j].key;
    assert StoredAs(d, i) && StoredAs(e, i);
    OwnRow(d, i, j);
  }

  lemma ShownBefore(d: Draft, e: Draft, j: nat)
    requires StoredKeys(e) && Mirrored(d) && Mirrored(e) && e.g.images == d.g.images
      && SameBeginning(d.stored, e.stored)
    requires j < |e.stored| && e.stored[j].live
    ensures j < |d.stored| && d.stored[j].live
  {
    assert Shown(e, j);
    var i :| 0 <= i < |e.g.images| && KeyOf(e.g.images[i]) == e.stored[j].key;
    assert StoredAs(d, i) && StoredAs(e, i);
    OwnRow(e, i, j);
  }

  lemma ServerMirrorsIff(d: Draft, e: Draft)
    requires StoredKeys(d) && StoredKeys(e) && Mirrored(d) && e.g.images == d.g.images
      && SameBeginning(d.stored, e.stored)
    ensures Mirrored(e) <==> SameShown(d.stored, e.stored)
  {
    if Mirrored(e) {
      forall j | 0 <= j < |d.stored| && d.stored[j].live
        ensures e.stored[j].live && e.stored[j].sort == d.stored[j].sort && e.stored[j].primary == d.stored[j].primary
      {
        StillShown(d, e, j);
      }
      forall j | 0 <= j < |e.stored| && e.stored[j].live ensures j < |d.stored| && d.stored[j].live { ShownBefore(d, e, j); }
    }
    if SameShown(d.stored, e.stored) {
      forall i | 0 <= i < |e.g.images| ensures StoredAs(e, i) { assert StoredAs(d, i); }
      forall j | 0 <= j < |e.stored| && e.stored[j].live ensures Shown(e, j) {
        assert Shown(d, j);
        var i :| 0 <= i < |d.g.images| && KeyOf(d.g.images[i]) == d.stored[j].key;
        assert KeyOf(e.g.images[i]) == e.stored[j].key;
      }
    }
  }

  // ---------------------------------------------------------------- events

  /** The order puts the image where it is, and marks it as it is. */
  predicate KeepsPlace(image: Image, i: nat, ids: seq<nat>, primary: nat)
    requires image.persistedId.Some?
  {
    var id := image.persistedId.value;
    (id in ids ==> PositionIn(ids, id) == i) && (image.isPrimary <==> id in ids && id == primary)
  }

  /** The server processes the request without a change to what it shows. */
  predicate Harmless(d: Draft, r: Request) {
    match r
    case PostImage(key, body) => AnswerTo(d.stored, key, body) != Saved(|d.stored|)
    case PatchOrder(ids, primary) =>
      OrderAccepted(d.stored, ids) ==>
        forall i :: 0 <= i < |d.g.images| && d.g.images[i].persistedId.Some? ==>
            KeepsPlace(d.g.images[i], i, ids, primary)
    case DropImage(id) => id < |d.stored| ==> !d.stored[id].live
    case _ => true
  }

  /** A click that moves or marks nothing. */
  predicate Idle(g: Store, e: Edit) {
    match e
    case Move(index, delta) => CanMove(g, index, delta) ==> delta == 0
    case MakePrimary(selected) => 0 <= selected < |g.images| ==> g.images[selected].isPrimary
    case Clear => g.images == []
    case _ => true
  }

  /** What a deletion leaves of its copy, with the mark where it goes. */
  function Rest(copy: seq<Image>, at: nat): seq<Image> {
    if at < |copy| then Marked(RemoveAt(copy, at), PrimaryOf(RemoveAt(copy, at))) else copy
  }

  /** What the task writes back, if anything, is what the form shows. */
  predicate QuietAnswer(g: Store, job: Job, a: Answer) {
    match job
    case Saving(copy, Uploading(i)) => a.Kept? && i < |copy| ==>
        SameSeen(g.images, copy[i := Acknowledged(copy[i], a.id)])
    case Deleting(copy, at) => a == Done ==> SameSeen(g.images, Rest(copy, at))
    case Adding(copy, picked) => a == Done ==> Fitting(g.(images := copy), picked) == [] && SameSeen(g.images, copy)
    case _ => true
  }

  /** What can be told from an event before it is handled: it changes neither what the form shows nor what the server
      does. */
  predicate Quiet(w: World, e: Event) {
    match e
    case Click(edit) => w.closed || Idle(w.d.g, edit)
    case StartDeleting(at) => w.closed || w.d.g.hasDraft || at >= |w.d.g.images|
    case Serve(u) => Running(w, u) && w.tasks[u].answer.None? ==> Harmless(w.d, w.tasks[u].request)
    case ServeStray(k) => k < |w.stray| ==> Harmless(w.d, w.stray[k])
    case Deliver(u) => Running(w, u) && w.tasks[u].answer.Some? ==>
        QuietAnswer(w.d.g, w.tasks[u].job, w.tasks[u].answer.value)
    case _ => true
  }

  // ---------------------------------------------------------------- clicks

  lemma MirroredAgain(d: Draft, e: Draft)
    requires Mirrored(d) && e.stored == d.stored && e.g.images == d.g.images
    ensures Mirrored(e)
  {
    forall i | 0 <= i < |d.g.images| ensures SamePicture(d.g.images[i], e.g.images[i]) {}
    MirrorsSame(d, e);
  }

  lemma MovedNowhere(g: Store, index: int)
    requires WellFormed(g.images) && CanMove(g, index, 0)
    ensures Do(g, Move(index, 0)).images == g.images
  {
    MoveIs(g, index, 0);
    assert MoveItem(g.images, index, index) == g.images;
  }

  lemma MovedAway(g: Store, index: int, delta: int)
    requires WellFormed(g.images) && DistinctKeys(g) && CanMove(g, index, delta) && delta != 0
    ensures !SameSeen(g.images, Do(g, Move(index, delta)).images)
  {
    var to := index + delta;
    MoveIs(g, index, delta);
    MoveItemAt(g.images, index, to, index);
    if index < to { KeysDiffer(g, index, to); } else { KeysDiffer(g, to, index); }
    assert !SamePicture(g.images[to], Do(g, Move(index, delta)).images[to]);
  }

  lemma MarkedPicture(g: Store, selected: nat)
    requires WellFormed(g.images) && selected < |g.images|
    ensures SameSeen(g.images, Do(g, MakePrimary(selected)).images) <==> g.images[selected].isPrimary
  {
    var after := Do(g, MakePrimary(selected)).images;
    PrimaryChosen(g, selected);
    forall i | 0 <= i < |g.images| ensures i < |after| && Core(after[i]) == Core(g.images[i]) {
      assert |Cores(after)| == |after|;
      assert Cores(after)[i] == Cores(g.images)[i];
    }
    assert |Cores(after)| == |after| && |Cores(g.images)| == |g.images|;
    var p :| 0 <= p < |g.images| && OnlyPrimary(g.images, p);
    assert after[selected].isPrimary;
    if g.images[selected].isPrimary {
      forall i | 0 <= i < |after| ensures SamePicture(g.images[i], after[i]) {
        assert after[i].isPrimary == g.images[i].isPrimary;
        SameCorePicture(g.images[i], after[i]);
      }
    }
  }

  lemma SameCorePicture(a: Image, b: Image)
    requires Core(a) == Core(b) && a.isPrimary == b.isPrimary
    ensures SamePicture(a, b)
  {
    assert Core(a).key == Core(b).key && Core(a).persistedId == Core(b).persistedId;
    assert Core(a).dataUrl == Core(b).dataUrl && Core(a).filename == Core(b).filename;
  }

  lemma SameSeenSelf(images: seq<Image>)
    ensures SameSeen(images, images)
  {
  }

  lemma IdleIff(g: Store, e: Edit)
    requires WellFormed(g.images) && DistinctKeys(g) && (e.Move? || e.MakePrimary? || e.Clear?)
    ensures SameSeen(g.images, Do(g, e).images) <==> Idle(g, e)
  {
    SameSeenSelf(g.images);
    match e
    case Move(index, delta) =>
      if CanMove(g, index, delta) {
        if delta == 0 { MovedNowhere(g, index); } else { MovedAway(g, index, delta); }
      }
    case MakePrimary(selected) => if 0 <= selected < |g.images| { MarkedPicture(g, selected); }
    case Clear => assert Do(g, e).images == [];
  }

  // ---------------------------------------------------------------- one step

  lemma GalleryStepIff(w: World, e: Event)
    requires Sound(w) && PlainEvent(e) && Mirrored(w.d) && Apply(w, e).d.stored == w.d.stored
    ensures Mirrored(Apply(w, e).d) <==> SameSeen(w.d.g.images, Apply(w, e).d.g.images)
  {
    StepSound(w, e);
    GalleryMirrorsIff(w.d, Apply(w, e).d);
  }

  lemma ClickQuietIff(w: World, edit: Edit)
    requires Sound(w) && Mirrored(w.d)
    ensures Mirrored(Apply(w, Click(edit)).d) <==> Quiet(w, Click(edit))
  {
    SameSeenSelf(w.d.g.images);
    GalleryStepIff(w, Click(edit));
    assert w.d.g.(images := w.d.g.images) == w.d.g;
    if !edit.Append? && !edit.Remove? { IdleIff(w.d.g, edit); }
  }

  lemma RemovalQuietIff(w: World, at: nat)
    requires Sound(w) && Mirrored(w.d)
    ensures Mirrored(Apply(w, StartDeleting(at)).d) <==> Quiet(w, StartDeleting(at))
  {
    SameSeenSelf(w.d.g.images);
    GalleryStepIff(w, StartDeleting(at));
    assert w.d.g.(images := w.d.g.images) == w.d.g;
    if at < |w.d.g.images| {
      assert StoredAs(w.d, at);
      RemovalTakesOne(w.d.g, at, true);
      assert |Cores(Do(w.d.g, Remove(at, true)).images)| == |w.d.g.images| - 1;
    } else {
      NormalizeFixedPoints(w.d.g.images, w.d.g.nextKey);
    }
  }

  /** An accepted order shows a mirrored image as before if it keeps its place. */
  lemma OrderedImage(d: Draft, ids: seq<nat>, primary: nat, i: nat)
    requires Mirrored(d) && i < |d.g.images|
    ensures
      var image := d.g.images[i];
      && image.persistedId.Some? && image.persistedId.value < |d.stored|
      && var row, after := d.stored[image.persistedId.value], Ordered(d.stored, ids, primary)[image.persistedId.value];
      row.live && after.live
          && (after.sort == row.sort && after.primary == row.primary <==> KeepsPlace(image, i, ids, primary))
  {
    assert StoredAs(d, i);
  }

  lemma ImageOfRow(d: Draft, j: nat) returns (i: nat)
    requires StoredKeys(d) && Mirrored(d) && j < |d.stored| && d.stored[j].live
    ensures i < |d.g.images| && d.g.images[i].persistedId == Some(j)
  {
    assert Shown(d, j);
    i :| 0 <= i < |d.g.images| && KeyOf(d.g.images[i]) == d.stored[j].key;
    assert StoredAs(d, i);
    OwnRow(d, i, j);
  }

  lemma OrderShows(d: Draft, ids: seq<nat>, primary: nat)
    requires StoredKeys(d) && Mirrored(d) && OrderAccepted(d.stored, ids)
    ensures SameShown(d.stored, Ordered(d.stored, ids, primary)) <==> Harmless(d, PatchOrder(ids, primary))
  {
    var after := Ordered(d.stored, ids, primary);
    if SameShown(d.stored, after) {
      forall i | 0 <= i < |d.g.images| && d.g.images[i].persistedId.Some? ensures KeepsPlace(d.g.images[i], i, ids, primary) {
        OrderedImage(d, ids, primary, i);
      }
    }
    if Harmless(d, PatchOrder(ids, primary)) {
      forall j | 0 <= j < |d.stored| && d.stored[j].live ensures after[j].sort == d.stored[j].sort && after[j].primary == d.stored[j].primary {
        var i := ImageOfRow(d, j);
        OrderedImage(d, ids, primary, i);
        assert KeepsPlace(d.g.images[i], i, ids, primary);
      }
    }
  }

  lemma HarmlessIff(d: Draft, r: Request)
    requires StoredKeys(d) && Mirrored(d)
    ensures SameShown(d.stored, ServerStored(d.stored, r)) <==> Harmless(d, r)
  {
    match r
    case PostImage(key, body) => StoredImage(d.stored, key, body);
    case PatchOrder(ids, primary) => if OrderAccepted(d.stored, ids) { OrderShows(d, ids, primary); }
    case DropImage(id) =>
    case _ =>
  }

  lemma ServedQuietIff(w: World, e: Event, r: Request)
    requires Sound(w) && PlainEvent(e) && Mirrored(w.d) && Apply(w, e).d == w.d.(stored := ServerStored(w.d.stored, r))
    ensures Mirrored(Apply(w, e).d) <==> Harmless(w.d, r)
  {
    StepSound(w, e);
    ServerRows(w.d.stored, r);
    ServerMirrorsIff(w.d, Apply(w, e).d);
    HarmlessIff(w.d, r);
  }

  /** In any state of the form in which the server mirrors the gallery: it does so after the next event if and only if
      that event is quiet. */
  lemma QuietIff(w: World, e: Event)
    requires Sound(w) && PlainEvent(e) && Mirrored(w.d)
    ensures Mirrored(Apply(w, e).d) <==> Quiet(w, e)
  {
    SameSeenSelf(w.d.g.images);
    match e
    case Click(edit) => ClickQuietIff(w, edit);
    case StartDeleting(at) => RemovalQuietIff(w, at);
    case Serve(u) => if Running(w, u) && w.tasks[u].answer.None? { ServedQuietIff(w, e, w.tasks[u].request); }
    case ServeStray(k) => if k < |w.stray| { ServedQuietIff(w, e, w.stray[k]); }
    case StartAdding(_) => MirroredAgain(w.d, Apply(w, e).d);
    case StartSaving => MirroredAgain(w.d, Apply(w, e).d);
    case GiveUp(_) => MirroredAgain(w.d, Apply(w, e).d);
    case Deliver(u) => DeliveredQuietIff(w, u);
  }

  lemma SameSeenTrans(a: seq<Image>, b: seq<Image>, c: seq<Image>)
    requires SameSeen(b, c)
    ensures SameSeen(a, b) <==> SameSeen(a, c)
  {
  }

  lemma RestIs(g: Store, at: nat)
    requires WellFormed(g.images)
    ensures SameSeen(Do(g, Remove(at, true)).images, Rest(g.images, at))
  {
    var after := Do(g, Remove(at, true)).images;
    if at < |g.images| {
      var rest := RemoveAt(g.images, at);
      RemovedRest(g, at, true);
      RestComplete(g.images, at);
      forall k | 0 <= k < |rest| ensures SamePicture(after[k], Rest(g.images, at)[k]) {
        assert |Cores(after)| == |after| && Cores(after)[k] == RemoveAt(Cores(g.images), at)[k] == Cores(rest)[k];
        assert Core(after[k]) == Core(rest[k]) == Core(Rest(g.images, at)[k]);
        assert after[k].isPrimary == (k == PrimaryOf(rest)) == Rest(g.images, at)[k].isPrimary;
        SameCorePicture(after[k], Rest(g.images, at)[k]);
      }
    } else {
      NormalizeFixedPoints(g.images, g.nextKey);
      SameSeenSelf(g.images);
    }
  }

  lemma NotSeen(d: Draft, after: seq<Image>, k: nat)
    requires Mirrored(d) && k < |after| && after[k].persistedId.None?
    ensures !SameSeen(d.g.images, after)
  {
    if k < |d.g.images| {
      assert StoredAs(d, k);
      assert !SamePicture(d.g.images[k], after[k]);
    }
  }

  /** A picture that is added has no id, so the server cannot mirror it. */
  lemma AddedIsSeen(d: Draft, g: Store, picked: seq<Image>)
    requires Mirrored(d) && WellFormed(g.images) && PlainPictures(picked)
    ensures SameSeen(d.g.images, Do(g, Append(picked)).images) <==>
      Fitting(g, picked) == [] && SameSeen(d.g.images, g.images)
  {
    if Fitting(g, picked) != [] {
      var all := g.images + Fitting(g, picked);
      AppendIs(g, picked);
      NormalizeAt(all, g.nextKey, |g.images|);
      var after := Do(g, Append(picked)).images;
      assert after[|g.images|].persistedId.None?;
      NotSeen(d, after, |g.images|);
    }
  }

  lemma AnswerQuietIff(w: World, u: nat)
    requires Sound(w) && Mirrored(w.d) && Running(w, u) && w.tasks[u].answer.Some?
    ensures SameSeen(w.d.g.images, Receive(w, u).d.g.images) <==>
      QuietAnswer(w.d.g, w.tasks[u].job, w.tasks[u].answer.value)
  {
    var a := w.tasks[u].answer.value;
    assert SoundTask(w, w.tasks[u]);
    SameSeenSelf(w.d.g.images);
    match w.tasks[u].job
    case Saving(copy, stage) => SavedQuietIff(w, u, copy, stage, a);
    case Deleting(copy, at) =>
      var g := w.d.g.(images := copy);
      RestIs(g, at);
      SameSeenTrans(w.d.g.images, Do(g, Remove(at, true)).images, Rest(copy, at));
    case Adding(copy, picked) => AddedIsSeen(w.d, w.d.g.(images := copy), picked);
    case _ =>
  }

  lemma SavedQuietIff(w: World, u: nat, copy: seq<Image>, stage: Stage, a: Answer)
    requires u < |w.tasks| && WellFormed(copy)
    ensures SameSeen(w.d.g.images, Continue(w, u, copy, stage, a).d.g.images) <==>
      QuietAnswer(w.d.g, Saving(copy, stage), a)
  {
    SameSeenSelf(w.d.g.images);
    if stage.Uploading? && a.Kept? && stage.index < |copy| {
      ContinueUploaded(w, u, copy, stage.index, a.id);
      AckedIs(w, copy, stage.index, a.id);
    }
  }

  lemma DeliveredQuietIff(w: World, u: nat)
    requires Sound(w) && Mirrored(w.d)
    ensures Mirrored(Apply(w, Deliver(u)).d) <==> Quiet(w, Deliver(u))
  {
    SameSeenSelf(w.d.g.images);
    if Running(w, u) && w.tasks[u].answer.Some? {
      ReceiveStores(w, u);
      GalleryStepIff(w, Deliver(u));
      AnswerQuietIff(w, u);
    } else {
      MirroredAgain(w.d, Apply(w, Deliver(u)).d);
    }
  }

  /** An answer changes nothing on the server. */
  lemma ReceiveStores(w: World, u: nat)
    requires u < |w.tasks| && w.tasks[u].answer.Some?
    ensures Receive(w, u).d.stored == w.d.stored
  {
  }

  // ---------------------------------------------------------------- while the check is awaited

  predicate AllQuiet(w: World, events: seq<Event>) {
    events != [] ==> AllQuiet(w, events[..|events| - 1]) && Quiet(Run(w, events[..|events| - 1]), events[|events| - 1])
  }

  lemma {:induction false} QuietRun(w: World, events: seq<Event>)
    requires Sound(w) && Mirrored(w.d) && AllPlain(events) && AllQuiet(w, events)
    ensures Sound(Run(w, events)) && Mirrored(Run(w, events).d)
  {
    if events != [] {
      var front := events[..|events| - 1];
      assert forall k :: 0 <= k < |front| ==> front[k] == events[k];
      QuietRun(w, front);
      StepSound(Run(w, front), events[|events| - 1]);
      QuietIff(Run(w, front), events[|events| - 1]);
    }
  }

  /** A submit of images is alone until its check is sent; from then on anything may be handled. As long as that was
      quiet the server mirrors the gallery, so that a banner then means it; and it still does after one more event if
      and only if that one is quiet. */
  lemma CheckedBannerIff(w: World, events: seq<Event>, more: seq<Event>, e: Event)
    requires Sound(w) && !w.closed && w.d.g.images != [] && AllAbout(events, |w.tasks|)
    requires
      var checking := Run(Apply(w, StartSaving), events);
      && |w.tasks| < |checking.tasks| && checking.tasks[|w.tasks|].job.Saving?
          && checking.tasks[|w.tasks|].job.stage == Checking
      && AllPlain(more) && PlainEvent(e) && AllQuiet(checking, more)
    ensures
      var now := Run(Run(Apply(w, StartSaving), events), more);
      Mirrored(now.d) && (Mirrored(Apply(now, e).d) <==> Quiet(now, e))
  {
    var started := Apply(w, StartSaving);
    var checking := Run(started, events);
    StepSound(w, StartSaving);
    assert Going(started, |w.tasks|, w.d.g.images);
    RunGoing(started, events, |w.tasks|, w.d.g.images);
    AboutSound(started, events, |w.tasks|);
    QuietRun(checking, more);
    QuietIff(Run(checking, more), e);
  }

  lemma {:induction false} AboutSound(w: World, events: seq<Event>, t: nat)
    requires Sound(w) && AllAbout(events, t)
    ensures Sound(Run(w, events))
  {
    if events != [] {
      var front := events[..|events| - 1];
      assert forall k :: 0 <= k < |front| ==> front[k] == events[k];
      AboutSound(w, front, t);
      StepSound(Run(w, front), events[|events| - 1]);
    }
  }
}
