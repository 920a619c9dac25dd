/** A submit between whose start and finish nothing else is handled. */
module DraftAlone {
  import opened Text
  import opened Gallery
  import opened DraftImages
  import opened DraftImageRuns
  import opened DraftBanner
  import opened DraftTasks
  import opened DraftTaskRuns

  predicate About(e: Event, t: nat) {
    (e.Serve? && e.t == t) || (e.Deliver? && e.t == t) || (e.GiveUp? && e.t == t)
  }

  lemma SoundConsistent(w: World)
    requires Sound(w)
    ensures Consistent(w.d)
  {
    forall i | 0 <= i < |w.d.g.images| ensures Tracked(w.d.g.images[i], w.d.stored) {
      assert Known(w, w.d.g.images[i]);
    }
  }

  /** The gallery that the submit started from, with whatever ids it has been given since. */
  predicate SameGallery(start: seq<Image>, images: seq<Image>) { SameBodies(start, images) }

  /** Where a lone submit is, and what it has already made true. */
  predicate Going(w: World, t: nat, start: seq<Image>) {
    t < |w.tasks| && SameGallery(start, w.d.g.images)
    && match w.tasks[t].job
       case Saving(copy, stage) =>
         && copy == w.d.g.images
         && (match stage
             case Drafting(creates) => w.tasks[t].request == SaveDraft && (creates || w.d.g.hasDraft)
             case Uploading(i) => i < |copy| && FirstPersisted(copy, i) && w.d.g.hasDraft
             case Ordering => OrderDue(w.d) && w.tasks[t].request == OrderRequest(w.d)
                 && (w.tasks[t].answer == Some(Done) ==> Mirrored(w.d))
             case Checking => w.tasks[t].request == FetchDeal && copy != [] && Mirrored(w.d))
       case Finished(banner) => banner && w.d.g.images != [] ==> Mirrored(w.d)
       case _ => false
  }

  // ---------------------------------------------------------------- one step

  lemma MirroredFlags(d: Draft, hasDraft: bool)
    requires Mirrored(d)
    ensures Mirrored(d.(g := d.g.(hasDraft := hasDraft)))
  {
    var after := d.(g := d.g.(hasDraft := hasDraft));
    forall i | 0 <= i < |after.g.images| ensures StoredAs(after, i) { assert StoredAs(d, i); }
    forall j | 0 <= j < |after.stored| && after.stored[j].live ensures Shown(after, j) {
      assert Shown(d, j);
      var i :| 0 <= i < |d.g.images| && KeyOf(d.g.images[i]) == d.stored[j].key;
      assert KeyOf(after.g.images[i]) == after.stored[j].key;
    }
  }

  lemma ProceedGoing(w: World, t: nat, start: seq<Image>, k: nat)
    requires Sound(w) && t < |w.tasks| && SameGallery(start, w.d.g.images) && w.d.g.hasDraft
    requires FirstPersisted(w.d.g.images, k)
    ensures Going(Proceed(w, t, w.d.g.images, k), t, start)
  {
    var copy := w.d.g.images;
    var i := NextWithoutId(copy, k);
    if i == |copy| && copy != [] {
      assert AllPersisted(copy);
      PrimaryInside(copy);
    }
  }

  lemma OrderAnswered(d: Draft)
    requires Consistent(d) && OrderDue(d)
    ensures
      var stored := ServerStored(d.stored, OrderRequest(d));
      ServerAnswer(d.stored, OrderRequest(d)) == Done ==> Mirrored(d.(stored := stored))
  {
    if OrderAccepted(d.stored, Ids(d.g.images)) { OrderedMirrors(d); }
  }

  lemma ServedOrder(w: World, t: nat, start: seq<Image>)
    requires Sound(w) && Going(w, t, start) && w.tasks[t].job.Saving? && w.tasks[t].job.stage == Ordering
      && w.tasks[t].answer.None?
    ensures Going(Apply(w, Serve(t)), t, start)
  {
    var request := w.tasks[t].request;
    var after := Apply(w, Serve(t));
    SoundConsistent(w);
    OrderAnswered(w.d);
    assert after.tasks[t] == Task(w.tasks[t].job, request, Some(ServerAnswer(w.d.stored, request)));
    assert after.d == w.d.(stored := ServerStored(w.d.stored, request));
    assert after.d.g == w.d.g && OrderDue(after.d) && OrderRequest(after.d) == request;
  }

  lemma ServedOther(w: World, t: nat, start: seq<Image>)
    requires Sound(w) && Going(w, t, start) && Running(w, t) && w.tasks[t].job.stage != Ordering
      && w.tasks[t].answer.None?
    requires w.tasks[t].job.Saving?
    ensures Going(Apply(w, Serve(t)), t, start)
  {
  }

  /** The gallery after the acknowledgement is the submit's copy, with one image more that has its id. */
  lemma AckedGallery(w: World, start: seq<Image>, i: nat, id: nat)
    requires WellFormed(w.d.g.images) && SameGallery(start, w.d.g.images) && i < |w.d.g.images|
      && FirstPersisted(w.d.g.images, i)
    ensures
      var copy := w.d.g.images[i := Acknowledged(w.d.g.images[i], id)];
      var after := AckedWorld(w, w.d.g.images, i, id);
      && after.d.g.images == copy && SameGallery(start, copy) && FirstPersisted(copy, i + 1)
      && after.tasks == w.tasks && after.d.g.hasDraft == w.d.g.hasDraft
  {
    AckedIs(w, w.d.g.images, i, id);
  }

  lemma UploadedGoing(w: World, t: nat, start: seq<Image>, i: nat, id: nat)
    requires Sound(w) && t < |w.tasks| && SameGallery(start, w.d.g.images) && w.d.g.hasDraft
    requires i < |w.d.g.images| && FirstPersisted(w.d.g.images, i) && id < |w.d.stored|
      && w.d.stored[id].key == KeyOf(w.d.g.images[i])
    ensures
      var copy := w.d.g.images;
      Going(Proceed(AckedWorld(w, copy, i, id), t, copy[i := Acknowledged(copy[i], id)], i + 1), t, start)
  {
    var copy := w.d.g.images;
    AckedGallery(w, start, i, id);
    AckedSound(w, copy, i, id);
    ProceedGoing(AckedWorld(w, copy, i, id), t, start, i + 1);
  }

  lemma DraftedGoing(w: World, t: nat, start: seq<Image>)
    requires Sound(w) && t < |w.tasks| && SameGallery(start, w.d.g.images)
    ensures Going(Proceed(w.(d := w.d.(g := w.d.g.(hasDraft := true))), t, w.d.g.images, 0), t, start)
  {
    FlagsSound(w, true, w.d.resent, w.closed);
    ProceedGoing(w.(d := w.d.(g := w.d.g.(hasDraft := true))), t, start, 0);
  }

  lemma AnnouncedGoing(w: World, t: nat, start: seq<Image>)
    requires t < |w.tasks| && SameGallery(start, w.d.g.images) && Mirrored(w.d)
    ensures Going(Announce(w, t), t, start)
  {
    MirroredFlags(w.d, false);
  }

  lemma FailedGoing(w: World, t: nat, start: seq<Image>)
    requires t < |w.tasks| && SameGallery(start, w.d.g.images)
    ensures Going(Finish(w, t, false), t, start)
  {
  }

  lemma OrderedGoing(w: World, t: nat, start: seq<Image>)
    requires t < |w.tasks| && SameGallery(start, w.d.g.images) && w.d.g.images != [] && Mirrored(w.d)
    ensures Going(Ask(w, t, Saving(w.d.g.images, Checking), FetchDeal), t, start)
  {
  }

  lemma ContinueGoing(w: World, t: nat, start: seq<Image>, stage: Stage, a: Answer)
    requires Sound(w) && Going(w, t, start) && w.tasks[t].job == Saving(w.d.g.images, stage)
      && w.tasks[t].answer == Some(a)
    ensures Going(Continue(w, t, w.d.g.images, stage, a), t, start)
  {
    assert SoundTask(w, w.tasks[t]);
    FailedGoing(w, t, start);
    match stage
    case Drafting(_) => DraftedGoing(w, t, start);
    case Uploading(i) => if a.Kept? { UploadedGoing(w, t, start, i, a.id); }
    case Ordering => if a == Done { OrderedGoing(w, t, start); }
    case Checking => AnnouncedGoing(w, t, start);
  }

  lemma DeliveredGoing(w: World, t: nat, start: seq<Image>)
    requires Sound(w) && Going(w, t, start) && Running(w, t) && w.tasks[t].answer.Some?
    ensures Going(Receive(w, t), t, start)
  {
    ContinueGoing(w, t, start, w.tasks[t].job.stage, w.tasks[t].answer.value);
  }

  lemma StepGoing(w: World, t: nat, start: seq<Image>, e: Event)
    requires Sound(w) && Going(w, t, start) && About(e, t)
    ensures Going(Apply(w, e), t, start)
  {
    if Running(w, t) {
      match e
      case Serve(_) =>
        if w.tasks[t].answer.None? {
          if w.tasks[t].job.stage == Ordering { ServedOrder(w, t, start); } else { ServedOther(w, t, start); }
        }
      case Deliver(_) => if w.tasks[t].answer.Some? { DeliveredGoing(w, t, start); }
      case GiveUp(_) =>
    }
  }

  // ---------------------------------------------------------------- the whole submit

  predicate AllAbout(events: seq<Event>, t: nat) { forall k :: 0 <= k < |events| ==> About(events[k], t) }

  lemma {:induction false} RunGoing(w: World, events: seq<Event>, t: nat, start: seq<Image>)
    requires Sound(w) && Going(w, t, start) && AllAbout(events, t)
    ensures Sound(Run(w, events)) && Going(Run(w, events), t, start)
  {
    if events != [] {
      var front := events[..|events| - 1];
      assert forall k :: 0 <= k < |front| ==> front[k] == events[k];
      RunGoing(w, front, t, start);
      StepSound(Run(w, front), events[|events| - 1]);
      StepGoing(Run(w, front), t, start, events[|events| - 1]);
    }
  }

  /** From any state a run can reach: when a submit of a non-empty gallery sets the banner and nothing else was handled
      between its start and its finish, every image is live on the server, in its place, under its own key, with its
      mark, and the server shows nothing else. The gallery is the one that was submitted. */
  lemma LoneBannerMeansMirrored(w: World, events: seq<Event>)
    requires Sound(w) && !w.closed && w.d.g.images != [] && AllAbout(events, |w.tasks|)
    ensures
      var after := Run(Apply(w, StartSaving), events);
      && |w.tasks| < |after.tasks| && SameBodies(w.d.g.images, after.d.g.images)
      && (after.tasks[|w.tasks|].job == Finished(true) ==> Mirrored(after.d))
  {
    var started := Apply(w, StartSaving);
    StepSound(w, StartSaving);
    assert Going(started, |w.tasks|, w.d.g.images);
    RunGoing(started, events, |w.tasks|, w.d.g.images);
  }

  // ---------------------------------------------------------------- an empty gallery

  /** A lone submit of an empty gallery asks the server for nothing but the draft. */
  predicate GoingEmpty(w: World, t: nat, stored: seq<Stored>) {
    && t < |w.tasks| && w.d.g.images == [] && w.d.stored == stored
    && (w.tasks[t].job.Finished?
        || (w.tasks[t].job.Saving? && w.tasks[t].job.copy == [] && w.tasks[t].job.stage.Drafting? && w.tasks[t].request == SaveDraft))
  }

  lemma StepGoingEmpty(w: World, t: nat, stored: seq<Stored>, e: Event)
    requires GoingEmpty(w, t, stored) && About(e, t)
    ensures GoingEmpty(Apply(w, e), t, stored)
  {
  }

  lemma {:induction false} RunGoingEmpty(w: World, events: seq<Event>, t: nat, stored: seq<Stored>)
    requires GoingEmpty(w, t, stored) && AllAbout(events, t)
    ensures GoingEmpty(Run(w, events), t, stored)
  {
    if events != [] {
      var front := events[..|events| - 1];
      assert forall k :: 0 <= k < |front| ==> front[k] == events[k];
      RunGoingEmpty(w, front, t, stored);
      StepGoingEmpty(Run(w, front), t, stored, events[|events| - 1]);
    }
  }

  lemma EmptyMirrors(d: Draft)
    requires d.g.images == []
    ensures Mirrored(d) <==> LiveIds(d.stored) == {}
  {
    forall j | 0 <= j < |d.stored| && d.stored[j].live ensures !Shown(d, j) && j in LiveIds(d.stored) {
    }
  }

  /** For every gallery, from any state a run can reach: the banner of a lone submit means that the server mirrors the
      gallery if and only if there was an image to save or the server showed none. */
  lemma LoneBannerIff(w: World, events: seq<Event>)
    requires Sound(w) && !w.closed && AllAbout(events, |w.tasks|)
    ensures
      var after := Run(Apply(w, StartSaving), events);
      && |w.tasks| < |after.tasks|
      && (after.tasks[|w.tasks|].job == Finished(true) ==>
            (Mirrored(after.d) <==> w.d.g.images != [] || LiveIds(w.d.stored) == {}))
  {
    if w.d.g.images != [] {
      LoneBannerMeansMirrored(w, events);
    } else {
      RunGoingEmpty(Apply(w, StartSaving), events, |w.tasks|, w.d.stored);
      EmptyMirrors(Run(Apply(w, StartSaving), events).d);
    }
  }
}
