/** Clicks that are handled while a submit has still an image to upload: they are lost, and the banner stays true. */
module DraftEarly {
  import opened Text
  import opened Gallery
  import opened DraftImages
  import opened DraftImageRuns
  import opened DraftBanner
  import opened DraftTasks
  import opened DraftTaskRuns
  import opened DraftAlone

  // ---------------------------------------------------------------- a submit that has still an image to upload

  /** The submit will learn of another image, and write its copy back then. */
  predicate StillUploads(job: Job) {
    match job
    case Saving(copy, Drafting(_)) => !AllPersisted(copy)
    case Saving(copy, Uploading(i)) => i < |copy| && copy[i].persistedId.None?
    case _ => false
  }

  /** Nothing is ordered of a gallery that lacks an id, or is empty. */
  predicate Lacking(images: seq<Image>) {
    images == [] || exists i :: 0 <= i < |images| && images[i].persistedId.None?
  }

  /** Where such a submit is, whatever has been clicked meanwhile. */
  predicate Uploads(w: World, t: nat, start: seq<Image>) {
    && t < |w.tasks| && StillUploads(w.tasks[t].job) && SameBodies(start, w.tasks[t].job.copy) && Lacking(w.d.g.images)
    && match w.tasks[t].job.stage
       case Drafting(creates) => w.tasks[t].request == SaveDraft && (creates || w.d.g.hasDraft)
       case Uploading(i) => FirstPersisted(w.tasks[t].job.copy, i) && w.d.g.hasDraft
       case _ => false
  }

  predicate Past(job: Job) { !StillUploads(job) && !(job.Saving? && job.stage.Uploading?) }

  /** It still uploads; or it goes on alone; or it has failed. */
  predicate Underway(w: World, t: nat, start: seq<Image>) {
    || Uploads(w, t, start)
    || (Going(w, t, start) && Past(w.tasks[t].job))
    || (t < |w.tasks| && w.tasks[t].job == Finished(false))
  }

  // ---------------------------------------------------------------- clicks

  lemma MovedLacks(g: Store, index: int, delta: int)
    requires WellFormed(g.images) && Lacking(g.images) && CanMove(g, index, delta)
    ensures Lacking(Do(g, Move(index, delta)).images)
  {
    var i :| 0 <= i < |g.images| && g.images[i].persistedId.None?;
    MoveIs(g, index, delta);
    MoveItemAt(g.images, index, index + delta, i);
  }

  lemma MarkedLacks(g: Store, selected: nat)
    requires WellFormed(g.images) && Lacking(g.images) && selected < |g.images|
    ensures Lacking(Do(g, MakePrimary(selected)).images)
  {
    var i :| 0 <= i < |g.images| && g.images[i].persistedId.None?;
    var after := Do(g, MakePrimary(selected)).images;
    PrimaryChosen(g, selected);
    assert |Cores(after)| == |after| == |g.images| && Cores(after)[i] == Cores(g.images)[i] == Core(g.images[i]);
    assert Core(after[i]).persistedId == after[i].persistedId;
  }

  lemma EditedLacks(g: Store, e: Edit)
    requires WellFormed(g.images) && Lacking(g.images) && (e.Move? || e.MakePrimary? || e.Clear?)
    ensures Lacking(Do(g, e).images) && Do(g, e).hasDraft == g.hasDraft
  {
    match e
    case Move(index, delta) => if CanMove(g, index, delta) { MovedLacks(g, index, delta); }
    case MakePrimary(selected) => if 0 <= selected < |g.images| { MarkedLacks(g, selected); }
    case Clear =>
  }

  lemma ClickedUploads(w: World, t: nat, start: seq<Image>, e: Edit)
    requires Sound(w) && Uploads(w, t, start)
    ensures Uploads(Apply(w, Click(e)), t, start)
  {
    assert w.d.g.(images := w.d.g.images) == w.d.g;
    if e.Move? || e.MakePrimary? || e.Clear? { EditedLacks(w.d.g, e); }
  }

  // ---------------------------------------------------------------- the submit's own events

  /** A submit goes on with the next image that has no id. */
  lemma ProceedUploads(w: World, t: nat, start: seq<Image>, copy: seq<Image>, k: nat)
    requires t < |w.tasks| && SameBodies(start, copy) && FirstPersisted(copy, k) && w.d.g.hasDraft
      && Lacking(w.d.g.images)
    requires !AllPersisted(copy)
    ensures Uploads(Proceed(w, t, copy, k), t, start)
  {
    var i := NextWithoutId(copy, k);
    assert FirstPersisted(copy, i);
  }

  lemma DraftedUploads(w: World, t: nat, start: seq<Image>, copy: seq<Image>)
    requires Sound(w) && Uploads(w, t, start) && SameBodies(start, copy) && !AllPersisted(copy)
    ensures Uploads(Proceed(w.(d := w.d.(g := w.d.g.(hasDraft := true))), t, copy, 0), t, start)
  {
    ProceedUploads(w.(d := w.d.(g := w.d.g.(hasDraft := true))), t, start, copy, 0);
  }

  /** The acknowledgement of the last image: the gallery is the submit's copy again. */
  lemma LastAcked(w: World, t: nat, start: seq<Image>, copy: seq<Image>, k: nat)
    requires Sound(w) && t < |w.tasks| && w.d.g.images == copy && SameBodies(start, copy) && w.d.g.hasDraft
    requires FirstPersisted(copy, k) && AllPersisted(copy)
    ensures Underway(Proceed(w, t, copy, k), t, start)
  {
    ProceedGoing(w, t, start, k);
  }

  /** The world once an upload is acknowledged: the gallery is the submit's copy, which has one id more. */
  lemma AckedCopy(w: World, start: seq<Image>, copy: seq<Image>, i: nat, id: nat)
    requires Sound(w) && GoodList(w, copy) && SameBodies(start, copy) && i < |copy| && FirstPersisted(copy, i)
    requires id < |w.d.stored| && w.d.stored[id].key == KeyOf(copy[i])
    ensures
      var copy', acked := copy[i := Acknowledged(copy[i], id)], AckedWorld(w, copy, i, id);
      && Sound(acked) && acked.d.g.images == copy' && acked.tasks == w.tasks && acked.d.g.hasDraft == w.d.g.hasDraft
      && SameBodies(start, copy') && FirstPersisted(copy', i + 1)
  {
    AckedIs(w, copy, i, id);
    AckedSound(w, copy, i, id);
  }

  lemma AckedUnderway(w: World, t: nat, start: seq<Image>, copy: seq<Image>, i: nat, id: nat)
    requires Sound(w) && GoodList(w, copy) && SameBodies(start, copy) && i < |copy| && FirstPersisted(copy, i)
    requires t < |w.tasks| && w.d.g.hasDraft && id < |w.d.stored| && w.d.stored[id].key == KeyOf(copy[i])
    ensures Underway(Proceed(AckedWorld(w, copy, i, id), t, copy[i := Acknowledged(copy[i], id)], i + 1), t, start)
  {
    var acked := AckedWorld(w, copy, i, id);
    AckedCopy(w, start, copy, i, id);
    GoesOn(acked, t, start, i + 1);
    assert acked.d.g.images == copy[i := Acknowledged(copy[i], id)];
  }

  lemma GoesOn(w: World, t: nat, start: seq<Image>, k: nat)
    requires Sound(w) && t < |w.tasks| && w.d.g.hasDraft
    requires SameBodies(start, w.d.g.images) && FirstPersisted(w.d.g.images, k)
    ensures Underway(Proceed(w, t, w.d.g.images, k), t, start)
  {
    if AllPersisted(w.d.g.images) {
      LastAcked(w, t, start, w.d.g.images, k);
    } else {
      ProceedUploads(w, t, start, w.d.g.images, k);
    }
  }

  lemma ContinueUnderway(w: World, t: nat, start: seq<Image>, copy: seq<Image>, stage: Stage, a: Answer)
    requires Sound(w) && Uploads(w, t, start) && w.tasks[t].job == Saving(copy, stage) && w.tasks[t].answer == Some(a)
    ensures Underway(Continue(w, t, copy, stage, a), t, start)
  {
    assert SoundTask(w, w.tasks[t]);
    match stage
    case Drafting(creates) => if a == Done { DraftedUploads(w, t, start, copy); }
    case Uploading(i) =>
      if a.Kept? {
        ContinueUploaded(w, t, copy, i, a.id);
        AckedUnderway(w, t, start, copy, i, a.id);
      }
    case Ordering =>
    case Checking =>
  }

  lemma ServedUploads(w: World, t: nat, start: seq<Image>)
    requires Sound(w) && Uploads(w, t, start) && Running(w, t) && w.tasks[t].answer.None?
    ensures Uploads(Apply(w, Serve(t)), t, start)
  {
  }

  lemma OwnUploads(w: World, t: nat, start: seq<Image>, e: Event)
    requires Sound(w) && Uploads(w, t, start) && About(e, t)
    ensures Underway(Apply(w, e), t, start)
  {
    match e
    case Serve(_) => if w.tasks[t].answer.None? { ServedUploads(w, t, start); }
    case Deliver(_) =>
      if w.tasks[t].answer.Some? {
        ContinueUnderway(w, t, start, w.tasks[t].job.copy, w.tasks[t].job.stage, w.tasks[t].answer.value);
      }
    case GiveUp(_) =>
  }

  lemma ProceedPast(w: World, t: nat, copy: seq<Image>)
    requires t < |w.tasks| && AllPersisted(copy)
    ensures Past(Proceed(w, t, copy, 0).tasks[t].job)
  {
    assert NextWithoutId(copy, 0) == |copy|;
  }

  lemma ContinuePast(w: World, t: nat, copy: seq<Image>, stage: Stage, a: Answer)
    requires t < |w.tasks| && Past(Saving(copy, stage))
    ensures Past(Continue(w, t, copy, stage, a).tasks[t].job)
  {
    if stage.Drafting? && a == Done {
      ProceedPast(w.(d := w.d.(g := w.d.g.(hasDraft := stage.creates || w.d.g.hasDraft))), t, copy);
    }
  }

  /** Once it has all its ids, a submit does not upload again. */
  lemma PastUploads(w: World, t: nat, start: seq<Image>, e: Event)
    requires Sound(w) && Going(w, t, start) && Past(w.tasks[t].job) && About(e, t)
    ensures Underway(Apply(w, e), t, start)
  {
    StepGoing(w, t, start, e);
    PastStays(w, t, e);
  }

  lemma PastStays(w: World, t: nat, e: Event)
    requires t < |w.tasks| && Past(w.tasks[t].job) && (w.tasks[t].job.Saving? || w.tasks[t].job.Finished?)
      && About(e, t)
    ensures t < |Apply(w, e).tasks| && Past(Apply(w, e).tasks[t].job)
  {
    if e.Deliver? && w.tasks[t].job.Saving? && w.tasks[t].answer.Some? {
      ContinuePast(w, t, w.tasks[t].job.copy, w.tasks[t].job.stage, w.tasks[t].answer.value);
    }
  }

  // ---------------------------------------------------------------- the whole submit

  /** The submit's own events, and clicks as long as it has an image to upload. */
  predicate Early(w: World, t: nat, e: Event) {
    About(e, t) || (e.Click? && t < |w.tasks| && StillUploads(w.tasks[t].job))
  }

  predicate AllEarly(w: World, t: nat, events: seq<Event>) {
    events != [] ==>
        AllEarly(w, t, events[..|events| - 1]) && Early(Run(w, events[..|events| - 1]), t, events[|events| - 1])
  }

  lemma StepUnderway(w: World, t: nat, start: seq<Image>, e: Event)
    requires Sound(w) && Underway(w, t, start) && Early(w, t, e)
    ensures Underway(Apply(w, e), t, start)
  {
    if Uploads(w, t, start) {
      if e.Click? { ClickedUploads(w, t, start, e.edit); } else { OwnUploads(w, t, start, e); }
    } else if Going(w, t, start) && Past(w.tasks[t].job) {
      PastUploads(w, t, start, e);
    }
  }

  lemma {:induction false} RunUnderway(w: World, t: nat, start: seq<Image>, events: seq<Event>)
    requires Sound(w) && Underway(w, t, start) && AllEarly(w, t, events)
    ensures Sound(Run(w, events)) && Underway(Run(w, events), t, start)
  {
    if events != [] {
      var front := events[..|events| - 1];
      RunUnderway(w, t, start, front);
      StepSound(Run(w, front), events[|events| - 1]);
      StepUnderway(Run(w, front), t, start, events[|events| - 1]);
    }
  }

  /** From any state a run can reach: clicks that are handled while a submit has still an image to upload are lost, and
      do not touch what its banner means. The gallery is the submitted one again, and the server mirrors it. */
  lemma EarlyClicksAreLost(w: World, events: seq<Event>)
    requires Sound(w) && !w.closed && w.d.g.images != [] && AllEarly(Apply(w, StartSaving), |w.tasks|, events)
    ensures
      var after := Run(Apply(w, StartSaving), events);
      && |w.tasks| < |after.tasks|
      && (after.tasks[|w.tasks|].job == Finished(true) ==> SameBodies(w.d.g.images, after.d.g.images) && Mirrored(after.d))
  {
    var started := Apply(w, StartSaving);
    var start, t := w.d.g.images, |w.tasks|;
    StepSound(w, StartSaving);
    assert started.tasks[t] == Task(Saving(start, Drafting(!w.d.g.hasDraft)), SaveDraft, None);
    assert Underway(started, t, start) by {
      if AllPersisted(start) { assert Going(started, t, start); } else { assert Uploads(started, t, start); }
    }
    RunUnderway(started, t, start, events);
  }
}
