/** What a banner means on every run, and what it means when submits overlap. */
module DraftOverlaps {
  import opened Text
  import opened Gallery
  import opened DraftImages
  import opened DraftImageRuns
  import opened DraftTasks
  import opened DraftTaskRuns
  import opened DraftFresh

  // ---------------------------------------------------------------- what a submit has uploaded

  /** A submit has the ids of all that comes before its upload, and of all its images once it orders or checks. */
  predicate UploadedJob(job: Job) {
    match job
    case Saving(copy, Uploading(i)) => FirstPersisted(copy, i)
    case Saving(copy, Ordering) => AllPersisted(copy)
    case Saving(copy, Checking) => AllPersisted(copy)
    case _ => true
  }

  predicate HasUploaded(w: World) { forall t :: 0 <= t < |w.tasks| ==> UploadedJob(w.tasks[t].job) }

  lemma ProceedUploaded(w: World, t: nat, copy: seq<Image>, k: nat)
    requires HasUploaded(w) && t < |w.tasks| && FirstPersisted(copy, k)
    ensures HasUploaded(Proceed(w, t, copy, k))
  {
    var i := NextWithoutId(copy, k);
    assert FirstPersisted(copy, i);
    if i == |copy| { assert AllPersisted(copy); }
    forall u | 0 <= u < |w.tasks| ensures UploadedJob(Proceed(w, t, copy, k).tasks[u].job) {
      if u != t { assert UploadedJob(w.tasks[u].job); }
    }
  }

  lemma AckedUploaded(w: World, t: nat, copy: seq<Image>, i: nat, id: nat)
    requires HasUploaded(w) && t < |w.tasks| && w.tasks[t].job == Saving(copy, Uploading(i)) && i < |copy|
    ensures HasUploaded(Proceed(AckedWorld(w, copy, i, id), t, copy[i := Acknowledged(copy[i], id)], i + 1))
  {
    assert UploadedJob(w.tasks[t].job);
    ProceedUploaded(AckedWorld(w, copy, i, id), t, copy[i := Acknowledged(copy[i], id)], i + 1);
  }

  lemma ContinueUploadedJob(w: World, t: nat, copy: seq<Image>, stage: Stage, a: Answer)
    requires HasUploaded(w) && t < |w.tasks| && w.tasks[t].job == Saving(copy, stage)
    ensures HasUploaded(Continue(w, t, copy, stage, a))
  {
    assert UploadedJob(w.tasks[t].job);
    match stage
    case Drafting(creates) =>
      if a == Done { ProceedUploaded(w.(d := w.d.(g := w.d.g.(hasDraft := creates || w.d.g.hasDraft))), t, copy, 0); }
    case Uploading(i) =>
      if a.Kept? && i < |copy| {
        ContinueUploaded(w, t, copy, i, a.id);
        AckedUploaded(w, t, copy, i, a.id);
      }
    case Ordering =>
    case Checking =>
  }

  lemma StepUploaded(w: World, e: Event)
    requires HasUploaded(w)
    ensures HasUploaded(Apply(w, e))
  {
    if e.Deliver? && Running(w, e.t) && w.tasks[e.t].answer.Some? && w.tasks[e.t].job.Saving? {
      ContinueUploadedJob(w, e.t, w.tasks[e.t].job.copy, w.tasks[e.t].job.stage, w.tasks[e.t].answer.value);
    }
  }

  lemma RunUploaded(w: World, events: seq<Event>)
    requires HasUploaded(w)
    ensures HasUploaded(Run(w, events))
  {
    if events != [] {
      RunUploaded(w, events[..|events| - 1]);
      StepUploaded(Run(w, events[..|events| - 1]), events[|events| - 1]);
    }
  }

  // ---------------------------------------------------------------- every run

  /** The answer that task `t` gets makes it set the banner. */
  predicate SetsBanner(w: World, t: nat) {
    && Running(w, t) && w.tasks[t].job.Saving? && w.tasks[t].answer.Some?
    && Apply(w, Deliver(t)).tasks[t].job == Finished(true)
  }

  lemma BannerIsLast(w: World, t: nat)
    requires HasUploaded(w) && SetsBanner(w, t)
    ensures AllPersisted(w.tasks[t].job.copy)
    ensures Apply(w, Deliver(t)).d.stored == w.d.stored
    ensures w.tasks[t].job.copy != [] ==> Apply(w, Deliver(t)).d.g.images == w.d.g.images
  {
    assert UploadedJob(w.tasks[t].job);
  }

  /** The image has an id, which is that of its own row, and no other row has its key. */
  predicate StoredOnceAs(stored: seq<Stored>, image: Image) {
    && image.persistedId.Some? && HasOwnRow(stored, image)
    && forall j :: 0 <= j < |stored| && stored[j].key == KeyOf(image) ==> j == image.persistedId.value
  }

  lemma OwnRowIsOnly(w: World, images: seq<Image>, i: nat)
    requires Sound(w) && AllKnown(w, images) && AllPersisted(images) && i < |images|
    ensures StoredOnceAs(w.d.stored, images[i])
  {
    SoundOwnRow(w, images, i);
    var id := images[i].persistedId.value;
    forall j | 0 <= j < |w.d.stored| && w.d.stored[j].key == KeyOf(images[i]) ensures j == id {
      assert !(id < j) && !(j < id);
    }
  }

  /** On every run, whatever submits, deletions, selections and clicks are handled, lost, given up or late: when a
      submit sets the banner, each of its images has an id and is stored exactly once, under its own key, with its bytes
      and name. */
  lemma BannerStoresOnce(w: World, events: seq<Event>, t: nat)
    requires Opened(w) && AllPlain(events) && SetsBanner(Run(w, events), t)
    ensures
      var copy := Run(w, events).tasks[t].job.copy;
      var after := Apply(Run(w, events), Deliver(t));
      forall i :: 0 <= i < |copy| ==> StoredOnceAs(after.d.stored, copy[i])
  {
    var now := Run(w, events);
    RunSound(w, events);
    RunUploaded(w, events);
    BannerIsLast(now, t);
    assert SoundTask(now, now.tasks[t]);
    forall i | 0 <= i < |now.tasks[t].job.copy| ensures StoredOnceAs(now.d.stored, now.tasks[t].job.copy[i]) {
      OwnRowIsOnly(now, now.tasks[t].job.copy, i);
    }
  }

  // ---------------------------------------------------------------- submits that overlap

  /** A submit of this gallery, an order, or a task that has ended. */
  predicate Submitting(task: Task, start: seq<Image>) {
    match task.job
    case Saving(copy, _) => SameBodies(start, copy) && !task.request.DropImage?
    case Reordering => !task.request.DropImage?
    case Finished(_) => true
    case _ => false
  }

  predicate AllLive(stored: seq<Stored>) { forall j :: 0 <= j < |stored| ==> stored[j].live }

  /** Nothing but submits of one gallery, and orders, is under way; and every stored image is live. */
  predicate Overlapping(w: World, start: seq<Image>) {
    && SameBodies(start, w.d.g.images) && AllLive(w.d.stored)
    && (forall t :: 0 <= t < |w.tasks| ==> Submitting(w.tasks[t], start))
    && (forall k :: 0 <= k < |w.stray| ==> !w.stray[k].DropImage?)
  }

  /** The events of submits: pressed again, served, answered, given up, or late. */
  predicate OfSubmits(e: Event) { e.StartSaving? || e.Serve? || e.Deliver? || e.GiveUp? || e.ServeStray? }

  lemma ServerKeepsLive(stored: seq<Stored>, r: Request)
    requires AllLive(stored) && !r.DropImage?
    ensures AllLive(ServerStored(stored, r))
  {
    if r.PostImage? { StoredImage(stored, r.key, r.body); }
  }

  lemma OneTask(w: World, after: World, start: seq<Image>, t: nat, task: Task)
    requires Overlapping(w, start) && t < |w.tasks| && after.tasks == w.tasks[t := task] && Submitting(task, start)
    requires SameBodies(start, after.d.g.images) && AllLive(after.d.stored) && after.stray == w.stray
    ensures Overlapping(after, start)
  {
  }

  lemma ProceedOverlaps(w: World, start: seq<Image>, t: nat, copy: seq<Image>, k: nat)
    requires Overlapping(w, start) && t < |w.tasks| && k <= |copy| && SameBodies(start, copy)
    ensures Overlapping(Proceed(w, t, copy, k), start)
  {
    var after := Proceed(w, t, copy, k);
    OneTask(w, after, start, t, after.tasks[t]);
  }

  lemma AckedOverlaps(w: World, start: seq<Image>, copy: seq<Image>, i: nat, id: nat)
    requires Overlapping(w, start) && SameBodies(start, copy) && WellFormed(copy) && i < |copy|
    ensures SameBodies(start, copy[i := Acknowledged(copy[i], id)]) && Overlapping(AckedWorld(w, copy, i, id), start)
  {
    AckedIs(w, copy, i, id);
  }

  lemma ContinueOverlaps(w: World, start: seq<Image>, t: nat, copy: seq<Image>, stage: Stage, a: Answer)
    requires Overlapping(w, start) && t < |w.tasks| && w.tasks[t].job == Saving(copy, stage) && WellFormed(copy)
    ensures Overlapping(Continue(w, t, copy, stage, a), start)
  {
    assert Submitting(w.tasks[t], start);
    match stage
    case Drafting(creates) => DraftedOverlaps(w, start, t, copy, creates, a);
    case Uploading(i) => UploadedOverlaps(w, start, t, copy, i, a);
    case Ordering => EndedOverlaps(w, start, t, copy);
    case Checking => EndedOverlaps(w, start, t, copy);
  }

  lemma DraftedOverlaps(w: World, start: seq<Image>, t: nat, copy: seq<Image>, creates: bool, a: Answer)
    requires Overlapping(w, start) && t < |w.tasks| && SameBodies(start, copy)
    ensures Overlapping(Continue(w, t, copy, Drafting(creates), a), start)
  {
    assert Submitting(w.tasks[t], start);
    var drafted := w.(d := w.d.(g := w.d.g.(hasDraft := creates || w.d.g.hasDraft)));
    if a == Done {
      ProceedOverlaps(drafted, start, t, copy, 0);
    } else {
      OneTask(w, Finish(w, t, false), start, t, w.tasks[t].(job := Finished(false)));
    }
  }

  lemma AckedProceeds(w: World, start: seq<Image>, t: nat, copy: seq<Image>, i: nat, id: nat)
    requires Overlapping(w, start) && t < |w.tasks| && SameBodies(start, copy) && WellFormed(copy) && i < |copy|
    ensures Overlapping(Proceed(AckedWorld(w, copy, i, id), t, copy[i := Acknowledged(copy[i], id)], i + 1), start)
  {
    AckedOverlaps(w, start, copy, i, id);
    ProceedOverlaps(AckedWorld(w, copy, i, id), start, t, copy[i := Acknowledged(copy[i], id)], i + 1);
  }

  lemma UploadedOverlaps(w: World, start: seq<Image>, t: nat, copy: seq<Image>, i: nat, a: Answer)
    requires Overlapping(w, start) && t < |w.tasks| && SameBodies(start, copy) && WellFormed(copy)
    ensures Overlapping(Continue(w, t, copy, Uploading(i), a), start)
  {
    if a.Kept? && i < |copy| {
      ContinueUploaded(w, t, copy, i, a.id);
      AckedProceeds(w, start, t, copy, i, a.id);
    } else {
      assert Continue(w, t, copy, Uploading(i), a) == Finish(w, t, false);
      EndedOverlaps(w, start, t, copy);
    }
  }

  /** The last three ways to go on: to the check, to the banner, or to a failure. */
  lemma EndedOverlaps(w: World, start: seq<Image>, t: nat, copy: seq<Image>)
    requires Overlapping(w, start) && t < |w.tasks| && SameBodies(start, copy)
    ensures Overlapping(Ask(w, t, Saving(copy, Checking), FetchDeal), start)
    ensures Overlapping(Finish(w, t, false), start) && Overlapping(Announce(w, t), start)
  {
    assert Submitting(w.tasks[t], start);
    OneTask(w, Ask(w, t, Saving(copy, Checking), FetchDeal), start, t, Task(Saving(copy, Checking), FetchDeal, None));
    OneTask(w, Finish(w, t, false), start, t, w.tasks[t].(job := Finished(false)));
    OneTask(w, Announce(w, t), start, t, w.tasks[t].(job := Finished(true)));
  }

  lemma DeliveredOverlaps(w: World, start: seq<Image>, t: nat)
    requires Sound(w) && Overlapping(w, start) && Running(w, t) && w.tasks[t].answer.Some?
    ensures Overlapping(Receive(w, t), start)
  {
    assert SoundTask(w, w.tasks[t]) && Submitting(w.tasks[t], start);
    if w.tasks[t].job.Saving? {
      ContinueOverlaps(w, start, t, w.tasks[t].job.copy, w.tasks[t].job.stage, w.tasks[t].answer.value);
    } else {
      OneTask(w, Finish(w, t, false), start, t, w.tasks[t].(job := Finished(false)));
    }
  }

  lemma ServedOverlaps(w: World, start: seq<Image>, t: nat)
    requires Overlapping(w, start) && Running(w, t) && w.tasks[t].answer.None?
    ensures Overlapping(Apply(w, Serve(t)), start)
  {
    assert Submitting(w.tasks[t], start);
    ServerKeepsLive(w.d.stored, w.tasks[t].request);
    OneTask(w, Apply(w, Serve(t)), start, t, Apply(w, Serve(t)).tasks[t]);
  }

  lemma StepOverlaps(w: World, start: seq<Image>, e: Event)
    requires Sound(w) && Overlapping(w, start) && OfSubmits(e)
    ensures Overlapping(Apply(w, e), start)
  {
    match e
    case StartSaving =>
    case Serve(t) => if Running(w, t) && w.tasks[t].answer.None? { ServedOverlaps(w, start, t); }
    case Deliver(t) => if Running(w, t) && w.tasks[t].answer.Some? { DeliveredOverlaps(w, start, t); }
    case GiveUp(t) =>
      if Running(w, t) { assert Submitting(w.tasks[t], start); }
    case ServeStray(k) => if k < |w.stray| { ServerKeepsLive(w.d.stored, w.stray[k]); }
  }

  predicate AllOfSubmits(events: seq<Event>) { forall k :: 0 <= k < |events| ==> OfSubmits(events[k]) }

  lemma RunOverlaps(w: World, start: seq<Image>, events: seq<Event>)
    requires Sound(w) && Overlapping(w, start) && AllOfSubmits(events)
    ensures Sound(Run(w, events)) && Overlapping(Run(w, events), start)
  {
    if events != [] {
      var front := events[..|events| - 1];
      assert forall k :: 0 <= k < |front| ==> front[k] == events[k];
      RunOverlaps(w, start, front);
      StepSound(Run(w, front), events[|events| - 1]);
      StepOverlaps(Run(w, front), start, events[|events| - 1]);
    }
  }

  /** The only row of the image's key, live, with its bytes and its name. */
  predicate OnlyRow(stored: seq<Stored>, image: Image, j: nat) {
    && j < |stored| && stored[j].live && stored[j].key == KeyOf(image)
    && stored[j].body.dataUrl == image.dataUrl && stored[j].body.filename == image.filename
    && forall m :: 0 <= m < |stored| && stored[m].key == KeyOf(image) ==> m == j
  }

  lemma CopyIsStored(w: World, start: seq<Image>, t: nat, i: nat) returns (j: nat)
    requires Sound(w) && HasUploaded(w) && Overlapping(w, start) && SetsBanner(w, t) && i < |start|
    ensures OnlyRow(w.d.stored, start[i], j)
  {
    BannerIsLast(w, t);
    assert SoundTask(w, w.tasks[t]) && Submitting(w.tasks[t], start);
    var copy := w.tasks[t].job.copy;
    OwnRowIsOnly(w, copy, i);
    j := copy[i].persistedId.value;
    assert BodyOf(copy[i], i) == BodyOf(start[i], i);
  }

  predicate HasOnlyRow(stored: seq<Stored>, image: Image) { exists j :: 0 <= j < |stored| && OnlyRow(stored, image, j) }

  lemma SameOnlyRow(stored: seq<Stored>, a: Image, b: Image, i: nat, j: nat)
    requires OnlyRow(stored, a, j) && BodyOf(b, i) == BodyOf(a, i) && b.key == a.key
    ensures HasOnlyRow(stored, b)
  {
    assert OnlyRow(stored, b, j);
  }

  lemma BannerOverlaps(w: World, start: seq<Image>, t: nat)
    requires Sound(w) && HasUploaded(w) && Overlapping(w, start) && SetsBanner(w, t)
    ensures
      var after := Apply(w, Deliver(t)).d;
      SameBodies(start, after.g.images) && after.stored == w.d.stored
      && forall i :: 0 <= i < |after.g.images| ==> HasOnlyRow(after.stored, after.g.images[i])
  {
    var after := Apply(w, Deliver(t)).d;
    BannerIsLast(w, t);
    DeliveredOverlaps(w, start, t);
    forall i | 0 <= i < |after.g.images| ensures HasOnlyRow(after.stored, after.g.images[i]) {
      var j := CopyIsStored(w, start, t, i);
      SameOnlyRow(after.stored, start[i], after.g.images[i], i, j);
    }
  }

  /** When any submits of one gallery overlap, and nothing else is handled: as soon as one of them sets the banner, the
      gallery is the one that was submitted, and each of its images is stored exactly once, live, with its bytes and
      name, although another submit may have taken its id from the form. */
  lemma OverlapStoresOnce(w: World, events: seq<Event>, t: nat)
    requires Sound(w) && HasUploaded(w) && Overlapping(w, w.d.g.images) && AllOfSubmits(events)
    requires SetsBanner(Run(w, events), t)
    ensures
      var after := Apply(Run(w, events), Deliver(t)).d;
      && SameBodies(w.d.g.images, after.g.images)
      && forall i :: 0 <= i < |after.g.images| ==> HasOnlyRow(after.stored, after.g.images[i])
  {
    RunOverlaps(w, w.d.g.images, events);
    RunUploaded(w, events);
    BannerOverlaps(Run(w, events), w.d.g.images, t);
  }
}
