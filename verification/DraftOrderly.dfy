/** A discipline of clicks under which every submit is fresh: no two copies of the gallery are written over each other.
    */
module DraftOrderly {
  import opened Text
  import opened Gallery
  import opened DraftImages
  import opened DraftTasks
  import opened DraftTaskRuns
  import opened DraftFresh

  /** The tasks that write their copy of the gallery back. */
  predicate HoldsCopy(job: Job) { job.Saving? || job.Deleting? || job.Adding? }

  function CopyOf(job: Job): seq<Image> {
    match job
    case Saving(copy, _) => copy
    case Deleting(copy, _) => copy
    case Adding(copy, _) => copy
    case _ => []
  }

  predicate SaveRuns(w: World) { exists t :: 0 <= t < |w.tasks| && w.tasks[t].job.Saving? }

  predicate CopyIsHeld(w: World) { exists t :: 0 <= t < |w.tasks| && HoldsCopy(w.tasks[t].job) }

  /** What the form could check before it handles a click: no submit while a copy is held, and no deletion or selection
      of files while a submit runs. */
  predicate Orderly(w: World, e: Event) {
    && (e.StartSaving? ==> !CopyIsHeld(w))
    && (e.StartAdding? || e.StartDeleting? ==> !SaveRuns(w))
  }

  predicate AllOrderly(w: World, events: seq<Event>) {
    events != [] ==>
      AllOrderly(w, events[..|events| - 1]) && Orderly(Run(w, events[..|events| - 1]), events[|events| - 1])
  }

  /** A running submit is the only holder of a copy. */
  predicate Alone(w: World) {
    forall t, u :: 0 <= t < |w.tasks| && 0 <= u < |w.tasks| && t != u && w.tasks[t].job.Saving? ==>
        !HoldsCopy(w.tasks[u].job)
  }

  predicate HonestTask(task: Task, acked: set<nat>) { Honest(CopyOf(task.job), acked) }

  /** No list that can be written back or sent has lost an acknowledgement. */
  predicate Fair(w: World) {
    && Honest(w.d.g.images, w.d.acked) && Alone(w)
    && forall t :: 0 <= t < |w.tasks| ==> HonestTask(w.tasks[t], w.d.acked)
  }

  // ---------------------------------------------------------------- lists

  lemma HonestResult(g: Store, e: Edit, acked: set<nat>)
    requires WellFormed(g.images) && PlainEdit(e) && Honest(g.images, acked) && forall key :: key in acked ==>
      key < g.nextKey
    ensures Honest(Do(g, e).images, acked)
  {
    var after := Do(g, e).images;
    forall k | 0 <= k < |after| && after[k].persistedId.None? ensures KeyOf(after[k]) !in acked {
      ResultDescends(g, e, k);
      if i :| 0 <= i < |g.images| && Core(g.images[i]) == Core(after[k]) {
        assert g.images[i].key == Core(g.images[i]).key == after[k].key;
        assert g.images[i].persistedId == Core(g.images[i]).persistedId == after[k].persistedId;
      }
    }
  }

  /** Recording an acknowledgement in the list it belongs to keeps that list honest. */
  lemma HonestAck(g: Store, copy: seq<Image>, i: nat, id: nat, acked: set<nat>)
    requires DistinctKeys(g.(images := copy)) && i < |copy| && Honest(copy, acked)
    ensures Honest(copy[i := Acknowledged(copy[i], id)], acked + {KeyOf(copy[i])})
  {
    var copy' := copy[i := Acknowledged(copy[i], id)];
    forall j | 0 <= j < |copy'| && copy'[j].persistedId.None? ensures KeyOf(copy'[j]) !in acked + {KeyOf(copy[i])} {
      assert j != i && copy'[j] == copy[j];
      if j < i { KeysDiffer(g.(images := copy), j, i); } else { KeysDiffer(g.(images := copy), i, j); }
    }
  }

  // ---------------------------------------------------------------- tasks

  lemma AskFair(w: World, t: nat, job: Job, r: Request)
    requires Fair(w) && t < |w.tasks| && w.tasks[t].job.Saving? && job.Saving? && Honest(job.copy, w.d.acked)
    ensures Fair(Ask(w, t, job, r))
  {
  }

  lemma FinishFair(w: World, t: nat, banner: bool)
    requires Fair(w) && t < |w.tasks|
    ensures Fair(Finish(w, t, banner))
  {
  }

  lemma ProceedFair(w: World, t: nat, copy: seq<Image>, k: nat)
    requires Fair(w) && t < |w.tasks| && w.tasks[t].job.Saving? && Honest(copy, w.d.acked) && k <= |copy|
    ensures Fair(Proceed(w, t, copy, k))
  {
    var i := NextWithoutId(copy, k);
    if i < |copy| {
      AskFair(w, t, Saving(copy, Uploading(i)), PostImage(KeyOf(copy[i]), BodyOf(copy[i], i)));
    } else if copy == [] {
      FinishFair(w, t, true);
    } else if OrderDue(w.d) {
      AskFair(w, t, Saving(copy, Ordering), OrderRequest(w.d));
    } else {
      AskFair(w, t, Saving(copy, Checking), FetchDeal);
    }
  }

  /** The acknowledgement of a lone submit: it is in the submit's copy and, with it, in the gallery. */
  lemma AckedFair(w: World, t: nat, copy: seq<Image>, stage: Stage, i: nat, id: nat)
    requires Sound(w) && Fair(w) && t < |w.tasks| && w.tasks[t].job == Saving(copy, stage) && i < |copy|
    ensures
      var copy' := copy[i := Acknowledged(copy[i], id)];
      Fair(AckedWorld(w, copy, i, id).(tasks := w.tasks[t := w.tasks[t].(job := Saving(copy', stage))]))
  {
    var copy' := copy[i := Acknowledged(copy[i], id)];
    var after := AckedWorld(w, copy, i, id).(tasks := w.tasks[t := w.tasks[t].(job := Saving(copy', stage))]);
    assert SoundTask(w, w.tasks[t]) && HonestTask(w.tasks[t], w.d.acked);
    HonestAck(w.d.g, copy, i, id, w.d.acked);
    AckedIs(w, copy, i, id);
    forall u | 0 <= u < |after.tasks| ensures HonestTask(after.tasks[u], after.d.acked) {
      if u != t { assert !HoldsCopy(w.tasks[u].job) && CopyOf(w.tasks[u].job) == []; }
    }
  }

  lemma UploadedFair(w: World, t: nat, copy: seq<Image>, stage: Stage, i: nat, id: nat)
    requires Sound(w) && Fair(w) && t < |w.tasks| && w.tasks[t].job == Saving(copy, stage) && i < |copy|
    ensures Fair(Proceed(AckedWorld(w, copy, i, id), t, copy[i := Acknowledged(copy[i], id)], i + 1))
  {
    var copy' := copy[i := Acknowledged(copy[i], id)];
    var acked := AckedWorld(w, copy, i, id).(tasks := w.tasks[t := w.tasks[t].(job := Saving(copy', stage))]);
    AckedFair(w, t, copy, stage, i, id);
    assert HonestTask(acked.tasks[t], acked.d.acked);
    ProceedFair(acked, t, copy', i + 1);
    SameProceed(AckedWorld(w, copy, i, id), Saving(copy', stage), t, copy', i + 1);
  }

  lemma SetTwice(tasks: seq<Task>, t: nat, x: Task, y: Task)
    requires t < |tasks|
    ensures tasks[t := x][t := y] == tasks[t := y]
  {
  }

  /** What a task's job was before does not matter once the submit goes on. */
  lemma SameProceed(a: World, job: Job, t: nat, copy: seq<Image>, k: nat)
    requires t < |a.tasks| && k <= |copy|
    ensures Proceed(a.(tasks := a.tasks[t := a.tasks[t].(job := job)]), t, copy, k) == Proceed(a, t, copy, k)
  {
    var x := a.tasks[t].(job := job);
    var i := NextWithoutId(copy, k);
    if i < |copy| {
      SetTwice(a.tasks, t, x, Task(Saving(copy, Uploading(i)), PostImage(KeyOf(copy[i]), BodyOf(copy[i], i)), None));
    } else if copy == [] {
      SetTwice(a.tasks, t, x, a.tasks[t].(job := Finished(true)));
    } else if OrderDue(a.d) {
      SetTwice(a.tasks, t, x, Task(Saving(copy, Ordering), OrderRequest(a.d), None));
    } else {
      SetTwice(a.tasks, t, x, Task(Saving(copy, Checking), FetchDeal, None));
    }
  }

  lemma DraftedFair(w: World, t: nat, copy: seq<Image>, creates: bool)
    requires Sound(w) && Fair(w) && t < |w.tasks| && w.tasks[t].job.Saving? && w.tasks[t].job.copy == copy
    ensures Fair(Proceed(w.(d := w.d.(g := w.d.g.(hasDraft := creates || w.d.g.hasDraft))), t, copy, 0))
  {
    var drafted := w.(d := w.d.(g := w.d.g.(hasDraft := creates || w.d.g.hasDraft)));
    FlagsSound(w, creates || w.d.g.hasDraft, w.d.resent, w.closed);
    assert HonestTask(w.tasks[t], w.d.acked);
    assert Alone(drafted);
    assert Fair(drafted) by {
      forall u | 0 <= u < |drafted.tasks| ensures HonestTask(drafted.tasks[u], drafted.d.acked) { assert HonestTask(w.tasks[u], w.d.acked); }
    }
    ProceedFair(drafted, t, copy, 0);
  }

  lemma AnnounceFair(w: World, t: nat)
    requires Fair(w) && t < |w.tasks|
    ensures Fair(Announce(w, t))
  {
    FinishFair(w, t, true);
    var finished := Finish(w, t, true);
    assert Announce(w, t).tasks == finished.tasks && Announce(w, t).d.acked == finished.d.acked;
    forall u | 0 <= u < |finished.tasks| ensures HonestTask(Announce(w, t).tasks[u], finished.d.acked) {
      assert HonestTask(finished.tasks[u], finished.d.acked);
    }
  }

  lemma DraftingFair(w: World, t: nat, copy: seq<Image>, creates: bool, a: Answer)
    requires Sound(w) && Fair(w) && t < |w.tasks| && w.tasks[t].job.Saving? && w.tasks[t].job.copy == copy
    ensures Fair(Continue(w, t, copy, Drafting(creates), a))
  {
    if a == Done { DraftedFair(w, t, copy, creates); } else { FinishFair(w, t, false); }
  }

  lemma UploadingFair(w: World, t: nat, copy: seq<Image>, i: nat, a: Answer)
    requires Sound(w) && Fair(w) && t < |w.tasks| && w.tasks[t].job == Saving(copy, Uploading(i))
    ensures Fair(Continue(w, t, copy, Uploading(i), a))
  {
    if a.Kept? && i < |copy| {
      ContinueUploaded(w, t, copy, i, a.id);
      UploadedFair(w, t, copy, Uploading(i), i, a.id);
    } else {
      assert Continue(w, t, copy, Uploading(i), a) == Finish(w, t, false);
      FinishFair(w, t, false);
    }
  }

  lemma OrderingFair(w: World, t: nat, copy: seq<Image>, a: Answer)
    requires Fair(w) && t < |w.tasks| && w.tasks[t].job == Saving(copy, Ordering)
    ensures Fair(Continue(w, t, copy, Ordering, a))
  {
    assert HonestTask(w.tasks[t], w.d.acked);
    if a == Done { AskFair(w, t, Saving(copy, Checking), FetchDeal); } else { FinishFair(w, t, false); }
  }

  lemma CheckingFair(w: World, t: nat, copy: seq<Image>, a: Answer)
    requires Fair(w) && t < |w.tasks|
    ensures Fair(Continue(w, t, copy, Checking, a))
  {
    if a.Listed? && a.count >= |copy| { AnnounceFair(w, t); } else { FinishFair(w, t, false); }
  }

  lemma ContinueFair(w: World, t: nat, copy: seq<Image>, stage: Stage, a: Answer)
    requires Sound(w) && Fair(w) && t < |w.tasks| && w.tasks[t].job == Saving(copy, stage)
    ensures Fair(Continue(w, t, copy, stage, a))
  {
    match stage
    case Drafting(creates) => DraftingFair(w, t, copy, creates, a);
    case Uploading(i) => UploadingFair(w, t, copy, i, a);
    case Ordering => OrderingFair(w, t, copy, a);
    case Checking => CheckingFair(w, t, copy, a);
  }

  lemma WriteBackFair(w: World, copy: seq<Image>, e: Edit)
    requires Sound(w) && Fair(w) && GoodList(w, copy) && Honest(copy, w.d.acked) && PlainEdit(e)
    ensures Fair(WriteBack(w, copy, e))
  {
    HonestResult(w.d.g.(images := copy), e, w.d.acked);
  }

  lemma ReceiveFair(w: World, t: nat)
    requires Sound(w) && Fair(w) && t < |w.tasks| && w.tasks[t].answer.Some?
    ensures Fair(Receive(w, t))
  {
    assert SoundTask(w, w.tasks[t]) && HonestTask(w.tasks[t], w.d.acked);
    FinishFair(w, t, false);
    match w.tasks[t].job
    case Saving(copy, stage) => ContinueFair(w, t, copy, stage, w.tasks[t].answer.value);
    case Deleting(copy, at) =>
      WriteBackFair(w, copy, Remove(at, true));
      FinishFair(WriteBack(w, copy, Remove(at, true)), t, false);
    case Adding(copy, picked) =>
      WriteBackFair(w, copy, Append(picked));
      FinishFair(WriteBack(w, copy, Append(picked)), t, false);
    case Reordering =>
    case Finished(_) =>
  }

  lemma SpawnFair(w: World, job: Job, r: Request)
    requires Fair(w) && Honest(CopyOf(job), w.d.acked)
    requires job.Saving? ==> !CopyIsHeld(w)
    requires HoldsCopy(job) ==> !SaveRuns(w)
    ensures Fair(Spawn(w, job, r))
  {
  }

  lemma SaveHoldsCopy(w: World)
    ensures SaveRuns(w) ==> CopyIsHeld(w)
  {
    if t :| 0 <= t < |w.tasks| && w.tasks[t].job.Saving? { assert HoldsCopy(w.tasks[t].job); }
  }

  lemma ServeFair(w: World, e: Event)
    requires Fair(w) && (e.Serve? || e.GiveUp? || e.ServeStray?)
    ensures Fair(Apply(w, e))
  {
    if e.GiveUp? && Running(w, e.t) { FinishFair(w, e.t, false); }
  }

  lemma ClickedFair(w: World, e: Edit)
    requires Sound(w) && Fair(w)
    ensures Fair(Clicked(w, e))
  {
    if !e.Append? && !e.Remove? {
      WriteBackFair(w, w.d.g.images, e);
      var after := WriteBack(w, w.d.g.images, e);
      if OrderDue(after.d) { SpawnFair(after, Reordering, OrderRequest(after.d)); }
    }
  }

  lemma StepFair(w: World, e: Event)
    requires Sound(w) && Fair(w) && PlainEvent(e) && Orderly(w, e)
    ensures Fair(Apply(w, e))
  {
    SaveHoldsCopy(w);
    match e
    case Click(edit) => ClickedFair(w, edit);
    case StartAdding(picked) => SpawnFair(w, Adding(w.d.g.images, picked), ReadFiles);
    case StartDeleting(at) =>
      WriteBackFair(w, w.d.g.images, Remove(at, true));
      if at < |w.d.g.images| && w.d.g.images[at].persistedId.Some? {
        SpawnFair(w, Deleting(w.d.g.images, at), DropImage(w.d.g.images[at].persistedId.value));
      }
    case StartSaving => SpawnFair(w, Saving(w.d.g.images, Drafting(!w.d.g.hasDraft)), SaveDraft);
    case Deliver(t) => if Running(w, t) && w.tasks[t].answer.Some? { ReceiveFair(w, t); }
    case Serve(_) => ServeFair(w, e);
    case GiveUp(_) => ServeFair(w, e);
    case ServeStray(_) => ServeFair(w, e);
  }

  /** A submit that starts while no copy is held is fresh. */
  lemma UnheldIsFresh(w: World)
    requires Fair(w) && !CopyIsHeld(w)
    ensures FreshStart(w)
  {
    forall t | 0 <= t < |w.tasks| ensures Due(w.tasks[t].job) == {} { assert !HoldsCopy(w.tasks[t].job); }
  }

  lemma {:induction false} RunFair(w: World, events: seq<Event>)
    requires Opened(w) && AllOrderly(w, events) && AllPlain(events)
    ensures Fair(Run(w, events)) && FreshStarts(w, events)
  {
    if events != [] {
      var front := events[..|events| - 1];
      assert forall k :: 0 <= k < |front| ==> front[k] == events[k];
      RunFair(w, front);
      RunSound(w, front);
      StepFair(Run(w, front), events[|events| - 1]);
      if events[|events| - 1].StartSaving? { UnheldIsFresh(Run(w, front)); }
    }
  }

  /** On every run in which no submit, deletion or selection starts over a running submit, and no submit over any of the
      three, every submit is fresh, and no request repeats a key that was acknowledged. */
  lemma OrderlyNeverResends(w: World, events: seq<Event>)
    requires Opened(w) && AllOrderly(w, events) && AllPlain(events)
    ensures FreshStarts(w, events) && Run(w, events).d.resent == 0
  {
    RunFair(w, events);
    NeverResent(w, events);
  }
}
