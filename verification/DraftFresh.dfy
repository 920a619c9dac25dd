/** Which submits can send an image again whose upload was acknowledged: those of a gallery that has lost an id, or that
    still lacks one which a running submit is about to learn. */
module DraftFresh {
  import opened Text
  import opened Gallery
  import opened DraftImages
  import opened DraftTasks
  import opened DraftTaskRuns

  // ---------------------------------------------------------------- what is still to be sent

  function DueFrom(copy: seq<Image>, k: nat): set<nat> {
    set i: nat | k <= i < |copy| && copy[i].persistedId.None? :: KeyOf(copy[i])
  }

  /** The keys a running submit has still to send, or to hear of. */
  function Due(job: Job): set<nat> {
    match job
    case Saving(copy, Drafting(_)) => DueFrom(copy, 0)
    case Saving(copy, Uploading(i)) => DueFrom(copy, i)
    case _ => {}
  }

  /** What the form could check before it starts a submit: none of the images without an id was acknowledged, and no
      running submit has it still to send. */
  predicate FreshStart(w: World) {
    && DueFrom(w.d.g.images, 0) !! w.d.acked
    && forall t :: 0 <= t < |w.tasks| ==> DueFrom(w.d.g.images, 0) !! Due(w.tasks[t].job)
  }

  /** A submit waits for the draft, or for the upload of an image that has no id. */
  predicate InStep(task: Task) {
    match task.job
    case Saving(copy, Drafting(_)) => task.request == SaveDraft && (task.answer.Some? ==> task.answer.value == Done)
    case Saving(copy, Uploading(i)) =>
      i < |copy| && copy[i].persistedId.None? && task.request == PostImage(KeyOf(copy[i]), BodyOf(copy[i], i))
    case _ => true
  }

  /** No two submits have the same key to send, and none a key that was acknowledged. */
  predicate Fresh(w: World) {
    && (forall t :: 0 <= t < |w.tasks| ==> Due(w.tasks[t].job) !! w.d.acked && InStep(w.tasks[t]))
    && (forall t, u :: 0 <= t < u < |w.tasks| ==> Due(w.tasks[t].job) !! Due(w.tasks[u].job))
  }

  // ---------------------------------------------------------------- one step

  /** A task may go on with fewer keys to send; what it has sent may be acknowledged. */
  lemma NarrowedFresh(w: World, after: World, t: nat, task: Task)
    requires Fresh(w) && t < |w.tasks| && after.tasks == w.tasks[t := task] && InStep(task)
    requires Due(task.job) <= Due(w.tasks[t].job)
    requires after.d.acked <= w.d.acked + (Due(w.tasks[t].job) - Due(task.job))
    ensures Fresh(after)
  {
    forall u | 0 <= u < |after.tasks| ensures Due(after.tasks[u].job) !! after.d.acked && InStep(after.tasks[u]) {
      assert Due(w.tasks[u].job) !! w.d.acked;
      if u < t { assert Due(w.tasks[u].job) !! Due(w.tasks[t].job); }
      if u > t { assert Due(w.tasks[t].job) !! Due(w.tasks[u].job); }
    }
  }

  lemma ServedFresh(w: World, t: nat)
    requires Fresh(w) && Running(w, t) && w.tasks[t].answer.None?
    ensures Fresh(Apply(w, Serve(t)))
  {
    NarrowedFresh(w, Apply(w, Serve(t)), t, w.tasks[t].(answer := Some(ServerAnswer(w.d.stored, w.tasks[t].request))));
  }

  lemma SpawnFresh(w: World, job: Job, r: Request)
    requires Fresh(w) && InStep(Task(job, r, None)) && Due(job) !! w.d.acked
    requires forall t :: 0 <= t < |w.tasks| ==> Due(job) !! Due(w.tasks[t].job)
    ensures Fresh(Spawn(w, job, r))
  {
  }

  lemma SameTasksFresh(w: World, after: World)
    requires Fresh(w) && after.tasks == w.tasks && after.d.acked == w.d.acked
    ensures Fresh(after)
  {
  }

  lemma FinishFresh(w: World, t: nat, banner: bool)
    requires Fresh(w) && t < |w.tasks|
    ensures Fresh(Finish(w, t, banner))
  {
    NarrowedFresh(w, Finish(w, t, banner), t, w.tasks[t].(job := Finished(banner)));
  }

  lemma DueLater(copy: seq<Image>, k: nat, i: nat)
    requires k <= i
    ensures DueFrom(copy, i) <= DueFrom(copy, k)
  {
  }

  lemma FirstDue(copy: seq<Image>, k: nat)
    requires k < |copy| && copy[k].persistedId.None?
    ensures KeyOf(copy[k]) in DueFrom(copy, k)
  {
  }

  /** The task of a submit that goes on from image `k`: the next upload, the order, the check, or the end. */
  lemma ProceedTask(w: World, t: nat, copy: seq<Image>, k: nat) returns (task: Task)
    requires t < |w.tasks| && k <= |copy|
    ensures Proceed(w, t, copy, k).tasks == w.tasks[t := task] && InStep(task) && Due(task.job) <= DueFrom(copy, k)
    ensures Proceed(w, t, copy, k).d.acked == w.d.acked
  {
    var i := NextWithoutId(copy, k);
    task := Proceed(w, t, copy, k).tasks[t];
    DueLater(copy, k, i);
  }

  lemma ProceedAsks(w: World, t: nat, copy: seq<Image>, k: nat)
    requires t < |w.tasks| && k <= |copy| && DueFrom(copy, k) !! w.d.acked
    ensures Proceed(w, t, copy, k).d.resent == w.d.resent
  {
    var i := NextWithoutId(copy, k);
    if i < |copy| {
      FirstDue(copy, i);
      DueLater(copy, k, i);
    }
  }

  lemma DraftedFresh(w: World, t: nat, copy: seq<Image>, hasDraft: bool)
    requires Fresh(w) && t < |w.tasks| && Due(w.tasks[t].job) == DueFrom(copy, 0)
    ensures
      var after := Proceed(w.(d := w.d.(g := w.d.g.(hasDraft := hasDraft))), t, copy, 0);
      Fresh(after) && after.d.resent == w.d.resent
  {
    var drafted := w.(d := w.d.(g := w.d.g.(hasDraft := hasDraft)));
    SameTasksFresh(w, drafted);
    ProceedAsks(drafted, t, copy, 0);
    var task := ProceedTask(drafted, t, copy, 0);
    NarrowedFresh(drafted, Proceed(drafted, t, copy, 0), t, task);
  }

  /** What is left after an acknowledgement. */
  lemma DueAfterAck(g: Store, copy: seq<Image>, i: nat, id: nat)
    requires DistinctKeys(g.(images := copy)) && i < |copy|
    ensures
      var copy' := copy[i := Acknowledged(copy[i], id)];
      DueFrom(copy', i + 1) <= DueFrom(copy, i) && KeyOf(copy[i]) !in DueFrom(copy', i + 1)
  {
    forall j | i < j < |copy| ensures KeyOf(copy[i]) != KeyOf(copy[j]) { KeysDiffer(g.(images := copy), i, j); }
  }

  lemma UploadedFresh(w: World, t: nat, copy: seq<Image>, i: nat, id: nat)
    requires Fresh(w) && t < |w.tasks| && w.tasks[t].job == Saving(copy, Uploading(i))
      && DistinctKeys(w.d.g.(images := copy))
    ensures i < |copy|
    ensures
      var after := Proceed(AckedWorld(w, copy, i, id), t, copy[i := Acknowledged(copy[i], id)], i + 1);
      Fresh(after) && after.d.resent == w.d.resent
  {
    assert InStep(w.tasks[t]);
    var copy' := copy[i := Acknowledged(copy[i], id)];
    var acked := AckedWorld(w, copy, i, id);
    DueAfterAck(w.d.g, copy, i, id);
    FirstDue(copy, i);
    assert Due(w.tasks[t].job) == DueFrom(copy, i);
    ProceedAsks(acked, t, copy', i + 1);
    var task := ProceedTask(acked, t, copy', i + 1);
    NarrowedFresh(w, Proceed(acked, t, copy', i + 1), t, task);
  }

  lemma OrderedFresh(w: World, t: nat, copy: seq<Image>)
    requires Fresh(w) && t < |w.tasks|
    ensures Fresh(Ask(w, t, Saving(copy, Checking), FetchDeal))
  {
    NarrowedFresh(w, Ask(w, t, Saving(copy, Checking), FetchDeal), t, Task(Saving(copy, Checking), FetchDeal, None));
  }

  lemma AnnounceFresh(w: World, t: nat)
    requires Fresh(w) && t < |w.tasks|
    ensures Fresh(Announce(w, t)) && Announce(w, t).d.resent == w.d.resent
  {
    FinishFresh(w, t, true);
    SameTasksFresh(Finish(w, t, true), Announce(w, t));
  }

  lemma ContinueFresh(w: World, t: nat, copy: seq<Image>, stage: Stage, a: Answer)
    requires Fresh(w) && t < |w.tasks| && w.tasks[t].job == Saving(copy, stage) && DistinctKeys(w.d.g.(images := copy))
    ensures Fresh(Continue(w, t, copy, stage, a)) && Continue(w, t, copy, stage, a).d.resent == w.d.resent
  {
    FinishFresh(w, t, false);
    match stage
    case Drafting(creates) => DraftedFresh(w, t, copy, creates || w.d.g.hasDraft);
    case Uploading(i) => if a.Kept? { UploadedFresh(w, t, copy, i, a.id); }
    case Ordering => OrderedFresh(w, t, copy);
    case Checking => AnnounceFresh(w, t);
  }

  lemma WriteBackFresh(w: World, t: nat, copy: seq<Image>, e: Edit)
    requires Fresh(w) && t < |w.tasks|
    ensures Fresh(Finish(WriteBack(w, copy, e), t, false))
  {
    SameTasksFresh(w, WriteBack(w, copy, e));
    FinishFresh(WriteBack(w, copy, e), t, false);
  }

  lemma ReceiveFresh(w: World, t: nat)
    requires Sound(w) && Fresh(w) && t < |w.tasks| && w.tasks[t].answer.Some?
    ensures Fresh(Receive(w, t)) && Receive(w, t).d.resent == w.d.resent
  {
    var a := w.tasks[t].answer.value;
    assert SoundTask(w, w.tasks[t]);
    FinishFresh(w, t, false);
    match w.tasks[t].job
    case Saving(copy, stage) => ContinueFresh(w, t, copy, stage, a);
    case Deleting(copy, at) => WriteBackFresh(w, t, copy, Remove(at, true));
    case Adding(copy, picked) => WriteBackFresh(w, t, copy, Append(picked));
    case Reordering =>
    case Finished(_) =>
  }

  lemma ClickedFresh(w: World, e: Edit)
    requires Fresh(w)
    ensures Fresh(Clicked(w, e)) && Clicked(w, e).d.resent == w.d.resent
  {
    if !e.Append? && !e.Remove? {
      var after := WriteBack(w, w.d.g.images, e);
      SameTasksFresh(w, after);
      if OrderDue(after.d) { SpawnFresh(after, Reordering, OrderRequest(after.d)); }
    }
  }

  lemma DeletionFresh(w: World, at: nat)
    requires Fresh(w)
    ensures Fresh(Apply(w, StartDeleting(at))) && Apply(w, StartDeleting(at)).d.resent == w.d.resent
  {
    SameTasksFresh(w, WriteBack(w, w.d.g.images, Remove(at, true)));
    if at < |w.d.g.images| && w.d.g.images[at].persistedId.Some? {
      SpawnFresh(w, Deleting(w.d.g.images, at), DropImage(w.d.g.images[at].persistedId.value));
    }
  }

  lemma GivenUpFresh(w: World, t: nat)
    requires Fresh(w)
    ensures Fresh(Apply(w, GiveUp(t))) && Apply(w, GiveUp(t)).d.resent == w.d.resent
  {
    if Running(w, t) {
      FinishFresh(w, t, false);
      SameTasksFresh(Finish(w, t, false), Apply(w, GiveUp(t)));
    }
  }

  /** Every event keeps the submits apart and repeats nothing, except the start of a submit that is not fresh. */
  lemma StepFresh(w: World, e: Event)
    requires Sound(w) && Fresh(w) && (e.StartSaving? && !w.closed ==> FreshStart(w))
    ensures Fresh(Apply(w, e)) && Apply(w, e).d.resent == w.d.resent
  {
    match e
    case Click(edit) => ClickedFresh(w, edit);
    case StartAdding(picked) => SpawnFresh(w, Adding(w.d.g.images, picked), ReadFiles);
    case StartDeleting(at) => DeletionFresh(w, at);
    case StartSaving => if !w.closed { SpawnFresh(w, Saving(w.d.g.images, Drafting(!w.d.g.hasDraft)), SaveDraft); }
    case Serve(t) => if Running(w, t) && w.tasks[t].answer.None? { ServedFresh(w, t); }
    case Deliver(t) => if Running(w, t) && w.tasks[t].answer.Some? { ReceiveFresh(w, t); }
    case GiveUp(t) => GivenUpFresh(w, t);
    case ServeStray(k) => SameTasksFresh(w, Apply(w, e));
  }

  // ---------------------------------------------------------------- whole runs

  predicate AllPlain(events: seq<Event>) { forall k :: 0 <= k < |events| ==> PlainEvent(events[k]) }

  /** Every submit that starts is fresh. */
  predicate FreshStarts(w: World, events: seq<Event>) {
    events != [] ==>
      && FreshStarts(w, events[..|events| - 1])
      && var before := Run(w, events[..|events| - 1]);
      (events[|events| - 1].StartSaving? && !before.closed ==> FreshStart(before))
  }

  lemma {:induction false} RunFresh(w: World, events: seq<Event>)
    requires Sound(w) && Fresh(w) && AllPlain(events) && FreshStarts(w, events)
    ensures Sound(Run(w, events)) && Fresh(Run(w, events)) && Run(w, events).d.resent == w.d.resent
  {
    if events != [] {
      var front := events[..|events| - 1];
      assert forall k :: 0 <= k < |front| ==> front[k] == events[k];
      RunFresh(w, front);
      StepSound(Run(w, front), events[|events| - 1]);
      StepFresh(Run(w, front), events[|events| - 1]);
    }
  }

  /** On every run in which each submit is fresh when it starts, no request repeats a key that was acknowledged:
      whatever is lost, given up or late, and whatever deletions, selections and clicks are handled meanwhile. */
  lemma NeverResent(w: World, events: seq<Event>)
    requires Opened(w) && AllPlain(events) && FreshStarts(w, events)
    ensures Run(w, events).d.resent == 0
  {
    RunSound(w, []);
    RunFresh(w, events);
  }

  // ---------------------------------------------------------------- the other way

  predicate NoStart(events: seq<Event>) { forall k :: 0 <= k < |events| ==> !events[k].StartSaving? }

  /** Some run without a further submit repeats more than `n` acknowledged keys. */
  ghost predicate CanRepeat(w: World, n: nat) {
    exists more :: AllPlain(more) && NoStart(more) && Run(w, more).d.resent > n
  }

  lemma {:induction false} RunAfter(w: World, e: Event, more: seq<Event>)
    ensures Run(w, [e] + more) == Run(Apply(w, e), more)
  {
    var all := [e] + more;
    if more == [] {
      assert all[..0] == [] && Run(w, all[..0]) == w;
    } else {
      assert all[..|all| - 1] == [e] + more[..|more| - 1];
      RunAfter(w, e, more[..|more| - 1]);
    }
  }

  lemma RepeatEarlier(w: World, e: Event, n: nat)
    requires CanRepeat(Apply(w, e), n) && PlainEvent(e) && !e.StartSaving?
    ensures CanRepeat(w, n)
  {
    var more :| AllPlain(more) && NoStart(more) && Run(Apply(w, e), more).d.resent > n;
    RunAfter(w, e, more);
    assert AllPlain([e] + more) && NoStart([e] + more);
  }

  lemma {:induction false} NoStartsFresh(w: World, events: seq<Event>)
    requires NoStart(events)
    ensures FreshStarts(w, events)
  {
    if events != [] {
      var front := events[..|events| - 1];
      assert forall k :: 0 <= k < |front| ==> front[k] == events[k];
      NoStartsFresh(w, front);
    }
  }

  lemma FreshCannotRepeat(w: World)
    requires Sound(w) && Fresh(w)
    ensures !CanRepeat(w, w.d.resent)
  {
    forall more | AllPlain(more) && NoStart(more) ensures Run(w, more).d.resent == w.d.resent {
      NoStartsFresh(w, more);
      RunFresh(w, more);
    }
  }
}
