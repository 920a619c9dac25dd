/** What each event of the seller form does, and which one sets the banner. */
module DraftSteps {
  import opened Text
  import opened Gallery
  import opened DraftImages
  import opened DraftTasks

  /** Without a draft, without images, or with an image that has no id, no order is sent, and that is no failure. */
  lemma NothingToOrder(d: Draft, fate: Fate)
    requires !d.g.hasDraft || d.g.images == [] || exists i :: 0 <= i < |d.g.images| && d.g.images[i].persistedId.None?
    ensures PersistOrder(d, fate) == Pass(d, true)
  {
    if AllPersisted(d.g.images) { assert !d.g.hasDraft || d.g.images == []; }
  }

  predicate Starts(e: Event) { e.Click? || e.StartAdding? || e.StartDeleting? || e.StartSaving? }

  /** After the banner the form takes no click of this creation any more. */
  lemma ClosedTakesNothing(w: World, e: Event)
    requires w.closed && Starts(e)
    ensures Apply(w, e) == w
  {
  }

  /** One task more, waiting for its first request; everything else as it was. */
  predicate AddsTask(w: World, after: World, job: Job, request: Request) {
    after == w.(tasks := w.tasks + [Task(job, request, None)])
  }

  /** A selection holds a copy of the gallery from before its files are read; with no room, or no files, it ends at once. */
  lemma SelectionStarts(w: World, picked: seq<Image>)
    requires !w.closed
    ensures
      var after := Apply(w, StartAdding(picked));
      if picked == [] || |w.d.g.images| >= 5 then after == w else AddsTask(w, after, Adding(w.d.g.images, picked), ReadFiles)
  {
  }

  predicate OnServer(w: World, at: nat) { at < |w.d.g.images| && w.d.g.images[at].persistedId.Some? && w.d.g.hasDraft }

  function Without(images: seq<Image>, at: nat): seq<Image> {
    if at < |images| then images[..at] + images[at + 1..] else images
  }

  /** The deletion of an image that the server has holds a copy and asks the server; any other one takes the image out of
      the gallery and asks nobody. */
  lemma DeletionStarts(w: World, at: nat)
    requires !w.closed && WellFormed(w.d.g.images)
    ensures
      var after := Apply(w, StartDeleting(at));
      if OnServer(w, at) then AddsTask(w, after, Deleting(w.d.g.images, at), DropImage(w.d.g.images[at].persistedId.value))
      else
        && after.tasks == w.tasks && after.stray == w.stray && after.d.stored == w.d.stored && after.d.acked == w.d.acked
        && after.closed == w.closed && after.d.g.hasDraft == w.d.g.hasDraft
        && Cores(after.d.g.images) == Cores(Without(w.d.g.images, at))
  {
    if !OnServer(w, at) {
      var left := Without(w.d.g.images, at);
      assert forall i :: 0 <= i < |left| ==> Complete(left[i]);
      NormalizeKeepsCores(left, w.d.g.nextKey);
    }
  }

  lemma SubmitStarts(w: World)
    requires !w.closed
    ensures AddsTask(w, Apply(w, StartSaving), Saving(w.d.g.images, Drafting(!w.d.g.hasDraft)), SaveDraft)
  {
  }

  /** An order lists the ids of the gallery as it is, and the id of the marked image. */
  predicate Orders(r: Request, images: seq<Image>) {
    && r.PatchOrder? && |r.ids| == |images|
    && (forall i :: 0 <= i < |images| ==> images[i].persistedId == Some(r.ids[i]))
    && (forall i :: 0 <= i < |images| && images[i].isPrimary ==> images[i].persistedId == Some(r.primary))
  }

  predicate InRange(images: seq<Image>, e: Edit) {
    || (e.Move? && 0 <= e.index < |images| && 0 <= e.index + e.delta < |images|)
    || (e.MakePrimary? && 0 <= e.selected < |images|)
  }

  lemma OrderIs(d: Draft)
    requires WellFormed(d.g.images)
    ensures OrderDue(d) <==> d.g.hasDraft && d.g.images != [] && AllPersisted(d.g.images)
    ensures OrderDue(d) ==> Orders(OrderRequest(d), d.g.images)
  {
    if d.g.images != [] {
      var p :| 0 <= p < |d.g.images| && OnlyPrimary(d.g.images, p);
      PrimaryIsOnly(d.g.images, p);
    }
  }

  lemma ClickedIs(w: World, e: Edit)
    requires WellFormed(w.d.g.images) && (e.Move? || e.MakePrimary?)
    ensures WellFormed(Do(w.d.g, e).images) && Do(w.d.g, e).hasDraft == w.d.g.hasDraft
    ensures Do(w.d.g, e) == w.d.g <==> !InRange(w.d.g.images, e)
    ensures AllPersisted(Do(w.d.g, e).images) <==> AllPersisted(w.d.g.images)
    ensures |Do(w.d.g, e).images| == |w.d.g.images|
  {
    EditWellFormed(w.d.g, e);
    if InRange(w.d.g.images, e) {
      if e.Move? { MovedIds(w.d.g, e.index, e.delta); } else { MarkedIds(w.d.g, e.selected); }
    }
  }

  lemma MovedIds(g: Store, index: int, delta: int)
    requires WellFormed(g.images) && CanMove(g, index, delta)
    ensures AllPersisted(Do(g, Move(index, delta)).images) <==> AllPersisted(g.images)
    ensures |Do(g, Move(index, delta)).images| == |g.images|
  {
    var after := Do(g, Move(index, delta)).images;
    MovePermutes(g, index, delta);
    forall i | 0 <= i < |after| ensures after[i] in g.images { assert after[i] in multiset(after); }
    forall i | 0 <= i < |g.images| ensures g.images[i] in after { assert g.images[i] in multiset(g.images); }
  }

  lemma MarkedIds(g: Store, selected: nat)
    requires WellFormed(g.images) && selected < |g.images|
    ensures AllPersisted(Do(g, MakePrimary(selected)).images) <==> AllPersisted(g.images)
    ensures |Do(g, MakePrimary(selected)).images| == |g.images|
  {
    var after := Do(g, MakePrimary(selected)).images;
    PrimaryChosen(g, selected);
    assert |Cores(after)| == |Cores(g.images)|;
    assert forall i :: 0 <= i < |after| ==> Cores(after)[i].persistedId == after[i].persistedId;
    assert forall i :: 0 <= i < |after| ==> Cores(g.images)[i].persistedId == g.images[i].persistedId;
  }

  /** A move or a choice of primary that is in range edits the gallery and, if there is a draft and every image has its id,
      sends the new order; one that is out of range does neither. Neither touches a running task. */
  lemma ClickSends(w: World, e: Edit)
    requires !w.closed && WellFormed(w.d.g.images) && (e.Move? || e.MakePrimary?)
    ensures
      var after := Apply(w, Click(e));
      && after.d == w.d.(g := Do(w.d.g, e)) && (!InRange(w.d.g.images, e) ==> after.d == w.d)
      && (if InRange(w.d.g.images, e) && w.d.g.hasDraft && AllPersisted(w.d.g.images) then
            && |after.tasks| == |w.tasks| + 1 && after.tasks[..|w.tasks|] == w.tasks
            && after.tasks[|w.tasks|] == Task(Reordering, after.tasks[|w.tasks|].request, None)
            && Orders(after.tasks[|w.tasks|].request, after.d.g.images)
          else after.tasks == w.tasks)
  {
    ClickedIs(w, e);
    OrderIs(w.d.(g := Do(w.d.g, e)));
  }

  /** Clearing empties the gallery and asks the server nothing; the other edits are no clicks. */
  lemma ClearAsksNothing(w: World, e: Edit)
    requires !w.closed && !e.Move? && !e.MakePrimary?
    ensures
      var after := Apply(w, Click(e));
      && after.tasks == w.tasks && after.d.stored == w.d.stored && (e.Clear? ==> after.d.g.images == [])
      && (!e.Clear? ==> after == w)
  {
  }

  /** The answer that ends a submit with the banner: the check lists as many images as the submit has, or it has none and
      its draft is there. */
  predicate Sets(w: World, e: Event, t: nat) {
    && e == Deliver(t) && t < |w.tasks| && w.tasks[t].answer.Some? && w.tasks[t].job.Saving?
    && var copy, a := w.tasks[t].job.copy, w.tasks[t].answer.value;
       || (w.tasks[t].job.stage == Checking && a.Listed? && a.count >= |copy|)
       || (w.tasks[t].job.stage.Drafting? && a == Done && copy == [])
  }

  lemma ProceedBanner(w: World, t: nat, copy: seq<Image>, k: nat, u: nat)
    requires t < |w.tasks| && !w.tasks[t].job.Finished? && k <= |copy| && u < |w.tasks| && (copy == [] ==> k == 0)
    ensures
      var after := Proceed(w, t, copy, k);
      && |after.tasks| == |w.tasks|
      && (after.tasks[u].job == Finished(true) <==> w.tasks[u].job == Finished(true) || (u == t && copy == []))
      && (after.closed <==> w.closed || copy == [])
  {
  }

  lemma ContinueBanner(w: World, t: nat, u: nat)
    requires t < |w.tasks| && u < |w.tasks| && w.tasks[t].job.Saving? && w.tasks[t].answer.Some?
    ensures
      var after := Receive(w, t);
      && |after.tasks| == |w.tasks|
      && (after.tasks[u].job == Finished(true) <==> w.tasks[u].job == Finished(true) || (u == t && Sets(w, Deliver(t), t)))
      && (after.closed <==> w.closed || Sets(w, Deliver(t), t))
  {
    var copy, a := w.tasks[t].job.copy, w.tasks[t].answer.value;
    match w.tasks[t].job.stage
    case Drafting(creates) =>
      if a == Done {
        ProceedBanner(w.(d := w.d.(g := w.d.g.(hasDraft := creates || w.d.g.hasDraft))), t, copy, 0, u);
      }
    case Uploading(i) =>
      if a.Kept? && i < |copy| {
        var copy' := copy[i := Acknowledged(copy[i], a.id)];
        var acked := w.(d := w.d.(acked := w.d.acked + {KeyOf(copy[i])}, g := Write(w.d.g, copy')));
        ProceedBanner(acked, t, copy', i + 1, u);
      }
    case Ordering =>
    case Checking =>
  }

  /** A task has ended with the banner exactly when it had, or this event is the answer that sets it; and the form is closed
      exactly when it was, or some task is set. Nothing else sets a banner: no deletion, no selection, no reordering. */
  lemma BannerIff(w: World, e: Event, u: nat)
    requires u < |w.tasks|
    ensures u < |Apply(w, e).tasks|
    ensures Apply(w, e).tasks[u].job == Finished(true) <==> w.tasks[u].job == Finished(true) || Sets(w, e, u)
  {
    if e.Deliver? && Running(w, e.t) && w.tasks[e.t].answer.Some? && w.tasks[e.t].job.Saving? { ContinueBanner(w, e.t, u); }
  }

  lemma ClosedIff(w: World, e: Event)
    ensures Apply(w, e).closed <==> w.closed || exists t :: Sets(w, e, t)
  {
    if e.Deliver? && Running(w, e.t) && w.tasks[e.t].answer.Some? && w.tasks[e.t].job.Saving? {
      ContinueBanner(w, e.t, e.t);
      if Sets(w, e, e.t) { assert Apply(w, e).closed; }
    }
  }
}
