/** A submit that nothing interrupts, answered, lost or given up request by request, is the plain save of the gallery.
    */
module DraftRefines {
  import opened Text
  import opened Gallery
  import opened DraftImages
  import opened DraftImageRuns
  import opened DraftBanner
  import opened DraftAlone
  import T = DraftTasks
  import R = DraftTaskRuns

  // ---------------------------------------------------------------- playing a submit

  /** One request of task t: answered, processed with its reply lost, or given up before it arrived. */
  function Attempt(w: T.World, t: nat, fate: Fate): T.World {
    match fate
    case Answered => T.Apply(T.Apply(w, T.Serve(t)), T.Deliver(t))
    case ReplyLost => T.Apply(T.Apply(w, T.Serve(t)), T.GiveUp(t))
    case _ => T.Apply(w, T.GiveUp(t))
  }

  datatype Fates = Fates(uploads: seq<Fate>, order: Fate, check: Fate)

  function FateFor(stage: T.Stage, f: Fates): Fate {
    match stage
    case Drafting(_) => Answered
    case Uploading(i) => FateAt(f.uploads, i)
    case Ordering => f.order
    case Checking => f.check
  }

  /** The submit's next request, with its fate; nothing once the submit has ended. */
  function Move(t: nat, f: Fates): T.World -> T.World {
    (w: T.World) => if t < |w.tasks|
        && w.tasks[t].job.Saving? then Attempt(w, t, FateFor(w.tasks[t].job.stage, f)) else w
  }

  function Iterate(step: T.World -> T.World, w: T.World, n: nat): T.World
    decreases n
  {
    if n == 0 then w else Iterate(step, step(w), n - 1)
  }

  /** A lone submit, from the click to its end: its draft is saved, then come its other requests, one after another. */
  function Submitted(w: T.World, f: Fates): T.World {
    var t := |w.tasks|;
    Iterate(Move(t, f), Attempt(T.Apply(w, T.StartSaving), t, Answered), |w.d.g.images| + 2)
  }

  // ---------------------------------------------------------------- it is a run

  ghost predicate Leads(w: T.World, t: nat, after: T.World) {
    exists events :: AllAbout(events, t) && T.Run(w, events) == after
  }

  lemma LeadsOn(w: T.World, t: nat, v: T.World, e: T.Event)
    requires Leads(w, t, v) && About(e, t)
    ensures Leads(w, t, T.Apply(v, e))
  {
    var events :| AllAbout(events, t) && T.Run(w, events) == v;
    var more := events + [e];
    assert more[..|more| - 1] == events;
    assert AllAbout(more, t) && T.Run(w, more) == T.Apply(v, e);
  }

  lemma AttemptLeads(w: T.World, t: nat, v: T.World, fate: Fate)
    requires Leads(w, t, v)
    ensures Leads(w, t, Attempt(v, t, fate))
  {
    LeadsOn(w, t, v, T.Serve(t));
    LeadsOn(w, t, v, T.GiveUp(t));
    LeadsOn(w, t, T.Apply(v, T.Serve(t)), T.Deliver(t));
    LeadsOn(w, t, T.Apply(v, T.Serve(t)), T.GiveUp(t));
  }

  lemma {:induction false} IterateLeads(step: T.World -> T.World, w: T.World, t: nat, v: T.World, n: nat)
    requires Leads(w, t, v) && forall u :: Leads(w, t, u) ==> Leads(w, t, step(u))
    ensures Leads(w, t, Iterate(step, v, n))
    decreases n
  {
    if n > 0 { IterateLeads(step, w, t, step(v), n - 1); }
  }

  // ---------------------------------------------------------------- it is the plain save

  /** The submit has ended as the save does; with the banner the form forgets its draft. */
  predicate EndsAs(end: T.World, t: nat, p: Pass) {
    t < |end.tasks| && end.tasks[t].job == T.Finished(p.ok) && end.d == p.d.(g := p.d.g.(hasDraft := !p.ok))
  }

  /** Where the submit has uploaded the first `k` images, with hasDraft set. */
  predicate Uploaded(v: T.World, t: nat, d: Draft, k: nat, fates: seq<Fate>) {
    && t < |v.tasks| && !v.tasks[t].job.Finished? && v.d.g.hasDraft && WellFormed(v.d.g.images)
    && k <= |v.d.g.images| == |d.g.images| && FirstPersisted(v.d.g.images, k)
    && UploadFirst(d, k, fates) == Pass(v.d, true)
  }

  lemma CheckEnds(v: T.World, t: nat, copy: seq<Image>, checkFate: Fate)
    requires t < |v.tasks| && v.tasks[t] == T.Task(T.Saving(copy, T.Checking), T.FetchDeal, None) && v.d.g.hasDraft
    ensures EndsAs(Attempt(v, t, checkFate), t, Pass(v.d, checkFate == Answered && |LiveIds(v.d.stored)| >= |copy|))
  {
  }

  lemma OrderServed(v: T.World, t: nat, copy: seq<Image>)
    requires t < |v.tasks| && T.OrderDue(v.d) && copy == v.d.g.images
    requires v.tasks[t] == T.Task(T.Saving(copy, T.Ordering), T.OrderRequest(v.d), None)
    ensures
      var u := T.Apply(v, T.Serve(t));
      && |u.tasks| == |v.tasks| && u.d == PersistOrder(v.d, Answered).d && u.d == PersistOrder(v.d, ReplyLost).d
      && u.tasks[t] == T.Task(T.Saving(copy, T.Ordering), T.OrderRequest(v.d), Some(if PersistOrder(v.d, Answered).ok then T.Done else T.Refused))
      && !PersistOrder(v.d, ReplyLost).ok
  {
  }

  lemma OrderByFate(d: Draft, fate: Fate)
    requires T.OrderDue(d)
    ensures PersistOrder(d, fate).d == if fate == NotProcessed then d else PersistOrder(d, Answered).d
    ensures PersistOrder(d, fate).ok <==> fate == Answered && PersistOrder(d, Answered).ok
  {
  }

  /** The order: refused or unanswered it ends the submit; else the check is next. */
  lemma OrderAttempt(v: T.World, t: nat, copy: seq<Image>, orderFate: Fate)
    requires t < |v.tasks| && T.OrderDue(v.d) && copy == v.d.g.images
    requires v.tasks[t] == T.Task(T.Saving(copy, T.Ordering), T.OrderRequest(v.d), None)
    ensures
      var p := PersistOrder(v.d, orderFate);
      var after := Attempt(v, t, orderFate);
      && t < |after.tasks| && after.d == p.d
      && after.tasks[t].job == (if p.ok then T.Saving(copy, T.Checking) else T.Finished(false))
      && (p.ok ==> after.tasks[t] == T.Task(T.Saving(copy, T.Checking), T.FetchDeal, None))
  {
    OrderServed(v, t, copy);
    OrderByFate(v.d, orderFate);
    var u := T.Apply(v, T.Serve(t));
    match orderFate
    case NotProcessed =>
    case ReplyLost => assert Attempt(v, t, orderFate) == T.Apply(u, T.GiveUp(t));
    case Answered => assert Attempt(v, t, orderFate) == T.Apply(u, T.Deliver(t));
  }

  function SaveOf(d: Draft, f: Fates): Pass { SaveImages(d, f.uploads, f.order, f.check) }

  lemma CheckPlays(v: T.World, t: nat, copy: seq<Image>, f: Fates)
    requires t < |v.tasks| && v.tasks[t] == T.Task(T.Saving(copy, T.Checking), T.FetchDeal, None) && v.d.g.hasDraft
    ensures EndsAs(Move(t, f)(v), t, Pass(v.d, f.check == Answered && |LiveIds(v.d.stored)| >= |copy|))
  {
    CheckEnds(v, t, copy, f.check);
  }

  lemma OrderPlays(v: T.World, t: nat, f: Fates) returns (next: T.World)
    requires t < |v.tasks| && T.OrderDue(v.d)
      && v.tasks[t] == T.Task(T.Saving(v.d.g.images, T.Ordering), T.OrderRequest(v.d), None)
    ensures
      var p := PersistOrder(v.d, f.order);
      && next == Move(t, f)(v)
      && EndsAs(Move(t, f)(next), t, Pass(p.d, p.ok && f.check == Answered && |LiveIds(p.d.stored)| >= |p.d.g.images|))
  {
    var p := PersistOrder(v.d, f.order);
    next := Attempt(v, t, f.order);
    OrderAttempt(v, t, v.d.g.images, f.order);
    assert p.d.g == v.d.g;
    if p.ok { CheckPlays(next, t, v.d.g.images, f); }
  }

  lemma AllUploaded(v: T.World, t: nat, d: Draft, f: Fates)
    requires Uploaded(v, t, d, |d.g.images|, f.uploads)
    ensures
      var p := T.Proceed(v, t, v.d.g.images, |d.g.images|);
      EndsAs(Move(t, f)(Move(t, f)(p)), t, SaveOf(d, f))
  {
    var copy := v.d.g.images;
    if copy != [] {
      PrimaryInside(copy);
      assert AllPersisted(copy) && T.OrderDue(v.d);
      var asked := T.Ask(v, t, T.Saving(copy, T.Ordering), T.OrderRequest(v.d));
      assert T.Proceed(v, t, copy, |copy|) == asked;
      var next := OrderPlays(asked, t, f);
    } else {
      var end := T.Announce(v, t);
      assert end.tasks[t].job.Finished? && Move(t, f)(end) == end;
    }
  }

  /** The world in which image `k` is being sent. */
  function Sending(v: T.World, t: nat, k: nat): T.World
    requires t < |v.tasks| && k < |v.d.g.images|
  {
    var copy := v.d.g.images;
    var key := KeyOf(copy[k]);
    T.Ask(v.(d := v.d.(resent := v.d.resent + if key in v.d.acked then 1 else 0)), t,
          T.Saving(copy, T.Uploading(k)), T.PostImage(key, BodyOf(copy[k], k)))
  }

  lemma ProceedSends(v: T.World, t: nat, k: nat)
    requires t < |v.tasks| && k < |v.d.g.images|
    ensures T.Proceed(v, t, v.d.g.images, k)
      == if v.d.g.images[k].persistedId.Some? then T.Proceed(v, t, v.d.g.images, k + 1) else Sending(v, t, k)
  {
  }

  /** The server has processed the upload. */
  function Answering(v: T.World, t: nat, k: nat): T.World
    requires t < |v.tasks| && k < |v.d.g.images|
  {
    T.Apply(Sending(v, t, k), T.Serve(t))
  }

  lemma AnsweringIs(v: T.World, t: nat, k: nat)
    requires t < |v.tasks| && k < |v.d.g.images|
    ensures
      var copy := v.d.g.images;
      var u := Answering(v, t, k);
      && u.d == Served(v.d, k) && |u.tasks| == |v.tasks|
      && u.tasks[t] == T.Task(T.Saving(copy, T.Uploading(k)), T.PostImage(KeyOf(copy[k]), BodyOf(copy[k], k)),
                              Some(match AnswerTo(v.d.stored, KeyOf(copy[k]), BodyOf(copy[k], k)) case Saved(id) => T.Kept(id) case _ => T.Refused))
  {
  }

  /** An upload that fails ends the submit where the save ends. */
  lemma FailedUpload(v: T.World, t: nat, k: nat, fate: Fate)
    requires t < |v.tasks| && k < |v.d.g.images| && v.d.g.images[k].persistedId.None? && v.d.g.hasDraft
    requires !Upload(v.d, k, fate).ok
    ensures
      var after := Attempt(Sending(v, t, k), t, fate);
      t < |after.tasks| && after.tasks[t].job == T.Finished(false) && after.d == Upload(v.d, k, fate).d
  {
    UploadCases(v.d, k, fate);
    AnsweringIs(v, t, k);
  }

  /** The world after the answer to the upload of image `k` has been written back. */
  function Written(v: T.World, t: nat, k: nat, id: nat): T.World
    requires t < |v.tasks| && k < |v.d.g.images|
  {
    R.AckedWorld(Answering(v, t, k), v.d.g.images, k, id)
  }

  lemma FineUpload(v: T.World, t: nat, k: nat, fate: Fate) returns (id: nat)
    requires t < |v.tasks| && k < |v.d.g.images| && v.d.g.images[k].persistedId.None? && Upload(v.d, k, fate).ok
    ensures fate == Answered && AnswerTo(v.d.stored, KeyOf(v.d.g.images[k]), BodyOf(v.d.g.images[k], k)) == Saved(id)
    ensures Upload(v.d, k, fate).d == AckAt(Served(v.d, k), k, id) == Written(v, t, k, id).d
    ensures |Written(v, t, k, id).tasks| == |v.tasks| && Written(v, t, k, id).tasks[t].job.Saving?
  {
    UploadCases(v.d, k, fate);
    AnsweringIs(v, t, k);
    id := AnswerTo(v.d.stored, KeyOf(v.d.g.images[k]), BodyOf(v.d.g.images[k], k)).id;
  }

  lemma WrittenIs(v: T.World, t: nat, k: nat, id: nat)
    requires t < |v.tasks| && k < |v.d.g.images| && WellFormed(v.d.g.images)
    ensures
      var copy := v.d.g.images;
      var next := Written(v, t, k, id);
      next.d.g.images == copy[k := Acknowledged(copy[k], id)] && WellFormed(next.d.g.images)
          && next.d.g.hasDraft == v.d.g.hasDraft
  {
    AnsweringIs(v, t, k);
    R.AckedIs(Answering(v, t, k), v.d.g.images, k, id);
  }

  /** An upload that succeeds goes on with the next image. */
  lemma FineAttempt(v: T.World, t: nat, k: nat, id: nat)
    requires t < |v.tasks| && k < |v.d.g.images| && WellFormed(v.d.g.images)
    requires AnswerTo(v.d.stored, KeyOf(v.d.g.images[k]), BodyOf(v.d.g.images[k], k)) == Saved(id)
    ensures
      var copy := v.d.g.images;
      var next := Written(v, t, k, id);
      && next.d.g.images == copy[k := Acknowledged(copy[k], id)] && WellFormed(next.d.g.images)
          && next.d.g.hasDraft == v.d.g.hasDraft
      && Attempt(Sending(v, t, k), t, Answered) == T.Proceed(next, t, next.d.g.images, k + 1)
  {
    WrittenIs(v, t, k, id);
    AnsweringIs(v, t, k);
    R.ContinueUploaded(Answering(v, t, k), t, v.d.g.images, k, id);
    assert Attempt(Sending(v, t, k), t, Answered) == T.Receive(Answering(v, t, k), t);
  }

  lemma SkippedUploaded(v: T.World, t: nat, d: Draft, k: nat, fates: seq<Fate>)
    requires Uploaded(v, t, d, k, fates) && k < |d.g.images| && v.d.g.images[k].persistedId.Some?
    ensures Uploaded(v, t, d, k + 1, fates)
  {
  }

  lemma NextUploaded(v: T.World, t: nat, d: Draft, k: nat, fates: seq<Fate>) returns (next: T.World)
    requires Uploaded(v, t, d, k, fates) && k < |d.g.images| && v.d.g.images[k].persistedId.None?
      && Upload(v.d, k, FateAt(fates, k)).ok
    ensures Uploaded(next, t, d, k + 1, fates)
    ensures Attempt(Sending(v, t, k), t, FateAt(fates, k)) == T.Proceed(next, t, next.d.g.images, k + 1)
  {
    var id := FineUpload(v, t, k, FateAt(fates, k));
    FineAttempt(v, t, k, id);
    next := Written(v, t, k, id);
    assert UploadFirst(d, k + 1, fates) == Upload(v.d, k, FateAt(fates, k));
  }

  /** The submit has gone over the first `k` images, or has ended where the save ends. */
  ghost predicate Along(p: T.World, t: nat, d: Draft, k: nat, f: Fates) {
    || (exists v :: Uploaded(v, t, d, k, f.uploads) && p == T.Proceed(v, t, v.d.g.images, k))
    || EndsAs(p, t, SaveOf(d, f))
  }

  lemma EndedStays(p: T.World, t: nat, q: Pass, f: Fates)
    requires EndsAs(p, t, q)
    ensures Move(t, f)(p) == p
  {
  }

  /** A failed upload ends submit and save alike. */
  lemma FailedPlays(v: T.World, t: nat, d: Draft, k: nat, f: Fates)
    requires Uploaded(v, t, d, k, f.uploads) && k < |d.g.images| && v.d.g.images[k].persistedId.None?
    requires !Upload(v.d, k, FateAt(f.uploads, k)).ok
    ensures EndsAs(Move(t, f)(Sending(v, t, k)), t, SaveOf(d, f))
  {
    FailedUpload(v, t, k, FateAt(f.uploads, k));
    assert UploadFirst(d, k + 1, f.uploads) == Upload(v.d, k, FateAt(f.uploads, k));
    StopsForGood(d, k + 1, |d.g.images|, f.uploads);
  }

  lemma FinePlays(v: T.World, t: nat, d: Draft, k: nat, f: Fates)
    requires Uploaded(v, t, d, k, f.uploads) && k < |d.g.images| && v.d.g.images[k].persistedId.None?
    requires Upload(v.d, k, FateAt(f.uploads, k)).ok
    ensures Along(Move(t, f)(Sending(v, t, k)), t, d, k + 1, f)
  {
    var next := NextUploaded(v, t, d, k, f.uploads);
  }

  /** One image further: at once when it has its id, else by one request. */
  lemma AlongOne(p: T.World, t: nat, d: Draft, k: nat, f: Fates)
    requires Along(p, t, d, k, f) && k < |d.g.images|
    ensures Along(p, t, d, k + 1, f) || Along(Move(t, f)(p), t, d, k + 1, f)
  {
    if !EndsAs(p, t, SaveOf(d, f)) {
      var v :| Uploaded(v, t, d, k, f.uploads) && p == T.Proceed(v, t, v.d.g.images, k);
      ProceedSends(v, t, k);
      if v.d.g.images[k].persistedId.Some? {
        SkippedUploaded(v, t, d, k, f.uploads);
      } else if Upload(v.d, k, FateAt(f.uploads, k)).ok {
        FinePlays(v, t, d, k, f);
      } else {
        FailedPlays(v, t, d, k, f);
      }
    }
  }

  lemma AlongAll(p: T.World, t: nat, d: Draft, f: Fates)
    requires Along(p, t, d, |d.g.images|, f)
    ensures EndsAs(Move(t, f)(Move(t, f)(p)), t, SaveOf(d, f))
  {
    if EndsAs(p, t, SaveOf(d, f)) {
      EndedStays(p, t, SaveOf(d, f), f);
    } else {
      var v :| Uploaded(v, t, d, |d.g.images|, f.uploads) && p == T.Proceed(v, t, v.d.g.images, |d.g.images|);
      AllUploaded(v, t, d, f);
    }
  }

  predicate Advances(step: T.World -> T.World, along: (T.World, nat) -> bool, q: T.World, i: nat) {
    along(q, i + 1) || along(step(q), i + 1)
  }

  /** Steps that each advance or end lead to the end. */
  lemma {:induction false} IterateEnds(step: T.World -> T.World, along: (T.World, nat) -> bool, ended: T.World -> bool, p: T.World, k: nat, n: nat, fuel: nat)
    requires along(p, k) && k <= n && fuel >= n - k + 2
    requires forall q: T.World, i: nat {:trigger Advances(step, along, q, i)} :: along(q, i) && i < n ==>
      Advances(step, along, q, i)
    requires forall q: T.World :: along(q, n) ==> ended(step(step(q)))
    requires forall q: T.World :: ended(q) ==> step(q) == q
    ensures ended(Iterate(step, p, fuel))
    decreases n - k, fuel
  {
    if k == n {
      assert Iterate(step, p, fuel) == Iterate(step, step(p), fuel - 1) == Iterate(step, step(step(p)), fuel - 2);
      IterateFixed(step, step(step(p)), fuel - 2);
    } else if Advances(step, along, p, k) && along(p, k + 1) {
      IterateEnds(step, along, ended, p, k + 1, n, fuel);
    } else {
      IterateEnds(step, along, ended, step(p), k + 1, n, fuel - 1);
    }
  }

  lemma {:induction false} IterateFixed(step: T.World -> T.World, p: T.World, n: nat)
    requires step(p) == p
    ensures Iterate(step, p, n) == p
    decreases n
  {
    if n > 0 { IterateFixed(step, p, n - 1); }
  }

  ghost function AlongSave(t: nat, d: Draft, f: Fates): (T.World, nat) -> bool { (q: T.World, i: nat) => Along(q, t, d, i, f) }

  function EndOfSave(t: nat, d: Draft, f: Fates): T.World -> bool { (q: T.World) => EndsAs(q, t, SaveOf(d, f)) }

  lemma SaveAdvances(t: nat, d: Draft, f: Fates, q: T.World, i: nat)
    requires AlongSave(t, d, f)(q, i) && i < |d.g.images|
    ensures Advances(Move(t, f), AlongSave(t, d, f), q, i)
  {
    AlongOne(q, t, d, i, f);
  }

  lemma PlayEnds(p: T.World, t: nat, d: Draft, f: Fates, fuel: nat)
    requires Along(p, t, d, 0, f) && fuel >= |d.g.images| + 2
    ensures EndsAs(Iterate(Move(t, f), p, fuel), t, SaveOf(d, f))
  {
    var step, along, ended := Move(t, f), AlongSave(t, d, f), EndOfSave(t, d, f);
    forall q: T.World, i: nat | along(q, i) && i < |d.g.images| ensures Advances(step, along, q, i) {
      SaveAdvances(t, d, f, q, i);
    }
    forall q: T.World | along(q, |d.g.images|) ensures ended(step(step(q))) {
      AlongAll(q, t, d, f);
    }
    forall q: T.World | ended(q) ensures step(q) == q {
      EndedStays(q, t, SaveOf(d, f), f);
    }
    IterateEnds(step, along, ended, p, 0, |d.g.images|, fuel);
  }

  lemma DraftSaved(w: T.World)
    requires !w.closed
    ensures
      var t := |w.tasks|;
      var v := w.(d := w.d.(g := w.d.g.(hasDraft := true)),
                  tasks := w.tasks + [T.Task(T.Saving(w.d.g.images, T.Drafting(!w.d.g.hasDraft)), T.SaveDraft, Some(T.Done))]);
      Attempt(T.Apply(w, T.StartSaving), t, Answered) == T.Proceed(v, t, v.d.g.images, 0)
  {
    var t := |w.tasks|;
    var started := T.Apply(w, T.StartSaving);
    var task := T.Task(T.Saving(w.d.g.images, T.Drafting(!w.d.g.hasDraft)), T.SaveDraft, Some(T.Done));
    assert started.tasks[t := task] == w.tasks + [task];
  }

  /** Whatever happens to its requests, a submit of which the draft was saved, and between whose start and finish
      nothing else is handled, ends with the gallery, the server's images and the banner of `SaveImages`. */
  lemma LoneSubmitIsSave(w: T.World, f: Fates)
    requires WellFormed(w.d.g.images) && !w.closed
    ensures EndsAs(Submitted(w, f), |w.tasks|, SaveOf(w.d.(g := w.d.g.(hasDraft := true)), f))
  {
    var t := |w.tasks|;
    var d := w.d.(g := w.d.g.(hasDraft := true));
    var v := w.(d := d, tasks := w.tasks + [T.Task(T.Saving(w.d.g.images, T.Drafting(!w.d.g.hasDraft)), T.SaveDraft, Some(T.Done))]);
    DraftSaved(w);
    assert UploadFirst(d, 0, f.uploads) == Pass(d, true);
    assert Uploaded(v, t, d, 0, f.uploads);
    PlayEnds(T.Proceed(v, t, v.d.g.images, 0), t, d, f, |w.d.g.images| + 2);
  }

  /** And it is a run of events of that submit alone. */
  lemma LoneSubmitIsRun(w: T.World, f: Fates)
    ensures Leads(T.Apply(w, T.StartSaving), |w.tasks|, Submitted(w, f))
  {
    var t := |w.tasks|;
    var started := T.Apply(w, T.StartSaving);
    assert T.Run(started, []) == started && AllAbout([], t);
    AttemptLeads(started, t, started, Answered);
    forall u | Leads(started, t, u) ensures Leads(started, t, Move(t, f)(u)) {
      if t < |u.tasks| && u.tasks[t].job.Saving? { AttemptLeads(started, t, u, FateFor(u.tasks[t].job.stage, f)); }
    }
    IterateLeads(Move(t, f), started, t, Attempt(started, t, Answered), |w.d.g.images| + 2);
  }
}
