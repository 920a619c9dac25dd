/** Every run of the seller form, however clicks, answers, time-outs and late requests interleave. */
module DraftTaskRuns {
  import opened Text
  import opened Gallery
  import opened GalleryDescent
  import opened DraftImages
  import opened DraftImageRuns
  import opened DraftTasks

  // ---------------------------------------------------------------- growth

  /** Keys, contents and rows are only ever added. */
  predicate Grows(a: World, b: World) {
    && a.d.g.nextKey <= b.d.g.nextKey
    && (forall key :: key in a.contents ==> key in b.contents && b.contents[key] == a.contents[key])
    && |a.d.stored| <= |b.d.stored|
    && (forall j :: 0 <= j < |a.d.stored| ==> b.d.stored[j].key == a.d.stored[j].key && b.d.stored[j].body == a.d.stored[j].body)
  }

  lemma GoodListGrows(a: World, b: World, images: seq<Image>)
    requires Grows(a, b) && GoodList(a, images)
    ensures GoodList(b, images)
  {
    forall i | 0 <= i < |images| ensures Known(b, images[i]) {
      assert Known(a, images[i]);
    }
  }

  lemma TaskGrows(a: World, b: World, task: Task)
    requires Grows(a, b) && SoundTask(a, task)
    ensures SoundTask(b, task)
  {
    match task.job
    case Saving(copy, _) => GoodListGrows(a, b, copy);
    case Deleting(copy, _) => GoodListGrows(a, b, copy);
    case Adding(copy, _) => GoodListGrows(a, b, copy);
    case Reordering =>
    case Finished(_) =>
  }

  /** What waits stays sound while the rest grows. */
  lemma WaitingGrows(a: World, b: World)
    requires Grows(a, b) && Sound(a) && b.tasks == a.tasks && b.stray == a.stray
    requires GoodList(b, b.d.g.images) && SoundServer(b)
    ensures Sound(b)
  {
    forall t | 0 <= t < |b.tasks| ensures SoundTask(b, b.tasks[t]) {
      TaskGrows(a, b, a.tasks[t]);
    }
  }

  // ---------------------------------------------------------------- the server

  lemma DroppedRows(stored: seq<Stored>, id: nat)
    requires id < |stored|
    ensures SameRows(stored, DeleteImage(stored, id))
  {
  }

  /** Whatever the server processes, its rows keep their keys and bodies, and a new row has a new key. */
  lemma ServerRows(stored: seq<Stored>, r: Request)
    ensures
      var after := ServerStored(stored, r);
      && |stored| <= |after| <= |stored| + 1
      && (forall j :: 0 <= j < |stored| ==> after[j].key == stored[j].key && after[j].body == stored[j].body)
      && (|after| > |stored| ==>
            r.PostImage? && after[|stored|].key == r.key && after[|stored|].body == r.body
            && forall j :: 0 <= j < |stored| ==> stored[j].key != r.key)
  {
    match r
    case PostImage(key, body) =>
      StoredImage(stored, key, body);
      var after := StoreImage(stored, key, body);
      forall j | 0 <= j < |stored| ensures after[j].key == stored[j].key && after[j].body == stored[j].body {
        assert after[j] == after[..|stored|][j];
      }
    case PatchOrder(ids, primary) =>
    case DropImage(id) => if id < |stored| { DroppedRows(stored, id); }
    case _ =>
  }

  function ServedWorld(w: World, r: Request): World { w.(d := w.d.(stored := ServerStored(w.d.stored, r))) }

  lemma ServedSound(w: World, r: Request)
    requires Sound(w) && SoundRequest(w, r)
    ensures Grows(w, ServedWorld(w, r)) && Sound(ServedWorld(w, r))
  {
    var after := ServedWorld(w, r);
    ServerRows(w.d.stored, r);
    GoodListGrows(w, after, w.d.g.images);
    WaitingGrows(w, after);
  }

  lemma AnswerSound(w: World, r: Request)
    ensures SoundAnswer(ServedWorld(w, r), r, Some(ServerAnswer(w.d.stored, r)))
  {
    if r.PostImage? { AnswerIs(w.d.stored, r.key, r.body); }
  }

  // ---------------------------------------------------------------- writing back

  lemma {:induction false} LearnKeeps(contents: map<nat, Content>, images: seq<Image>)
    ensures forall key :: key in contents ==>
      key in Learn(contents, images) && Learn(contents, images)[key] == contents[key]
    ensures forall key :: key in Learn(contents, images) ==>
      key in contents || exists i :: 0 <= i < |images| && KeyOf(images[i]) == key
  {
    if images != [] {
      var front := images[..|images| - 1];
      LearnKeeps(contents, front);
      assert forall i :: 0 <= i < |front| ==> front[i] == images[i];
    }
  }

  /** A picture that gets a new key is what the key stands for. */
  lemma {:induction false} LearnNames(contents: map<nat, Content>, images: seq<Image>, k: nat)
    requires k < |images| && KeyOf(images[k]) !in contents
    requires forall i, j :: 0 <= i < j < |images| ==> KeyOf(images[i]) != KeyOf(images[j])
    ensures Named(Learn(contents, images), KeyOf(images[k]), images[k].dataUrl, images[k].filename)
  {
    var front := images[..|images| - 1];
    LearnKeeps(contents, front);
    assert forall i :: 0 <= i < |front| ==> front[i] == images[i];
    if k < |images| - 1 { LearnNames(contents, front, k); }
  }

  lemma SameCoreKnown(w: World, a: Image, b: Image)
    requires Known(w, a) && Core(a) == Core(b)
    ensures Known(w, b)
  {
    assert a.key == Core(a).key == b.key && a.dataUrl == Core(a).dataUrl == b.dataUrl;
    assert a.filename == Core(a).filename == b.filename && a.persistedId == Core(a).persistedId == b.persistedId;
  }

  predicate PlainEdit(e: Edit) { PickedPlain(e) && (e.Remove? ==> e.deleted && e.at >= 0) }

  lemma ResultDescends(g: Store, e: Edit, k: nat)
    requires WellFormed(g.images) && PlainEdit(e) && k < |Do(g, e).images|
    ensures Descends(Do(g, e).images[k], g)
  {
    if e.Remove? { RemoveDescends(g, e.at, k); } else { EditDescends(g, e, k); }
  }

  lemma KeysDiffer(g: Store, i: nat, j: nat)
    requires DistinctKeys(g) && i < j < |g.images|
    ensures KeyOf(g.images[i]) != KeyOf(g.images[j])
  {
  }

  lemma WrittenDistinct(w: World, copy: seq<Image>, e: Edit)
    requires GoodList(w, copy) && PlainEdit(e)
    ensures
      var g := Do(w.d.g.(images := copy), e);
      && WellFormed(g.images) && DistinctKeys(g) && g.nextKey >= w.d.g.nextKey
      && forall i, j :: 0 <= i < j < |g.images| ==> KeyOf(g.images[i]) != KeyOf(g.images[j])
  {
    var g0 := w.d.g.(images := copy);
    EditWellFormed(g0, e);
    EditDistinct(g0, e);
    var g := Do(g0, e);
    forall i, j | 0 <= i < j < |g.images| ensures KeyOf(g.images[i]) != KeyOf(g.images[j]) {
      KeysDiffer(g, i, j);
    }
  }

  lemma WrittenKnown(w: World, copy: seq<Image>, e: Edit, k: nat)
    requires GoodList(w, copy) && SoundServer(w) && PlainEdit(e) && k < |WriteBack(w, copy, e).d.g.images|
    ensures Known(WriteBack(w, copy, e), WriteBack(w, copy, e).d.g.images[k])
  {
    var g0 := w.d.g.(images := copy);
    var after := WriteBack(w, copy, e);
    var image := after.d.g.images[k];
    WrittenDistinct(w, copy, e);
    LearnKeeps(w.contents, after.d.g.images);
    ResultDescends(g0, e, k);
    if i :| 0 <= i < |copy| && Core(copy[i]) == Core(image) {
      assert Known(w, copy[i]);
      SameCoreKnown(w, copy[i], image);
    } else {
      LearnNames(w.contents, after.d.g.images, k);
    }
  }

  lemma LearntKeys(w: World, copy: seq<Image>, e: Edit)
    requires SoundServer(w) && GoodList(w, copy) && PlainEdit(e)
    ensures forall key :: key in WriteBack(w, copy, e).contents ==> key < WriteBack(w, copy, e).d.g.nextKey
  {
    var after := WriteBack(w, copy, e);
    WrittenDistinct(w, copy, e);
    LearnKeeps(w.contents, after.d.g.images);
    forall key | key in after.contents ensures key < after.d.g.nextKey {
      if key !in w.contents {
        var i :| 0 <= i < |after.d.g.images| && KeyOf(after.d.g.images[i]) == key;
        assert after.d.g.images[i].key.Some?;
      }
    }
  }

  lemma WriteBackSound(w: World, copy: seq<Image>, e: Edit)
    requires Sound(w) && GoodList(w, copy) && PlainEdit(e)
    ensures Sound(WriteBack(w, copy, e)) && Grows(w, WriteBack(w, copy, e))
  {
    var after := WriteBack(w, copy, e);
    WrittenDistinct(w, copy, e);
    LearnKeeps(w.contents, after.d.g.images);
    LearntKeys(w, copy, e);
    forall k | 0 <= k < |after.d.g.images| ensures Known(after, after.d.g.images[k]) {
      WrittenKnown(w, copy, e, k);
    }
    WaitingGrows(w, after);
  }

  // ---------------------------------------------------------------- acknowledgements

  function AckedWorld(w: World, copy: seq<Image>, i: nat, id: nat): World
    requires i < |copy|
  {
    w.(d := w.d.(acked := w.d.acked + {KeyOf(copy[i])}, g := Write(w.d.g, copy[i := Acknowledged(copy[i], id)])))
  }

  lemma AckedIs(w: World, copy: seq<Image>, i: nat, id: nat)
    requires WellFormed(copy) && i < |copy|
    ensures WellFormed(copy[i := Acknowledged(copy[i], id)])
    ensures AckedWorld(w, copy, i, id).d.g.images == copy[i := Acknowledged(copy[i], id)]
  {
    AckWellFormed(copy, i, id);
    NormalizeFixedPoints(copy[i := Acknowledged(copy[i], id)], w.d.g.nextKey);
  }

  lemma AckedGood(w: World, copy: seq<Image>, i: nat, id: nat)
    requires GoodList(w, copy) && i < |copy| && id < |w.d.stored| && w.d.stored[id].key == KeyOf(copy[i])
    ensures GoodList(w, copy[i := Acknowledged(copy[i], id)])
  {
    var copy' := copy[i := Acknowledged(copy[i], id)];
    AckWellFormed(copy, i, id);
    forall j | 0 <= j < |copy'| ensures Known(w, copy'[j]) {
      assert Known(w, copy[j]);
    }
  }

  lemma AckedSound(w: World, copy: seq<Image>, i: nat, id: nat)
    requires Sound(w) && GoodList(w, copy) && i < |copy| && id < |w.d.stored| && w.d.stored[id].key == KeyOf(copy[i])
    ensures
      var after := AckedWorld(w, copy, i, id);
      Sound(after) && GoodList(after, copy[i := Acknowledged(copy[i], id)])
  {
    var after := AckedWorld(w, copy, i, id);
    AckedIs(w, copy, i, id);
    AckedGood(w, copy, i, id);
    assert Known(w, copy[i]);
    GoodListGrows(w, after, copy[i := Acknowledged(copy[i], id)]);
    WaitingGrows(w, after);
  }

  // ---------------------------------------------------------------- the form's steps

  lemma AskSound(w: World, t: nat, job: Job, r: Request)
    requires Sound(w) && t < |w.tasks| && SoundRequest(w, r) && SoundJob(w, job, r)
    ensures Sound(Ask(w, t, job, r))
  {
    var after := Ask(w, t, job, r);
    assert Grows(w, after);
    GoodListGrows(w, after, w.d.g.images);
    TaskGrows(w, after, Task(job, r, None));
    forall u | 0 <= u < |after.tasks| ensures SoundTask(after, after.tasks[u]) {
      if u != t { TaskGrows(w, after, w.tasks[u]); }
    }
  }

  lemma SpawnSound(w: World, job: Job, r: Request)
    requires Sound(w) && SoundRequest(w, r) && SoundJob(w, job, r)
    ensures Sound(Spawn(w, job, r))
  {
    var after := Spawn(w, job, r);
    assert Grows(w, after);
    GoodListGrows(w, after, w.d.g.images);
    TaskGrows(w, after, Task(job, r, None));
    forall u | 0 <= u < |after.tasks| ensures SoundTask(after, after.tasks[u]) {
      if u < |w.tasks| { TaskGrows(w, after, w.tasks[u]); }
    }
  }

  lemma FinishSound(w: World, t: nat, banner: bool)
    requires Sound(w) && t < |w.tasks|
    ensures Sound(Finish(w, t, banner))
  {
    var after := Finish(w, t, banner);
    assert Grows(w, after);
    GoodListGrows(w, after, w.d.g.images);
    assert SoundTask(w, w.tasks[t]);
    forall u | 0 <= u < |after.tasks| ensures SoundTask(after, after.tasks[u]) {
      if u != t { TaskGrows(w, after, w.tasks[u]); }
    }
  }

  /** The draft flag and the count of repeated requests are free to change. */
  lemma FlagsSound(w: World, hasDraft: bool, resent: nat, closed: bool)
    requires Sound(w)
    ensures Sound(w.(closed := closed, d := w.d.(resent := resent, g := w.d.g.(hasDraft := hasDraft))))
  {
    var after := w.(closed := closed, d := w.d.(resent := resent, g := w.d.g.(hasDraft := hasDraft)));
    assert Grows(w, after);
    GoodListGrows(w, after, w.d.g.images);
    WaitingGrows(w, after);
  }

  lemma AnnounceSound(w: World, t: nat)
    requires Sound(w) && t < |w.tasks|
    ensures Sound(Announce(w, t))
  {
    FinishSound(w, t, true);
    FlagsSound(Finish(w, t, true), false, w.d.resent, true);
  }

  lemma UploadSound(w: World, t: nat, copy: seq<Image>, i: nat, resent: nat)
    requires Sound(w) && t < |w.tasks| && GoodList(w, copy) && i < |copy|
    ensures Sound(Ask(w.(d := w.d.(resent := resent)), t, Saving(copy, Uploading(i)), PostImage(KeyOf(copy[i]), BodyOf(copy[i], i))))
  {
    var asked := w.(d := w.d.(resent := resent));
    FlagsSound(w, w.d.g.hasDraft, resent, w.closed);
    assert Grows(w, asked);
    GoodListGrows(w, asked, copy);
    assert Known(w, copy[i]);
    AskSound(asked, t, Saving(copy, Uploading(i)), PostImage(KeyOf(copy[i]), BodyOf(copy[i], i)));
  }

  lemma ProceedSound(w: World, t: nat, copy: seq<Image>, k: nat)
    requires Sound(w) && t < |w.tasks| && GoodList(w, copy) && k <= |copy|
    ensures Sound(Proceed(w, t, copy, k))
  {
    var i := NextWithoutId(copy, k);
    if i < |copy| {
      UploadSound(w, t, copy, i, w.d.resent + if KeyOf(copy[i]) in w.d.acked then 1 else 0);
    } else if copy == [] {
      AnnounceSound(w, t);
    } else if OrderDue(w.d) {
      AskSound(w, t, Saving(copy, Ordering), OrderRequest(w.d));
    } else {
      AskSound(w, t, Saving(copy, Checking), FetchDeal);
    }
  }

  lemma DraftedSound(w: World, t: nat, copy: seq<Image>, creates: bool)
    requires Sound(w) && t < |w.tasks| && GoodList(w, copy)
    ensures Sound(Proceed(w.(d := w.d.(g := w.d.g.(hasDraft := creates || w.d.g.hasDraft))), t, copy, 0))
  {
    var drafted := w.(d := w.d.(g := w.d.g.(hasDraft := creates || w.d.g.hasDraft)));
    FlagsSound(w, creates || w.d.g.hasDraft, w.d.resent, w.closed);
    assert Grows(w, drafted);
    GoodListGrows(w, drafted, copy);
    ProceedSound(drafted, t, copy, 0);
  }

  lemma UploadedSound(w: World, t: nat, copy: seq<Image>, i: nat, id: nat)
    requires Sound(w) && t < |w.tasks| && GoodList(w, copy) && i < |copy|
    requires id < |w.d.stored| && w.d.stored[id].key == KeyOf(copy[i])
    ensures Sound(Proceed(AckedWorld(w, copy, i, id), t, copy[i := Acknowledged(copy[i], id)], i + 1))
  {
    AckedSound(w, copy, i, id);
    ProceedSound(AckedWorld(w, copy, i, id), t, copy[i := Acknowledged(copy[i], id)], i + 1);
  }

  lemma ContinueUploaded(w: World, t: nat, copy: seq<Image>, i: nat, id: nat)
    requires t < |w.tasks| && i < |copy|
    ensures Continue(w, t, copy, Uploading(i), Kept(id))
      == Proceed(AckedWorld(w, copy, i, id), t, copy[i := Acknowledged(copy[i], id)], i + 1)
  {
  }

  lemma UploadingSound(w: World, t: nat, copy: seq<Image>, i: nat)
    requires Sound(w) && t < |w.tasks| && w.tasks[t].job == Saving(copy, Uploading(i)) && w.tasks[t].answer.Some?
    ensures Sound(Continue(w, t, copy, Uploading(i), w.tasks[t].answer.value))
  {
    var a := w.tasks[t].answer.value;
    assert SoundTask(w, w.tasks[t]);
    if a.Kept? {
      ContinueUploaded(w, t, copy, i, a.id);
      UploadedSound(w, t, copy, i, a.id);
    } else {
      FinishSound(w, t, false);
    }
  }

  lemma ContinueSound(w: World, t: nat, copy: seq<Image>, stage: Stage)
    requires Sound(w) && t < |w.tasks| && w.tasks[t].job == Saving(copy, stage) && w.tasks[t].answer.Some?
    ensures Sound(Continue(w, t, copy, stage, w.tasks[t].answer.value))
  {
    assert SoundTask(w, w.tasks[t]);
    match stage
    case Uploading(i) => UploadingSound(w, t, copy, i);
    case Drafting(creates) =>
      DraftedSound(w, t, copy, creates);
      FinishSound(w, t, false);
    case Ordering =>
      AskSound(w, t, Saving(copy, Checking), FetchDeal);
      FinishSound(w, t, false);
    case Checking =>
      AnnounceSound(w, t);
      FinishSound(w, t, false);
  }

  lemma ReceiveSound(w: World, t: nat)
    requires Sound(w) && t < |w.tasks| && w.tasks[t].answer.Some?
    ensures Sound(Receive(w, t))
  {
    assert SoundTask(w, w.tasks[t]);
    FinishSound(w, t, false);
    match w.tasks[t].job
    case Saving(copy, stage) => ContinueSound(w, t, copy, stage);
    case Deleting(copy, at) =>
      WriteBackSound(w, copy, Remove(at, true));
      FinishSound(WriteBack(w, copy, Remove(at, true)), t, false);
    case Adding(copy, picked) =>
      WriteBackSound(w, copy, Append(picked));
      FinishSound(WriteBack(w, copy, Append(picked)), t, false);
    case Reordering =>
    case Finished(_) =>
  }

  lemma ClickedSound(w: World, e: Edit)
    requires Sound(w)
    ensures Sound(Clicked(w, e))
  {
    if !e.Append? && !e.Remove? {
      WriteBackSound(w, w.d.g.images, e);
      var after := WriteBack(w, w.d.g.images, e);
      if OrderDue(after.d) { SpawnSound(after, Reordering, OrderRequest(after.d)); }
    }
  }

  lemma ServeSound(w: World, t: nat)
    requires Sound(w) && Running(w, t) && w.tasks[t].answer.None?
    ensures Sound(Apply(w, Serve(t)))
  {
    var task := w.tasks[t];
    assert SoundTask(w, task);
    ServedSound(w, task.request);
    AnswerSound(w, task.request);
    var served := ServedWorld(w, task.request);
    var after := Apply(w, Serve(t));
    assert Grows(served, after);
    GoodListGrows(served, after, w.d.g.images);
    TaskGrows(w, after, task);
    forall u | 0 <= u < |after.tasks| ensures SoundTask(after, after.tasks[u]) {
      if u != t { TaskGrows(served, after, served.tasks[u]); }
    }
  }

  lemma StraySound(w: World, stray: seq<Request>)
    requires Sound(w) && forall k :: 0 <= k < |stray| ==> SoundRequest(w, stray[k])
    ensures Sound(w.(stray := stray))
  {
    var after := w.(stray := stray);
    assert Grows(w, after);
    GoodListGrows(w, after, w.d.g.images);
    forall t | 0 <= t < |after.tasks| ensures SoundTask(after, after.tasks[t]) { TaskGrows(w, after, w.tasks[t]); }
  }

  lemma ServeStraySound(w: World, k: nat)
    requires Sound(w) && k < |w.stray|
    ensures Sound(Apply(w, ServeStray(k)))
  {
    var served := ServedWorld(w, w.stray[k]);
    ServedSound(w, w.stray[k]);
    StraySound(served, w.stray[..k] + w.stray[k + 1..]);
  }

  lemma GiveUpSound(w: World, t: nat)
    requires Sound(w) && Running(w, t)
    ensures Sound(Apply(w, GiveUp(t)))
  {
    assert SoundTask(w, w.tasks[t]);
    FinishSound(w, t, false);
    StraySound(Finish(w, t, false), if w.tasks[t].answer.Some? then w.stray else w.stray + [w.tasks[t].request]);
  }

  lemma StepSound(w: World, e: Event)
    requires Sound(w) && PlainEvent(e)
    ensures Sound(Apply(w, e))
  {
    match e
    case Click(edit) => ClickedSound(w, edit);
    case StartAdding(picked) => SpawnSound(w, Adding(w.d.g.images, picked), ReadFiles);
    case StartDeleting(at) =>
      WriteBackSound(w, w.d.g.images, Remove(at, true));
      if at < |w.d.g.images| && w.d.g.images[at].persistedId.Some? {
        SpawnSound(w, Deleting(w.d.g.images, at), DropImage(w.d.g.images[at].persistedId.value));
      }
    case StartSaving => SpawnSound(w, Saving(w.d.g.images, Drafting(!w.d.g.hasDraft)), SaveDraft);
    case Serve(t) => if Running(w, t) && w.tasks[t].answer.None? { ServeSound(w, t); }
    case Deliver(t) => if Running(w, t) && w.tasks[t].answer.Some? { ReceiveSound(w, t); }
    case GiveUp(t) => if Running(w, t) { GiveUpSound(w, t); }
    case ServeStray(k) => if k < |w.stray| { ServeStraySound(w, k); }
  }

  /** The server's row is that of the image: its key, its picture and its name. */
  predicate HasOwnRow(stored: seq<Stored>, image: Image) {
    image.persistedId.Some? ==>
      && image.key.Some? && image.persistedId.value < |stored|
      && var row := stored[image.persistedId.value];
      row.key == KeyOf(image) && row.body.dataUrl == image.dataUrl && row.body.filename == image.filename
  }

  lemma SoundOwnRow(w: World, images: seq<Image>, i: nat)
    requires Sound(w) && AllKnown(w, images) && i < |images|
    ensures HasOwnRow(w.d.stored, images[i])
  {
    assert Known(w, images[i]);
  }

  lemma {:induction false} RunSound(w: World, events: seq<Event>)
    requires Opened(w) && forall k :: 0 <= k < |events| ==> PlainEvent(events[k])
    ensures Sound(Run(w, events))
  {
    if events != [] {
      RunSound(w, events[..|events| - 1]);
      StepSound(Run(w, events[..|events| - 1]), events[|events| - 1]);
    }
  }

  /** On every run, however the requests of submits, deletions and selections interleave, are lost, given up or arrive
      late: the server holds at most one row for each key, and every image of the form, or of a submit's copy, that has
      an id has the id of its own row, with its own key, bytes and name. */
  lemma OneRowPerPicture(w: World, events: seq<Event>)
    requires Opened(w) && forall k :: 0 <= k < |events| ==> PlainEvent(events[k])
    ensures
      var after := Run(w, events);
      && (forall i, j :: 0 <= i < j < |after.d.stored| ==> after.d.stored[i].key != after.d.stored[j].key)
      && (forall i :: 0 <= i < |after.d.g.images| ==> HasOwnRow(after.d.stored, after.d.g.images[i]))
      && (forall t, i :: 0 <= t < |after.tasks| && after.tasks[t].job.Saving? && 0 <= i < |after.tasks[t].job.copy| ==>
            HasOwnRow(after.d.stored, after.tasks[t].job.copy[i]))
  {
    RunSound(w, events);
    var after := Run(w, events);
    assert StoredKeys(after.d);
    forall i | 0 <= i < |after.d.g.images| ensures HasOwnRow(after.d.stored, after.d.g.images[i]) {
      SoundOwnRow(after, after.d.g.images, i);
    }
    forall t, i | 0 <= t < |after.tasks| && after.tasks[t].job.Saving? && 0 <= i < |after.tasks[t].job.copy|
      ensures HasOwnRow(after.d.stored, after.tasks[t].job.copy[i])
    {
      assert SoundTask(after, after.tasks[t]);
      SoundOwnRow(after, after.tasks[t].job.copy, i);
    }
  }
}
