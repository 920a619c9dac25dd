/**
  The seller form while its requests are in flight. A submit, a deletion and a selection of files each take a copy of
  the gallery, wait for their requests, and write their copy back; between any two answers the form handles further
  clicks, the server may answer in any order, and a request that was given up may still arrive later.
*/
module DraftTasks {
  import opened Text
  import opened Gallery
  import opened DraftImages

  datatype Request =
    | SaveDraft
    | PostImage(key: nat, body: Body)
    | PatchOrder(ids: seq<nat>, primary: nat)
    | DropImage(id: nat)
    | FetchDeal
    | ReadFiles

  datatype Answer = Done | Kept(id: nat) | Refused | Listed(count: nat)

  /** `creates` is whether the form had no draft yet, so that its first request is to create one. */
  datatype Stage = Drafting(creates: bool) | Uploading(index: nat) | Ordering | Checking

  /** What a task does with the answer it waits for; `copy` is its copy of the gallery. */
  datatype Job =
    | Saving(copy: seq<Image>, stage: Stage)
    | Deleting(copy: seq<Image>, at: nat)
    | Adding(copy: seq<Image>, picked: seq<Image>)
    | Reordering
    | Finished(banner: bool)

  datatype Task = Task(job: Job, request: Request, answer: Option<Answer>)

  /** What a key stands for: the bytes and the name of the picture it was given to. */
  datatype Content = Content(dataUrl: string, filename: string)

  /** `stray` are requests that were given up before the server had them; `closed` is the "draft saved" banner. */
  datatype World = World(d: Draft, tasks: seq<Task>, stray: seq<Request>, contents: map<nat, Content>, closed: bool)

  datatype Event =
    | Click(edit: Edit)             // a move, a choice of primary, a clear
    | StartAdding(picked: seq<Image>)
    | StartDeleting(at: nat)
    | StartSaving
    | Serve(t: nat)                 // the server processes the request of task t
    | Deliver(t: nat)               // its answer reaches the form
    | GiveUp(t: nat)                // a lost reply, a lost request, or a time-out
    | ServeStray(k: nat)

  // ---------------------------------------------------------------- the server

  function ServerStored(stored: seq<Stored>, r: Request): seq<Stored> {
    match r
    case PostImage(key, body) => StoreImage(stored, key, body)
    case PatchOrder(ids, primary) => if OrderAccepted(stored, ids) then Ordered(stored, ids, primary) else stored
    case DropImage(id) => if id < |stored| && stored[id].live then DeleteImage(stored, id) else stored
    case _ => stored
  }

  function ServerAnswer(stored: seq<Stored>, r: Request): Answer {
    match r
    case PostImage(key, body) =>
      (match AnswerTo(stored, key, body)
       case Saved(id) => Kept(id)
       case _ => Refused)
    case PatchOrder(ids, _) => if OrderAccepted(stored, ids) then Done else Refused
    case DropImage(id) => if id < |stored| && stored[id].live then Done else Refused
    case FetchDeal => Listed(|LiveIds(stored)|)
    case _ => Done
  }

  // ---------------------------------------------------------------- the form

  function Ask(w: World, t: nat, job: Job, r: Request): World
    requires t < |w.tasks|
  {
    w.(tasks := w.tasks[t := Task(job, r, None)])
  }

  function Spawn(w: World, job: Job, r: Request): World { w.(tasks := w.tasks + [Task(job, r, None)]) }

  function Finish(w: World, t: nat, banner: bool): World
    requires t < |w.tasks|
  {
    w.(tasks := w.tasks[t := w.tasks[t].(job := Finished(banner))])
  }

  /** The banner ends this creation: the form forgets its draft. */
  function Announce(w: World, t: nat): World
    requires t < |w.tasks|
  {
    Finish(w, t, true).(closed := true, d := w.d.(g := w.d.g.(hasDraft := false)))
  }

  /** The first image of a copy, from `k` on, that has no id. */
  function NextWithoutId(copy: seq<Image>, k: nat): (i: nat)
    requires k <= |copy|
    ensures k <= i <= |copy|
    ensures forall j :: k <= j < i ==> copy[j].persistedId.Some?
    ensures i < |copy| ==> copy[i].persistedId.None?
    decreases |copy| - k
  {
    if k == |copy| || copy[k].persistedId.None? then k else NextWithoutId(copy, k + 1)
  }

  /** persistSellerImageOrder reads the gallery as it is now, and sends nothing unless every image has its id. */
  predicate OrderDue(d: Draft) {
    d.g.hasDraft && d.g.images != [] && AllPersisted(d.g.images) && PrimaryOf(d.g.images) < |d.g.images|
  }

  function OrderRequest(d: Draft): Request
    requires OrderDue(d)
  {
    PatchOrder(Ids(d.g.images), Ids(d.g.images)[PrimaryOf(d.g.images)])
  }

  /** The save goes on to its next request: the next upload, else the order, else the check. */
  function Proceed(w: World, t: nat, copy: seq<Image>, k: nat): World
    requires t < |w.tasks| && k <= |copy|
  {
    var i := NextWithoutId(copy, k);
    if i < |copy| then
      var key := KeyOf(copy[i]);
      Ask(w.(d := w.d.(resent := w.d.resent + if key in w.d.acked then 1 else 0)), t,
          Saving(copy, Uploading(i)), PostImage(key, BodyOf(copy[i], i)))
    else if copy == [] then Announce(w, t)
    else if OrderDue(w.d) then Ask(w, t, Saving(copy, Ordering), OrderRequest(w.d))
    else Ask(w, t, Saving(copy, Checking), FetchDeal)
  }

  /** What a save does with an answer. */
  function Continue(w: World, t: nat, copy: seq<Image>, stage: Stage, a: Answer): World
    requires t < |w.tasks|
  {
    match stage
    case Drafting(creates) =>
      if a == Done then Proceed(w.(d := w.d.(g := w.d.g.(hasDraft := creates || w.d.g.hasDraft))), t, copy, 0) else Finish(w, t, false)
    case Uploading(i) =>
      if a.Kept? && i < |copy| then
        var copy' := copy[i := Acknowledged(copy[i], a.id)];
        Proceed(w.(d := w.d.(acked := w.d.acked + {KeyOf(copy[i])}, g := Write(w.d.g, copy'))), t, copy', i + 1)
      else Finish(w, t, false)
    case Ordering => if a == Done then Ask(w, t, Saving(copy, Checking), FetchDeal) else Finish(w, t, false)
    case Checking => if a.Listed? && a.count >= |copy| then Announce(w, t) else Finish(w, t, false)
  }

  function Learn(contents: map<nat, Content>, images: seq<Image>): map<nat, Content> {
    if images == [] then contents
    else
      var image := images[|images| - 1];
      var learnt := Learn(contents, images[..|images| - 1]);
      if KeyOf(image) in learnt then learnt else learnt[KeyOf(image) := Content(image.dataUrl, image.filename)]
  }

  /** An edit of a copy, written back to the form. */
  function WriteBack(w: World, copy: seq<Image>, e: Edit): World {
    var g := Do(w.d.g.(images := copy), e);
    w.(d := w.d.(g := g), contents := Learn(w.contents, g.images))
  }

  function Receive(w: World, t: nat): World
    requires t < |w.tasks| && w.tasks[t].answer.Some?
  {
    var a := w.tasks[t].answer.value;
    match w.tasks[t].job
    case Saving(copy, stage) => Continue(w, t, copy, stage, a)
    case Deleting(copy, at) => Finish(if a == Done then WriteBack(w, copy, Remove(at, true)) else w, t, false)
    case Adding(copy, picked) => Finish(if a == Done then WriteBack(w, copy, Append(picked)) else w, t, false)
    case Reordering => Finish(w, t, false)
    case Finished(_) => w
  }

  predicate Running(w: World, t: nat) { t < |w.tasks| && !w.tasks[t].job.Finished? }

  function Clicked(w: World, e: Edit): World {
    if e.Append? || e.Remove? then w
    else
      var after := WriteBack(w, w.d.g.images, e);
      if !e.Clear? && after.d.g != w.d.g
          && OrderDue(after.d) then Spawn(after, Reordering, OrderRequest(after.d)) else after
  }

  function Apply(w: World, e: Event): World {
    match e
    case Click(edit) => if w.closed then w else Clicked(w, edit)
    case StartAdding(picked) =>
      if w.closed || Fitting(w.d.g, picked) == [] then w else Spawn(w, Adding(w.d.g.images, picked), ReadFiles)
    case StartDeleting(at) =>
      if w.closed then w
      else if at < |w.d.g.images| && w.d.g.images[at].persistedId.Some? && w.d.g.hasDraft then
        Spawn(w, Deleting(w.d.g.images, at), DropImage(w.d.g.images[at].persistedId.value))
      else WriteBack(w, w.d.g.images, Remove(at, true))
    case StartSaving => if w.closed then w else Spawn(w, Saving(w.d.g.images, Drafting(!w.d.g.hasDraft)), SaveDraft)
    case Serve(t) =>
      if !Running(w, t) || w.tasks[t].answer.Some? then w
      else
        w.(d := w.d.(stored := ServerStored(w.d.stored, w.tasks[t].request)),
           tasks := w.tasks[t := w.tasks[t].(answer := Some(ServerAnswer(w.d.stored, w.tasks[t].request)))])
    case Deliver(t) => if Running(w, t) && w.tasks[t].answer.Some? then Receive(w, t) else w
    case GiveUp(t) =>
      if !Running(w, t) then w
      else Finish(w, t, false).(stray := if w.tasks[t].answer.Some? then w.stray else w.stray + [w.tasks[t].request])
    case ServeStray(k) =>
      if k >= |w.stray| then w
      else w.(d := w.d.(stored := ServerStored(w.d.stored, w.stray[k])), stray := w.stray[..k] + w.stray[k + 1..])
  }

  function Run(w: World, events: seq<Event>): World {
    if events == [] then w else Apply(Run(w, events[..|events| - 1]), events[|events| - 1])
  }

  /** A form that was just opened, with a server that knows nothing of it. */
  predicate Opened(w: World) {
    w == World(Draft(Store([], 0, w.d.g.hasDraft), [], {}, 0), [], [], map[], false)
  }

  // ---------------------------------------------------------------- what always holds

  predicate Named(contents: map<nat, Content>, key: nat, dataUrl: string, filename: string) {
    key in contents && contents[key] == Content(dataUrl, filename)
  }

  /** An image the server cannot confuse: its key stands for it, and its id is that of its own row. */
  predicate Known(w: World, image: Image) {
    && image.key.Some? && Named(w.contents, KeyOf(image), image.dataUrl, image.filename)
    && (image.persistedId.Some? ==>
          image.persistedId.value < |w.d.stored| && w.d.stored[image.persistedId.value].key == KeyOf(image))
  }

  predicate AllKnown(w: World, images: seq<Image>) {
    forall i :: 0 <= i < |images| ==> Known(w, images[i])
  }

  /** A list of images that may be written back. */
  predicate GoodList(w: World, images: seq<Image>) {
    WellFormed(images) && DistinctKeys(w.d.g.(images := images)) && AllKnown(w, images)
  }

  predicate SoundRequest(w: World, r: Request) {
    r.PostImage? ==> Named(w.contents, r.key, r.body.dataUrl, r.body.filename)
  }

  predicate PlainPictures(picked: seq<Image>) {
    forall i :: 0 <= i < |picked| ==> picked[i].key.None? && picked[i].persistedId.None? && picked[i].dataUrl != ""
  }

  predicate SoundJob(w: World, job: Job, r: Request) {
    match job
    case Saving(copy, stage) =>
      GoodList(w, copy) && (stage.Uploading? ==>
        stage.index < |copy| && r == PostImage(KeyOf(copy[stage.index]), BodyOf(copy[stage.index], stage.index)))
    case Deleting(copy, at) => GoodList(w, copy)
    case Adding(copy, picked) => GoodList(w, copy) && PlainPictures(picked)
    case Reordering => true
    case Finished(_) => true
  }

  predicate SoundAnswer(w: World, r: Request, a: Option<Answer>) {
    a.Some? && a.value.Kept? && r.PostImage? ==> a.value.id < |w.d.stored| && w.d.stored[a.value.id].key == r.key
  }

  predicate SoundTask(w: World, task: Task) {
    SoundRequest(w, task.request) && SoundAnswer(w, task.request, task.answer) && SoundJob(w, task.job, task.request)
  }

  /** The server's rows have distinct keys, and each holds the picture its key stands for. */
  predicate SoundServer(w: World) {
    && StoredKeys(w.d)
    && (forall i :: 0 <= i < |w.d.stored| ==>
          Named(w.contents, w.d.stored[i].key, w.d.stored[i].body.dataUrl, w.d.stored[i].body.filename))
    && (forall key :: key in w.contents ==> key < w.d.g.nextKey)
  }

  predicate Sound(w: World) {
    && GoodList(w, w.d.g.images) && SoundServer(w)
    && (forall t :: 0 <= t < |w.tasks| ==> SoundTask(w, w.tasks[t]))
    && (forall k :: 0 <= k < |w.stray| ==> SoundRequest(w, w.stray[k]))
  }

  /** New pictures come from the file picker: no key, no id. */
  predicate PlainEvent(e: Event) { e.StartAdding? ==> PlainPictures(e.picked) }
}
