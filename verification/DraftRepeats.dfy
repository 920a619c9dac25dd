/** The converse: where a submit that is not fresh starts, and the server saves what is sent, an acknowledged image is
    sent again. */
module DraftRepeats {
  import opened Text
  import opened Gallery
  import opened DraftImages
  import opened DraftImageRuns
  import opened DraftBanner
  import opened DraftTasks
  import opened DraftTaskRuns
  import opened DraftFresh

  // ---------------------------------------------------------------- what the server is asked for

  /** The server saves the images without id from `i` up to `k`, sent in order. */
  predicate Accepts(stored: seq<Stored>, copy: seq<Image>, i: nat, k: nat)
    requires k <= |copy|
    decreases k - i
  {
    i < k ==>
      if copy[i].persistedId.Some? then Accepts(stored, copy, i + 1, k)
      else
        AnswerTo(stored, KeyOf(copy[i]), BodyOf(copy[i], i)).Saved?
        && Accepts(StoreImage(stored, KeyOf(copy[i]), BodyOf(copy[i], i)), copy, i + 1, k)
  }

  /** Its rows after that. */
  function Saves(stored: seq<Stored>, copy: seq<Image>, i: nat, k: nat): seq<Stored>
    requires k <= |copy|
    decreases k - i
  {
    if i >= k then stored
    else if copy[i].persistedId.Some? then Saves(stored, copy, i + 1, k)
    else Saves(StoreImage(stored, KeyOf(copy[i]), BodyOf(copy[i], i)), copy, i + 1, k)
  }

  /** Images that have their id are passed over, and what lies before plays no part. */
  lemma {:induction false} PassedOver(stored: seq<Stored>, copy: seq<Image>, copy': seq<Image>, i: nat, m: nat, k: nat)
    requires i <= m <= k <= |copy| == |copy'|
    requires forall j :: i <= j < k ==> copy'[j] == copy[j]
    requires forall j :: i <= j < m ==> copy[j].persistedId.Some?
    ensures Accepts(stored, copy, i, k) == Accepts(stored, copy', m, k)
      && Saves(stored, copy, i, k) == Saves(stored, copy', m, k)
    decreases k - i
  {
    if i < m {
      PassedOver(stored, copy, copy', i + 1, m, k);
    } else if i < k {
      if copy[i].persistedId.Some? {
        PassedOver(stored, copy, copy', i + 1, m + 1, k);
      } else {
        PassedOver(StoreImage(stored, KeyOf(copy[i]), BodyOf(copy[i], i)), copy, copy', i + 1, m + 1, k);
      }
    }
  }

  lemma OneMoreRow(stored: seq<Stored>, key: nat, body: Body)
    ensures |LiveIds(StoreImage(stored, key, body))| <= |LiveIds(stored)| + 1
    ensures forall r :: 0 <= r < |StoreImage(stored, key, body)| ==>
      var row := StoreImage(stored, key, body)[r];
      (r < |stored| && row.key == stored[r].key && row.body == stored[r].body) || (row.key == key && row.body == body)
  {
    StoredImage(stored, key, body);
    SubsetSize(LiveIds(StoreImage(stored, key, body)), LiveIds(stored) + {|stored|});
  }

  predicate SameOrNew(stored: seq<Stored>, copy: seq<Image>, i: nat, k: nat)
    requires k <= |copy|
  {
    forall j, r :: i <= j < k && copy[j].persistedId.None? && 0 <= r < |stored| && stored[r].key == KeyOf(copy[j]) ==>
      stored[r].body == BodyOf(copy[j], j)
  }

  /** With room for them, the server saves images that are new or were stored as they are. */
  lemma {:induction false} RoomAccepts(stored: seq<Stored>, copy: seq<Image>, i: nat, k: nat)
    requires i <= k <= |copy| && SameOrNew(stored, copy, i, k) && |LiveIds(stored)| + (k - i) <= SERVER_LIMIT
    requires forall a, b :: i <= a < b < k ==> KeyOf(copy[a]) != KeyOf(copy[b])
    ensures Accepts(stored, copy, i, k)
    decreases k - i
  {
    if i < k {
      if copy[i].persistedId.Some? {
        RoomAccepts(stored, copy, i + 1, k);
      } else {
        var key, body := KeyOf(copy[i]), BodyOf(copy[i], i);
        OneMoreRow(stored, key, body);
        RoomAccepts(StoreImage(stored, key, body), copy, i + 1, k);
      }
    }
  }

  // ---------------------------------------------------------------- a submit that is served and answered

  predicate Sends(task: Task) { task.job.Saving? && (task.job.stage.Drafting? || task.job.stage.Uploading?) }

  /** The first image that the server has still to be asked for. */
  function NextOf(task: Task): nat
    requires Sends(task)
  {
    match task.job.stage
    case Drafting(_) => 0
    case Uploading(i) => if task.answer.None? then i else i + 1
  }

  /** Submit `t` is on its way to image `k`, and the server saves what is sent before. */
  predicate Heading(w: World, t: nat, k: nat) {
    && t < |w.tasks| && Sends(w.tasks[t]) && InStep(w.tasks[t])
    && var task := w.tasks[t];
    && k < |task.job.copy| && task.job.copy[k].persistedId.None?
    && (task.job.stage.Uploading? ==> task.job.stage.index < k && (task.answer.Some? ==> task.answer.value.Kept?))
    && Accepts(w.d.stored, task.job.copy, NextOf(task), k)
  }

  function RowsBefore(w: World, t: nat, k: nat): seq<Stored>
    requires Heading(w, t, k)
  {
    Saves(w.d.stored, w.tasks[t].job.copy, NextOf(w.tasks[t]), k)
  }

  /** Only submit `t` has moved on. */
  ghost predicate Onward(w: World, v: World, t: nat) {
    && |v.tasks| == |w.tasks| && (forall u :: 0 <= u < |w.tasks| && u != t ==> v.tasks[u] == w.tasks[u])
    && w.d.acked <= v.d.acked && w.d.resent <= v.d.resent
    && forall n :: CanRepeat(v, n) ==> CanRepeat(w, n)
  }

  lemma OnwardTrans(a: World, b: World, c: World, t: nat)
    requires Onward(a, b, t) && Onward(b, c, t)
    ensures Onward(a, c, t)
  {
  }

  lemma StepOnward(w: World, e: Event, t: nat)
    requires e == Serve(t) || e == Deliver(t)
    requires
      var v := Apply(w, e);
      && |v.tasks| == |w.tasks| && (forall u :: 0 <= u < |w.tasks| && u != t ==> v.tasks[u] == w.tasks[u])
      && w.d.acked <= v.d.acked && w.d.resent <= v.d.resent
    ensures Onward(w, Apply(w, e), t)
  {
    forall n | CanRepeat(Apply(w, e), n) ensures CanRepeat(w, n) { RepeatEarlier(w, e, n); }
  }

  /** Its request is served. */
  lemma HeadingServed(w: World, t: nat, k: nat)
    requires Heading(w, t, k) && w.tasks[t].answer.None?
    ensures
      var v := Apply(w, Serve(t));
      && Onward(w, v, t) && Heading(v, t, k) && v.tasks[t] == w.tasks[t].(answer := v.tasks[t].answer)
          && v.tasks[t].answer.Some?
      && RowsBefore(v, t, k) == RowsBefore(w, t, k)
  {
    StepOnward(w, Serve(t), t);
  }

  /** The submit has just asked for image `k`. */
  predicate Asking(v: World, t: nat, copy: seq<Image>, k: nat) {
    && t < |v.tasks| && v.tasks[t].job.Saving? && k < |copy| == |v.tasks[t].job.copy|
        && v.tasks[t].job.stage == Uploading(k)
    && v.tasks[t].answer.None? && InStep(v.tasks[t]) && forall j :: k <= j < |copy| ==>
        v.tasks[t].job.copy[j] == copy[j]
  }

  lemma ProceedUpload(w: World, t: nat, copy: seq<Image>, from: nat, k: nat)
    requires t < |w.tasks| && from <= k < |copy| && copy[k].persistedId.None?
    ensures
      var v := Proceed(w, t, copy, from);
      var i := NextWithoutId(copy, from);
      && i <= k && Asking(v, t, copy, i) && v.tasks[t].job.copy == copy && v.d.stored == w.d.stored
          && v.d.acked == w.d.acked
      && |v.tasks| == |w.tasks| && (forall u :: 0 <= u < |w.tasks| && u != t ==> v.tasks[u] == w.tasks[u])
      && v.d.resent == w.d.resent + if KeyOf(copy[i]) in w.d.acked then 1 else 0
  {
  }

  /** The world in which a submit goes on with its copy, after the answer to its last request. */
  function Resumed(w: World, t: nat, k: nat): (World, seq<Image>)
    requires Heading(w, t, k) && w.tasks[t].answer.Some?
  {
    var copy := w.tasks[t].job.copy;
    match w.tasks[t].job.stage
    case Drafting(creates) => (w.(d := w.d.(g := w.d.g.(hasDraft := creates || w.d.g.hasDraft))), copy)
    case Uploading(i) =>
      var id := w.tasks[t].answer.value.id;
      (AckedWorld(w, copy, i, id), copy[i := Acknowledged(copy[i], id)])
  }

  lemma DeliveredGoesOn(w: World, t: nat, k: nat)
    requires Heading(w, t, k) && w.tasks[t].answer.Some?
    ensures
      var (base, copy) := Resumed(w, t, k);
      && Apply(w, Deliver(t)) == Proceed(base, t, copy, NextOf(w.tasks[t])) && NextOf(w.tasks[t]) <= k < |copy|
      && base.tasks == w.tasks && base.d.stored == w.d.stored && w.d.acked <= base.d.acked
          && base.d.resent == w.d.resent
      && |copy| == |w.tasks[t].job.copy| && forall j :: NextOf(w.tasks[t]) <= j < |copy| ==>
          copy[j] == w.tasks[t].job.copy[j]
  {
  }

  /** Its answer is delivered: it asks for image `k`, or heads on. */
  lemma HeadingDelivered(w: World, t: nat, k: nat)
    requires Heading(w, t, k) && w.tasks[t].answer.Some?
    ensures
      var v := Apply(w, Deliver(t));
      var copy := w.tasks[t].job.copy;
      && Onward(w, v, t) && |v.tasks[t].job.copy| == |copy| && v.tasks[t].job.stage.Uploading?
      && NextOf(w.tasks[t]) <= v.tasks[t].job.stage.index <= k && Asking(v, t, copy, v.tasks[t].job.stage.index)
      && if v.tasks[t].job.stage.index == k then
           v.d.stored == RowsBefore(w, t, k) && (KeyOf(copy[k]) in w.d.acked ==> v.d.resent > w.d.resent)
         else
           Heading(v, t, k) && RowsBefore(v, t, k) == RowsBefore(w, t, k)
  {
    var v := Apply(w, Deliver(t));
    var (base, copy') := Resumed(w, t, k);
    var from := NextOf(w.tasks[t]);
    DeliveredGoesOn(w, t, k);
    ProceedUpload(base, t, copy', from, k);
    PassedOver(w.d.stored, w.tasks[t].job.copy, copy', from, NextWithoutId(copy', from), k);
    StepOnward(w, Deliver(t), t);
  }

  function Rank(task: Task): nat
    requires Sends(task) && (task.job.stage.Uploading? ==> task.job.stage.index < |task.job.copy|)
  {
    match task.job.stage
    case Drafting(_) => |task.job.copy| + 1
    case Uploading(i) => |task.job.copy| - i
  }

  /** Served and answered, a submit comes to ask for image `k`. */
  lemma {:induction false} ComesToAsk(w: World, t: nat, k: nat) returns (v: World)
    requires Heading(w, t, k)
    ensures Onward(w, v, t) && Asking(v, t, w.tasks[t].job.copy, k) && v.d.stored == RowsBefore(w, t, k)
    ensures KeyOf(w.tasks[t].job.copy[k]) in w.d.acked ==> v.d.resent > w.d.resent
    decreases Rank(w.tasks[t])
  {
    var served := w;
    if w.tasks[t].answer.None? {
      HeadingServed(w, t, k);
      served := Apply(w, Serve(t));
    }
    HeadingDelivered(served, t, k);
    var next := Apply(served, Deliver(t));
    OnwardTrans(w, served, next, t);
    if next.tasks[t].job.stage.index == k {
      v := next;
    } else {
      v := ComesToAsk(next, t, k);
      OnwardTrans(w, next, v, t);
    }
  }

  // ---------------------------------------------------------------- a submit that learns of its image

  /** Submit `t` has image `k` to send, and the server saves what it sends up to it. */
  predicate SavesThrough(w: World, t: nat, k: nat) {
    && t < |w.tasks| && Sends(w.tasks[t]) && InStep(w.tasks[t])
    && var task := w.tasks[t];
    && k < |task.job.copy| && task.job.copy[k].persistedId.None?
    && (task.job.stage.Uploading? ==> task.job.stage.index <= k && (task.answer.Some? ==> task.answer.value.Kept?))
    && Accepts(w.d.stored, task.job.copy, NextOf(task), k + 1)
  }

  function RowsThrough(w: World, t: nat, k: nat): seq<Stored>
    requires SavesThrough(w, t, k)
  {
    Saves(w.d.stored, w.tasks[t].job.copy, NextOf(w.tasks[t]), k + 1)
  }

  lemma {:induction false} AcceptsLast(stored: seq<Stored>, copy: seq<Image>, i: nat, k: nat)
    requires i <= k < |copy| && copy[k].persistedId.None? && Accepts(stored, copy, i, k + 1)
    ensures Accepts(stored, copy, i, k)
    ensures
      var rows := Saves(stored, copy, i, k);
      && AnswerTo(rows, KeyOf(copy[k]), BodyOf(copy[k], k)).Saved?
      && Saves(stored, copy, i, k + 1) == StoreImage(rows, KeyOf(copy[k]), BodyOf(copy[k], k))
    decreases k - i
  {
    if i == k {
      var rows := StoreImage(stored, KeyOf(copy[k]), BodyOf(copy[k], k));
      assert Saves(rows, copy, k + 1, k + 1) == rows;
    } else if copy[i].persistedId.Some? {
      AcceptsLast(stored, copy, i + 1, k);
    } else {
      AcceptsLast(StoreImage(stored, KeyOf(copy[i]), BodyOf(copy[i], i)), copy, i + 1, k);
    }
  }

  lemma Acknowledges(w: World, t: nat, k: nat)
    requires t < |w.tasks| && w.tasks[t].job.Saving? && w.tasks[t].job.stage == Uploading(k)
      && k < |w.tasks[t].job.copy|
    requires w.tasks[t].answer.Some? && w.tasks[t].answer.value.Kept?
    ensures
      var v := Apply(w, Deliver(t));
      Onward(w, v, t) && KeyOf(w.tasks[t].job.copy[k]) in v.d.acked && v.d.stored == w.d.stored
  {
    StepOnward(w, Deliver(t), t);
  }

  lemma AnswersAsked(w: World, t: nat, k: nat)
    requires t < |w.tasks| && w.tasks[t].job.Saving? && w.tasks[t].job.stage == Uploading(k)
    requires w.tasks[t].answer.None? && InStep(w.tasks[t])
    requires AnswerTo(w.d.stored, KeyOf(w.tasks[t].job.copy[k]), BodyOf(w.tasks[t].job.copy[k], k)).Saved?
    ensures
      var v := Apply(w, Serve(t));
      && Onward(w, v, t) && v.tasks[t] == w.tasks[t].(answer := v.tasks[t].answer) && v.tasks[t].answer.Some?
          && v.tasks[t].answer.value.Kept?
      && v.d.stored == StoreImage(w.d.stored, KeyOf(w.tasks[t].job.copy[k]), BodyOf(w.tasks[t].job.copy[k], k))
  {
    StepOnward(w, Serve(t), t);
  }

  /** Served and answered, a submit comes to know of image `k`. */
  lemma ComesToKnow(w: World, t: nat, k: nat) returns (v: World)
    requires SavesThrough(w, t, k)
    ensures Onward(w, v, t) && KeyOf(w.tasks[t].job.copy[k]) in v.d.acked && v.d.stored == RowsThrough(w, t, k)
  {
    var task := w.tasks[t];
    var asking := w;
    if task.job.stage != Uploading(k) {
      AcceptsLast(w.d.stored, task.job.copy, NextOf(task), k);
      asking := ComesToAsk(w, t, k);
    } else if task.answer.None? {
      AcceptsLast(w.d.stored, task.job.copy, k, k);
    }
    var served := asking;
    if asking.tasks[t].answer.None? {
      AnswersAsked(asking, t, k);
      served := Apply(asking, Serve(t));
    }
    Acknowledges(served, t, k);
    v := Apply(served, Deliver(t));
    OnwardTrans(w, asking, served, t);
    OnwardTrans(w, served, v, t);
  }

  // ---------------------------------------------------------------- a submit that is not fresh

  /** The keys of a list are new, or those of the list it was made from. */
  lemma AddedDue(g: Store, picked: seq<Image>)
    requires WellFormed(g.images) && PlainPictures(picked)
    ensures
      var after := Do(g, Append(picked)).images;
      DueFrom(g.images, 0) <= DueFrom(after, 0) && forall key :: key in DueFrom(after, 0) ==>
          key in DueFrom(g.images, 0) || key >= g.nextKey
  {
    var after := Do(g, Append(picked)).images;
    var all := g.images + Fitting(g, picked);
    AppendKeeps(g, picked);
    AppendIs(g, picked);
    forall i | 0 <= i < |after| && after[i].persistedId.None? ensures KeyOf(after[i]) in DueFrom(g.images, 0) || KeyOf(after[i]) >= g.nextKey {
      if i < |g.images| { assert after[i] == g.images[i]; } else { NormalizeAt(all, g.nextKey, i); }
    }
    forall i | 0 <= i < |g.images| && g.images[i].persistedId.None? ensures KeyOf(g.images[i]) in DueFrom(after, 0) {
      assert after[i] == g.images[i];
    }
  }

  lemma LeftDue(g: Store, at: nat)
    requires WellFormed(g.images) && at < |g.images| && g.images[at].persistedId.Some?
    ensures DueFrom(Do(g, Remove(at, true)).images, 0) == DueFrom(g.images, 0)
  {
    var after := Do(g, Remove(at, true)).images;
    RemovalTakesOne(g, at, true);
    assert |Cores(after)| == |after| == |g.images| - 1;
    forall i | 0 <= i < |g.images| && i != at
      ensures
        var k := if i < at then i else i - 1;
        after[k].persistedId == g.images[i].persistedId && after[k].key == g.images[i].key
    {
      var k := if i < at then i else i - 1;
      assert Cores(after)[k] == RemoveAt(Cores(g.images), at)[k] == Cores(g.images)[i];
      assert Core(after[k]) == Core(g.images[i]);
    }
    SameDue(g.images, after, at);
  }

  lemma SameDue(images: seq<Image>, after: seq<Image>, at: nat)
    requires at < |images| && |after| == |images| - 1 && images[at].persistedId.Some?
    requires forall i :: 0 <= i < |images| && i != at ==>
      var k := if i < at then i else i - 1;
      after[k].persistedId == images[i].persistedId && after[k].key == images[i].key
    ensures DueFrom(after, 0) == DueFrom(images, 0)
  {
    forall k | 0 <= k < |after| && after[k].persistedId.None? ensures KeyOf(after[k]) in DueFrom(images, 0) {
      var i := if k < at then k else k + 1;
      assert KeyOf(after[k]) == KeyOf(images[i]);
    }
    forall i | 0 <= i < |images| && images[i].persistedId.None? ensures KeyOf(images[i]) in DueFrom(after, 0) {
      var k := if i < at then i else i - 1;
      assert KeyOf(after[k]) == KeyOf(images[i]);
    }
  }

  /** A selection that ends, whenever it began, leaves a gallery with an acknowledged image without its id if and only
      if the copy it was made from had one by then. */
  lemma SelectionStaleIff(w: World, t: nat)
    requires Sound(w) && t < |w.tasks| && w.tasks[t].job.Adding? && w.tasks[t].answer == Some(Done)
    ensures
      var after := Apply(w, Deliver(t));
      DueFrom(after.d.g.images, 0) !! after.d.acked <==> DueFrom(w.tasks[t].job.copy, 0) !! w.d.acked
  {
    assert SoundTask(w, w.tasks[t]);
    AddedDue(w.d.g.(images := w.tasks[t].job.copy), w.tasks[t].job.picked);
  }

  /** And so does a deletion, of an image that had its id. */
  lemma DeletionStaleIff(w: World, t: nat)
    requires Sound(w) && t < |w.tasks| && w.tasks[t].job.Deleting? && w.tasks[t].answer == Some(Done)
    requires w.tasks[t].job.at < |w.tasks[t].job.copy| && w.tasks[t].job.copy[w.tasks[t].job.at].persistedId.Some?
    ensures
      var after := Apply(w, Deliver(t));
      DueFrom(after.d.g.images, 0) !! after.d.acked <==> DueFrom(w.tasks[t].job.copy, 0) !! w.d.acked
  {
    assert SoundTask(w, w.tasks[t]);
    LeftDue(w.d.g.(images := w.tasks[t].job.copy), w.tasks[t].job.at);
  }

  /** The first request for an image of a submit that is served at once repeats an acknowledged key if and only if the
      first gallery image without an id was acknowledged: at any open form, whatever else is running. */
  lemma FirstUploadRepeatsIff(w: World)
    requires !w.closed
    ensures
      var n, i := |w.tasks|, NextWithoutId(w.d.g.images, 0);
      var v := Apply(Apply(Apply(w, StartSaving), Serve(n)), Deliver(n));
      v.d.resent == w.d.resent + if i < |w.d.g.images| && KeyOf(w.d.g.images[i]) in w.d.acked then 1 else 0
  {
    var n := |w.tasks|;
    var served := Apply(Apply(w, StartSaving), Serve(n));
    assert served.tasks[n] == Task(Saving(w.d.g.images, Drafting(!w.d.g.hasDraft)), SaveDraft, Some(Done));
  }

  /** The key of a gallery image without id was acknowledged, or a running submit has it still to send. */
  predicate Stale(w: World, g: nat) {
    && g < |w.d.g.images| && w.d.g.images[g].persistedId.None?
    && (KeyOf(w.d.g.images[g]) in w.d.acked
        || exists t :: 0 <= t < |w.tasks| && KeyOf(w.d.g.images[g]) in Due(w.tasks[t].job))
  }

  lemma GalleryImageOf(w: World, key: nat) returns (g: nat)
    requires key in DueFrom(w.d.g.images, 0)
    ensures g < |w.d.g.images| && w.d.g.images[g].persistedId.None? && KeyOf(w.d.g.images[g]) == key
  {
    g :| g < |w.d.g.images| && w.d.g.images[g].persistedId.None? && KeyOf(w.d.g.images[g]) == key;
  }

  lemma SomeStale(w: World) returns (g: nat)
    requires !FreshStart(w)
    ensures Stale(w, g)
  {
    if key: nat :| key in DueFrom(w.d.g.images, 0) && key in w.d.acked {
      g := GalleryImageOf(w, key);
    } else {
      var t :| 0 <= t < |w.tasks| && !(DueFrom(w.d.g.images, 0) !! Due(w.tasks[t].job));
      var key :| key in DueFrom(w.d.g.images, 0) && key in Due(w.tasks[t].job);
      g := GalleryImageOf(w, key);
    }
  }

  /** Submit `t` has the key of gallery image `g` to send, as its image `k`; the server saves what `t` sends up to that,
      and then what a new submit sends before image `g`. */
  predicate LearntBefore(w: World, g: nat, t: nat, k: nat) {
    && g < |w.d.g.images| && SavesThrough(w, t, k) && KeyOf(w.tasks[t].job.copy[k]) == KeyOf(w.d.g.images[g])
    && Accepts(RowsThrough(w, t, k), w.d.g.images, 0, g)
  }

  /** What is needed of the server for image `g` to be sent again: it saves what is sent before. */
  predicate Obliging(w: World, g: nat) {
    && g < |w.d.g.images|
    && if KeyOf(w.d.g.images[g]) in w.d.acked then Accepts(w.d.stored, w.d.g.images, 0, g)
       else
         exists t, k ::
           && 0 <= t < |w.tasks| && w.tasks[t].job.Saving? && 0 <= k < |w.tasks[t].job.copy|
           && LearntBefore(w, g, t, k)
  }

  /** A new submit whose image `g` was acknowledged sends it again. */
  lemma SendsAgain(w: World, t: nat, g: nat, n: nat)
    requires Heading(w, t, g) && KeyOf(w.tasks[t].job.copy[g]) in w.d.acked && n <= w.d.resent
    ensures CanRepeat(w, n)
  {
    var v := ComesToAsk(w, t, g);
    assert Run(v, []).d.resent > n && AllPlain([]) && NoStart([]);
  }

  lemma StartedHeads(w: World, g: nat)
    requires !w.closed && g < |w.d.g.images| && w.d.g.images[g].persistedId.None?
      && Accepts(w.d.stored, w.d.g.images, 0, g)
    ensures
      var started := Apply(w, StartSaving);
      Heading(started, |w.tasks|, g) && started.tasks[|w.tasks|].job.copy == w.d.g.images && started.d == w.d
  {
  }

  lemma AcknowledgedRepeats(w: World, g: nat)
    requires !w.closed && Stale(w, g) && KeyOf(w.d.g.images[g]) in w.d.acked && Accepts(w.d.stored, w.d.g.images, 0, g)
    ensures CanRepeat(Apply(w, StartSaving), w.d.resent)
  {
    StartedHeads(w, g);
    SendsAgain(Apply(w, StartSaving), |w.tasks|, g, w.d.resent);
  }

  /** Submit `t` learns of the image first; then the new submit sends it again. */
  lemma LearntRepeats(w: World, g: nat, t: nat, k: nat)
    requires !w.closed && Stale(w, g) && LearntBefore(w, g, t, k)
    ensures CanRepeat(Apply(w, StartSaving), w.d.resent)
  {
    var started := Apply(w, StartSaving);
    var n := |w.tasks|;
    assert started.tasks[t] == w.tasks[t];
    assert SavesThrough(started, t, k) && RowsThrough(started, t, k) == RowsThrough(w, t, k);
    var v := ComesToKnow(started, t, k);
    assert v.tasks[n] == started.tasks[n];
    SendsAgain(v, n, g, w.d.resent);
  }

  lemma StaleRepeats(w: World, g: nat)
    requires !w.closed && Stale(w, g) && Obliging(w, g)
    ensures CanRepeat(Apply(w, StartSaving), w.d.resent)
  {
    if KeyOf(w.d.g.images[g]) in w.d.acked {
      AcknowledgedRepeats(w, g);
    } else {
      var t, k :| 0 <= t < |w.tasks| && w.tasks[t].job.Saving? && 0 <= k < |w.tasks[t].job.copy|
          && LearntBefore(w, g, t, k);
      LearntRepeats(w, g, t, k);
    }
  }

  /** The server is obliging about the first image that is stale, if there is one. */
  predicate Willing(w: World) {
    forall g :: 0 <= g < |w.d.g.images| && Stale(w, g) && (forall j :: 0 <= j < g ==> !Stale(w, j)) ==> Obliging(w, g)
  }

  lemma {:induction false} FirstStale(w: World, k: nat) returns (g: nat)
    requires Stale(w, k)
    ensures g <= k && Stale(w, g) && forall j :: 0 <= j < g ==> !Stale(w, j)
  {
    if j: nat :| j < k && Stale(w, j) { g := FirstStale(w, j); } else { g := k; }
  }

  /** Along any run whose submits so far were fresh, with a server that saves what is sent: the next submit can lead to
      a repeated request, without another one after it, if and only if it is not fresh. */
  lemma RepeatsIff(first: World, events: seq<Event>)
    requires Opened(first) && AllPlain(events) && FreshStarts(first, events)
    requires !Run(first, events).closed && Willing(Run(first, events))
    ensures CanRepeat(Apply(Run(first, events), StartSaving), 0) <==> !FreshStart(Run(first, events))
  {
    var w := Run(first, events);
    RunSound(first, []);
    RunFresh(first, events);
    if FreshStart(w) {
      StepSound(w, StartSaving);
      StepFresh(w, StartSaving);
      FreshCannotRepeat(Apply(w, StartSaving));
    } else {
      var k := SomeStale(w);
      var g := FirstStale(w, k);
      StaleRepeats(w, g);
    }
  }
}
