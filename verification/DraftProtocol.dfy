/**
  Creating a deal over a network that loses, delays and reorders: the request key, the resume record, and a server that
  honours the key. A submit sends one request; the server may process it at once, later or never, and its answer reaches
  the page only if the page still waits for it.
*/
module DraftProtocol {
  import opened Text

  /** Request keys are random ids, modelled as numbers that were never drawn before; deal ids are positions. */
  type Key = nat
  type DealId = nat
  type Time = int

  /** The validated fields of the form; equal payloads have equal request hashes. */
  type Payload = string

  const DAY := 24 * 60 * 60 * 1000

  /** The longest record that is written, in characters of its JSON text. */
  const RECORD_LIMIT := 20000

  /** sellerDraftId and sellerDraftRequestKey. */
  datatype Memory = Memory(draft: Option<DealId>, key: Option<Key>)
  const BLANK := Memory(None, None)

  /** The resume record in localStorage; `owned` is whether it carries the seller's id. */
  datatype Record = Record(savedAt: Time, owned: bool, memory: Memory)

  /** A deal and the idempotency row written with it. */
  datatype Deal = Deal(key: Key, payload: Payload)

  datatype Request = Post(key: Key, payload: Payload) | Patch(deal: DealId)
  datatype Answer = Created(deal: DealId) | Replayed(deal: DealId) | Mismatch | Patched | Unauthorized

  /** A request, the server's answer once there is one, and whether the page still waits for it. */
  datatype Sent = Sent(request: Request, answer: Option<Answer>, awaited: bool)

  /** `touched` collects the deals that a processed submit created, replayed or patched. */
  datatype World = World(memory: Memory, signedIn: bool, record: Option<Record>, deals: seq<Deal>, touched: set<DealId>,
                         nextKey: Key, now: Time, sent: seq<Sent>)

  // ---------------------------------------------------------------- the server

  /** The deal stored under a key among the first `k`, or -1. */
  function Lookup(deals: seq<Deal>, key: Key, k: nat): (i: int)
    requires k <= |deals|
    ensures -1 <= i < k
    ensures i >= 0 ==> deals[i].key == key
    ensures i < 0 ==> forall j :: 0 <= j < k ==> deals[j].key != key
  {
    if k == 0 then -1 else if deals[k - 1].key == key then k - 1 else Lookup(deals, key, k - 1)
  }

  function AnswerTo(deals: seq<Deal>, r: Request): Answer {
    match r
    case Patch(_) => Patched
    case Post(key, payload) =>
      var i := Lookup(deals, key, |deals|);
      if i < 0 then Created(|deals|) else if deals[i].payload == payload then Replayed(i) else Mismatch
  }

  /** The server after it has processed a request. */
  function Process(w: World, r: Request): World {
    match AnswerTo(w.deals, r)
    case Created(d) => w.(deals := w.deals + [Deal(r.key, r.payload)], touched := w.touched + {d})
    case Replayed(d) => w.(touched := w.touched + {d})
    case Patched => w.(touched := w.touched + {r.deal})
    case _ => w
  }

  // ---------------------------------------------------------------- the client

  /** `size` is the length of the record that the event would write. */
  datatype Event =
    | Edit(size: nat)
    | Submit(payload: Payload, size: nat)
    | Serve(i: nat)
    | Refuse(i: nat)               // the session has ended on the server: 401, nothing processed
    | Deliver(i: nat, size: nat)
    | GiveUp(i: nat)
    | Reload(signedIn: bool)
    | SignIn
    | SessionEnds
    | Elapse(ms: nat)

  /** persistSellerCreateResume: written only when the serialised record is within its limit. */
  function Persist(w: World, size: nat): World {
    if size <= RECORD_LIMIT then w.(record := Some(Record(w.now, w.signedIn, w.memory))) else w
  }

  /** hydrateSellerCreateResume, once signed in. */
  function Hydrate(w: World): World {
    match w.record
    case None => w
    case Some(r) => if w.now - r.savedAt > DAY || !r.owned then w.(record := None) else w.(memory := r.memory)
  }

  /** The request key is drawn once and recorded before the request leaves. */
  function Prepare(w: World, size: nat): World {
    Persist(if w.memory.key.Some? then w else w.(memory := w.memory.(key := Some(w.nextKey)), nextKey := w.nextKey + 1), size)
  }

  function Send(w: World, r: Request): World { w.(sent := w.sent + [Sent(r, None, true)]) }

  function Answered(w: World, i: nat, a: Answer): World
    requires i < |w.sent|
  {
    w.(sent := w.sent[i := w.sent[i].(answer := Some(a))])
  }

  /** The page stops waiting for a request. */
  function Closed(w: World, i: nat): World
    requires i < |w.sent|
  {
    w.(sent := w.sent[i := w.sent[i].(awaited := false)])
  }

  function CloseAll(sent: seq<Sent>): seq<Sent> {
    seq(|sent|, i requires 0 <= i < |sent| => sent[i].(awaited := false))
  }

  /** What the page does with an answer. */
  function Receive(w: World, a: Answer, size: nat): World {
    match a
    case Created(d) => Persist(w.(memory := w.memory.(draft := Some(d))), size)
    case Replayed(d) => Persist(w.(memory := w.memory.(draft := Some(d))), size)
    case Patched => Persist(w, size)
    case Unauthorized => Persist(w, size).(signedIn := false)
    case Mismatch => w
  }

  function Apply(w: World, e: Event): World {
    match e
    case Edit(size) => Persist(w, size)
    case Submit(payload, size) =>
      if w.memory.draft.Some? then Send(w, Patch(w.memory.draft.value))
      else
        var ready := Prepare(w, size);
        Send(ready, Post(ready.memory.key.value, payload))
    case Serve(i) =>
      if i >= |w.sent| || w.sent[i].answer.Some? then w
      else Answered(Process(w, w.sent[i].request), i, AnswerTo(w.deals, w.sent[i].request))
    case Refuse(i) => if i >= |w.sent| || w.sent[i].answer.Some? then w else Answered(w, i, Unauthorized)
    case Deliver(i, size) =>
      if i >= |w.sent| || w.sent[i].answer.None? || !w.sent[i].awaited then w
      else Closed(Receive(w, w.sent[i].answer.value, size), i)
    case GiveUp(i) => if i >= |w.sent| then w else Closed(w, i)
    case Reload(signedIn) =>
      var restarted := w.(memory := BLANK, signedIn := signedIn, sent := CloseAll(w.sent));
      if signedIn then Hydrate(restarted) else restarted
    case SignIn => Hydrate(w.(signedIn := true))
    case SessionEnds => w.(signedIn := false)
    case Elapse(ms) => w.(now := w.now + ms)
  }

  function Run(w: World, events: seq<Event>): World {
    if events == [] then w else Apply(Run(w, events[..|events| - 1]), events[|events| - 1])
  }

  // ---------------------------------------------------------------- one creation

  predicate Fits(size: nat) { size <= 20_000 }

  /** Records fit and are written while the seller is signed in, and restores happen within the day. */
  predicate Allowed(w: World, e: Event) {
    match e
    case Edit(size) => Fits(size) && w.signedIn
    case Submit(_, size) => Fits(size) && w.signedIn
    case Deliver(_, size) => Fits(size) && w.signedIn
    case Reload(signedIn) => signedIn ==> Fresh(w)
    case SignIn => Fresh(w)
    case _ => true
  }

  predicate Fresh(w: World) {
    w.record.Some? ==> w.now - w.record.value.savedAt <= 86_400_000
  }

  predicate AllAllowed(w: World, events: seq<Event>) {
    events != [] ==>
      AllAllowed(w, events[..|events| - 1]) && Allowed(Run(w, events[..|events| - 1]), events[|events| - 1])
  }

  predicate KeysDrawn(w: World) {
    forall i :: 0 <= i < |w.deals| ==> w.deals[i].key < w.nextKey
  }

  /** Where a creation starts: nothing in memory, no record, nothing sent. */
  predicate Start(w: World) {
    w.memory == BLANK && w.record == None && w.touched == {} && w.sent == [] && KeysDrawn(w)
  }

  /** What the record holds; memory agrees with it, unless a reload while signed out has blanked memory. */
  function Kept(w: World): Memory { if w.record.Some? then w.record.value.memory else BLANK }

  /** Every request of this creation carries its key or its deal, and every answer names its deal. */
  predicate SafeSent(w: World, s: Sent, n: nat) {
    && (s.request.Post? ==> Kept(w).key == Some(s.request.key))
    && (s.request.Patch? ==> s.request.deal == n && |w.deals| == n + 1)
    && (s.answer.Some? && (s.answer.value.Created? || s.answer.value.Replayed?) ==>
          s.answer.value.deal == n && |w.deals| == n + 1 && Kept(w).key.Some?)
  }

  /** `n` deals existed at the start. The key in the record is the only one that can have created another. */
  predicate Safe(w: World, n: nat) {
    && KeysDrawn(w) && n <= |w.deals| <= n + 1
    && (w.record.Some? ==> w.record.value.owned)
    && (w.memory == Kept(w) || (w.memory == BLANK && !w.signedIn))
    && w.touched <= {n} && (w.touched != {} ==> |w.deals| == n + 1)
    && (|w.deals| == n + 1 ==> Kept(w).key == Some(w.deals[n].key))
    && (Kept(w).key.Some? ==> Kept(w).key.value < w.nextKey && forall i :: 0 <= i < n ==> w.deals[i].key != Kept(w).key.value)
    && (Kept(w).draft.Some? ==> Kept(w).draft.value == n && |w.deals| == n + 1)
    && (forall i :: 0 <= i < |w.sent| ==> SafeSent(w, w.sent[i], n))
  }

  lemma PrepareSafe(w: World, n: nat, size: nat)
    requires Safe(w, n) && w.signedIn && w.memory.draft.None? && Fits(size)
    ensures
      var ready := Prepare(w, size);
      Safe(ready, n) && ready.signedIn && ready.memory.draft.None? && ready.memory.key.Some?
          && ready.memory == Kept(ready)
  {
    var ready := Prepare(w, size);
    forall i | 0 <= i < |ready.sent| ensures SafeSent(ready, ready.sent[i], n) {
      assert SafeSent(w, w.sent[i], n);
    }
  }

  lemma SubmitSafe(w: World, n: nat, e: Event)
    requires Safe(w, n) && Allowed(w, e) && e.Submit?
    ensures Safe(Apply(w, e), n)
  {
    if w.memory.draft.None? { PrepareSafe(w, n, e.size); }
  }

  lemma ProcessSafe(w: World, n: nat, i: nat)
    requires Safe(w, n) && i < |w.sent|
    ensures Safe(Process(w, w.sent[i].request), n)
    ensures SafeSent(Process(w, w.sent[i].request), w.sent[i].(answer := Some(AnswerTo(w.deals, w.sent[i].request))), n)
  {
    var r := w.sent[i].request;
    var after := Process(w, r);
    assert SafeSent(w, w.sent[i], n);
    if r.Post? {
      var k := Lookup(w.deals, r.key, |w.deals|);
      assert k >= 0 ==> k == n;
      assert k < 0 ==> |w.deals| == n;
    }
    forall j | 0 <= j < |after.sent| ensures SafeSent(after, after.sent[j], n) {
      assert SafeSent(w, w.sent[j], n);
    }
  }

  lemma AnsweredSafe(w: World, n: nat, i: nat, a: Answer)
    requires Safe(w, n) && i < |w.sent| && SafeSent(w, w.sent[i].(answer := Some(a)), n)
    ensures Safe(Answered(w, i, a), n)
  {
    var after := Answered(w, i, a);
    forall j | 0 <= j < |after.sent| ensures SafeSent(after, after.sent[j], n) {
      if j != i { assert SafeSent(w, w.sent[j], n); }
    }
  }

  lemma ServeSafe(w: World, n: nat, i: nat)
    requires Safe(w, n)
    ensures Safe(Apply(w, Serve(i)), n)
  {
    if i < |w.sent| && w.sent[i].answer.None? {
      var r := w.sent[i].request;
      ProcessSafe(w, n, i);
      AnsweredSafe(Process(w, r), n, i, AnswerTo(w.deals, r));
    }
  }

  /** Writing a record of what is in memory keeps everything safe. */
  lemma PersistSafe(w: World, n: nat, memory: Memory, size: nat)
    requires Safe(w, n) && w.signedIn && memory.key == w.memory.key
    requires memory.draft == w.memory.draft || (memory.draft == Some(n) && |w.deals| == n + 1 && w.memory.key.Some?)
    requires Fits(size)
    ensures Safe(Persist(w.(memory := memory), size), n)
  {
    var after := Persist(w.(memory := memory), size);
    forall j | 0 <= j < |after.sent| ensures SafeSent(after, after.sent[j], n) {
      assert SafeSent(w, w.sent[j], n);
    }
  }

  lemma ClosedSafe(w: World, n: nat, i: nat)
    requires Safe(w, n) && i < |w.sent|
    ensures Safe(Closed(w, i), n)
  {
    var after := Closed(w, i);
    forall j | 0 <= j < |after.sent| ensures SafeSent(after, after.sent[j], n) {
      assert SafeSent(w, w.sent[j], n);
    }
  }

  lemma DeliverSafe(w: World, n: nat, i: nat, size: nat)
    requires Safe(w, n) && w.signedIn && Fits(size)
    ensures Safe(Apply(w, Deliver(i, size)), n)
  {
    if i < |w.sent| && w.sent[i].answer.Some? && w.sent[i].awaited {
      var a := w.sent[i].answer.value;
      assert SafeSent(w, w.sent[i], n);
      PersistSafe(w, n, w.memory, size);
      if a.Created? || a.Replayed? { PersistSafe(w, n, w.memory.(draft := Some(n)), size); }
      assert w.(memory := w.memory) == w;
      assert Safe(Receive(w, a, size), n);
      ClosedSafe(Receive(w, a, size), n, i);
    }
  }

  lemma RestoreSafe(w: World, n: nat, e: Event)
    requires Safe(w, n) && Allowed(w, e) && (e.Reload? || e.SignIn?)
    ensures Safe(Apply(w, e), n)
  {
    var after := Apply(w, e);
    forall j | 0 <= j < |after.sent| ensures SafeSent(after, after.sent[j], n) {
      assert SafeSent(w, w.sent[j], n);
    }
  }

  lemma StepSafe(w: World, n: nat, e: Event)
    requires Safe(w, n) && Allowed(w, e)
    ensures Safe(Apply(w, e), n)
  {
    match e
    case Edit(size) => PersistSafe(w, n, w.memory, size);
    case Submit(_, _) => SubmitSafe(w, n, e);
    case Serve(i) => ServeSafe(w, n, i);
    case Refuse(i) =>
    case Deliver(i, size) => DeliverSafe(w, n, i, size);
    case GiveUp(i) => if i < |w.sent| { ClosedSafe(w, n, i); }
    case Reload(_) => RestoreSafe(w, n, e);
    case SignIn => RestoreSafe(w, n, e);
    case SessionEnds =>
    case Elapse(_) =>
  }

  lemma {:induction false} RunSafe(w: World, events: seq<Event>)
    requires Start(w) && AllAllowed(w, events)
    ensures Safe(Run(w, events), |w.deals|)
  {
    if events != [] {
      RunSafe(w, events[..|events| - 1]);
      StepSafe(Run(w, events[..|events| - 1]), |w.deals|, events[|events| - 1]);
    }
  }

  /** Whatever is lost, late, repeated, given up or reloaded, and however many submits are under way at once: at most
      one deal is created, and every processed submit is about it. */
  lemma AtMostOneDeal(w: World, events: seq<Event>)
    requires Start(w) && AllAllowed(w, events)
    ensures
      var after := Run(w, events);
      && |w.deals| <= |after.deals| <= |w.deals| + 1
      && after.touched <= {|w.deals|} && (after.touched != {} ==> |after.deals| == |w.deals| + 1)
      && (after.memory.draft.Some? ==> after.memory.draft.value == |w.deals|)
  {
    RunSafe(w, events);
  }

  /** A submit that is processed and answered at once. */
  function Exchange(w: World, payload: Payload, size: nat): World {
    Apply(Apply(Apply(w, Submit(payload, size)), Serve(|w.sent|)), Deliver(|w.sent|, size))
  }

  lemma ExchangePosts(w: World, payload: Payload, size: nat)
    requires w.memory.draft.None?
    ensures
      var ready := Prepare(w, size);
      var r := Post(ready.memory.key.value, payload);
      var served := Process(Send(ready, r), r);
      && Exchange(w, payload, size).deals == served.deals
      && Exchange(w, payload, size).memory == Receive(served, AnswerTo(w.deals, r), size).memory
  {
    var ready := Prepare(w, size);
    var sent := Send(ready, Post(ready.memory.key.value, payload));
    assert ready.sent == w.sent && ready.deals == w.deals;
    assert sent.sent[|w.sent|] == Sent(Post(ready.memory.key.value, payload), None, true);
  }

  lemma ExchangePatches(w: World, payload: Payload, size: nat)
    requires w.memory.draft.Some?
    ensures Exchange(w, payload, size).deals == w.deals && Exchange(w, payload, size).memory == w.memory
  {
    assert Send(w, Patch(w.memory.draft.value)).sent[|w.sent|] == Sent(Patch(w.memory.draft.value), None, true);
  }

  /** Once a submit was processed, the next answered one creates nothing, and finds the deal if and only if the form is
      unchanged or the deal's id was already known. */
  lemma ResubmitFindsTheDeal(w: World, events: seq<Event>, payload: Payload, size: nat)
    requires Start(w) && AllAllowed(w, events) && Fits(size)
    requires Run(w, events).touched != {} && Run(w, events).signedIn
    ensures
      var before := Run(w, events);
      var after := Exchange(before, payload, size);
      && after.deals == before.deals && |w.deals| < |before.deals|
      && (after.memory.draft == Some(|w.deals|)
          <==> before.memory.draft.Some? || before.deals[|w.deals|].payload == payload)
  {
    RunSafe(w, events);
    var n := |w.deals|;
    var before := Run(w, events);
    if before.memory.draft.None? {
      ExchangePosts(before, payload, size);
      PrepareSafe(before, n, size);
      var ready := Prepare(before, size);
      assert ready.memory.key == Some(before.deals[n].key) && ready.deals == before.deals;
      var i := Lookup(ready.deals, ready.memory.key.value, |ready.deals|);
      assert i == n;
    } else {
      ExchangePatches(before, payload, size);
    }
  }

  // ---------------------------------------------------------------- when the record cannot carry the key

  /** The draft is known, or the server knows the key. */
  predicate Known(deals: seq<Deal>, m: Memory) {
    m.draft.Some? || (m.key.Some? && Lookup(deals, m.key.value, |deals|) >= 0)
  }

  /** hydrateSellerCreateResume takes the record over. */
  predicate Restores(w: World) {
    w.record.Some? && w.record.value.owned && w.now - w.record.value.savedAt <= 86_400_000
  }

  /** The record restores a key or a draft that the server knows. */
  predicate Resumable(w: World) { Restores(w) && Known(w.deals, w.record.value.memory) }

  function One(b: bool): nat { if b then 1 else 0 }

  lemma CreatesUnlessKnown(w: World, payload: Payload, size: nat)
    requires KeysDrawn(w)
    ensures |Exchange(w, payload, size).deals| == |w.deals| + One(!Known(w.deals, w.memory))
  {
    if w.memory.draft.None? {
      ExchangePosts(w, payload, size);
      if w.memory.key.None? {
        assert Prepare(w, size).memory.key == Some(w.nextKey);
        assert Lookup(w.deals, w.nextKey, |w.deals|) < 0;
      }
    } else {
      ExchangePatches(w, payload, size);
    }
  }

  /** After a reload a processed submit creates a deal if and only if the record cannot be resumed: it is missing, was
      saved without the seller's id, is over a day old, or is a stale one from before the key was drawn. */
  lemma ReloadCreatesUnless(w: World, payload: Payload, size: nat)
    requires KeysDrawn(w)
    ensures |Exchange(Apply(w, Reload(true)), payload, size).deals| == |w.deals| + One(!Resumable(w))
  {
    CreatesUnlessKnown(Apply(w, Reload(true)), payload, size);
  }

  /** After a sign-in on the page the record decides if it can be restored, and otherwise what the page remembers. */
  lemma SignInCreatesUnless(w: World, payload: Payload, size: nat)
    requires KeysDrawn(w)
    ensures
      var known := if Restores(w) then Known(w.deals, w.record.value.memory) else Known(w.deals, w.memory);
      |Exchange(Apply(w, SignIn), payload, size).deals| == |w.deals| + One(!known)
  {
    CreatesUnlessKnown(Apply(w, SignIn), payload, size);
  }

  /** The first submit of a creation, processed, with its reply lost. */
  lemma FirstProcessed(w: World, payload: Payload, size: nat)
    requires Start(w)
    ensures
      var after := Apply(Apply(w, Submit(payload, size)), Serve(0));
      && |after.deals| == |w.deals| + 1 && KeysDrawn(after) && after.now == w.now && after.signedIn == w.signedIn
      && after.record == (if Fits(size) then Some(Record(w.now, w.signedIn, Memory(None, Some(w.nextKey)))) else None)
  {
    assert Lookup(w.deals, w.nextKey, |w.deals|) < 0;
  }

  /** A lost reply, then one edit while signed out, then a reload: two deals for one creation. */
  lemma SignedOutEditCreatesTwo(w: World, payload: Payload, size: nat)
    requires Start(w) && w.signedIn && Fits(size)
    ensures
      var lost := Apply(Apply(w, Submit(payload, size)), Serve(0));
      var edited := Apply(Apply(lost, SessionEnds), Edit(size));
      |Exchange(Apply(edited, Reload(true)), payload, size).deals| == |w.deals| + 2
  {
    FirstProcessed(w, payload, size);
    ReloadCreatesUnless(Apply(Apply(Apply(Apply(w, Submit(payload, size)), Serve(0)), SessionEnds), Edit(size)), payload, size);
  }

  /** A lost reply and a reload, with a form whose record is over its limit: two deals for one creation. */
  lemma LargeFormCreatesTwo(w: World, payload: Payload, size: nat)
    requires Start(w) && w.signedIn && !Fits(size)
    ensures
      var lost := Apply(Apply(w, Submit(payload, size)), Serve(0));
      |Exchange(Apply(lost, Reload(true)), payload, size).deals| == |w.deals| + 2
  {
    FirstProcessed(w, payload, size);
    ReloadCreatesUnless(Apply(Apply(w, Submit(payload, size)), Serve(0)), payload, size);
  }

  // ---------------------------------------------------------------- what a reload forgets, what a sign-in makes one's own

  /** After a reload the page waits for nothing that was sent before: no such answer changes anything. */
  lemma ReloadForgets(w: World, signedIn: bool, i: nat, size: nat)
    requires i < |w.sent|
    ensures Apply(Apply(w, Reload(signedIn)), Deliver(i, size)) == Apply(w, Reload(signedIn))
  {
  }

  /** A record that fits and is written after a sign-in is the seller's own, and holds what the page remembers. */
  lemma SignInOwns(w: World, size: nat)
    requires Fits(size)
    ensures
      var after := Apply(Apply(w, SignIn), Edit(size));
      after.record == Some(Record(w.now, true, after.memory))
  {
  }

  // ---------------------------------------------------------------- the client as it is written

  class SellerCreate {
    var memory: Memory
    var signedIn: bool
    var record: Option<Record>
    var nextKey: Key
    var now: Time
    var deals: seq<Deal>
    var touched: set<DealId>
    var sent: seq<Sent>

    function State(): World
      reads this
    {
      World(memory, signedIn, record, deals, touched, nextKey, now, sent)
    }

    method PersistResume(size: nat)
      modifies this`record
      ensures State() == old(Persist(State(), size))
    {
      if size <= RECORD_LIMIT { record := Some(Record(now, signedIn, memory)); }
    }

    method HydrateResume()
      requires signedIn
      modifies this`record, this`memory
      ensures State() == old(Hydrate(State()))
    {
      if record.None? { return; }
      if now - record.value.savedAt > DAY || !record.value.owned {
        record := None;
        return;
      }
      memory := record.value.memory;
    }

    /** Up to the request: the key is drawn and recorded first. */
    method CreateDeal(payload: Payload, size: nat)
      modifies this
      ensures State() == old(Apply(State(), Submit(payload, size)))
    {
      if memory.draft.Some? {
        sent := sent + [Sent(Patch(memory.draft.value), None, true)];
        return;
      }
      if memory.key.None? {
        memory, nextKey := memory.(key := Some(nextKey)), nextKey + 1;
      }
      PersistResume(size);
      sent := sent + [Sent(Post(memory.key.value, payload), None, true)];
    }

    /** The server: a new key creates, a known key replays the same payload and refuses another. */
    method ServeRequest(i: nat)
      requires i < |sent| && sent[i].answer.None?
      modifies this
      ensures State() == old(Apply(State(), Serve(i)))
    {
      var r := sent[i].request;
      var answer := AnswerTo(deals, r);
      match answer {
        case Created(d) => deals, touched := deals + [Deal(r.key, r.payload)], touched + {d};
        case Replayed(d) => touched := touched + {d};
        case Patched => touched := touched + {r.deal};
        case Mismatch =>
        case Unauthorized =>
      }
      sent := sent[i := sent[i].(answer := Some(answer))];
    }

    /** From the answer on. */
    method FinishCreateDeal(i: nat, size: nat)
      requires i < |sent| && sent[i].answer.Some? && sent[i].awaited
      modifies this
      ensures State() == old(Apply(State(), Deliver(i, size)))
    {
      var answer := sent[i].answer.value;
      if answer.Created? || answer.Replayed? { memory := memory.(draft := Some(answer.deal)); }
      if !answer.Mismatch? { PersistResume(size); }
      if answer.Unauthorized? { signedIn := false; }
      sent := sent[i := sent[i].(awaited := false)];
    }
  }
}
