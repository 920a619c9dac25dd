/** A buyer's flow in two tiers: everything in the session, an allow-listed projection in durable storage. */
module FlowStore {
  import opened Text

  type DealId = string
  type Time = int

  /** A value that survives JSON. An undefined value is None where one can be given. */
  datatype Value = Null | Bool(b: bool) | Num(n: real) | Str(s: string) | Nested(json: string)

  datatype Field =
    | DealTitle | Qty | DeliveryOptionId | DeliveryMethodType | DeliveryMethodLabel | DeliveryCost
    | AffiliateRef | TrafficSource | MallSessionId | EstimatedTotal | StartedAt
    | DealIdField | SafeVersion | Other(name: string)

  const ALLOWED: seq<Field> :=
    [DealTitle, Qty, DeliveryOptionId, DeliveryMethodType, DeliveryMethodLabel, DeliveryCost,
     AffiliateRef, TrafficSource, MallSessionId, EstimatedTotal, StartedAt]

  predicate Allowed(f: Field) {
    match f
    case DealIdField => false
    case SafeVersion => false
    case Other(_) => false
    case _ => true
  }

  const HOUR := 60 * 60 * 1000
  const SESSION_LIFE := 6 * HOUR
  const DURABLE_LIFE := 24 * HOUR
  const FLOW_VERSION := 2

  type Fields = map<Field, Value>

  /** `_v` and `updatedAt` stand apart; either may be missing from a flow. */
  datatype Flow = Flow(fields: Fields, version: Option<int>, updatedAt: Option<Time>)
  datatype Resume = Resume(fields: Fields, updatedAt: Time)

  datatype Store = Store(session: map<DealId, Flow>, durable: map<DealId, Resume>, now: Time)

  // ---------------------------------------------------------------- operations

  /** Spread, then JSON: given values win, undefined ones are dropped. */
  function Merge(before: Fields, next: map<Field, Option<Value>>): Fields {
    map f | f in before.Keys + next.Keys
        && (f in next ==> next[f].Some?) :: if f in next then next[f].value else before[f]
  }

  function Project(fields: Fields): Fields {
    map f | f in fields && Allowed(f) :: fields[f]
  }

  function WriteBoth(s: Store, deal: DealId, flow: Flow): Store {
    s.(session := s.session[deal := flow], durable := s.durable[deal := Resume(Project(flow.fields), s.now)])
  }

  function Save(s: Store, deal: DealId, next: map<Field, Option<Value>>): Store {
    var before := if deal in s.session then s.session[deal].fields else map[];
    WriteBoth(s, deal, Flow(Merge(before, next), Some(FLOW_VERSION), Some(s.now)))
  }

  /** `version` is whether `_v` is among the cleared keys. */
  function ClearFields(s: Store, deal: DealId, keys: set<Field>, version: bool): Store {
    if deal !in s.session then s
    else
      var flow := s.session[deal];
      WriteBoth(s, deal, Flow(flow.fields - keys, if version then None else flow.version, Some(s.now)))
  }

  function RemoveFlow(s: Store, deal: DealId): Store {
    s.(session := s.session - {deal}, durable := s.durable - {deal})
  }

  /** readSafeResume: the durable copy, stamped now, or nothing when it is missing or too old. */
  function Restored(s: Store, deal: DealId): Option<Flow> {
    if deal !in s.durable || s.now - s.durable[deal].updatedAt > DURABLE_LIFE then None
    else Some(Flow(s.durable[deal].fields[DealIdField := Str(deal)][SafeVersion := Num(1.0)], Some(FLOW_VERSION), Some(s.now)))
  }

  datatype Got = Got(s: Store, flow: Option<Flow>)

  predicate Stale(s: Store, flow: Flow) {
    || (flow.version.Some? && flow.version.value != FLOW_VERSION)
    || (flow.updatedAt.Some? && s.now - flow.updatedAt.value > SESSION_LIFE)
  }

  function Get(s: Store, deal: DealId): Got {
    if deal in s.session then
      if Stale(s, s.session[deal]) then Got(RemoveFlow(s, deal), None) else Got(s, Some(s.session[deal]))
    else
      match Restored(s, deal)
      case None => Got(s.(durable := s.durable - {deal}), None)
      case Some(flow) => Got(s.(session := s.session[deal := flow]), Some(flow))
  }

  datatype Op =
    | SaveOp(deal: DealId, next: map<Field, Option<Value>>)
    | ClearOp(deal: DealId, keys: set<Field>, version: bool)
    | RemoveOp(deal: DealId)
    | GetOp(deal: DealId)
    | LoseSession
    | Elapse(ms: nat)

  function Apply(s: Store, op: Op): Store {
    match op
    case SaveOp(deal, next) => Save(s, deal, next)
    case ClearOp(deal, keys, version) => ClearFields(s, deal, keys, version)
    case RemoveOp(deal) => RemoveFlow(s, deal)
    case GetOp(deal) => Get(s, deal).s
    case LoseSession => s.(session := map[])
    case Elapse(ms) => s.(now := s.now + ms)
  }

  function Run(s: Store, ops: seq<Op>): Store {
    if ops == [] then s else Apply(Run(s, ops[..|ops| - 1]), ops[|ops| - 1])
  }

  // ---------------------------------------------------------------- the two tiers agree

  predicate OnlyAllowed(fields: Fields) {
    forall f :: f in fields ==> Allowed(f)
  }

  /** The durable copy agrees with the flow on exactly the allow-listed keys. */
  predicate Mirrors(flow: Flow, resume: Resume) {
    resume.fields == Project(flow.fields)
  }

  /** A restored flow is stamped later than what it was restored from, by at most the durable life. */
  predicate Stamped(s: Store, flow: Flow, resume: Resume) {
    flow.updatedAt.Some? && resume.updatedAt <= flow.updatedAt.value <= resume.updatedAt + DURABLE_LIFE
        && flow.updatedAt.value <= s.now
  }

  predicate Agree(s: Store) {
    && (forall deal :: deal in s.session ==>
          deal in s.durable && Mirrors(s.session[deal], s.durable[deal]) && Stamped(s, s.session[deal], s.durable[deal])
          && s.session[deal].version in {None, Some(FLOW_VERSION)})
    && (forall deal :: deal in s.durable ==> OnlyAllowed(s.durable[deal].fields) && s.durable[deal].updatedAt <= s.now)
  }

  lemma ProjectOfRestored(s: Store, deal: DealId)
    requires Agree(s) && Restored(s, deal).Some?
    ensures Mirrors(Restored(s, deal).value, s.durable[deal])
  {
  }

  lemma WriteAgrees(s: Store, deal: DealId, flow: Flow)
    requires Agree(s) && flow.updatedAt == Some(s.now) && flow.version in {None, Some(FLOW_VERSION)}
    ensures Agree(WriteBoth(s, deal, flow))
  {
  }

  lemma GetAgrees(s: Store, deal: DealId)
    requires Agree(s)
    ensures Agree(Get(s, deal).s)
  {
    if deal !in s.session && Restored(s, deal).Some? { ProjectOfRestored(s, deal); }
  }

  lemma StepAgrees(s: Store, op: Op)
    requires Agree(s)
    ensures Agree(Apply(s, op))
  {
    match op
    case SaveOp(deal, next) =>
      var before := if deal in s.session then s.session[deal].fields else map[];
      WriteAgrees(s, deal, Flow(Merge(before, next), Some(FLOW_VERSION), Some(s.now)));
    case ClearOp(deal, keys, version) =>
      if deal in s.session {
        WriteAgrees(s, deal, Flow(s.session[deal].fields - keys, if version then None else s.session[deal].version, Some(s.now)));
      }
    case GetOp(deal) => GetAgrees(s, deal);
    case RemoveOp(deal) =>
    case LoseSession =>
    case Elapse(ms) =>
  }

  predicate Blank(s: Store) { s.session == map[] && s.durable == map[] }

  /** After any steps, every session flow has a durable copy that agrees with it on exactly the allow-listed keys, and
      no durable copy holds any other key. */
  lemma {:induction false} TiersAgree(s: Store, ops: seq<Op>)
    requires Blank(s)
    ensures Agree(Run(s, ops))
  {
    if ops != [] {
      TiersAgree(s, ops[..|ops| - 1]);
      StepAgrees(Run(s, ops[..|ops| - 1]), ops[|ops| - 1]);
    }
  }

  // ---------------------------------------------------------------- what get returns

  /** On every run, once the session is lost get returns a flow exactly while the durable copy is within its day; and
      what it returns is the projection of what the session held, plus the deal id and the record version: nothing else.
      */
  lemma AfterLoss(start: Store, ops: seq<Op>, deal: DealId)
    requires Blank(start) && deal in Run(start, ops).session
    ensures deal in Run(start, ops).durable
    ensures
      var s := Run(start, ops);
      var got := Get(Apply(s, LoseSession), deal).flow;
      && (got.Some? <==> s.now - s.durable[deal].updatedAt <= 86_400_000)
      && (got.Some? ==> got.value.fields == Project(s.session[deal].fields)[DealIdField := Str(deal)][SafeVersion := Num(1.0)])
  {
    TiersAgree(start, ops);
  }

  /** While the session lives, get returns the whole flow, exactly while it is within its six hours. */
  lemma WhileKept(start: Store, ops: seq<Op>, deal: DealId)
    requires Blank(start) && deal in Run(start, ops).session
    ensures Run(start, ops).session[deal].updatedAt.Some?
    ensures
      var s := Run(start, ops);
      Get(s, deal) == if s.now - s.session[deal].updatedAt.value <= 21_600_000 then Got(s, Some(s.session[deal])) else Got(RemoveFlow(s, deal), None)
  {
    TiersAgree(start, ops);
  }

  /** No flow is returned more than thirty hours after it was last saved or cleared: a day in durable storage, and six
      hours in the session that was restored from it. */
  lemma NeverPastThirtyHours(start: Store, ops: seq<Op>, deal: DealId)
    requires Blank(start) && Get(Run(start, ops), deal).flow.Some?
    ensures deal in Run(start, ops).durable
    ensures Run(start, ops).now - Run(start, ops).durable[deal].updatedAt <= 108_000_000
  {
    TiersAgree(start, ops);
  }

  /** The bound is reached: restored at the end of its day, a flow is still returned six hours later. */
  lemma ThirtyHoursReached(s: Store, deal: DealId, next: map<Field, Option<Value>>)
    requires Blank(s)
    ensures
      var saved := Apply(s, SaveOp(deal, next));
      var restored := Apply(Apply(Apply(saved, LoseSession), Elapse(86_400_000)), GetOp(deal));
      Get(Apply(restored, Elapse(21_600_000)), deal).flow.Some?
  {
  }

  /** Keeping the session gives a flow six hours; losing it gives the projection a day. */
  lemma LossOutlivesKeeping(s: Store, deal: DealId, next: map<Field, Option<Value>>, ms: nat)
    requires Blank(s)
    ensures
      var saved := Apply(s, SaveOp(deal, next));
      && (Get(Apply(saved, Elapse(ms)), deal).flow.Some? <==> ms <= 21_600_000)
      && (Get(Apply(Apply(saved, LoseSession), Elapse(ms)), deal).flow.Some? <==> ms <= 86_400_000)
  {
  }

  // ---------------------------------------------------------------- what was taken out stays out

  /** The deal's flow holds the field in neither tier. */
  predicate Without(s: Store, deal: DealId, f: Field) {
    (deal in s.session ==> f !in s.session[deal].fields) && (deal in s.durable ==> f !in s.durable[deal].fields)
  }

  /** A field of the flow's own, and not one of the two that a restore adds. */
  predicate Own(f: Field) { f != DealIdField && f != SafeVersion }

  predicate Gives(op: Op, deal: DealId, f: Field) {
    op.SaveOp? && op.deal == deal && f in op.next && op.next[f].Some?
  }

  lemma StepWithout(s: Store, op: Op, deal: DealId, f: Field)
    requires Own(f) && Without(s, deal, f) && !Gives(op, deal, f)
    ensures Without(Apply(s, op), deal, f)
  {
    match op
    case GetOp(d) => if d !in s.session && Restored(s, d).Some? { assert Restored(s, d).value.fields.Keys <= s.durable[d].fields.Keys + {DealIdField, SafeVersion}; }
    case _ =>
  }

  /** Get hands out a flow that holds the field. */
  predicate Returns(s: Store, deal: DealId, f: Field) {
    Get(s, deal).flow.Some? && f in Get(s, deal).flow.value.fields
  }

  predicate NeverGives(ops: seq<Op>, deal: DealId, f: Field) {
    forall k :: 0 <= k < |ops| ==> !Gives(ops[k], deal, f)
  }

  /** The field is in neither tier, or only in a durable copy too old to be restored. */
  predicate OutOfReach(s: Store, deal: DealId, f: Field) {
    Without(s, deal, f) || (deal !in s.session && Restored(s, deal).None?)
  }

  lemma StepOutOfReach(s: Store, op: Op, deal: DealId, f: Field)
    requires Own(f) && OutOfReach(s, deal, f) && !Gives(op, deal, f)
    ensures OutOfReach(Apply(s, op), deal, f)
  {
    if Without(s, deal, f) { StepWithout(s, op, deal, f); }
  }

  lemma {:induction false} StaysOutOfReach(s: Store, ops: seq<Op>, deal: DealId, f: Field)
    requires Own(f) && OutOfReach(s, deal, f) && NeverGives(ops, deal, f)
    ensures OutOfReach(Run(s, ops), deal, f)
  {
    if ops != [] {
      StaysOutOfReach(s, ops[..|ops| - 1], deal, f);
      StepOutOfReach(Run(s, ops[..|ops| - 1]), ops[|ops| - 1], deal, f);
    }
  }

  lemma OutOfReachNotReturned(s: Store, deal: DealId, f: Field)
    requires Own(f) && OutOfReach(s, deal, f)
    ensures !Returns(s, deal, f)
  {
  }

  /** A clear does not reach a durable copy whose session is gone. */
  predicate Unreached(s: Store, deal: DealId, f: Field) {
    deal !in s.session && Restored(s, deal).Some? && f in s.durable[deal].fields
  }

  /** A field that went with a removed flow, or was reached by a clear, is never returned again, with or without its
      session, until a save gives it. */
  lemma TakenOutStaysOut(s: Store, op: Op, more: seq<Op>, deal: DealId, f: Field)
    requires Own(f) && NeverGives(more, deal, f)
    requires op == RemoveOp(deal) || (op.ClearOp? && op.deal == deal && f in op.keys && !Unreached(s, deal, f))
    ensures !Returns(Run(Apply(s, op), more), deal, f)
  {
    assert OutOfReach(Apply(s, op), deal, f);
    StaysOutOfReach(Apply(s, op), more, deal, f);
    OutOfReachNotReturned(Run(Apply(s, op), more), deal, f);
  }

  /** Right after a clear, get returns the cleared field if and only if the clear did not reach it. */
  lemma ClearedReturnsIff(s: Store, deal: DealId, keys: set<Field>, version: bool, f: Field)
    requires Own(f) && f in keys
    ensures Returns(Apply(s, ClearOp(deal, keys, version)), deal, f) <==> Unreached(s, deal, f)
  {
  }

  /** A cleared field is never returned again, whatever steps follow that do not give it, if and only if the clear
      reached it. */
  lemma ClearedStaysOutIff(s: Store, deal: DealId, keys: set<Field>, version: bool, f: Field)
    requires Own(f) && f in keys
    ensures
      (forall more :: NeverGives(more, deal, f) ==> !Returns(Run(Apply(s, ClearOp(deal, keys, version)), more), deal, f))
      <==> !Unreached(s, deal, f)
  {
    var cleared := Apply(s, ClearOp(deal, keys, version));
    if Unreached(s, deal, f) {
      ClearedReturnsIff(s, deal, keys, version, f);
      assert Run(cleared, []) == cleared && NeverGives([], deal, f);
    } else {
      forall more | NeverGives(more, deal, f) ensures !Returns(Run(cleared, more), deal, f) {
        TakenOutStaysOut(s, ClearOp(deal, keys, version), more, deal, f);
      }
    }
  }

  /** The other side happens: cleared after the session was lost, an allow-listed field comes back. */
  lemma ClearAfterLossMisses(s: Store, deal: DealId, v: Value)
    requires Blank(s)
    ensures
      var saved := Apply(s, SaveOp(deal, map[Qty := Some(v)]));
      Returns(Apply(Apply(saved, LoseSession), ClearOp(deal, {Qty}, false)), deal, Qty)
  {
  }

  // ---------------------------------------------------------------- what a save gives

  /** Whatever was stored before: right after a save get returns a flow in which every field that was given has the given
      value, every field that was given as undefined is missing, and every other one is as the session had it. */
  lemma SavedFlow(s: Store, deal: DealId, next: map<Field, Option<Value>>)
    ensures
      var got := Get(Apply(s, SaveOp(deal, next)), deal).flow;
      && got.Some? && got.value.updatedAt == Some(s.now) && got.value.version == Some(2)
      && (forall f, v :: f in next && next[f] == Some(v) ==> f in got.value.fields && got.value.fields[f] == v)
      && (forall f :: f in next && next[f] == None ==> f !in got.value.fields)
      && (forall f :: f !in next && f in got.value.fields ==>
            deal in s.session && f in s.session[deal].fields && got.value.fields[f] == s.session[deal].fields[f])
      && (forall f :: f !in next && deal in s.session && f in s.session[deal].fields ==> f in got.value.fields)
  {
  }

  predicate AboutDeal(op: Op, deal: DealId) {
    match op
    case SaveOp(d, _) => d == deal
    case ClearOp(d, _, _) => d == deal
    case RemoveOp(d) => d == deal
    case GetOp(d) => d == deal
    case _ => true
  }

  /** Nothing that is done for one deal touches another. */
  lemma OtherDealsUntouched(s: Store, op: Op, deal: DealId)
    requires !AboutDeal(op, deal)
    ensures
      var after := Apply(s, op);
      && (deal in after.session <==> deal in s.session) && (deal in s.session ==> after.session[deal] == s.session[deal])
      && (deal in after.durable <==> deal in s.durable) && (deal in s.durable ==> after.durable[deal] == s.durable[deal])
      && Get(after, deal).flow == Get(s, deal).flow
  {
  }

  /** The value of the last save that gave the field. */
  function LastGiven(ops: seq<Op>, deal: DealId, f: Field): Option<Value> {
    if ops == [] then None
    else
      var last := ops[|ops| - 1];
      if Gives(last, deal, f) then last.next[f] else LastGiven(ops[..|ops| - 1], deal, f)
  }

  /** Either tier holds the field, if at all, with this value. */
  predicate HoldsOnly(s: Store, deal: DealId, f: Field, v: Option<Value>) {
    && (deal in s.session && f in s.session[deal].fields ==> Some(s.session[deal].fields[f]) == v)
    && (deal in s.durable && f in s.durable[deal].fields ==> Some(s.durable[deal].fields[f]) == v)
  }

  lemma StepHoldsOnly(s: Store, op: Op, deal: DealId, f: Field, v: Option<Value>)
    requires Own(f) && HoldsOnly(s, deal, f, v)
    ensures HoldsOnly(Apply(s, op), deal, f, if Gives(op, deal, f) then op.next[f] else v)
  {
  }

  lemma {:induction false} RunHoldsOnly(start: Store, ops: seq<Op>, deal: DealId, f: Field)
    requires Blank(start) && Own(f)
    ensures HoldsOnly(Run(start, ops), deal, f, LastGiven(ops, deal, f))
  {
    if ops != [] {
      var front := ops[..|ops| - 1];
      RunHoldsOnly(start, front, deal, f);
      StepHoldsOnly(Run(start, front), ops[|ops| - 1], deal, f, LastGiven(front, deal, f));
    }
  }

  /** On every run, with or without its session: a field that get returns has the value of the last save that gave it. */
  lemma ReturnsLastGiven(start: Store, ops: seq<Op>, deal: DealId, f: Field)
    requires Blank(start) && Own(f) && Returns(Run(start, ops), deal, f)
    ensures Some(Get(Run(start, ops), deal).flow.value.fields[f]) == LastGiven(ops, deal, f)
  {
    RunHoldsOnly(start, ops, deal, f);
  }

  /** The steps after which a field that was there is out of reach: its removal, a clear or an undefined value, a save
      that no longer sees the session, a get that finds the flow too old, and the loss of the session unless it is on the
      list. */
  predicate Takes(s: Store, op: Op, deal: DealId, f: Field) {
    match op
    case SaveOp(d, next) => d == deal && (if f in next then next[f] == None else deal !in s.session)
    case ClearOp(d, keys, _) => d == deal && f in keys && deal in s.session
    case RemoveOp(d) => d == deal
    case GetOp(d) => d == deal && Get(s, deal).flow.None?
    case LoseSession => !Allowed(f)
    case Elapse(_) => false
  }

  predicate NeverTakes(s: Store, ops: seq<Op>, deal: DealId, f: Field) {
    ops != [] ==>
      NeverTakes(s, ops[..|ops| - 1], deal, f) && !Takes(Run(s, ops[..|ops| - 1]), ops[|ops| - 1], deal, f)
  }

  /** The field is there with this value: in the session if it lives, and in durable storage if it is on the list. */
  predicate Keeps(s: Store, deal: DealId, f: Field, v: Value) {
    && (deal in s.session || Allowed(f))
    && (deal in s.session ==> f in s.session[deal].fields && s.session[deal].fields[f] == v)
    && (Allowed(f) ==> deal in s.durable && f in s.durable[deal].fields && s.durable[deal].fields[f] == v)
  }

  lemma StepKeeps(s: Store, op: Op, deal: DealId, f: Field, v: Value)
    requires Own(f) && Keeps(s, deal, f, v) && !Takes(s, op, deal, f)
    ensures Keeps(Apply(s, op), deal, f, if Gives(op, deal, f) then op.next[f].value else v)
  {
  }

  lemma {:induction false} RunKeeps(s: Store, ops: seq<Op>, deal: DealId, f: Field, v: Value)
    requires Own(f) && Keeps(s, deal, f, v) && NeverTakes(s, ops, deal, f) && NeverGives(ops, deal, f)
    ensures Keeps(Run(s, ops), deal, f, v)
  {
    if ops != [] {
      RunKeeps(s, ops[..|ops| - 1], deal, f, v);
      StepKeeps(Run(s, ops[..|ops| - 1]), ops[|ops| - 1], deal, f, v);
    }
  }

  /** From any state: what a save gave, and no later step took or gave again, is in every flow that get returns, with that
      value; allow-listed fields through any losses of the session. */
  lemma GivenIsKept(s: Store, op: Op, more: seq<Op>, deal: DealId, f: Field)
    requires Own(f) && Gives(op, deal, f) && NeverGives(more, deal, f) && NeverTakes(Apply(s, op), more, deal, f)
    ensures
      var got := Get(Run(Apply(s, op), more), deal).flow;
      got.Some? ==> f in got.value.fields && Some(got.value.fields[f]) == op.next[f]
  {
    assert Keeps(Apply(s, op), deal, f, op.next[f].value);
    RunKeeps(Apply(s, op), more, deal, f, op.next[f].value);
  }

  // ---------------------------------------------------------------- the storage as it is written

  function KeySet(keys: seq<Field>): set<Field> {
    if keys == [] then {} else KeySet(keys[..|keys| - 1]) + {keys[|keys| - 1]}
  }

  class BrowserStorage {
    var session: map<DealId, Flow>
    var durable: map<DealId, Resume>
    var now: Time

    function State(): Store
      reads this
    {
      Store(session, durable, now)
    }

    constructor (now: Time)
      ensures Blank(State()) && this.now == now
    {
      session, durable, this.now := map[], map[], now;
    }

    /** The loop over the allow list. */
    method SafeResumeProjection(fields: Fields) returns (projected: Fields)
      ensures projected == Project(fields)
    {
      projected := map[];
      var k := 0;
      while k < |ALLOWED|
        invariant 0 <= k <= |ALLOWED|
        invariant forall f :: f in projected <==> f in fields && f in ALLOWED[..k]
        invariant forall f :: f in projected ==> projected[f] == fields[f]
      {
        if ALLOWED[k] in fields { projected := projected[ALLOWED[k] := fields[ALLOWED[k]]]; }
        k := k + 1;
      }
      assert ALLOWED[..|ALLOWED|] == ALLOWED;
      AllowList();
    }

    method WriteSafeResume(deal: DealId, flow: Flow)
      modifies this`durable
      ensures durable == old(durable)[deal := Resume(Project(flow.fields), now)]
    {
      var projected := SafeResumeProjection(flow.fields);
      durable := durable[deal := Resume(projected, now)];
    }

    method SaveFlow(deal: DealId, next: map<Field, Option<Value>>)
      modifies this
      ensures State() == old(Apply(State(), SaveOp(deal, next)))
    {
      var before := if deal in session then session[deal].fields else map[];
      var flow := Flow(Merge(before, next), Some(FLOW_VERSION), Some(now));
      session := session[deal := flow];
      WriteSafeResume(deal, flow);
    }

    method ClearFlowFields(deal: DealId, keys: seq<Field>, version: bool)
      modifies this
      ensures State() == old(Apply(State(), ClearOp(deal, KeySet(keys), version)))
    {
      if deal !in session { return; }
      var fields := session[deal].fields;
      var k := 0;
      while k < |keys|
        invariant 0 <= k <= |keys|
        invariant fields == session[deal].fields - KeySet(keys[..k])
      {
        fields := fields - {keys[k]};
        assert keys[..k + 1][..k] == keys[..k];
        k := k + 1;
      }
      assert keys[..|keys|] == keys;
      var flow := Flow(fields, if version then None else session[deal].version, Some(now));
      session := session[deal := flow];
      WriteSafeResume(deal, flow);
    }

    method RemoveFlow(deal: DealId)
      modifies this
      ensures State() == old(Apply(State(), RemoveOp(deal)))
    {
      session := session - {deal};
      durable := durable - {deal};
    }

    method ReadSafeResume(deal: DealId) returns (flow: Option<Flow>)
      modifies this`durable
      ensures flow == old(Restored(State(), deal))
      ensures durable == if flow.None? then old(durable) - {deal} else old(durable)
    {
      if deal !in durable {
        assert durable - {deal} == durable;
        return None;
      }
      var resume := durable[deal];
      if now - resume.updatedAt > DURABLE_LIFE {
        durable := durable - {deal};
        return None;
      }
      return Some(Flow(resume.fields[DealIdField := Str(deal)][SafeVersion := Num(1.0)], Some(FLOW_VERSION), Some(now)));
    }

    method GetFlow(deal: DealId) returns (flow: Option<Flow>)
      modifies this
      ensures Got(State(), flow) == old(Get(State(), deal))
    {
      if deal !in session {
        var restored := ReadSafeResume(deal);
        if restored.None? { return None; }
        session := session[deal := restored.value];
      }
      var found := session[deal];
      if found.version.Some? && found.version.value != FLOW_VERSION {
        RemoveFlow(deal);
        return None;
      }
      if found.updatedAt.Some? && now - found.updatedAt.value > SESSION_LIFE {
        RemoveFlow(deal);
        return None;
      }
      return Some(found);
    }
  }

  /** The list in the code is the set of allowed fields. */
  lemma AllowList()
    ensures forall f :: f in ALLOWED <==> Allowed(f)
  {
    forall f ensures f in ALLOWED <==> Allowed(f) {
      match f
      case DealTitle => assert ALLOWED[0] == f;
      case Qty => assert ALLOWED[1] == f;
      case DeliveryOptionId => assert ALLOWED[2] == f;
      case DeliveryMethodType => assert ALLOWED[3] == f;
      case DeliveryMethodLabel => assert ALLOWED[4] == f;
      case DeliveryCost => assert ALLOWED[5] == f;
      case AffiliateRef => assert ALLOWED[6] == f;
      case TrafficSource => assert ALLOWED[7] == f;
      case MallSessionId => assert ALLOWED[8] == f;
      case EstimatedTotal => assert ALLOWED[9] == f;
      case StartedAt => assert ALLOWED[10] == f;
      case _ =>
    }
  }
}
