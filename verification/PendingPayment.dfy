/** The record of a hosted payment that outlives the process: what it keeps, what it restores, and how large it gets. */
module PendingPayment {
  import opened Text
  import opened JsonText

  type Time = int

  const MALL: Words := [109, 97, 108, 108]
  const SIX_HOURS := 6 * 60 * 60 * 1000

  datatype Details = Details(buyerName: Words, deliveryAddress: Words, deliveryCity: Words, deliveryNote: Words)
  const NO_DETAILS := Details([], [], [], [])

  /** The parts of a flow that the payment needs; [] is a text that is missing or empty. */
  datatype Flow = Flow(
    dealTitle: Words, buyerId: Words, phone: Words, qty: Option<real>,
    deliveryOptionId: Words, deliveryMethodType: Words, deliveryMethodLabel: Words, deliveryCost: real,
    affiliateRef: Words, trafficSource: Words, mallSessionId: Words, estimatedTotal: real,
    otpToken: Words, otpChallengeId: Words, otpVerified: bool,
    authorizationId: Words, authorizationProvider: Words, correlationId: Option<Words>, startedAt: Words,
    details: Option<Details>)

  /** The stored record. */
  datatype Record = Record(expiresAt: Time, dealId: Words, flow: Flow)

  // ---------------------------------------------------------------- projection and restore

  function Cap(s: Words, max: nat): (r: Words)
    ensures |r| <= max
    ensures r == s <==> |s| <= max
    ensures max > 0 ==> (r == [] <==> s == [])
  {
    if |s| <= max then s else s[..max]
  }

  function CapDetails(details: Option<Details>): Details {
    var d := if details.Some? then details.value else NO_DETAILS;
    Details(Cap(d.buyerName, 160), Cap(d.deliveryAddress, 320), Cap(d.deliveryCity, 120), Cap(d.deliveryNote, 200))
  }

  function OrEmpty(s: Option<Words>): Words { if s.Some? then s.value else [] }

  function Project(f: Flow): Flow {
    Flow(Cap(f.dealTitle, 240), Cap(f.buyerId, 160), Cap(f.phone, 40),
         Some(if f.qty.Some? && f.qty.value > 0.0 then f.qty.value else 1.0),
         Cap(f.deliveryOptionId, 160), Cap(f.deliveryMethodType, 40), Cap(f.deliveryMethodLabel, 160), f.deliveryCost,
         Cap(f.affiliateRef, 240), if f.trafficSource == MALL then MALL else [], Cap(f.mallSessionId, 64), f.estimatedTotal,
         Cap(f.otpToken, 2048), Cap(f.otpChallengeId, 240), f.otpVerified,
         Cap(f.authorizationId, 512), Cap(f.authorizationProvider, 80), Some(Cap(OrEmpty(f.correlationId), 512)),
         Cap(f.startedAt, 64),
         Some(CapDetails(f.details)))
  }

  /** persistNativePendingPayment: nothing is stored, and the payment stops, when an id it depends on is missing. */
  function Persist(dealId: Words, f: Flow, now: Time): Option<Record> {
    var projected := Project(f);
    if dealId == [] || projected.buyerId == [] || projected.otpToken == [] || projected.authorizationId == [] then None
    else Some(Record(now + SIX_HOURS, Cap(dealId, 160), projected))
  }

  predicate Usable(r: Record, now: Time) {
    && r.expiresAt > now && r.dealId != [] && |r.dealId| <= 160
    && r.flow.buyerId != [] && r.flow.otpToken != [] && r.flow.authorizationId != []
  }

  datatype Restored = Restored(dealId: Words, flow: Flow)

  /** restoreNativePendingPayment into an empty session, as after the process died. `clock` is the restart's own time.
      */
  function Restore(r: Record, now: Time, clock: Words): Option<Restored> {
    if !Usable(r, now) then None
    else Some(Restored(r.dealId, r.flow.(startedAt := if r.flow.startedAt != [] then r.flow.startedAt else clock)))
  }

  // ---------------------------------------------------------------- the requests

  datatype StatusQuery = StatusQuery(reference: Words, correlationId: Option<Words>)

  datatype StatusReply = StatusReply(authorized: bool, authorizationId: Words, provider: Words, correlationId: Words)

  datatype Key = Key(dealId: Words, buyerId: Words, qty: Option<real>, option: Option<Words>)

  /** The body, with absent members as None, and the idempotency key from its parts. */
  datatype JoinRequest = JoinRequest(
    dealId: Words, key: Key, buyerId: Words, qty: Option<real>, affiliateRef: Option<Words>, deliveryOptionId: Option<Words>,
    buyerName: Option<Words>, deliveryAddress: Option<Words>, deliveryCity: Option<Words>, deliveryNotes: Option<Words>,
    otpToken: Option<Words>, otpChallengeId: Option<Words>, authorizationId: Option<Words>, authorizationProvider: Option<Words>,
    authorizationCorrelationId: Option<Words>, fromMall: bool, mallSessionId: Option<Words>)

  function Given(s: Words): Option<Words> { if s == [] then None else Some(s) }

  function QueryFor(f: Flow): StatusQuery { StatusQuery(f.authorizationId, f.correlationId) }

  /** The arguments of joinDeal; [] is a text that is empty or undefined. */
  datatype JoinArgs = JoinArgs(
    buyerId: Words, qty: Option<real>, affiliateRef: Words, deliveryOptionId: Words,
    buyerName: Words, deliveryAddress: Words, deliveryCity: Words, deliveryNote: Words,
    otpToken: Words, otpChallengeId: Words,
    authorizationId: Words, authorizationProvider: Words, authorizationCorrelationId: Words,
    trafficSource: Words, mallSessionId: Words)

  function JoinDeal(dealId: Words, a: JoinArgs): JoinRequest {
    var mall := a.trafficSource == MALL;
    JoinRequest(dealId, Key(dealId, a.buyerId, a.qty, Given(a.deliveryOptionId)), a.buyerId, a.qty,
                Given(a.affiliateRef), Given(a.deliveryOptionId),
                Given(a.buyerName), Given(a.deliveryAddress), Given(a.deliveryCity), Given(a.deliveryNote),
                Given(a.otpToken), Given(a.otpChallengeId),
                Given(a.authorizationId), Given(a.authorizationProvider), Given(a.authorizationCorrelationId),
                mall, if mall then Given(a.mallSessionId) else None)
  }

  /** payAndJoin with a provider that answers at once: from the texts of the form, the flow and the authorisation. */
  function JoinNow(dealId: Words, f: Flow, typed: Details, reply: StatusReply): JoinRequest {
    JoinDeal(dealId, JoinArgs(
      f.buyerId, f.qty, f.affiliateRef, f.deliveryOptionId,
      typed.buyerName, typed.deliveryAddress, typed.deliveryCity, typed.deliveryNote,
      f.otpToken, f.otpChallengeId, reply.authorizationId, reply.provider, reply.correlationId,
      f.trafficSource, f.mallSessionId))
  }

  /** payAndJoin with a provider that defers: what is saved in the flow before the hosted payment opens. */
  function Deferred(f: Flow, typed: Details, pending: StatusReply, clock: Words): Flow {
    f.(authorizationId := pending.authorizationId, authorizationProvider := pending.provider,
       correlationId := Some(pending.correlationId), startedAt := clock, details := Some(typed))
  }

  /** completePendingHostedPayment, once the provider has authorised. */
  function JoinFor(dealId: Words, f: Flow, reply: StatusReply): JoinRequest {
    var d := if f.details.Some? then f.details.value else NO_DETAILS;
    JoinDeal(dealId, JoinArgs(
      f.buyerId, f.qty, f.affiliateRef, f.deliveryOptionId,
      d.buyerName, d.deliveryAddress, d.deliveryCity, d.deliveryNote,
      f.otpToken, f.otpChallengeId, reply.authorizationId, reply.provider, reply.correlationId,
      f.trafficSource, f.mallSessionId))
  }

  // ---------------------------------------------------------------- what the requests say

  /** A member of the body is there exactly when the text it is about is not empty, and then it is that text. */
  ghost predicate Says(member: Option<Words>, text: Words) {
    forall x :: member == Some(x) <==> x == text && x != []
  }

  /** Member by member, the request after a hosted payment is about the flow and the provider's answer. */
  lemma JoinMembers(dealId: Words, f: Flow, d: Details, reply: StatusReply)
    requires f.details == Some(d)
    ensures
      var r := JoinFor(dealId, f, reply);
      && r.dealId == dealId && r.buyerId == f.buyerId && r.qty == f.qty
      && Says(r.affiliateRef, f.affiliateRef) && Says(r.deliveryOptionId, f.deliveryOptionId)
      && Says(r.buyerName, d.buyerName) && Says(r.deliveryAddress, d.deliveryAddress)
      && Says(r.deliveryCity, d.deliveryCity) && Says(r.deliveryNotes, d.deliveryNote)
      && Says(r.otpToken, f.otpToken) && Says(r.otpChallengeId, f.otpChallengeId)
      && Says(r.authorizationId, reply.authorizationId) && Says(r.authorizationProvider, reply.provider)
      && Says(r.authorizationCorrelationId, reply.correlationId)
      && (r.fromMall <==> f.trafficSource == [109, 97, 108, 108])
      && Says(r.mallSessionId, if r.fromMall then f.mallSessionId else [])
  {
  }

  /** So is its idempotency key, part by part. */
  lemma JoinKey(dealId: Words, f: Flow, reply: StatusReply)
    ensures
      var key := JoinFor(dealId, f, reply).key;
      key.dealId == dealId && key.buyerId == f.buyerId && key.qty == f.qty && Says(key.option, f.deliveryOptionId)
  {
  }

  /** Without stored details the four texts of the form are missing, and the rest is as with empty ones. */
  lemma JoinWithoutDetails(dealId: Words, f: Flow, reply: StatusReply)
    requires f.details == None
    ensures
      var r := JoinFor(dealId, f, reply);
      && r.buyerName == r.deliveryAddress == r.deliveryCity == r.deliveryNotes == None
      && r == JoinFor(dealId, f.(details := Some(Details([], [], [], []))), reply)
  {
  }

  /** What is saved before a hosted payment: the authorisation, the time and the form's texts; all else stays. */
  lemma DeferredMembers(f: Flow, typed: Details, pending: StatusReply, clock: Words)
    ensures
      var saved := Deferred(f, typed, pending, clock);
      && saved.authorizationId == pending.authorizationId && saved.authorizationProvider == pending.provider
      && saved.correlationId == Some(pending.correlationId) && saved.startedAt == clock && saved.details == Some(typed)
      && saved.(authorizationId := f.authorizationId, authorizationProvider := f.authorizationProvider,
                correlationId := f.correlationId, startedAt := f.startedAt, details := f.details) == f
  {
  }

  /** The status query asks about the authorisation that was begun. */
  lemma QueryMembers(f: Flow, typed: Details, pending: StatusReply, clock: Words)
    ensures
      var q := QueryFor(Deferred(f, typed, pending, clock));
      q.reference == pending.authorizationId && q.correlationId == Some(pending.correlationId)
  {
  }

  /** A provider that defers changes nothing in what is sent: the request after the hosted payment is the one that an
      immediate authorisation with the same answer would have sent. */
  lemma DeferredJoinIsTheSame(dealId: Words, f: Flow, typed: Details, pending: StatusReply, clock: Words, reply: StatusReply)
    ensures JoinFor(dealId, Deferred(f, typed, pending, clock), reply) == JoinNow(dealId, f, typed, reply)
  {
  }

  // ---------------------------------------------------------------- restored equals uninterrupted

  predicate DetailsWithinCaps(f: Flow) {
    f.details.Some? ==>
      && |f.details.value.buyerName| <= 160 && |f.details.value.deliveryAddress| <= 320
      && |f.details.value.deliveryCity| <= 120 && |f.details.value.deliveryNote| <= 200
  }

  /** The fields the two requests are made of are within their caps, the quantity is positive and a correlation id is
      there. */
  predicate WithinCaps(dealId: Words, f: Flow) {
    && |dealId| <= 160 && |f.buyerId| <= 160 && f.qty.Some? && f.qty.value > 0.0
    && |f.deliveryOptionId| <= 160 && |f.affiliateRef| <= 240
    && (f.trafficSource == MALL ==> |f.mallSessionId| <= 64)
    && |f.otpToken| <= 2048 && |f.otpChallengeId| <= 240 && |f.authorizationId| <= 512
    && f.correlationId.Some? && |f.correlationId.value| <= 512
    && DetailsWithinCaps(f)
  }

  predicate SameRequests(dealId: Words, f: Flow, r: Restored, reply: StatusReply) {
    QueryFor(r.flow) == QueryFor(f) && JoinFor(r.dealId, r.flow, reply) == JoinFor(dealId, f, reply)
  }

  lemma SameDetails(f: Flow)
    ensures
      var before := if f.details.Some? then f.details.value else NO_DETAILS;
      var after := CapDetails(f.details);
      (after == before <==> DetailsWithinCaps(f))
      && (Given(after.buyerName) == Given(before.buyerName) && Given(after.deliveryAddress) == Given(before.deliveryAddress)
          && Given(after.deliveryCity) == Given(before.deliveryCity)
              && Given(after.deliveryNote) == Given(before.deliveryNote)
          <==> DetailsWithinCaps(f))
  {
  }

  lemma SameQuery(f: Flow)
    ensures QueryFor(Project(f)) == QueryFor(f)
      <==> |f.authorizationId| <= 512 && f.correlationId.Some? && |f.correlationId.value| <= 512
  {
  }

  /** The record restores exactly within its six hours. Then the status query and, for whatever the provider answers,
      the join request (body and idempotency key) equal those of the uninterrupted run if and only if the fields they
      use are within their caps. */
  lemma RestoredRunIsTheSameIff(dealId: Words, f: Flow, saved: Time, now: Time, clock: Words, reply: StatusReply)
    requires Persist(dealId, f, saved).Some?
    ensures
      var restored := Restore(Persist(dealId, f, saved).value, now, clock);
      && (restored.Some? <==> now < saved + 21_600_000)
      && (restored.Some? ==> (SameRequests(dealId, f, restored.value, reply) <==> WithinCaps(dealId, f)))
  {
    SameDetails(f);
    SameQuery(f);
  }

  /** And then it is the request that an immediate authorisation would have sent, although the process died meanwhile. */
  lemma RestoredJoinIsTheSame(dealId: Words, f: Flow, typed: Details, pending: StatusReply, begun: Words, saved: Time,
                              now: Time, clock: Words, reply: StatusReply)
    requires Persist(dealId, Deferred(f, typed, pending, begun), saved).Some? && now < saved + 21_600_000
    requires WithinCaps(dealId, Deferred(f, typed, pending, begun))
    ensures
      var restored := Restore(Persist(dealId, Deferred(f, typed, pending, begun), saved).value, now, clock).value;
      JoinFor(restored.dealId, restored.flow, reply) == JoinNow(dealId, f, typed, reply)
  {
    RestoredRunIsTheSameIff(dealId, Deferred(f, typed, pending, begun), saved, now, clock, reply);
    DeferredJoinIsTheSame(dealId, f, typed, pending, begun, reply);
  }

  /** A record is written exactly when the four ids the payment depends on are there. */
  lemma PersistedIff(dealId: Words, f: Flow, now: Time)
    ensures Persist(dealId, f, now).Some?
      <==> dealId != [] && f.buyerId != [] && f.otpToken != [] && f.authorizationId != []
  {
  }

  /** Whatever is found in the store, written by this client or not: it is restored exactly when it has not expired, and has
      a deal id that is not too long and the three other ids. */
  lemma RestoredWhenUsable(r: Record, now: Time, clock: Words)
    ensures Restore(r, now, clock).Some?
      <==> now < r.expiresAt && 0 < |r.dealId| < 161 && |r.flow.buyerId| > 0 && |r.flow.otpToken| > 0
           && |r.flow.authorizationId| > 0
    ensures Restore(r, now, clock).Some? ==>
      var restored := Restore(r, now, clock).value;
      && restored.dealId == r.dealId && restored.flow.(startedAt := r.flow.startedAt) == r.flow
      && restored.flow.startedAt == if r.flow.startedAt == [] then clock else r.flow.startedAt
  {
  }

  /** Every text within the length that is kept of it, the source known, and what a record always has given. */
  predicate AllWithinCaps(dealId: Words, f: Flow) {
    && |dealId| <= 160 && |f.dealTitle| <= 240 && |f.buyerId| <= 160 && |f.phone| <= 40
    && f.qty.Some? && f.qty.value > 0.0 && |f.deliveryOptionId| <= 160 && |f.deliveryMethodType| <= 40
    && |f.deliveryMethodLabel| <= 160 && |f.affiliateRef| <= 240 && f.trafficSource in {MALL, []}
    && |f.mallSessionId| <= 64 && |f.otpToken| <= 2048 && |f.otpChallengeId| <= 240
    && |f.authorizationId| <= 512 && |f.authorizationProvider| <= 80
    && f.correlationId.Some? && |f.correlationId.value| <= 512 && 0 < |f.startedAt| <= 64
    && f.details.Some? && DetailsWithinCaps(f)
  }

  /** The whole flow comes back, every field of it, if and only if all of it is within those lengths. */
  lemma RestoredFlowIsTheSameIff(dealId: Words, f: Flow, saved: Time, now: Time, clock: Words)
    requires Persist(dealId, f, saved).Some? && now < saved + 21_600_000 && f.startedAt != []
    ensures
      var restored := Restore(Persist(dealId, f, saved).value, now, clock);
      restored == Some(Restored(dealId, f)) <==> AllWithinCaps(dealId, f)
  {
    SameDetails(f);
  }

  /** A longer text is cut at its length; nothing else is put in its place. */
  lemma CutsAreBeginnings(dealId: Words, f: Flow, saved: Time)
    requires Persist(dealId, f, saved).Some?
    ensures
      var r := Persist(dealId, f, saved).value;
      && r.dealId <= dealId && r.flow.dealTitle <= f.dealTitle && r.flow.buyerId <= f.buyerId && r.flow.phone <= f.phone
      && r.flow.deliveryOptionId <= f.deliveryOptionId && r.flow.deliveryMethodType <= f.deliveryMethodType
      && r.flow.deliveryMethodLabel <= f.deliveryMethodLabel && r.flow.deliveryCost == f.deliveryCost
      && r.flow.affiliateRef <= f.affiliateRef && r.flow.mallSessionId <= f.mallSessionId
      && r.flow.estimatedTotal == f.estimatedTotal && r.flow.otpToken <= f.otpToken
      && r.flow.otpChallengeId <= f.otpChallengeId && r.flow.otpVerified == f.otpVerified
      && r.flow.authorizationId <= f.authorizationId && r.flow.authorizationProvider <= f.authorizationProvider
      && r.flow.startedAt <= f.startedAt
      && r.flow.correlationId.Some? && (f.correlationId.Some? ==> r.flow.correlationId.value <= f.correlationId.value)
      && r.flow.details.Some?
      && (f.details.Some? ==>
            && r.flow.details.value.buyerName <= f.details.value.buyerName
            && r.flow.details.value.deliveryAddress <= f.details.value.deliveryAddress
            && r.flow.details.value.deliveryCity <= f.details.value.deliveryCity
            && r.flow.details.value.deliveryNote <= f.details.value.deliveryNote)
  {
  }

  /** What a restored flow would be saved as is what it was restored from: dying again loses nothing more. */
  lemma RestoreAgainIsTheSame(dealId: Words, f: Flow, saved: Time, now: Time, clock: Words, again: Time)
    requires Persist(dealId, f, saved).Some? && now < saved + 21_600_000 && |clock| <= 64
    ensures
      var restored := Restore(Persist(dealId, f, saved).value, now, clock).value;
      Persist(restored.dealId, restored.flow, again) == Some(Record(again + 21_600_000, restored.dealId, restored.flow))
  {
    CapTwice(dealId, f);
  }

  lemma CapTwice(dealId: Words, f: Flow)
    ensures Project(Project(f)) == Project(f) && Cap(Cap(dealId, 160), 160) == Cap(dealId, 160)
  {
  }

  // ---------------------------------------------------------------- the size of the record

  /** "name":value, for a number or boolean of so many units. */
  function PlainMember(name: string, value: nat): nat { |name| + 3 + value }

  /** "name":"text" */
  function TextMember(name: string, text: Words): nat { PlainMember(name, 2 + |Escaped(text)|) }

  function DetailsLength(d: Details): nat {
    2 + 3 + TextMember("buyerName", d.buyerName) + TextMember("deliveryAddress", d.deliveryAddress)
    + TextMember("deliveryCity", d.deliveryCity) + TextMember("deliveryNote", d.deliveryNote)
  }

  /** The units JSON.stringify writes for a record: braces, commas, and the members. `qty`, `cost` and `total` are the
      lengths of the number texts; the version has one digit and the date is a quoted text of 24 units. */
  function SerializedLength(r: Record, qty: nat, cost: nat, total: nat): nat {
    var f := r.flow;
    2 + 22
    + PlainMember("_v", 1) + PlainMember("expiresAt", 26) + TextMember("dealId", r.dealId)
    + TextMember("dealTitle", f.dealTitle) + TextMember("buyerId", f.buyerId) + TextMember("phone", f.phone)
    + PlainMember("qty", qty) + TextMember("deliveryOptionId", f.deliveryOptionId)
    + TextMember("deliveryMethodType", f.deliveryMethodType) + TextMember("deliveryMethodLabel", f.deliveryMethodLabel)
    + PlainMember("deliveryCost", cost) + TextMember("affiliateRef", f.affiliateRef)
    + TextMember("trafficSource", f.trafficSource) + TextMember("mallSessionId", f.mallSessionId)
    + PlainMember("estimatedTotal", total) + TextMember("otpToken", f.otpToken) + TextMember("otpChallengeId", f.otpChallengeId)
    + PlainMember("otpVerified", if f.otpVerified then 4 else 5)
    + TextMember("pendingAuthorizationId", f.authorizationId)
    + TextMember("pendingAuthorizationProvider", f.authorizationProvider)
    + TextMember("pendingAuthorizationCorrelationId", OrEmpty(f.correlationId))
    + TextMember("pendingPaymentStartedAt", f.startedAt)
    + PlainMember("pendingJoinDetails", DetailsLength(if f.details.Some? then f.details.value else NO_DETAILS))
  }

  /** The longest text of a JavaScript number, such as -1.2345678901234567e-300. */
  const NUMBER_TEXT := 25

  /** The record with every text empty takes 540 units besides its numbers and its boolean; each text adds what it takes
      when written. */
  lemma SizeIs(r: Record, qty: nat, cost: nat, total: nat)
    requires r.flow.details.Some?
    ensures
      var f, d := r.flow, r.flow.details.value;
      SerializedLength(r, qty, cost, total) == 540 + qty + cost + total + (if f.otpVerified then 4 else 5)
        + |Escaped(r.dealId)| + |Escaped(f.dealTitle)| + |Escaped(f.buyerId)| + |Escaped(f.phone)|
        + |Escaped(f.deliveryOptionId)| + |Escaped(f.deliveryMethodType)| + |Escaped(f.deliveryMethodLabel)|
        + |Escaped(f.affiliateRef)| + |Escaped(f.trafficSource)| + |Escaped(f.mallSessionId)|
        + |Escaped(f.otpToken)| + |Escaped(f.otpChallengeId)| + |Escaped(f.authorizationId)|
        + |Escaped(f.authorizationProvider)| + |Escaped(OrEmpty(f.correlationId))| + |Escaped(f.startedAt)|
        + |Escaped(d.buyerName)| + |Escaped(d.deliveryAddress)| + |Escaped(d.deliveryCity)| + |Escaped(d.deliveryNote)|
  {
  }

  /** The lengths that a stored record's texts have at most. */
  predicate Short(r: Record) {
    var f := r.flow;
    && |r.dealId| <= 160 && |f.dealTitle| <= 240 && |f.buyerId| <= 160 && |f.phone| <= 40 && |f.deliveryOptionId| <= 160
    && |f.deliveryMethodType| <= 40 && |f.deliveryMethodLabel| <= 160 && |f.affiliateRef| <= 240 && |f.trafficSource| <= 4
    && |f.mallSessionId| <= 64 && |f.otpToken| <= 2048 && |f.otpChallengeId| <= 240 && |f.authorizationId| <= 512
    && |f.authorizationProvider| <= 80 && |OrEmpty(f.correlationId)| <= 512 && |f.startedAt| <= 64
    && f.details.Some? && |f.details.value.buyerName| <= 160 && |f.details.value.deliveryAddress| <= 320
    && |f.details.value.deliveryCity| <= 120 && |f.details.value.deliveryNote| <= 200
  }

  lemma PersistedIsShort(dealId: Words, f: Flow, saved: Time)
    requires Persist(dealId, f, saved).Some?
    ensures Short(Persist(dealId, f, saved).value)
  {
  }

  lemma ShortFits(r: Record, qty: nat, cost: nat, total: nat)
    requires Short(r) && qty <= NUMBER_TEXT && cost <= NUMBER_TEXT && total <= NUMBER_TEXT
    ensures SerializedLength(r, qty, cost, total) <= 34000
  {
    var f, d := r.flow, r.flow.details.value;
    SizeIs(r, qty, cost, total);
    EscapedAtMost(r.dealId);
    EscapedAtMost(f.dealTitle);
    EscapedAtMost(f.buyerId);
    EscapedAtMost(f.phone);
    EscapedAtMost(f.deliveryOptionId);
    EscapedAtMost(f.deliveryMethodType);
    EscapedAtMost(f.deliveryMethodLabel);
    EscapedAtMost(f.affiliateRef);
    EscapedAtMost(f.trafficSource);
    EscapedAtMost(f.mallSessionId);
    EscapedAtMost(f.otpToken);
    EscapedAtMost(f.otpChallengeId);
    EscapedAtMost(f.authorizationId);
    EscapedAtMost(f.authorizationProvider);
    EscapedAtMost(OrEmpty(f.correlationId));
    EscapedAtMost(f.startedAt);
    EscapedAtMost(d.buyerName);
    EscapedAtMost(d.deliveryAddress);
    EscapedAtMost(d.deliveryCity);
    EscapedAtMost(d.deliveryNote);
  }

  /** Whatever the flow contains, its record fits the store: it is written, and read back whole. */
  lemma FitsTheStore(dealId: Words, f: Flow, saved: Time, qty: nat, cost: nat, total: nat)
    requires Persist(dealId, f, saved).Some? && qty <= NUMBER_TEXT && cost <= NUMBER_TEXT && total <= NUMBER_TEXT
    ensures SerializedLength(Persist(dealId, f, saved).value, qty, cost, total) <= 34000 < 65_536
  {
    PersistedIsShort(dealId, f, saved);
    ShortFits(Persist(dealId, f, saved).value, qty, cost, total);
  }
}
