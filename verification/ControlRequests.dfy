/** Which requests the routes accept, which flags they create, and the rows that are inserted then. */
module ControlRequests {
  import opened Text
  import opened ControlModel

  /** What a new action needs: a target, a reason and a key, each with something to see, and a valid attestation where the
      outcome of a payout is attested. */
  predicate Complete(r: Request) {
    && HasText(r.targetId) && HasText(r.reason) && HasText(r.key)
    && (r.attestationValid || r.actionType != ResolvePayoutDispatchUnknown)
  }

  /** A row has the request's kind, target and key. */
  predicate SameKey(a: Action, r: Request) {
    a.actionType == r.actionType && a.targetType == r.targetType && a.targetId == Trim(r.targetId) && a.key == Trim(r.key)
  }

  /** The kinds that wait for a second admin. */
  predicate FourEyes(r: Request) {
    || r.actionType in {PauseChargingEmergency, UnfreezePayouts, ResolvePayoutDispatchUnknown}
    || (r.actionType == FreezePayouts && r.targetType in {PayoutTarget, SellerTarget, DealTarget})
  }

  /** An action is inserted exactly when its request is complete and no row has its key; it is the request's, trimmed, not
      approved, and waits for a second admin exactly when its kind demands one. Otherwise nothing changes. */
  lemma InsertedIff(db: Db, r: Request)
    ensures
      var after := InsertAction(db, r);
      if Complete(r) && forall i :: 0 <= i < |db.actions| ==> !SameKey(db.actions[i], r) then
        && after == db.(actions := after.actions) && |after.actions| == |db.actions| + 1
        && after.actions[..|db.actions|] == db.actions
        && var a := after.actions[|db.actions|];
           && SameKey(a, r) && a.requestedBy == r.admin && a.approvedBy == None && a.reason == Trim(r.reason)
           && a.status == (if FourEyes(r) then AwaitingSecondApproval else Requested)
           && (a.requiresSecondApproval <==> FourEyes(r))
           && a.expiresAt == r.expiresAt && a.pauseExpiresAt == r.pauseExpiresAt && a.attestationValid == r.attestationValid
      else after == db
  {
    TrimIsEmptyIff(r.targetId);
    TrimIsEmptyIff(r.reason);
    TrimIsEmptyIff(r.key);
    var i := FindByKey(db.actions, RequestKey(r), |db.actions|);
    if i >= 0 { assert SameKey(db.actions[i], r); }
  }

  /** The id of a flag's scope is given, but for the global scope, whose id is the word global when it is left out. */
  predicate HasScope(input: FlagInput) { HasText(input.scopeId) || (input.scopeType == GlobalScope && input.scopeId == "") }

  /** A flag is created exactly when it has a scope and a reason, a pause also an expiry, and the expiry, if any, is a date;
      the first of these that is missing is the error, and nothing changes then. */
  lemma CreatedIff(db: Db, input: FlagInput)
    ensures
      var created := CreateFlag(db, input);
      && (created.Created? <==>
            && HasScope(input) && HasText(input.reason) && input.expiresAt != Unparseable
            && (input.flagType in {PauseJoining, PauseCharging} ==> input.expiresAt != Absent))
      && (created.Refused? ==>
            var error := if !HasScope(input) then ScopeIdRequired
                         else if !HasText(input.reason) then ReasonRequired
                         else if input.expiresAt == Absent then ExpiryRequired else InvalidTime;
            created.error == error)
  {
    TrimIsEmptyIff(input.scopeId);
    TrimIsEmptyIff(input.reason);
  }

  /** The created flag is active, at the given scope or the word global, for the trimmed reason, up to the expiry; and one
      event says so. */
  lemma CreatedRow(db: Db, input: FlagInput)
    requires CreateFlag(db, input).Created?
    ensures
      var after := CreateFlag(db, input).db;
      && after == db.(flags := after.flags, events := after.events)
      && |after.flags| == |db.flags| + 1 && after.flags[..|db.flags|] == db.flags
      && var flag := after.flags[|db.flags|];
         && flag.flagType == input.flagType && flag.scopeType == input.scopeType && flag.status == Active
         && flag.scopeId == (if input.scopeId == "" then "global" else Trim(input.scopeId))
         && flag.reason == Trim(input.reason) && flag.requestedBy == input.requestedBy && flag.approvedBy == input.approvedBy
         && flag.actionId == input.actionId && flag.createdAt == db.now && flag.releasedBy == None
         && (forall time :: flag.expiresAt == Some(time) <==> input.expiresAt == At(time))
         && after.events == db.events
              + [CreateEvent(|db.flags|, if input.requestedBy == "" then "admin" else input.requestedBy, flag.reason)]
  {
  }

  // ---------------------------------------------------------------- approval and rejection

  /** Row `id` alone has changed, in these columns. */
  predicate OnlyRow(db: Db, after: Db, id: ActionId, row: Action) {
    id < |db.actions| && after == db.(actions := db.actions[id := row])
  }

  /** An approval needs a note, an action of two admins, and another admin than its requester; it looks at nothing else. */
  lemma ApprovedIff(db: Db, id: ActionId, admin: Admin, note: string)
    ensures
      var after := ApproveAction(db, id, admin, note);
      if && id < |db.actions| && HasText(note) && db.actions[id].requiresSecondApproval
         && (db.actions[id].requestedBy == admin ==> admin == "") then
        OnlyRow(db, after, id, db.actions[id].(status := Approved, approvedBy := Some(admin)))
      else after == db
  {
    TrimIsEmptyIff(note);
  }

  /** A rejection needs a reason and a row that is not settled; it names the admin who rejects as the approver. */
  lemma RejectedIff(db: Db, id: ActionId, admin: Admin, reason: string)
    ensures
      var after := RejectAction(db, id, admin, reason);
      if id < |db.actions| && HasText(reason) && db.actions[id].status in {Requested, AwaitingSecondApproval, Approved} then
        OnlyRow(db, after, id, db.actions[id].(status := Rejected, approvedBy := Some(admin), resultCode := ActionRejected))
      else after == db
  {
    TrimIsEmptyIff(reason);
  }

  // ---------------------------------------------------------------- release and expiry

  /** A release by hand needs a reason and an active flag, which it ends under the admin's name, with one event. */
  lemma ReleasedIff(db: Db, flagId: FlagId, admin: Admin, note: string)
    ensures
      var after := Apply(db, Release(flagId, admin, note));
      if flagId < |db.flags| && db.flags[flagId].status == Active && HasText(note) then
        && after == db.(flags := after.flags, events := after.events)
        && after.flags == db.flags[flagId := db.flags[flagId].(status := Released, releasedBy := Some(admin))]
        && after.events == db.events + [ReleaseEvent(flagId, if admin == "" then "admin" else admin, Trim(note))]
      else after == db
  {
    TrimIsEmptyIff(note);
  }

  ghost predicate Overdue(flag: Flag, now: Time) {
    flag.status == Active && exists time :: flag.expiresAt == Some(time) && time <= now
  }

  /** The sweep ends every overdue flag and no other, in no other column. */
  lemma SweptRows(db: Db)
    ensures
      var after := Apply(db, Sweep);
      && after == db.(flags := after.flags, events := after.events) && |after.flags| == |db.flags|
      && forall i :: 0 <= i < |db.flags| ==>
           after.flags[i] == if Overdue(db.flags[i], db.now) then db.flags[i].(status := Expired) else db.flags[i]
  {
  }

  lemma {:induction false} ExpiredOf(flags: seq<Flag>, now: Time, k: nat)
    requires k <= |flags|
    ensures forall e :: e in ExpireEvents(flags, now, k) <==> e.ExpireEvent? && e.flagId < k && Overdue(flags[e.flagId], now)
    ensures forall i, j :: 0 <= i < j < |ExpireEvents(flags, now, k)| ==>
      ExpireEvents(flags, now, k)[i].flagId < ExpireEvents(flags, now, k)[j].flagId
  {
    if k > 0 {
      ExpiredOf(flags, now, k - 1);
      var before := ExpireEvents(flags, now, k - 1);
      assert forall i :: 0 <= i < |before| ==> before[i] in before;
      assert Overdue(flags[k - 1], now) ==> flags[k - 1].expiresAt == Some(flags[k - 1].expiresAt.value);
    }
  }

  /** It logs one event for each of them, in the rows' order, after what was logged before. */
  lemma SweptEvents(db: Db)
    ensures
      var n, events := |db.events|, Apply(db, Sweep).events;
      && |events| >= n && events[..n] == db.events
      && (forall e :: e in events[n..] <==> e.ExpireEvent? && e.flagId < |db.flags| && Overdue(db.flags[e.flagId], db.now))
      && (forall i, j :: n <= i < j < |events| ==> events[i].flagId < events[j].flagId)
  {
    ExpiredOf(db.flags, db.now, |db.flags|);
    var added := ExpireEvents(db.flags, db.now, |db.flags|);
    assert Apply(db, Sweep).events == db.events + added;
    assert (db.events + added)[|db.events|..] == added;
  }

  // ---------------------------------------------------------------- execution

  predicate Eligible(row: OutboxRow) {
    row.status in {Queued, DeliveryFailed} && !row.sent && row.sentAt == None && row.attemptCount < row.ceiling
  }

  /** A requeue completes exactly when its event is queued or failed, unsent, and under its ceiling. The event is queued then,
      under the next lease generation, with its attempts; and one audit row says what it was. */
  lemma RequeuedIff(db: Db, id: ActionId, elsewhere: bool)
    requires CanExecute(db, id) && db.actions[id].actionType == RequeueOutboxEvent
    ensures
      var after, event := Apply(db, Execute(id, elsewhere)), db.actions[id].targetId;
      if event in db.outbox && Eligible(db.outbox[event]) then
        var row := db.outbox[event];
        && after.actions == db.actions[id := db.actions[id].(status := Completed, resultCode := Requeued)]
        && after.outbox == db.outbox[event := row.(status := Queued, leaseGeneration := row.leaseGeneration + 1)]
        && after.audits == db.audits + [Audit(event, id, row.status, row.attemptCount, row.leaseGeneration + 1)]
      else
        && after.actions == db.actions[id := db.actions[id].(status := Failed, resultCode := NoEligibleOutboxEvent)]
        && after.outbox == db.outbox && after.audits == db.audits
  {
  }

  lemma PerformKeeps(db: Db, id: ActionId, a: Action, elsewhere: bool)
    ensures
      var after := Perform(db, id, a, elsewhere).db;
      && after.now == db.now && after.actions == db.actions
      && (a.actionType != RequeueOutboxEvent ==> after.outbox == db.outbox && after.audits == db.audits)
  {
  }

  /** Only a requeue touches the outbox and the audits, and no execution touches another action or the clock. */
  lemma OthersUntouched(db: Db, id: ActionId, elsewhere: bool)
    requires CanExecute(db, id)
    ensures
      var after, a := Apply(db, Execute(id, elsewhere)), db.actions[id];
      && after.now == db.now && |after.actions| == |db.actions|
      && (forall i :: 0 <= i < |db.actions| && i != id ==> after.actions[i] == db.actions[i])
      && after.actions[id].(status := a.status, resultCode := a.resultCode) == a
      && (a.actionType != RequeueOutboxEvent ==> after.outbox == db.outbox && after.audits == db.audits)
  {
    PerformKeeps(db, id, db.actions[id], elsewhere);
  }

  /** The codes of an execution that found something to do. */
  const DONE := {Requeued, PayoutFreezeRecorded, PayoutFreezeReleased, PauseJoiningRecorded, PauseChargingRecorded,
                 ContentTakedownRecorded, PayoutDispatchUnknownResolved, NotificationRetryQueued, InvoiceRetryQueued,
                 ReconcileDryRunOpened}

  /** The codes of each kind of action. */
  function CodesOf(actionType: ActionType): set<ResultCode> {
    match actionType
    case TriggerReconcile => {ReconcileDryRunOpened, ReconcileDryRunFailed}
    case RequeueOutboxEvent => {Requeued, NoEligibleOutboxEvent}
    case RetryNotification => {NotificationRetryQueued, NoFailedNotification}
    case RetryInvoiceFailed => {InvoiceRetryQueued, NoSafeFailedInvoice}
    case FreezePayouts => {PayoutFreezeRecorded, InvalidFreezeScope, FreezeRejected}
    case UnfreezePayouts => {PayoutFreezeReleased, InvalidFreezeScope, NoActivePayoutFreeze}
    case OpenSupportCase => {SupportCaseOpen}
    case ContentTakedownRequest => {ContentTakedownRecorded, InvalidContentScope, ContentTakedownRejected}
    case PauseJoiningEmergency => {PauseJoiningRecorded, InvalidPauseScope, PauseExpiresAtRequired, PauseRejected}
    case PauseChargingEmergency => {PauseChargingRecorded, InvalidPauseScope, PauseExpiresAtRequired, PauseRejected}
    case ResolvePayoutDispatchUnknown => {PayoutDispatchUnknownResolved, PayoutDispatchUnknownNotResolved, AttestationInvalid}
  }

  /** The kinds that raise or end flags. */
  const FLAG_ACTIONS := {FreezePayouts, UnfreezePayouts, ContentTakedownRequest, PauseJoiningEmergency, PauseChargingEmergency}

  predicate Told(actionType: ActionType, outcome: Outcome) {
    outcome.code in CodesOf(actionType) && (outcome.completed <==> outcome.code in DONE)
  }

  lemma RaiseCodes(db: Db, id: ActionId, a: Action)
    ensures Told(FreezePayouts, Freeze(db, id, a)) && Told(ContentTakedownRequest, TakeDown(db, id, a))
  {
  }

  lemma UnfreezeCodes(db: Db, a: Action)
    ensures Told(UnfreezePayouts, Unfreeze(db, a))
  {
  }

  lemma PauseCodes(db: Db, id: ActionId, a: Action)
    ensures Told(PauseJoiningEmergency, Pause(db, id, a, PauseJoining)) && Told(PauseChargingEmergency, Pause(db, id, a, PauseCharging))
  {
  }

  lemma FlagCodes(db: Db, id: ActionId, a: Action, elsewhere: bool)
    requires a.actionType in FLAG_ACTIONS
    ensures
      var outcome := Perform(db, id, a, elsewhere);
      && (a.actionType == FreezePayouts ==> outcome == Freeze(db, id, a))
      && (a.actionType == UnfreezePayouts ==> outcome == Unfreeze(db, a))
      && (a.actionType == ContentTakedownRequest ==> outcome == TakeDown(db, id, a))
      && (a.actionType == PauseJoiningEmergency ==> outcome == Pause(db, id, a, PauseJoining))
      && (a.actionType == PauseChargingEmergency ==> outcome == Pause(db, id, a, PauseCharging))
  {
  }

  lemma FlagsTold(db: Db, id: ActionId, a: Action, elsewhere: bool)
    requires a.actionType in FLAG_ACTIONS
    ensures Told(a.actionType, Perform(db, id, a, elsewhere))
  {
    FlagCodes(db, id, a, elsewhere);
    match a.actionType
    case FreezePayouts => RaiseCodes(db, id, a);
    case ContentTakedownRequest => RaiseCodes(db, id, a);
    case UnfreezePayouts => UnfreezeCodes(db, a);
    case PauseJoiningEmergency => PauseCodes(db, id, a);
    case PauseChargingEmergency => PauseCodes(db, id, a);
  }

  lemma OtherCodes(db: Db, id: ActionId, a: Action, elsewhere: bool)
    requires a.actionType !in FLAG_ACTIONS
    ensures
      var outcome := Perform(db, id, a, elsewhere);
      && outcome.code in CodesOf(a.actionType)
      && (a.actionType != OpenSupportCase ==> (outcome.completed <==> outcome.code in DONE))
  {
  }

  /** An executed row is Completed or Failed, under a code of its own kind, and which of the two is told by the code, but for
      support cases, which have one code. */
  lemma CodesTell(db: Db, id: ActionId, elsewhere: bool)
    requires CanExecute(db, id)
    ensures
      var row := Apply(db, Execute(id, elsewhere)).actions[id];
      && row.status in {Completed, Failed} && row.resultCode in CodesOf(row.actionType)
      && (row.actionType != OpenSupportCase ==> (row.status == Completed <==> row.resultCode in DONE))
  {
    var a := db.actions[id];
    if a.actionType in FLAG_ACTIONS {
      FlagsTold(db, id, a, elsewhere);
    } else {
      OtherCodes(db, id, a, elsewhere);
    }
  }

  /** The kinds that work on other tables complete exactly when they found something to do there, and an attested outcome
      only with a valid attestation. */
  lemma ElsewhereCompletes(db: Db, id: ActionId, elsewhere: bool)
    requires CanExecute(db, id)
    ensures
      var row := Apply(db, Execute(id, elsewhere)).actions[id];
      && (row.actionType in {TriggerReconcile, RetryNotification, RetryInvoiceFailed, OpenSupportCase} ==>
            (row.status == Completed <==> elsewhere))
      && (row.actionType == ResolvePayoutDispatchUnknown ==>
            && (row.status == Completed <==> row.attestationValid && elsewhere)
            && (row.resultCode == AttestationInvalid <==> !row.attestationValid))
  {
  }

  /** What keeps an action from executing: it is settled, or waits for a second admin. */
  lemma HeldBack(db: Db, id: ActionId, elsewhere: bool)
    ensures
      var free := && id < |db.actions| && db.actions[id].status !in {Completed, Failed}
                  && (db.actions[id].status == Approved || !db.actions[id].requiresSecondApproval);
      (free <==> CanExecute(db, id)) && (!free ==> Apply(db, Execute(id, elsewhere)) == db)
  {
  }
}
