/**
  The admin control plane as tables and steps: actions with their approvals, control flags with their event log,
  outbox rows and their recovery audit. A step is one transaction of one route (or one worker write, or time
  passing); `Apply` is what it does to the tables.
*/
module ControlModel {
  import opened Text

  type ActionId = nat
  type FlagId = nat
  type Admin = string
  type Time = int

  datatype ActionType =
    | TriggerReconcile | RequeueOutboxEvent | RetryNotification | RetryInvoiceFailed | FreezePayouts | UnfreezePayouts
    | OpenSupportCase | ContentTakedownRequest | PauseJoiningEmergency | PauseChargingEmergency | ResolvePayoutDispatchUnknown
  datatype TargetType =
    | DealTarget | ParticipantTarget | PaymentTarget | InvoiceTarget | PayoutTarget | WebhookTarget | OutboxTarget
    | SellerTarget | SupportCaseTarget | ContentTarget | SystemTarget
  datatype ActionStatus = Requested | AwaitingSecondApproval | Approved | Rejected | Executing | Completed | Failed | Cancelled

  datatype FlagType = PauseJoining | PauseCharging | PayoutFreeze | ContentTakedown
  datatype ScopeType = GlobalScope | DealScope | SellerScope | ParticipantScope | PayoutScope | ContentScope
  datatype FlagStatus = Active | Released | Expired

  /** A date taken from JSON metadata: missing, not a date, or a moment. */
  datatype DateInput = Absent | Unparseable | At(time: Time)

  datatype Action = Action(actionType: ActionType, status: ActionStatus, targetType: TargetType, targetId: string,
                           requestedBy: Admin, approvedBy: Option<Admin>, reason: string, key: string,
                           requiresSecondApproval: bool, expiresAt: DateInput, pauseExpiresAt: DateInput,
                           attestationValid: bool, resultCode: ResultCode)

  datatype Flag = Flag(flagType: FlagType, scopeType: ScopeType, scopeId: string, status: FlagStatus, reason: string,
                       requestedBy: Admin, approvedBy: Option<Admin>, actionId: ActionId, expiresAt: Option<Time>,
                       createdAt: Time, releasedBy: Option<Admin>)

  datatype FlagEvent =
    | CreateEvent(flagId: FlagId, actor: string, reason: string)
    | ReleaseEvent(flagId: FlagId, actor: string, reason: string)
    | ExpireEvent(flagId: FlagId)

  datatype OutboxStatus = Queued | Processing | Sent | DeliveryFailed
  datatype FlagError = ScopeIdRequired | ReasonRequired | ExpiryRequired | InvalidTime
  datatype ResultCode =
    | NoResult | ActionRejected | Requeued | NoEligibleOutboxEvent
    | InvalidFreezeScope | FreezeRejected | PayoutFreezeRecorded | NoActivePayoutFreeze | PayoutFreezeReleased
    | InvalidPauseScope | PauseExpiresAtRequired | PauseRejected | PauseJoiningRecorded | PauseChargingRecorded
    | InvalidContentScope | ContentTakedownRejected | ContentTakedownRecorded
    | AttestationInvalid | PayoutDispatchUnknownResolved | PayoutDispatchUnknownNotResolved
    | NotificationRetryQueued | NoFailedNotification | InvoiceRetryQueued | NoSafeFailedInvoice
    | ReconcileDryRunOpened | ReconcileDryRunFailed | SupportCaseOpen

  /** `ceiling` is the attempt ceiling that the outbox retry policy gives for this row. */
  datatype OutboxRow = OutboxRow(status: OutboxStatus, sent: bool, sentAt: Option<Time>, attemptCount: int, leaseGeneration: int, ceiling: int)
  datatype Audit = Audit(subject: string, actionId: ActionId, fromStatus: OutboxStatus, attemptCount: int, leaseGeneration: int)

  /** The tables. Action and flag ids are positions: rows are never deleted. */
  datatype Db = Db(actions: seq<Action>, flags: seq<Flag>, events: seq<FlagEvent>, outbox: map<string, OutboxRow>, audits: seq<Audit>, now: Time)

  predicate RequiresSecondApproval(actionType: ActionType, targetType: TargetType) {
    || actionType == PauseChargingEmergency
    || actionType == UnfreezePayouts
    || actionType == ResolvePayoutDispatchUnknown
    || (actionType == FreezePayouts && (targetType == PayoutTarget || targetType == SellerTarget || targetType == DealTarget))
  }

  /** The closed set of scopes of each flag type. */
  function FlagScope(targetType: TargetType, flagType: FlagType): Option<ScopeType> {
    match flagType
    case PauseJoining => PauseScope(targetType)
    case PauseCharging => PauseScope(targetType)
    case PayoutFreeze => if targetType == PayoutTarget then Some(PayoutScope) else PauseScope(targetType)
    case ContentTakedown =>
      (match targetType
       case DealTarget => Some(DealScope)
       case ContentTarget => Some(ContentScope)
       case SellerTarget => Some(SellerScope)
       case _ => None)
  }

  function PauseScope(targetType: TargetType): Option<ScopeType> {
    match targetType
    case DealTarget => Some(DealScope)
    case SellerTarget => Some(SellerScope)
    case SystemTarget => Some(GlobalScope)
    case _ => None
  }

  // ---------------------------------------------------------------- flags

  datatype FlagInput = FlagInput(flagType: FlagType, scopeType: ScopeType, scopeId: string, reason: string, requestedBy: Admin,
                                 approvedBy: Option<Admin>, actionId: ActionId, expiresAt: DateInput)
  datatype Created = Created(db: Db) | Refused(error: FlagError)

  function OrAdmin(name: string): string { if name == "" then "admin" else name }

  predicate IsPause(flagType: FlagType) { flagType == PauseJoining || flagType == PauseCharging }

  /** String(scope_id || default).trim(). */
  function ScopeIdOf(input: FlagInput): string {
    if input.scopeId == "" && input.scopeType == GlobalScope then "global" else Trim(input.scopeId)
  }

  /** The error createAdminControlFlag throws before it inserts. */
  function Refusal(input: FlagInput): Option<FlagError> {
    if ScopeIdOf(input) == "" then Some(ScopeIdRequired)
    else if Trim(input.reason) == "" then Some(ReasonRequired)
    else if IsPause(input.flagType) && input.expiresAt == Absent then Some(ExpiryRequired)
    else if input.expiresAt == Unparseable then Some(InvalidTime)
    else None
  }

  function FlagRow(input: FlagInput, now: Time): Flag {
    Flag(input.flagType, input.scopeType, ScopeIdOf(input), Active, Trim(input.reason), input.requestedBy, input.approvedBy,
         input.actionId, if input.expiresAt.At? then Some(input.expiresAt.time) else None, now, None)
  }

  function InsertFlag(db: Db, flag: Flag): Db {
    db.(flags := db.flags + [flag],
        events := db.events + [CreateEvent(|db.flags|, OrAdmin(flag.requestedBy), flag.reason)])
  }

  function CreateFlag(db: Db, input: FlagInput): Created {
    if Refusal(input).Some? then Refused(Refusal(input).value) else Created(InsertFlag(db, FlagRow(input, db.now)))
  }

  predicate IsActive(db: Db, flagId: FlagId) {
    flagId < |db.flags| && db.flags[flagId].status == Active
  }

  /** UPDATE ... WHERE flag_id = ... AND status = 'active', and its event; nothing when the flag is not active. */
  function ReleaseFlag(db: Db, flagId: FlagId, admin: Admin, reason: string): Db {
    if !IsActive(db, flagId) then db
    else
      db.(flags := db.flags[flagId := db.flags[flagId].(status := Released, releasedBy := Some(admin))],
          events := db.events + [ReleaseEvent(flagId, OrAdmin(admin), Trim(reason))])
  }

  predicate Due(flag: Flag, now: Time) {
    flag.status == Active && flag.expiresAt.Some? && flag.expiresAt.value <= now
  }

  /** One row of the sweeper's UPDATE. */
  function ExpireRow(flag: Flag, now: Time): Flag {
    if Due(flag, now) then flag.(status := Expired) else flag
  }

  function ExpiryOf(flag: Flag, flagId: FlagId, now: Time): seq<FlagEvent> {
    if Due(flag, now) then [ExpireEvent(flagId)] else []
  }

  /** The events of the sweeper's loop over the first `k` rows. */
  function ExpireEvents(flags: seq<Flag>, now: Time, k: nat): seq<FlagEvent>
    requires k <= |flags|
  {
    if k == 0 then [] else ExpireEvents(flags, now, k - 1) + ExpiryOf(flags[k - 1], k - 1, now)
  }

  /** The sweeper's UPDATE. */
  function ExpireRows(flags: seq<Flag>, now: Time): seq<Flag> {
    seq(|flags|, i requires 0 <= i < |flags| => ExpireRow(flags[i], now))
  }

  function SweepFlags(db: Db): Db {
    db.(flags := ExpireRows(db.flags, db.now),
        events := db.events + ExpireEvents(db.flags, db.now, |db.flags|))
  }

  /** What every gate asks of a row: active, and not past its expiry. */
  predicate InForce(flag: Flag, now: Time) {
    flag.status == Active && (flag.expiresAt.None? || flag.expiresAt.value > now)
  }

  predicate Gates(flag: Flag, flagType: FlagType, scopeType: ScopeType, scopeId: string, now: Time) {
    && flag.flagType == flagType && InForce(flag, now)
    && ((flag.scopeType == GlobalScope && flag.scopeId == "global") || (flag.scopeType == scopeType && flag.scopeId == scopeId))
  }

  predicate IsFlagActive(db: Db, flagType: FlagType, scopeType: ScopeType, scopeId: string) {
    exists i :: 0 <= i < |db.flags| && Gates(db.flags[i], flagType, scopeType, scopeId, db.now)
  }

  predicate BlocksPayout(flag: Flag, seller: string, deal: string, now: Time) {
    && flag.flagType == PayoutFreeze && InForce(flag, now)
    && ((flag.scopeType == GlobalScope && flag.scopeId == "global")
        || (flag.scopeType == SellerScope && flag.scopeId == seller)
        || (flag.scopeType == DealScope && flag.scopeId == deal))
  }

  /** What payout eligibility asks before a settlement forms. */
  predicate PayoutFrozen(db: Db, seller: string, deal: string) {
    exists i :: 0 <= i < |db.flags| && BlocksPayout(db.flags[i], seller, deal, db.now)
  }

  datatype Filter = Filter(flagType: Option<FlagType>, scopeType: Option<ScopeType>, scopeId: Option<string>)

  predicate Listed(flag: Flag, filter: Filter, now: Time) {
    && InForce(flag, now)
    && (filter.flagType.Some? ==> flag.flagType == filter.flagType.value)
    && (filter.scopeType.Some? ==> flag.scopeType == filter.scopeType.value)
    && (filter.scopeId.Some? && filter.scopeId.value != "" ==> flag.scopeId == filter.scopeId.value)
  }

  /** The listed rows among the first `k`, newest first. */
  function ListFlags(db: Db, filter: Filter, k: nat): seq<Flag>
    requires k <= |db.flags|
  {
    if k == 0 then []
    else (if Listed(db.flags[k - 1], filter, db.now) then [db.flags[k - 1]] else []) + ListFlags(db, filter, k - 1)
  }

  function ListActive(db: Db, filter: Filter): seq<Flag> {
    var all := ListFlags(db, filter, |db.flags|);
    if |all| <= 200 then all else all[..200]
  }

  // ---------------------------------------------------------------- actions

  datatype Request = Request(actionType: ActionType, targetType: TargetType, targetId: string, reason: string, key: string,
                             admin: Admin, expiresAt: DateInput, pauseExpiresAt: DateInput, attestationValid: bool)

  /** The route's own checks before it inserts. */
  predicate Accepted(r: Request) {
    && Trim(r.targetId) != "" && Trim(r.reason) != "" && Trim(r.key) != ""
    && (r.actionType == ResolvePayoutDispatchUnknown ==> r.attestationValid)
  }

  /** The columns of the unique index behind ON CONFLICT. */
  datatype Key = Key(actionType: ActionType, targetType: TargetType, targetId: string, key: string)

  function KeyOf(a: Action): Key { Key(a.actionType, a.targetType, a.targetId, a.key) }

  function RequestKey(r: Request): Key { Key(r.actionType, r.targetType, Trim(r.targetId), Trim(r.key)) }

  /** The row that ON CONFLICT finds among the first `k`, or -1. */
  function FindByKey(actions: seq<Action>, key: Key, k: nat): (i: int)
    requires k <= |actions|
    ensures -1 <= i < k
    ensures i >= 0 ==> KeyOf(actions[i]) == key
    ensures i < 0 ==> forall j :: 0 <= j < k ==> KeyOf(actions[j]) != key
  {
    if k == 0 then -1
    else if KeyOf(actions[k - 1]) == key then k - 1
    else FindByKey(actions, key, k - 1)
  }

  function NewAction(r: Request): Action {
    var second := RequiresSecondApproval(r.actionType, r.targetType);
    Action(r.actionType, if second then AwaitingSecondApproval else Requested, r.targetType, Trim(r.targetId), r.admin, None,
           Trim(r.reason), Trim(r.key), second, r.expiresAt, r.pauseExpiresAt, r.attestationValid, NoResult)
  }

  function InsertAction(db: Db, r: Request): Db {
    if !Accepted(r) || FindByKey(db.actions, RequestKey(r), |db.actions|) >= 0 then db
    else db.(actions := db.actions + [NewAction(r)])
  }

  /** The approve route looks at the action's kind and requester, not at its status. */
  predicate CanApprove(db: Db, id: ActionId, admin: Admin, note: string) {
    && id < |db.actions| && Trim(note) != ""
    && db.actions[id].requiresSecondApproval
    && (db.actions[id].requestedBy == "" || db.actions[id].requestedBy != admin)
  }

  function ApproveAction(db: Db, id: ActionId, admin: Admin, note: string): Db {
    if !CanApprove(db, id, admin, note) then db
    else db.(actions := db.actions[id := db.actions[id].(status := Approved, approvedBy := Some(admin))])
  }

  predicate CanReject(db: Db, id: ActionId, reason: string) {
    && id < |db.actions| && Trim(reason) != ""
    && (db.actions[id].status == Requested || db.actions[id].status == AwaitingSecondApproval || db.actions[id].status == Approved)
  }

  function RejectAction(db: Db, id: ActionId, admin: Admin, reason: string): Db {
    if !CanReject(db, id, reason) then db
    else db.(actions := db.actions[id := db.actions[id].(status := Rejected, approvedBy := Some(admin), resultCode := ActionRejected)])
  }

  // ---------------------------------------------------------------- the executor

  /** What an executed branch leaves: the tables, whether it completed, and its result code. */
  datatype Outcome = Outcome(db: Db, completed: bool, code: ResultCode)

  predicate Requeueable(row: OutboxRow) {
    (row.status == Queued || row.status == DeliveryFailed) && !row.sent && row.sentAt.None?
        && row.attemptCount < row.ceiling
  }

  function Requeue(db: Db, id: ActionId, eventId: string): Outcome {
    if eventId !in db.outbox || !Requeueable(db.outbox[eventId]) then Outcome(db, false, NoEligibleOutboxEvent)
    else
      var row := db.outbox[eventId];
      var requeued := row.(status := Queued, leaseGeneration := row.leaseGeneration + 1);
      Outcome(db.(outbox := db.outbox[eventId := requeued],
                  audits := db.audits + [Audit(eventId, id, row.status, row.attemptCount, row.leaseGeneration + 1)]),
              true, Requeued)
  }

  function FlagFor(a: Action, id: ActionId, flagType: FlagType, scopeType: ScopeType, expiresAt: DateInput): FlagInput {
    FlagInput(flagType, scopeType, a.targetId, a.reason, a.requestedBy, a.approvedBy, id, expiresAt)
  }

  function Raise(db: Db, input: FlagInput, done: ResultCode, refused: ResultCode): Outcome {
    match CreateFlag(db, input)
    case Created(db') => Outcome(db', true, done)
    case Refused(_) => Outcome(db, false, refused)
  }

  function Freeze(db: Db, id: ActionId, a: Action): Outcome {
    match FlagScope(a.targetType, PayoutFreeze)
    case None => Outcome(db, false, InvalidFreezeScope)
    case Some(scope) => Raise(db, FlagFor(a, id, PayoutFreeze, scope, Absent), PayoutFreezeRecorded, FreezeRejected)
  }

  predicate IsFreezeAt(flag: Flag, scopeType: ScopeType, scopeId: string) {
    flag.flagType == PayoutFreeze && flag.status == Active && flag.scopeType == scopeType && flag.scopeId == scopeId
  }

  /** The newest active payout freeze at a scope among the first `k` flags, or -1. */
  function NewestFreeze(flags: seq<Flag>, scopeType: ScopeType, scopeId: string, k: nat): (i: int)
    requires k <= |flags|
    ensures -1 <= i < k
    ensures i >= 0 ==> IsFreezeAt(flags[i], scopeType, scopeId)
    ensures forall j :: i < j < k ==> !IsFreezeAt(flags[j], scopeType, scopeId)
  {
    if k == 0 then -1
    else if IsFreezeAt(flags[k - 1], scopeType, scopeId) then k - 1
    else NewestFreeze(flags, scopeType, scopeId, k - 1)
  }

  function OrElse(approvedBy: Option<Admin>, requestedBy: Admin): Admin {
    if approvedBy.Some? && approvedBy.value != "" then approvedBy.value else OrAdmin(requestedBy)
  }

  function Unfreeze(db: Db, a: Action): Outcome {
    match FlagScope(a.targetType, PayoutFreeze)
    case None => Outcome(db, false, InvalidFreezeScope)
    case Some(scope) =>
      var i := NewestFreeze(db.flags, scope, a.targetId, |db.flags|);
      if i < 0 then Outcome(db, false, NoActivePayoutFreeze)
      else Outcome(ReleaseFlag(db, i, OrElse(a.approvedBy, a.requestedBy), a.reason), true, PayoutFreezeReleased)
  }

  function PauseExpiry(a: Action): DateInput {
    if a.expiresAt != Absent then a.expiresAt else a.pauseExpiresAt
  }

  function Pause(db: Db, id: ActionId, a: Action, flagType: FlagType): Outcome {
    match FlagScope(a.targetType, flagType)
    case None => Outcome(db, false, InvalidPauseScope)
    case Some(scope) =>
      if PauseExpiry(a) == Absent then Outcome(db, false, PauseExpiresAtRequired)
      else Raise(db, FlagFor(a, id, flagType, scope, PauseExpiry(a)),
                 if flagType == PauseJoining then PauseJoiningRecorded else PauseChargingRecorded, PauseRejected)
  }

  function TakeDown(db: Db, id: ActionId, a: Action): Outcome {
    match FlagScope(a.targetType, ContentTakedown)
    case None => Outcome(db, false, InvalidContentScope)
    case Some(scope) => Raise(db, FlagFor(a, id, ContentTakedown, scope, Absent), ContentTakedownRecorded, ContentTakedownRejected)
  }

  /** `elsewhere` is whether the statement of a branch that works on other tables found something to do. */
  function Perform(db: Db, id: ActionId, a: Action, elsewhere: bool): Outcome {
    match a.actionType
    case RequeueOutboxEvent => Requeue(db, id, a.targetId)
    case FreezePayouts => Freeze(db, id, a)
    case UnfreezePayouts => Unfreeze(db, a)
    case PauseJoiningEmergency => Pause(db, id, a, PauseJoining)
    case PauseChargingEmergency => Pause(db, id, a, PauseCharging)
    case ContentTakedownRequest => TakeDown(db, id, a)
    case ResolvePayoutDispatchUnknown =>
      if !a.attestationValid then Outcome(db, false, AttestationInvalid)
      else Outcome(db, elsewhere, if elsewhere then PayoutDispatchUnknownResolved else PayoutDispatchUnknownNotResolved)
    case RetryNotification => Outcome(db, elsewhere, if elsewhere then NotificationRetryQueued else NoFailedNotification)
    case RetryInvoiceFailed => Outcome(db, elsewhere, if elsewhere then InvoiceRetryQueued else NoSafeFailedInvoice)
    case TriggerReconcile => Outcome(db, elsewhere, if elsewhere then ReconcileDryRunOpened else ReconcileDryRunFailed)
    case OpenSupportCase => Outcome(db, elsewhere, SupportCaseOpen)
  }

  /** Neither settled nor waiting for a second approval. */
  predicate CanExecute(db: Db, id: ActionId) {
    && id < |db.actions|
    && db.actions[id].status != Completed && db.actions[id].status != Failed
    && (db.actions[id].requiresSecondApproval ==> db.actions[id].status == Approved)
  }

  function Settle(a: Action, outcome: Outcome): Action {
    a.(status := if outcome.completed then Completed else Failed, resultCode := outcome.code)
  }

  function ExecuteAction(db: Db, id: ActionId, elsewhere: bool): Db {
    if !CanExecute(db, id) then db
    else
      var a := db.actions[id];
      var outcome := Perform(db, id, a, elsewhere);
      outcome.db.(actions := db.actions[id := Settle(a, outcome)])
  }

  // ---------------------------------------------------------------- steps and runs

  datatype Step =
    | Insert(request: Request)
    | Approve(id: ActionId, admin: Admin, note: string)
    | Reject(id: ActionId, admin: Admin, note: string)
    | Execute(id: ActionId, elsewhere: bool)
    | Release(flagId: FlagId, admin: Admin, note: string)
    | Sweep
    | WorkerWrites(eventId: string, row: OutboxRow)
    | Elapse(seconds: nat)

  function Apply(db: Db, step: Step): Db {
    match step
    case Insert(r) => InsertAction(db, r)
    case Approve(id, admin, note) => ApproveAction(db, id, admin, note)
    case Reject(id, admin, note) => RejectAction(db, id, admin, note)
    case Execute(id, elsewhere) => ExecuteAction(db, id, elsewhere)
    case Release(flagId, admin, note) => if Trim(note) == "" then db else ReleaseFlag(db, flagId, admin, note)
    case Sweep => SweepFlags(db)
    case WorkerWrites(eventId, row) => db.(outbox := db.outbox[eventId := row])
    case Elapse(seconds) => db.(now := db.now + seconds)
  }

  function Run(db: Db, steps: seq<Step>): Db {
    if steps == [] then db else Apply(Run(db, steps[..|steps| - 1]), steps[|steps| - 1])
  }

  predicate Empty(db: Db) {
    db.actions == [] && db.flags == [] && db.events == [] && db.audits == []
  }
}
