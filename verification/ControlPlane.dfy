/** The routes and helpers as methods that update the tables row by row, each proved to be one step of the model. */
module ControlPlane {
  import opened Text
  import Model = ControlModel
  import opened ControlModel
  import opened ControlSteps

  datatype Reply =
    | NotFound | Replayed | FailedNeedsNewAction | SecondApprovalRequired
    | SecondApprovalNotRequired | NoteRequired | SelfApprovalForbidden | NotRejectable
    | Accepted(id: ActionId) | Invalid | Done | NotDone(code: ResultCode)

  class Tables {
    var actions: seq<Action>
    var flags: seq<Flag>
    var events: seq<FlagEvent>
    var outbox: map<string, OutboxRow>
    var audits: seq<Audit>
    var now: Time

    function State(): Db
      reads this
    {
      Db(actions, flags, events, outbox, audits, now)
    }

    constructor (outbox: map<string, OutboxRow>, now: Time)
      ensures Empty(State()) && this.outbox == outbox && this.now == now
    {
      actions, flags, events, audits := [], [], [], [];
      this.outbox, this.now := outbox, now;
    }

    method InsertAdminAction(r: Request) returns (reply: Reply)
      modifies this
      ensures State() == old(Apply(State(), Insert(r)))
      ensures reply.Accepted? <==> Model.Accepted(r)
      ensures reply.Accepted? ==> reply.id < |actions| && KeyOf(actions[reply.id]) == RequestKey(r)
    {
      if !Model.Accepted(r) { return Invalid; }
      var i := FindByKey(actions, RequestKey(r), |actions|);
      if i >= 0 { return Accepted(i); }
      var second := RequiresSecondApproval(r.actionType, r.targetType);
      var status := if second then AwaitingSecondApproval else Requested;
      actions := actions + [Action(r.actionType, status, r.targetType, Trim(r.targetId), r.admin, None, Trim(r.reason), Trim(r.key),
                                   second, r.expiresAt, r.pauseExpiresAt, r.attestationValid, NoResult)];
      return Accepted(|actions| - 1);
    }

    method ApproveAdminAction(id: ActionId, admin: Admin, note: string) returns (reply: Reply)
      modifies this
      ensures State() == old(Apply(State(), Approve(id, admin, note)))
      ensures reply.Done? <==> old(CanApprove(State(), id, admin, note))
    {
      if Trim(note) == "" { return NoteRequired; }
      if id >= |actions| { return NotFound; }
      var a := actions[id];
      if !a.requiresSecondApproval { return SecondApprovalNotRequired; }
      if a.requestedBy != "" && a.requestedBy == admin { return SelfApprovalForbidden; }
      actions := actions[id := a.(status := Approved, approvedBy := Some(admin))];
      return Done;
    }

    method RejectAdminAction(id: ActionId, admin: Admin, reason: string) returns (reply: Reply)
      modifies this
      ensures State() == old(Apply(State(), Reject(id, admin, reason)))
      ensures reply.Done? <==> old(CanReject(State(), id, reason))
    {
      if Trim(reason) == "" { return NoteRequired; }
      if id >= |actions| || actions[id].status !in {Requested, AwaitingSecondApproval, Approved} { return NotRejectable; }
      actions := actions[id := actions[id].(status := Rejected, approvedBy := Some(admin), resultCode := ActionRejected)];
      return Done;
    }

    method CreateAdminControlFlag(input: FlagInput) returns (error: Option<FlagError>)
      modifies this`flags, this`events
      ensures error == Refusal(input)
      ensures State() == if error.Some? then old(State()) else InsertFlag(old(State()), FlagRow(input, now))
    {
      var scopeId := ScopeIdOf(input);
      if scopeId == "" { return Some(ScopeIdRequired); }
      if Trim(input.reason) == "" { return Some(ReasonRequired); }
      if IsPause(input.flagType) && input.expiresAt == Absent { return Some(ExpiryRequired); }
      if input.expiresAt == Unparseable { return Some(InvalidTime); }
      var expiresAt := if input.expiresAt.At? then Some(input.expiresAt.time) else None;
      flags := flags + [Flag(input.flagType, input.scopeType, scopeId, Active, Trim(input.reason), input.requestedBy,
                             input.approvedBy, input.actionId, expiresAt, now, None)];
      events := events + [CreateEvent(|flags| - 1, OrAdmin(input.requestedBy), Trim(input.reason))];
      return None;
    }

    method ReleaseAdminControlFlag(flagId: FlagId, admin: Admin, reason: string) returns (released: bool)
      modifies this`flags, this`events
      ensures released == old(IsActive(State(), flagId))
      ensures State() == ReleaseFlag(old(State()), flagId, admin, reason)
    {
      if flagId >= |flags| || flags[flagId].status != Active { return false; }
      flags := flags[flagId := flags[flagId].(status := Released, releasedBy := Some(admin))];
      events := events + [ReleaseEvent(flagId, OrAdmin(admin), Trim(reason))];
      return true;
    }

    method ReleaseRoute(flagId: FlagId, admin: Admin, note: string) returns (reply: Reply)
      modifies this
      ensures State() == old(Apply(State(), Release(flagId, admin, note)))
      ensures reply.Done? <==> Trim(note) != "" && old(IsActive(State(), flagId))
    {
      if Trim(note) == "" { return NoteRequired; }
      var released := ReleaseAdminControlFlag(flagId, admin, note);
      return if released then Done else NotFound;
    }

    /** One UPDATE over all due rows, then an event for each row it returned. */
    method ExpireDueAdminControlFlags() returns (expired: nat)
      modifies this
      ensures State() == old(Apply(State(), Sweep))
      ensures |events| == old(|events|) + expired
    {
      var due := DueRows(flags, now, |flags|);
      ghost var before := flags;
      flags := ExpireRows(flags, now);
      DueEvents(before, now, |before|);
      var k := 0;
      while k < |due|
        invariant 0 <= k <= |due|
        invariant events == old(events) + EventsOf(due[..k])
        invariant flags == ExpireRows(before, now)
        invariant actions == old(actions) && outbox == old(outbox) && audits == old(audits) && now == old(now)
      {
        events := events + [ExpireEvent(due[k])];
        EventsOfOneMore(due, k);
        k := k + 1;
      }
      assert due[..|due|] == due;
      return |due|;
    }

    method RequeueOutbox(id: ActionId, eventId: string) returns (requeued: bool)
      modifies this`outbox, this`audits
      ensures State() == Requeue(old(State()), id, eventId).db
      ensures requeued == old(Requeue(State(), id, eventId)).completed
    {
      if eventId !in outbox { return false; }
      var row := outbox[eventId];
      if (row.status != Queued && row.status != DeliveryFailed) || row.sent || row.sentAt.Some? || row.attemptCount >= row.ceiling {
        return false;
      }
      var generation := row.leaseGeneration + 1;
      outbox := outbox[eventId := row.(status := Queued, leaseGeneration := generation)];
      audits := audits + [Audit(eventId, id, row.status, row.attemptCount, generation)];
      return true;
    }

    method RaiseFor(a: Action, id: ActionId, flagType: FlagType, scope: ScopeType, expiresAt: DateInput) returns (raised: bool)
      modifies this`flags, this`events
      ensures
        var o := Raise(old(State()), FlagFor(a, id, flagType, scope, expiresAt), NoResult, NoResult);
        State() == o.db && raised == o.completed
    {
      var error := CreateAdminControlFlag(FlagFor(a, id, flagType, scope, expiresAt));
      return error.None?;
    }

    method FreezePayoutsBranch(a: Action, id: ActionId) returns (completed: bool, code: ResultCode)
      modifies this`flags, this`events
      ensures Outcome(State(), completed, code) == Freeze(old(State()), id, a)
    {
      var scope := FlagScope(a.targetType, PayoutFreeze);
      if scope.None? { return false, InvalidFreezeScope; }
      var raised := RaiseFor(a, id, PayoutFreeze, scope.value, Absent);
      return raised, if raised then PayoutFreezeRecorded else FreezeRejected;
    }

    method UnfreezePayoutsBranch(a: Action) returns (completed: bool, code: ResultCode)
      modifies this`flags, this`events
      ensures Outcome(State(), completed, code) == Unfreeze(old(State()), a)
    {
      var scope := FlagScope(a.targetType, PayoutFreeze);
      if scope.None? { return false, InvalidFreezeScope; }
      var i := NewestFreeze(flags, scope.value, a.targetId, |flags|);
      if i < 0 { return false, NoActivePayoutFreeze; }
      completed := ReleaseAdminControlFlag(i, OrElse(a.approvedBy, a.requestedBy), a.reason);
      return completed, PayoutFreezeReleased;
    }

    method PauseBranch(a: Action, id: ActionId, flagType: FlagType) returns (completed: bool, code: ResultCode)
      requires IsPause(flagType)
      modifies this`flags, this`events
      ensures Outcome(State(), completed, code) == Pause(old(State()), id, a, flagType)
    {
      var scope := FlagScope(a.targetType, flagType);
      if scope.None? { return false, InvalidPauseScope; }
      var expiresAt := if a.expiresAt != Absent then a.expiresAt else a.pauseExpiresAt;
      if expiresAt == Absent { return false, PauseExpiresAtRequired; }
      var raised := RaiseFor(a, id, flagType, scope.value, expiresAt);
      var recorded := if flagType == PauseJoining then PauseJoiningRecorded else PauseChargingRecorded;
      return raised, if raised then recorded else PauseRejected;
    }

    method TakedownBranch(a: Action, id: ActionId) returns (completed: bool, code: ResultCode)
      modifies this`flags, this`events
      ensures Outcome(State(), completed, code) == TakeDown(old(State()), id, a)
    {
      var scope := FlagScope(a.targetType, ContentTakedown);
      if scope.None? { return false, InvalidContentScope; }
      var raised := RaiseFor(a, id, ContentTakedown, scope.value, Absent);
      return raised, if raised then ContentTakedownRecorded else ContentTakedownRejected;
    }

    /** The branches that work on tables outside this model. */
    method ElsewhereBranch(a: Action, found: bool) returns (completed: bool, code: ResultCode)
      requires a.actionType in {TriggerReconcile, RetryNotification, RetryInvoiceFailed, OpenSupportCase, ResolvePayoutDispatchUnknown}
      ensures Outcome(State(), completed, code) == Perform(State(), 0, a, found)
    {
      match a.actionType
      case TriggerReconcile => return found, if found then ReconcileDryRunOpened else ReconcileDryRunFailed;
      case RetryNotification => return found, if found then NotificationRetryQueued else NoFailedNotification;
      case RetryInvoiceFailed => return found, if found then InvoiceRetryQueued else NoSafeFailedInvoice;
      case OpenSupportCase => return found, SupportCaseOpen;
      case ResolvePayoutDispatchUnknown =>
        if !a.attestationValid { return false, AttestationInvalid; }
        return found, if found then PayoutDispatchUnknownResolved else PayoutDispatchUnknownNotResolved;
    }

    method PerformBranch(a: Action, id: ActionId, elsewhere: bool) returns (completed: bool, code: ResultCode)
      modifies this`flags, this`events, this`outbox, this`audits
      ensures Outcome(State(), completed, code) == Perform(old(State()), id, a, elsewhere)
    {
      match a.actionType
      case RequeueOutboxEvent =>
        completed := RequeueOutbox(id, a.targetId);
        code := if completed then Requeued else NoEligibleOutboxEvent;
      case FreezePayouts => completed, code := FreezePayoutsBranch(a, id);
      case UnfreezePayouts => completed, code := UnfreezePayoutsBranch(a);
      case PauseJoiningEmergency => completed, code := PauseBranch(a, id, PauseJoining);
      case PauseChargingEmergency => completed, code := PauseBranch(a, id, PauseCharging);
      case ContentTakedownRequest => completed, code := TakedownBranch(a, id);
      case TriggerReconcile => completed, code := ElsewhereBranch(a, elsewhere);
      case RetryNotification => completed, code := ElsewhereBranch(a, elsewhere);
      case RetryInvoiceFailed => completed, code := ElsewhereBranch(a, elsewhere);
      case OpenSupportCase => completed, code := ElsewhereBranch(a, elsewhere);
      case ResolvePayoutDispatchUnknown => completed, code := ElsewhereBranch(a, elsewhere);
    }

    method ExecuteAdminAction(id: ActionId, elsewhere: bool) returns (reply: Reply)
      modifies this
      ensures State() == old(Apply(State(), Execute(id, elsewhere)))
      ensures reply == NotFound <==> id >= old(|actions|)
      ensures reply == Replayed <==> id < old(|actions|) && old(actions)[id].status == Completed
      ensures reply == FailedNeedsNewAction <==> id < old(|actions|) && old(actions)[id].status == Failed
      ensures reply.Done? <==> old(Completes(State(), Execute(id, elsewhere), id))
      ensures reply.NotDone? <==> old(CanExecute(State(), id)) && !reply.Done?
    {
      if id >= |actions| { return NotFound; }
      var a := actions[id];
      if a.status == Completed { return Replayed; }
      if a.status == Failed { return FailedNeedsNewAction; }
      if a.requiresSecondApproval && a.status != Approved { return SecondApprovalRequired; }
      actions := actions[id := a.(status := Executing)];
      ghost var executing := State();
      var completed, code := PerformBranch(a, id, elsewhere);
      SameWithoutRows(executing, old(State()), id, a, elsewhere);
      actions := actions[id := actions[id].(status := if completed then Completed else Failed, resultCode := code)];
      return if completed then Done else NotDone(code);
    }
  }

  /** The branches neither read nor write the action table. */
  lemma SameWithoutRows(db: Db, other: Db, id: ActionId, a: Action, elsewhere: bool)
    requires db == other.(actions := db.actions)
    ensures
      var o, p := Perform(db, id, a, elsewhere), Perform(other, id, a, elsewhere);
      o.db == p.db.(actions := db.actions) && p.db.actions == other.actions && o.completed == p.completed
          && o.code == p.code
  {
    if FlagTypeOf(a.actionType).Some? {
      PerformRaises(db, id, a, elsewhere);
      PerformRaises(other, id, a, elsewhere);
      SameFlagCode(db, other, id, a, elsewhere);
    } else if a.actionType == UnfreezePayouts {
      PerformThaws(db, id, a, elsewhere);
      PerformThaws(other, id, a, elsewhere);
      SameOtherCode(db, other, id, a, elsewhere);
    } else {
      SameOtherCode(db, other, id, a, elsewhere);
      SameElsewhere(db, other, id, a, elsewhere);
    }
  }

  lemma SameRaiseCode(db: Db, other: Db, input: FlagInput, done: ResultCode, refused: ResultCode)
    requires db == other.(actions := db.actions)
    ensures Raise(db, input, done, refused).code == Raise(other, input, done, refused).code
  {
  }

  lemma SameFreezeCode(db: Db, other: Db, id: ActionId, a: Action)
    requires db == other.(actions := db.actions)
    ensures Freeze(db, id, a).code == Freeze(other, id, a).code
  {
    var scope := FlagScope(a.targetType, PayoutFreeze);
    if scope.Some? { SameRaiseCode(db, other, FlagFor(a, id, PayoutFreeze, scope.value, Absent), PayoutFreezeRecorded, FreezeRejected); }
  }

  lemma SameTakeDownCode(db: Db, other: Db, id: ActionId, a: Action)
    requires db == other.(actions := db.actions)
    ensures TakeDown(db, id, a).code == TakeDown(other, id, a).code
  {
    var scope := FlagScope(a.targetType, ContentTakedown);
    if scope.Some? {
      SameRaiseCode(db, other, FlagFor(a, id, ContentTakedown, scope.value, Absent), ContentTakedownRecorded, ContentTakedownRejected);
    }
  }

  lemma SamePauseCode(db: Db, other: Db, id: ActionId, a: Action, flagType: FlagType)
    requires db == other.(actions := db.actions)
    ensures Pause(db, id, a, flagType).code == Pause(other, id, a, flagType).code
  {
    var scope := FlagScope(a.targetType, flagType);
    if scope.Some? {
      SameRaiseCode(db, other, FlagFor(a, id, flagType, scope.value, PauseExpiry(a)),
                    if flagType == PauseJoining then PauseJoiningRecorded else PauseChargingRecorded, PauseRejected);
    }
  }

  lemma SameFlagCode(db: Db, other: Db, id: ActionId, a: Action, elsewhere: bool)
    requires db == other.(actions := db.actions) && FlagTypeOf(a.actionType).Some?
    ensures Perform(db, id, a, elsewhere).code == Perform(other, id, a, elsewhere).code
  {
    match a.actionType
    case FreezePayouts => SameFreezeCode(db, other, id, a);
    case ContentTakedownRequest => SameTakeDownCode(db, other, id, a);
    case PauseJoiningEmergency => SamePauseCode(db, other, id, a, PauseJoining);
    case PauseChargingEmergency => SamePauseCode(db, other, id, a, PauseCharging);
    case _ =>
  }

  lemma SameOtherCode(db: Db, other: Db, id: ActionId, a: Action, elsewhere: bool)
    requires db == other.(actions := db.actions) && FlagTypeOf(a.actionType).None?
    ensures Perform(db, id, a, elsewhere).code == Perform(other, id, a, elsewhere).code
  {
  }

  lemma SameElsewhere(db: Db, other: Db, id: ActionId, a: Action, elsewhere: bool)
    requires db == other.(actions := db.actions) && FlagTypeOf(a.actionType).None? && a.actionType != UnfreezePayouts
    ensures Perform(db, id, a, elsewhere).completed == Perform(other, id, a, elsewhere).completed
    ensures Perform(other, id, a, elsewhere).db.actions == other.actions
    ensures Perform(db, id, a, elsewhere).db == Perform(other, id, a, elsewhere).db.(actions := db.actions)
  {
  }

  /** RETURNING flag_id of the sweeper's UPDATE. */
  function DueRows(flags: seq<Flag>, now: Time, k: nat): seq<FlagId>
    requires k <= |flags|
  {
    if k == 0 then [] else DueRows(flags, now, k - 1) + if Due(flags[k - 1], now) then [k - 1] else []
  }

  function EventsOf(ids: seq<FlagId>): seq<FlagEvent> {
    seq(|ids|, i requires 0 <= i < |ids| => ExpireEvent(ids[i]))
  }

  lemma EventsOfOneMore(ids: seq<FlagId>, k: nat)
    requires k < |ids|
    ensures EventsOf(ids[..k + 1]) == EventsOf(ids[..k]) + [ExpireEvent(ids[k])]
  {
  }

  lemma {:induction false} DueEvents(flags: seq<Flag>, now: Time, k: nat)
    requires k <= |flags|
    ensures EventsOf(DueRows(flags, now, k)) == ExpireEvents(flags, now, k)
  {
    if k > 0 { DueEvents(flags, now, k - 1); }
  }
}
