/** What one step of the control plane does, table by table; the vocabulary of the run theorems. */
module ControlSteps {
  import opened Text
  import opened ControlModel

  // ---------------------------------------------------------------- the flag table

  function FlagTypeOf(actionType: ActionType): Option<FlagType> {
    match actionType
    case FreezePayouts => Some(PayoutFreeze)
    case PauseJoiningEmergency => Some(PauseJoining)
    case PauseChargingEmergency => Some(PauseCharging)
    case ContentTakedownRequest => Some(ContentTakedown)
    case _ => None
  }

  function ExpiryFor(a: Action, flagType: FlagType): DateInput {
    if IsPause(flagType) then PauseExpiry(a) else Absent
  }

  /** What executing the action passes to createAdminControlFlag, when its scope is allowed. */
  function RaisedInput(a: Action, id: ActionId): Option<FlagInput> {
    if FlagTypeOf(a.actionType).None? then None
    else
      var flagType := FlagTypeOf(a.actionType).value;
      if FlagScope(a.targetType, flagType).None? then None
      else Some(FlagFor(a, id, flagType, FlagScope(a.targetType, flagType).value, ExpiryFor(a, flagType)))
  }

  /** The flag that executing the action inserts. */
  function RaisedFlag(a: Action, id: ActionId, now: Time): Option<Flag> {
    var input := RaisedInput(a, id);
    if input.Some? && Refusal(input.value).None? then Some(FlagRow(input.value, now)) else None
  }

  /** The flag that executing the action releases, or -1. */
  function Thawed(db: Db, a: Action): (i: int)
    ensures -1 <= i < |db.flags|
    ensures i >= 0 ==> IsActive(db, i) && db.flags[i].flagType == PayoutFreeze
  {
    if a.actionType != UnfreezePayouts || FlagScope(a.targetType, PayoutFreeze).None? then -1
    else NewestFreeze(db.flags, FlagScope(a.targetType, PayoutFreeze).value, a.targetId, |db.flags|)
  }

  datatype Change = Unchanged | Raised(flag: Flag) | Lowered(flagId: FlagId, admin: Admin, reason: string) | Swept

  function ExecutedChange(db: Db, id: ActionId): Change
    requires id < |db.actions|
  {
    var a := db.actions[id];
    if RaisedFlag(a, id, db.now).Some? then Raised(RaisedFlag(a, id, db.now).value)
    else if Thawed(db, a) >= 0 then Lowered(Thawed(db, a), OrElse(a.approvedBy, a.requestedBy), a.reason)
    else Unchanged
  }

  /** Every step does one of four things to the flag table. */
  function ChangeOf(db: Db, step: Step): Change {
    match step
    case Execute(id, _) => if CanExecute(db, id) then ExecutedChange(db, id) else Unchanged
    case Release(flagId, admin, note) => if Trim(note) != ""
        && IsActive(db, flagId) then Lowered(flagId, admin, note) else Unchanged
    case Sweep => Swept
    case _ => Unchanged
  }

  function Changed(db: Db, change: Change): Db {
    match change
    case Unchanged => db
    case Raised(flag) => InsertFlag(db, flag)
    case Lowered(flagId, admin, reason) => ReleaseFlag(db, flagId, admin, reason)
    case Swept => SweepFlags(db)
  }

  predicate RaisesItsFlag(db: Db, id: ActionId, a: Action, o: Outcome) {
    var flag := RaisedFlag(a, id, db.now);
    o.completed == flag.Some? && o.db == (if flag.Some? then InsertFlag(db, flag.value) else db)
  }

  lemma FreezeRaises(db: Db, id: ActionId, a: Action)
    requires a.actionType == FreezePayouts
    ensures RaisesItsFlag(db, id, a, Freeze(db, id, a))
  {
  }

  lemma PauseRaises(db: Db, id: ActionId, a: Action, flagType: FlagType)
    requires IsPause(flagType) && FlagTypeOf(a.actionType) == Some(flagType)
    ensures RaisesItsFlag(db, id, a, Pause(db, id, a, flagType))
  {
  }

  lemma TakeDownRaises(db: Db, id: ActionId, a: Action)
    requires a.actionType == ContentTakedownRequest
    ensures RaisesItsFlag(db, id, a, TakeDown(db, id, a))
  {
  }

  lemma PerformRaises(db: Db, id: ActionId, a: Action, elsewhere: bool)
    requires FlagTypeOf(a.actionType).Some?
    ensures RaisesItsFlag(db, id, a, Perform(db, id, a, elsewhere))
  {
    if a.actionType == FreezePayouts {
      FreezeRaises(db, id, a);
    } else if a.actionType == ContentTakedownRequest {
      TakeDownRaises(db, id, a);
    } else {
      PauseRaises(db, id, a, FlagTypeOf(a.actionType).value);
    }
  }

  lemma PerformThaws(db: Db, id: ActionId, a: Action, elsewhere: bool)
    requires a.actionType == UnfreezePayouts
    ensures
      var o := Perform(db, id, a, elsewhere);
      var i := Thawed(db, a);
      o.completed == (i >= 0)
          && o.db == (if i >= 0 then ReleaseFlag(db, i, OrElse(a.approvedBy, a.requestedBy), a.reason) else db)
  {
  }

  lemma PerformElsewhere(db: Db, id: ActionId, a: Action, elsewhere: bool)
    requires FlagTypeOf(a.actionType).None? && a.actionType != UnfreezePayouts
    ensures Perform(db, id, a, elsewhere).db == db.(outbox := Perform(db, id, a, elsewhere).db.outbox, audits := Perform(db, id, a, elsewhere).db.audits)
  {
  }

  /** The executor's branches, seen from the flag table. */
  lemma PerformChange(db: Db, id: ActionId, elsewhere: bool)
    requires id < |db.actions|
    ensures
      var after := Perform(db, id, db.actions[id], elsewhere).db;
      var changed := Changed(db, ExecutedChange(db, id));
      after.flags == changed.flags && after.events == changed.events && after.now == db.now
          && after.actions == db.actions
  {
    var a := db.actions[id];
    if FlagTypeOf(a.actionType).Some? {
      PerformRaises(db, id, a, elsewhere);
    } else if a.actionType == UnfreezePayouts {
      PerformThaws(db, id, a, elsewhere);
    } else {
      PerformElsewhere(db, id, a, elsewhere);
    }
  }

  lemma StepChange(db: Db, step: Step)
    ensures
      var after := Apply(db, step);
      var changed := Changed(db, ChangeOf(db, step));
      after.flags == changed.flags && after.events == changed.events && db.now <= after.now
  {
    if step.Execute? && CanExecute(db, step.id) {
      PerformChange(db, step.id, step.elsewhere);
    }
  }

  // ---------------------------------------------------------------- the action table

  /** The columns no step rewrites. */
  predicate SameRequest(a: Action, b: Action) {
    b == a.(status := b.status, approvedBy := b.approvedBy, resultCode := b.resultCode)
  }

  predicate Settled(db: Db, id: ActionId) {
    id < |db.actions| && (db.actions[id].status == Completed || db.actions[id].status == Failed)
  }

  predicate Approves(db: Db, step: Step, id: ActionId) {
    step.Approve? && step.id == id && CanApprove(db, id, step.admin, step.note)
  }

  predicate Executes(db: Db, step: Step, id: ActionId) {
    step.Execute? && step.id == id && CanExecute(db, id)
  }

  predicate Rejects(db: Db, step: Step, id: ActionId) {
    step.Reject? && step.id == id && CanReject(db, id, step.note)
  }

  predicate Completes(db: Db, step: Step, id: ActionId) {
    Executes(db, step, id) && Perform(db, id, db.actions[id], step.elsewhere).completed
  }

  lemma ExecuteRows(db: Db, id: ActionId, elsewhere: bool)
    requires CanExecute(db, id)
    ensures ExecuteAction(db, id, elsewhere).actions == db.actions[id := Settle(db.actions[id], Perform(db, id, db.actions[id], elsewhere))]
  {
  }

  /** The row of an action that exists, after a step. */
  function RowAfter(db: Db, step: Step, id: ActionId): Action
    requires id < |db.actions|
  {
    var a := db.actions[id];
    if Approves(db, step, id) then a.(status := Approved, approvedBy := Some(step.admin))
    else if Rejects(db, step, id) then a.(status := Rejected, approvedBy := Some(step.admin), resultCode := ActionRejected)
    else if Executes(db, step, id) then Settle(a, Perform(db, id, a, step.elsewhere))
    else a
  }

  lemma ExecuteRow(db: Db, step: Step, id: ActionId)
    requires id < |db.actions| && step.Execute?
    ensures |Apply(db, step).actions| == |db.actions| && Apply(db, step).actions[id] == RowAfter(db, step, id)
  {
    if CanExecute(db, step.id) {
      ExecuteRows(db, step.id, step.elsewhere);
    }
  }

  lemma StepRow(db: Db, step: Step, id: ActionId)
    requires id < |db.actions|
    ensures |db.actions| <= |Apply(db, step).actions| && Apply(db, step).actions[id] == RowAfter(db, step, id)
  {
    if step.Execute? { ExecuteRow(db, step, id); }
  }

  /** A row that was not there before a step is the row of an insert. */
  lemma StepNewRow(db: Db, step: Step)
    ensures |Apply(db, step).actions| > |db.actions| ==>
      step.Insert? && Accepted(step.request) && Apply(db, step).actions == db.actions + [NewAction(step.request)]
  {
    if step.Execute? && CanExecute(db, step.id) {
      ExecuteRows(db, step.id, step.elsewhere);
    }
  }

  // ---------------------------------------------------------------- counting

  /** How many of 0, ..., k - 1 satisfy `p`. */
  function Tally(p: nat -> bool, k: nat): nat {
    if k == 0 then 0 else Tally(p, k - 1) + if p(k - 1) then 1 else 0
  }

  lemma {:induction false} TallyAgree(p: nat -> bool, q: nat -> bool, k: nat)
    requires forall i: nat :: i < k ==> p(i) == q(i)
    ensures Tally(p, k) == Tally(q, k)
  {
    if k > 0 { TallyAgree(p, q, k - 1); }
  }

  lemma {:induction false} TallyOneMore(p: nat -> bool, q: nat -> bool, k: nat, at: nat)
    requires at < k && !p(at) && q(at)
    requires forall i: nat :: i < k && i != at ==> p(i) == q(i)
    ensures Tally(q, k) == Tally(p, k) + 1
  {
    if at == k - 1 { TallyAgree(p, q, k - 1); } else { TallyOneMore(p, q, k - 1, at); }
  }

  lemma {:induction false} TallyZero(p: nat -> bool, k: nat)
    ensures Tally(p, k) == 0 <==> forall i: nat :: i < k ==> !p(i)
  {
    if k > 0 { TallyZero(p, k - 1); }
  }

  /** How many steps of a run satisfy `what` in the state they find. */
  function Count(db: Db, steps: seq<Step>, what: (Db, Step) -> bool): nat {
    if steps == [] then 0
    else Count(db, Front(steps), what) + if what(Run(db, Front(steps)), Last(steps)) then 1 else 0
  }

  function Front(steps: seq<Step>): seq<Step>
    requires steps != []
  {
    steps[..|steps| - 1]
  }

  function Last(steps: seq<Step>): Step
    requires steps != []
  {
    steps[|steps| - 1]
  }

  lemma RunLast(db: Db, steps: seq<Step>)
    requires steps != []
    ensures Run(db, steps) == Apply(Run(db, Front(steps)), Last(steps))
  {
  }

  lemma {:induction false} RunConcat(db: Db, first: seq<Step>, more: seq<Step>)
    ensures Run(db, first + more) == Run(Run(db, first), more)
  {
    if more == [] {
      assert first + more == first;
    } else {
      assert Front(first + more) == first + Front(more);
      RunConcat(db, first, Front(more));
    }
  }
}
