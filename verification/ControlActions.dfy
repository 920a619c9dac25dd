/** Whole runs of the action table: keys, settled actions, and at most one effect per action. */
module ControlActions {
  import opened Text
  import opened ControlModel
  import opened ControlSteps

  // ---------------------------------------------------------------- rows

  lemma {:induction false} RowKept(db: Db, steps: seq<Step>, id: ActionId)
    requires id < |db.actions|
    ensures |db.actions| <= |Run(db, steps).actions| && SameRequest(db.actions[id], Run(db, steps).actions[id])
  {
    if steps != [] {
      RowKept(db, Front(steps), id);
      StepRow(Run(db, Front(steps)), Last(steps), id);
    }
  }

  lemma ReplayIsIdle(db: Db, again: Request, id: ActionId)
    requires id < |db.actions| && KeyOf(db.actions[id]) == RequestKey(again)
    ensures Apply(db, Insert(again)) == db
  {
  }

  /** A request repeated under its key changes nothing, whatever else it carries and whatever happened since. */
  lemma InsertOnce(db: Db, r: Request, steps: seq<Step>, again: Request)
    requires Accepted(r) && RequestKey(again) == RequestKey(r)
    ensures
      var later := Run(Apply(db, Insert(r)), steps);
      Apply(later, Insert(again)) == later
  {
    var inserted := Apply(db, Insert(r));
    var id := FindByKey(inserted.actions, RequestKey(r), |inserted.actions|);
    assert id >= 0 by {
      if FindByKey(db.actions, RequestKey(r), |db.actions|) < 0 {
        assert KeyOf(inserted.actions[|db.actions|]) == RequestKey(r);
      }
    }
    RowKept(inserted, steps, id);
    ReplayIsIdle(Run(inserted, steps), again, id);
  }

  predicate UniqueKeys(actions: seq<Action>) {
    forall i, j :: 0 <= i < j < |actions| ==> KeyOf(actions[i]) != KeyOf(actions[j])
  }

  lemma NewKey(db: Db, r: Request)
    requires UniqueKeys(db.actions)
    ensures UniqueKeys(InsertAction(db, r).actions)
  {
  }

  lemma StepKeys(db: Db, step: Step)
    requires UniqueKeys(db.actions)
    ensures UniqueKeys(Apply(db, step).actions)
  {
    var after := Apply(db, step);
    if step.Insert? {
      NewKey(db, step.request);
    } else {
      StepNewRow(db, step);
      forall i | 0 <= i < |db.actions| ensures i < |after.actions| && KeyOf(after.actions[i]) == KeyOf(db.actions[i]) {
        StepRow(db, step, i);
      }
    }
  }

  lemma {:induction false} KeysStayUnique(db: Db, steps: seq<Step>)
    requires UniqueKeys(db.actions)
    ensures UniqueKeys(Run(db, steps).actions)
  {
    if steps != [] {
      KeysStayUnique(db, Front(steps));
      StepKeys(Run(db, Front(steps)), Last(steps));
    }
  }

  /** Four eyes, and the status graph: what holds of every row a run can reach. */
  predicate SoundAction(a: Action) {
    && a.requiresSecondApproval == RequiresSecondApproval(a.actionType, a.targetType)
    && a.targetId != "" && Trimmed(a.targetId) && a.reason != "" && Trimmed(a.reason)
    && a.status != Executing && a.status != Cancelled
    && (a.status == AwaitingSecondApproval ==> a.requiresSecondApproval)
    && (a.status == Requested ==> !a.requiresSecondApproval)
    && (a.requiresSecondApproval && a.status in {Approved, Completed, Failed} ==>
          a.approvedBy.Some? && (a.requestedBy == "" || a.approvedBy.value != a.requestedBy))
  }

  predicate SoundActions(db: Db) {
    forall i :: 0 <= i < |db.actions| ==> SoundAction(db.actions[i])
  }

  lemma RowStaysSound(db: Db, step: Step, id: ActionId)
    requires id < |db.actions| && SoundAction(db.actions[id])
    ensures SoundAction(RowAfter(db, step, id))
  {
  }

  lemma NewRowSound(r: Request)
    requires Accepted(r)
    ensures SoundAction(NewAction(r))
  {
    TrimIsTrimmed(r.targetId);
    TrimIsTrimmed(r.reason);
  }

  lemma StepSound(db: Db, step: Step)
    requires SoundActions(db)
    ensures SoundActions(Apply(db, step))
  {
    var after := Apply(db, step);
    StepNewRow(db, step);
    if |after.actions| > |db.actions| { NewRowSound(step.request); }
    forall i | 0 <= i < |after.actions| ensures SoundAction(after.actions[i]) {
      if i < |db.actions| {
        StepRow(db, step, i);
        RowStaysSound(db, step, i);
      }
    }
  }

  lemma {:induction false} RowsStaySound(db: Db, steps: seq<Step>)
    requires SoundActions(db)
    ensures SoundActions(Run(db, steps))
  {
    if steps != [] {
      RowsStaySound(db, Front(steps));
      StepSound(Run(db, Front(steps)), Last(steps));
    }
  }

  // ---------------------------------------------------------------- settled actions

  /** An approval the route would grant to this row, decided from columns that never change. */
  predicate ApprovalOf(a: Action, id: ActionId, step: Step) {
    && step.Approve? && step.id == id && Trim(step.note) != ""
    && a.requiresSecondApproval && (a.requestedBy == "" || a.requestedBy != step.admin)
  }

  /** Completed and Failed are left by exactly one kind of step: another approval. */
  lemma SettledMoves(db: Db, step: Step, id: ActionId)
    requires Settled(db, id)
    ensures |db.actions| <= |Apply(db, step).actions|
    ensures Apply(db, step).actions[id] != db.actions[id] <==> ApprovalOf(db.actions[id], id, step)
  {
    StepRow(db, step, id);
  }

  /** Rejected is final exactly for the actions that need a second approval, and for those until they are approved. */
  lemma RejectedMoves(db: Db, step: Step, id: ActionId)
    requires id < |db.actions| && db.actions[id].status == Rejected
    ensures |db.actions| <= |Apply(db, step).actions|
    ensures
      Apply(db, step).actions[id].status != Rejected <==>
        ApprovalOf(db.actions[id], id, step)
            || (step.Execute? && step.id == id && !db.actions[id].requiresSecondApproval)
  {
    StepRow(db, step, id);
  }

  /** The row is `a` after every prefix of the run. */
  predicate KeepsRow(db: Db, steps: seq<Step>, id: ActionId, a: Action) {
    id < |Run(db, steps).actions| && Run(db, steps).actions[id] == a
        && (steps != [] ==> KeepsRow(db, Front(steps), id, a))
  }

  predicate NeverApproved(a: Action, id: ActionId, steps: seq<Step>) {
    forall k :: 0 <= k < |steps| ==> !ApprovalOf(a, id, steps[k])
  }

  /** Over a whole run: a settled row never changes if and only if nobody approves it again. */
  lemma {:induction false} SettledForGood(db: Db, steps: seq<Step>, id: ActionId)
    requires Settled(db, id)
    ensures KeepsRow(db, steps, id, db.actions[id]) <==> NeverApproved(db.actions[id], id, steps)
  {
    if steps != [] {
      SettledForGood(db, Front(steps), id);
      assert steps == Front(steps) + [Last(steps)];
      if KeepsRow(db, Front(steps), id, db.actions[id]) {
        SettledMoves(Run(db, Front(steps)), Last(steps), id);
        RunLast(db, steps);
      }
    }
  }

  // ---------------------------------------------------------------- effects

  predicate Creates(actionType: ActionType) {
    FlagTypeOf(actionType).Some? || actionType == RequeueOutboxEvent
  }

  function OwnedFlag(flags: seq<Flag>, id: ActionId): nat -> bool {
    (i: nat) => i < |flags| && flags[i].actionId == id
  }

  function OwnedAudit(audits: seq<Audit>, id: ActionId): nat -> bool {
    (i: nat) => i < |audits| && audits[i].actionId == id
  }

  /** The flags and recovery audits that carry the action's id. */
  function Effects(db: Db, id: ActionId): nat {
    Tally(OwnedFlag(db.flags, id), |db.flags|) + Tally(OwnedAudit(db.audits, id), |db.audits|)
  }

  lemma FlagAdded(flags: seq<Flag>, flag: Flag, id: ActionId)
    ensures Tally(OwnedFlag(flags + [flag], id), |flags| + 1) == Tally(OwnedFlag(flags, id), |flags|) + if flag.actionId == id then 1 else 0
  {
    TallyAgree(OwnedFlag(flags + [flag], id), OwnedFlag(flags, id), |flags|);
  }

  lemma SameOwners(before: seq<Flag>, after: seq<Flag>, id: ActionId)
    requires |after| == |before|
    requires forall i :: 0 <= i < |before| ==> after[i].actionId == before[i].actionId
    ensures Tally(OwnedFlag(after, id), |after|) == Tally(OwnedFlag(before, id), |before|)
  {
    TallyAgree(OwnedFlag(after, id), OwnedFlag(before, id), |before|);
  }

  lemma ChangedOwners(db: Db, change: Change, id: ActionId)
    ensures
      var after := Changed(db, change).flags;
      Tally(OwnedFlag(after, id), |after|) == Tally(OwnedFlag(db.flags, id), |db.flags|)
        + if change.Raised? && change.flag.actionId == id then 1 else 0
  {
    match change
    case Unchanged =>
    case Raised(flag) => FlagAdded(db.flags, flag, id);
    case Lowered(flagId, admin, reason) => SameOwners(db.flags, ReleaseFlag(db, flagId, admin, reason).flags, id);
    case Swept => SameOwners(db.flags, SweepFlags(db).flags, id);
  }

  lemma AuditAdded(audits: seq<Audit>, audit: Audit, id: ActionId)
    ensures Tally(OwnedAudit(audits + [audit], id), |audits| + 1) == Tally(OwnedAudit(audits, id), |audits|) + if audit.actionId == id then 1 else 0
  {
    TallyAgree(OwnedAudit(audits + [audit], id), OwnedAudit(audits, id), |audits|);
  }

  predicate Requeues(db: Db, step: Step) {
    step.Execute? && Completes(db, step, step.id) && db.actions[step.id].actionType == RequeueOutboxEvent
  }

  lemma PerformAudits(db: Db, id: ActionId, a: Action, elsewhere: bool)
    ensures
      var o := Perform(db, id, a, elsewhere);
      if a.actionType == RequeueOutboxEvent && o.completed then
        |o.db.audits| == |db.audits| + 1 && o.db.audits == db.audits + [o.db.audits[|db.audits|]]
            && o.db.audits[|db.audits|].actionId == id
      else o.db.audits == db.audits
  {
    if FlagTypeOf(a.actionType).Some? {
      PerformRaises(db, id, a, elsewhere);
    } else if a.actionType == UnfreezePayouts {
      PerformThaws(db, id, a, elsewhere);
    }
  }

  lemma StepAudits(db: Db, step: Step, id: ActionId)
    ensures
      var after := Apply(db, step).audits;
      Tally(OwnedAudit(after, id), |after|) == Tally(OwnedAudit(db.audits, id), |db.audits|)
        + if Requeues(db, step) && step.id == id then 1 else 0
  {
    var after := Apply(db, step).audits;
    if step.Execute? && CanExecute(db, step.id) {
      PerformAudits(db, step.id, db.actions[step.id], step.elsewhere);
      if Requeues(db, step) { AuditAdded(db.audits, after[|db.audits|], id); }
    }
  }

  predicate CompletesCreating(db: Db, step: Step, id: ActionId) {
    Completes(db, step, id) && Creates(db.actions[id].actionType)
  }

  lemma ExecuteRaises(db: Db, id: ActionId, elsewhere: bool)
    requires id < |db.actions|
    ensures
      ExecutedChange(db, id).Raised?
      <==> (Perform(db, id, db.actions[id], elsewhere).completed && FlagTypeOf(db.actions[id].actionType).Some?)
  {
    if FlagTypeOf(db.actions[id].actionType).Some? {
      PerformRaises(db, id, db.actions[id], elsewhere);
    }
  }

  lemma RaisedOwner(db: Db, id: ActionId)
    requires id < |db.actions|
    ensures ExecutedChange(db, id).Raised? ==> ExecutedChange(db, id).flag.actionId == id
  {
  }

  lemma StepRaises(db: Db, step: Step, id: ActionId)
    ensures
      (ChangeOf(db, step).Raised? && ChangeOf(db, step).flag.actionId == id)
      <==> (Completes(db, step, id) && FlagTypeOf(db.actions[id].actionType).Some?)
  {
    if step.Execute? && CanExecute(db, step.id) {
      ExecuteRaises(db, step.id, step.elsewhere);
      RaisedOwner(db, step.id);
    }
  }

  /** One completion of a creating action is one effect; nothing else is. */
  lemma StepEffects(db: Db, step: Step, id: ActionId)
    ensures Effects(Apply(db, step), id) == Effects(db, id) + if CompletesCreating(db, step, id) then 1 else 0
  {
    StepChange(db, step);
    ChangedOwners(db, ChangeOf(db, step), id);
    StepRaises(db, step, id);
    StepAudits(db, step, id);
  }

  function CompletionsOf(id: ActionId): (Db, Step) -> bool { (d: Db, s: Step) => CompletesCreating(d, s, id) }
  function ExecutionsOf(id: ActionId): (Db, Step) -> bool { (d: Db, s: Step) => Executes(d, s, id) }
  function ApprovalsOf(id: ActionId): (Db, Step) -> bool { (d: Db, s: Step) => Approves(d, s, id) }

  /** On every run an action has had exactly as many effects as completed executions. */
  lemma {:induction false} EffectsAreCompletions(db: Db, steps: seq<Step>, id: ActionId)
    requires Empty(db)
    ensures Effects(Run(db, steps), id) == Count(db, steps, CompletionsOf(id))
  {
    if steps != [] {
      EffectsAreCompletions(db, Front(steps), id);
      StepEffects(Run(db, Front(steps)), Last(steps), id);
    }
  }

  predicate InStatus(db: Db, id: ActionId, status: ActionStatus) {
    id < |db.actions| && db.actions[id].status == status
  }

  /** Without a second approval an action executes once: exactly when it is settled. */
  predicate ExecutedOnce(db: Db, steps: seq<Step>, id: ActionId) {
    Count(db, steps, ExecutionsOf(id)) == One(Settled(Run(db, steps), id))
  }

  lemma {:induction false} NothingBeforeInsert(db: Db, steps: seq<Step>, id: ActionId)
    requires id >= |Run(db, steps).actions|
    ensures Count(db, steps, ExecutionsOf(id)) == 0 && Count(db, steps, ApprovalsOf(id)) == 0
  {
    if steps != [] {
      var before := Run(db, Front(steps));
      assert id >= |before.actions| by {
        if id < |before.actions| { StepRow(before, Last(steps), id); }
      }
      NothingBeforeInsert(db, Front(steps), id);
    }
  }

  function One(b: bool): nat { if b then 1 else 0 }

  lemma StepAccount(db: Db, step: Step, id: ActionId)
    requires id < |db.actions|
    ensures id < |Apply(db, step).actions|
      && Apply(db, step).actions[id].requiresSecondApproval == db.actions[id].requiresSecondApproval
    ensures
      var after := Apply(db, step);
      if db.actions[id].requiresSecondApproval then
        One(Executes(db, step, id)) + One(InStatus(after, id, Approved)) <= One(Approves(db, step, id)) + One(InStatus(db, id, Approved))
      else One(Executes(db, step, id)) + One(Settled(db, id)) == One(Settled(after, id))
  {
    StepRow(db, step, id);
  }

  lemma NewAccount(db: Db, step: Step, id: ActionId)
    requires |db.actions| <= id < |Apply(db, step).actions|
    ensures !Executes(db, step, id) && !Approves(db, step, id)
    ensures !Settled(Apply(db, step), id) && !InStatus(Apply(db, step), id, Approved)
  {
    StepNewRow(db, step);
  }

  lemma CountLast(db: Db, steps: seq<Step>, what: (Db, Step) -> bool)
    requires steps != []
    ensures Count(db, steps, what) == Count(db, Front(steps), what) + One(what(Run(db, Front(steps)), Last(steps)))
  {
  }

  /** Executions never outnumber approvals; an approval not yet used is what Approved means. */
  predicate Accounted(db: Db, steps: seq<Step>, id: ActionId)
    requires id < |Run(db, steps).actions|
  {
    var after := Run(db, steps);
    if after.actions[id].requiresSecondApproval then
      Count(db, steps, ExecutionsOf(id)) + One(InStatus(after, id, Approved)) <= Count(db, steps, ApprovalsOf(id))
    else ExecutedOnce(db, steps, id)
  }

  lemma {:induction false} ExecutionsNeedApprovals(db: Db, steps: seq<Step>, id: ActionId)
    requires Empty(db) && id < |Run(db, steps).actions|
    ensures Accounted(db, steps, id)
  {
    var before := Run(db, Front(steps));
    CountLast(db, steps, ExecutionsOf(id));
    CountLast(db, steps, ApprovalsOf(id));
    RunLast(db, steps);
    if id < |before.actions| {
      ExecutionsNeedApprovals(db, Front(steps), id);
      StepAccount(before, Last(steps), id);
      assert Accounted(db, Front(steps), id);
    } else {
      NothingBeforeInsert(db, Front(steps), id);
      NewAccount(before, Last(steps), id);
    }
  }

  predicate ApprovesCompleted(db: Db, step: Step, id: ActionId) {
    Approves(db, step, id) && InStatus(db, id, Completed)
  }

  function Reapprovals(id: ActionId): (Db, Step) -> bool { (d: Db, s: Step) => ApprovesCompleted(d, s, id) }

  /** One effect if Completed and none otherwise. */
  predicate OneEffect(db: Db, id: ActionId) {
    Effects(db, id) == if InStatus(db, id, Completed) && Creates(db.actions[id].actionType) then 1 else 0
  }

  lemma StepOneEffect(db: Db, step: Step, id: ActionId)
    requires OneEffect(db, id) && id < |db.actions| && Creates(db.actions[id].actionType)
    ensures OneEffect(Apply(db, step), id) <==> !ApprovesCompleted(db, step, id)
  {
    StepEffects(db, step, id);
    StepRow(db, step, id);
    assert RowAfter(db, step, id).actionType == db.actions[id].actionType;
    assert InStatus(Apply(db, step), id, Completed) <==>
      Completes(db, step, id) || (InStatus(db, id, Completed) && !Approves(db, step, id));
  }

  lemma NewOneEffect(db: Db, step: Step, id: ActionId)
    requires OneEffect(db, id) && id >= |db.actions|
    ensures OneEffect(Apply(db, step), id) && !ApprovesCompleted(db, step, id)
  {
    StepEffects(db, step, id);
    if id < |Apply(db, step).actions| { NewAccount(db, step, id); StepNewRow(db, step); }
  }

  predicate AlwaysOneEffect(db: Db, steps: seq<Step>, id: ActionId) {
    OneEffect(Run(db, steps), id) && (steps != [] ==> AlwaysOneEffect(db, Front(steps), id))
  }

  /** Along a run a creating action has exactly one effect when Completed and none otherwise, if and only if
      no step approves it while it is Completed. */
  lemma {:induction false} OneEffectIff(db: Db, steps: seq<Step>, id: ActionId)
    requires Empty(db)
    requires id < |Run(db, steps).actions| && Creates(Run(db, steps).actions[id].actionType)
    ensures AlwaysOneEffect(db, steps, id) <==> Count(db, steps, Reapprovals(id)) == 0
  {
    var front, last := Front(steps), Last(steps);
    var before := Run(db, front);
    if id < |before.actions| {
      StepRow(before, last, id);
      OneEffectIff(db, front, id);
      if AlwaysOneEffect(db, front, id) { StepOneEffect(before, last, id); }
    } else {
      NoEffectBeforeInsert(db, front, id);
      NewOneEffect(before, last, id);
    }
  }

  lemma {:induction false} NoEffectBeforeInsert(db: Db, steps: seq<Step>, id: ActionId)
    requires Empty(db) && id >= |Run(db, steps).actions|
    ensures AlwaysOneEffect(db, steps, id) && Count(db, steps, Reapprovals(id)) == 0
  {
    if steps != [] {
      var before := Run(db, Front(steps));
      assert id >= |before.actions| by {
        if id < |before.actions| { StepRow(before, Last(steps), id); }
      }
      NoEffectBeforeInsert(db, Front(steps), id);
      NewOneEffect(before, Last(steps), id);
    }
  }

  lemma {:induction false} NeverReapproved(db: Db, steps: seq<Step>, id: ActionId)
    requires Empty(db)
    requires id < |Run(db, steps).actions| && !Run(db, steps).actions[id].requiresSecondApproval
    ensures Count(db, steps, Reapprovals(id)) == 0
  {
    if steps != [] {
      var before := Run(db, Front(steps));
      if id < |before.actions| {
        StepRow(before, Last(steps), id);
        NeverReapproved(db, Front(steps), id);
      } else {
        NoEffectBeforeInsert(db, Front(steps), id);
      }
    }
  }

  /** The actions that need no second approval have their one effect on every run, whatever is retried. */
  lemma RetriesRepeatNothing(db: Db, steps: seq<Step>, id: ActionId)
    requires Empty(db) && id < |Run(db, steps).actions|
    requires !Run(db, steps).actions[id].requiresSecondApproval && Creates(Run(db, steps).actions[id].actionType)
    ensures OneEffect(Run(db, steps), id)
  {
    NeverReapproved(db, steps, id);
    OneEffectIff(db, steps, id);
  }

  predicate AuditedOnce(db: Db, id: ActionId) {
    Tally(OwnedAudit(db.audits, id), |db.audits|)
      == One(InStatus(db, id, Completed) && db.actions[id].actionType == RequeueOutboxEvent)
  }

  lemma StepAuditedOnce(db: Db, step: Step, id: ActionId)
    requires AuditedOnce(db, id) && SoundActions(db)
    ensures AuditedOnce(Apply(db, step), id)
  {
    StepAudits(db, step, id);
    if id < |db.actions| {
      StepRow(db, step, id);
      assert SoundAction(db.actions[id]);
    } else if id < |Apply(db, step).actions| {
      NewAccount(db, step, id);
      StepNewRow(db, step);
    }
  }

  /** The recovery audit's unique key is made from the action's id: no run ever inserts it twice. */
  lemma {:induction false} RecoveryAuditOnce(db: Db, steps: seq<Step>, id: ActionId)
    requires Empty(db)
    ensures AuditedOnce(Run(db, steps), id)
  {
    if steps != [] {
      RecoveryAuditOnce(db, Front(steps), id);
      RowsStaySound(db, Front(steps));
      StepAuditedOnce(Run(db, Front(steps)), Last(steps), id);
      RunLast(db, steps);
    }
  }
}
