/** Conservation of payout freezes over whole runs, and what the payout gate therefore answers. */
module ControlFreezes {
  import opened Text
  import opened ControlModel
  import opened ControlSteps
  import opened ControlActions
  import opened ControlFlags

  function FrozenRow(flags: seq<Flag>, scopeType: ScopeType, scopeId: string): nat -> bool {
    (i: nat) => i < |flags| && IsFreezeAt(flags[i], scopeType, scopeId)
  }

  /** The active payout freezes at one scope. */
  function ActiveFreezes(flags: seq<Flag>, scopeType: ScopeType, scopeId: string): nat {
    Tally(FrozenRow(flags, scopeType, scopeId), |flags|)
  }

  /** A completed action of this kind at this scope. */
  predicate CompletesAt(db: Db, step: Step, kind: ActionType, scopeType: ScopeType, scopeId: string) {
    && step.Execute? && Completes(db, step, step.id)
    && db.actions[step.id].actionType == kind
    && FlagScope(db.actions[step.id].targetType, PayoutFreeze) == Some(scopeType)
    && db.actions[step.id].targetId == scopeId
  }

  /** The release route releases a freeze at this scope. */
  predicate ReleasesAt(db: Db, step: Step, scopeType: ScopeType, scopeId: string) {
    && step.Release? && Trim(step.note) != ""
    && step.flagId < |db.flags| && IsFreezeAt(db.flags[step.flagId], scopeType, scopeId)
  }

  function FreezesAt(scopeType: ScopeType, scopeId: string): (Db, Step) -> bool {
    (d: Db, s: Step) => CompletesAt(d, s, FreezePayouts, scopeType, scopeId)
  }

  function UnfreezesAt(scopeType: ScopeType, scopeId: string): (Db, Step) -> bool {
    (d: Db, s: Step) => CompletesAt(d, s, UnfreezePayouts, scopeType, scopeId)
  }

  function HandReleasesAt(scopeType: ScopeType, scopeId: string): (Db, Step) -> bool {
    (d: Db, s: Step) => ReleasesAt(d, s, scopeType, scopeId)
  }

  // ---------------------------------------------------------------- one step

  lemma FreezeAdded(flags: seq<Flag>, flag: Flag, scopeType: ScopeType, scopeId: string)
    ensures ActiveFreezes(flags + [flag], scopeType, scopeId) == ActiveFreezes(flags, scopeType, scopeId) + One(IsFreezeAt(flag, scopeType, scopeId))
  {
    TallyAgree(FrozenRow(flags + [flag], scopeType, scopeId), FrozenRow(flags, scopeType, scopeId), |flags|);
  }

  lemma FreezeEnded(flags: seq<Flag>, i: nat, flag: Flag, scopeType: ScopeType, scopeId: string)
    requires i < |flags| && flag.status != Active
    ensures ActiveFreezes(flags[i := flag], scopeType, scopeId) + One(IsFreezeAt(flags[i], scopeType, scopeId)) == ActiveFreezes(flags, scopeType, scopeId)
  {
    var after := flags[i := flag];
    if IsFreezeAt(flags[i], scopeType, scopeId) {
      TallyOneMore(FrozenRow(after, scopeType, scopeId), FrozenRow(flags, scopeType, scopeId), |flags|, i);
    } else {
      TallyAgree(FrozenRow(after, scopeType, scopeId), FrozenRow(flags, scopeType, scopeId), |flags|);
    }
  }

  lemma SweepKeepsFreezes(db: Db, scopeType: ScopeType, scopeId: string)
    requires SoundFlags(db.flags)
    ensures ActiveFreezes(SweepFlags(db).flags, scopeType, scopeId) == ActiveFreezes(db.flags, scopeType, scopeId)
  {
    TallyAgree(FrozenRow(SweepFlags(db).flags, scopeType, scopeId), FrozenRow(db.flags, scopeType, scopeId), |db.flags|);
  }

  predicate RaisesFreeze(change: Change, scopeType: ScopeType, scopeId: string) {
    change.Raised? && IsFreezeAt(change.flag, scopeType, scopeId)
  }

  predicate LowersFreeze(db: Db, change: Change, scopeType: ScopeType, scopeId: string) {
    change.Lowered? && change.flagId < |db.flags| && IsFreezeAt(db.flags[change.flagId], scopeType, scopeId)
  }

  lemma ChangeFreezes(db: Db, change: Change, scopeType: ScopeType, scopeId: string)
    requires SoundFlags(db.flags)
    ensures ActiveFreezes(Changed(db, change).flags, scopeType, scopeId) + One(LowersFreeze(db, change, scopeType, scopeId))
      == ActiveFreezes(db.flags, scopeType, scopeId) + One(RaisesFreeze(change, scopeType, scopeId))
  {
    match change
    case Unchanged =>
    case Raised(flag) => FreezeAdded(db.flags, flag, scopeType, scopeId);
    case Lowered(flagId, admin, reason) =>
      if IsActive(db, flagId) {
        FreezeEnded(db.flags, flagId, db.flags[flagId].(status := Released, releasedBy := Some(admin)), scopeType, scopeId);
      }
    case Swept => SweepKeepsFreezes(db, scopeType, scopeId);
  }

  lemma FreezeAccepted(a: Action, id: ActionId, now: Time)
    requires a.targetId != "" && Trim(a.targetId) == a.targetId && Trim(a.reason) != ""
    requires a.actionType == FreezePayouts && FlagScope(a.targetType, PayoutFreeze).Some?
    ensures
      var input := FlagFor(a, id, PayoutFreeze, FlagScope(a.targetType, PayoutFreeze).value, Absent);
      RaisedFlag(a, id, now) == Some(FlagRow(input, now)) && ScopeIdOf(input) == a.targetId
  {
  }

  lemma SoundTrims(a: Action)
    requires SoundAction(a)
    ensures a.targetId != "" && Trim(a.targetId) == a.targetId && Trim(a.reason) != ""
  {
  }

  /** A freeze always records the target it names: the row's target id is trimmed and not empty. */
  lemma RaisedFreeze(a: Action, id: ActionId, now: Time, scopeType: ScopeType, scopeId: string)
    requires SoundAction(a)
    ensures
      (RaisedFlag(a, id, now).Some? && IsFreezeAt(RaisedFlag(a, id, now).value, scopeType, scopeId))
      <==> (a.actionType == FreezePayouts && FlagScope(a.targetType, PayoutFreeze) == Some(scopeType) && a.targetId == scopeId)
  {
  }

  lemma FreezeStep(db: Db, step: Step, scopeType: ScopeType, scopeId: string)
    requires SoundActions(db) && step.Execute? && CanExecute(db, step.id)
    ensures RaisesFreeze(ChangeOf(db, step), scopeType, scopeId) <==>
      CompletesAt(db, step, FreezePayouts, scopeType, scopeId)
  {
    var a := db.actions[step.id];
    assert SoundAction(a);
    RaisedFreeze(a, step.id, db.now, scopeType, scopeId);
    assert RaisesFreeze(ChangeOf(db, step), scopeType, scopeId) <==>
      RaisedFlag(a, step.id, db.now).Some? && IsFreezeAt(RaisedFlag(a, step.id, db.now).value, scopeType, scopeId);
    if a.actionType == FreezePayouts {
      PerformRaises(db, step.id, a, step.elsewhere);
      assert Completes(db, step, step.id) <==> RaisedFlag(a, step.id, db.now).Some?;
    }
  }

  lemma UnfreezeRaisesNothing(a: Action, id: ActionId, now: Time)
    requires a.actionType == UnfreezePayouts
    ensures RaisedFlag(a, id, now) == None
  {
  }

  lemma UnfreezeStep(db: Db, step: Step, scopeType: ScopeType, scopeId: string)
    requires step.Execute? && CanExecute(db, step.id)
    ensures LowersFreeze(db, ChangeOf(db, step), scopeType, scopeId) <==>
      CompletesAt(db, step, UnfreezePayouts, scopeType, scopeId)
  {
    var a := db.actions[step.id];
    if a.actionType == UnfreezePayouts {
      PerformThaws(db, step.id, a, step.elsewhere);
      assert Completes(db, step, step.id) <==> Thawed(db, a) >= 0;
      UnfreezeRaisesNothing(a, step.id, db.now);
      if Thawed(db, a) >= 0 { ThawedScope(db, a); }
    } else {
      assert Thawed(db, a) < 0;
    }
  }

  lemma ThawedScope(db: Db, a: Action)
    requires Thawed(db, a) >= 0
    ensures a.actionType == UnfreezePayouts && FlagScope(a.targetType, PayoutFreeze).Some?
    ensures IsFreezeAt(db.flags[Thawed(db, a)], FlagScope(a.targetType, PayoutFreeze).value, a.targetId)
  {
  }

  /** One step: freezes at a scope go up by a completed freeze and down by a completed unfreeze or a release by hand. */
  lemma StepFreezes(db: Db, step: Step, scopeType: ScopeType, scopeId: string)
    requires SoundActions(db) && SoundFlags(db.flags)
    ensures
      ActiveFreezes(Apply(db, step).flags, scopeType, scopeId)
        + One(CompletesAt(db, step, UnfreezePayouts, scopeType, scopeId)) + One(ReleasesAt(db, step, scopeType, scopeId))
      == ActiveFreezes(db.flags, scopeType, scopeId) + One(CompletesAt(db, step, FreezePayouts, scopeType, scopeId))
  {
    StepChange(db, step);
    ChangeFreezes(db, ChangeOf(db, step), scopeType, scopeId);
    if step.Execute? && CanExecute(db, step.id) {
      FreezeStep(db, step, scopeType, scopeId);
      UnfreezeStep(db, step, scopeType, scopeId);
    }
  }

  // ---------------------------------------------------------------- every run

  /** On every run: active freezes + completed unfreezes + releases by hand == completed freezes, scope by scope. */
  lemma {:induction false} FreezesConserved(db: Db, steps: seq<Step>, scopeType: ScopeType, scopeId: string)
    requires Empty(db)
    ensures
      ActiveFreezes(Run(db, steps).flags, scopeType, scopeId)
        + Count(db, steps, UnfreezesAt(scopeType, scopeId)) + Count(db, steps, HandReleasesAt(scopeType, scopeId))
      == Count(db, steps, FreezesAt(scopeType, scopeId))
  {
    if steps != [] {
      FreezesConserved(db, Front(steps), scopeType, scopeId);
      RunsAreSound(db, Front(steps));
      StepFreezes(Run(db, Front(steps)), Last(steps), scopeType, scopeId);
      RunLast(db, steps);
      CountLast(db, steps, UnfreezesAt(scopeType, scopeId));
      CountLast(db, steps, HandReleasesAt(scopeType, scopeId));
      CountLast(db, steps, FreezesAt(scopeType, scopeId));
    }
  }

  lemma GateCountsFreezes(db: Db, scopeType: ScopeType, scopeId: string)
    requires SoundFlags(db.flags)
    ensures IsFlagActive(db, PayoutFreeze, scopeType, scopeId)
      <==> ActiveFreezes(db.flags, scopeType, scopeId) > 0 || ActiveFreezes(db.flags, GlobalScope, "global") > 0
  {
    TallyZero(FrozenRow(db.flags, scopeType, scopeId), |db.flags|);
    TallyZero(FrozenRow(db.flags, GlobalScope, "global"), |db.flags|);
    forall i | 0 <= i < |db.flags|
      ensures Gates(db.flags[i], PayoutFreeze, scopeType, scopeId, db.now)
        <==> FrozenRow(db.flags, scopeType, scopeId)(i) || FrozenRow(db.flags, GlobalScope, "global")(i)
    {
      assert SoundFlag(db.flags[i]);
    }
  }

  predicate MoreFrozenThanReleased(db: Db, steps: seq<Step>, scopeType: ScopeType, scopeId: string) {
    Count(db, steps, FreezesAt(scopeType, scopeId))
      > Count(db, steps, UnfreezesAt(scopeType, scopeId)) + Count(db, steps, HandReleasesAt(scopeType, scopeId))
  }

  /** The payout gate says frozen exactly when more freezes than releases have completed, at its scope or globally. */
  lemma GateIsBalance(db: Db, steps: seq<Step>, scopeType: ScopeType, scopeId: string)
    requires Empty(db)
    ensures IsFlagActive(Run(db, steps), PayoutFreeze, scopeType, scopeId)
      <==> MoreFrozenThanReleased(db, steps, scopeType, scopeId)
           || MoreFrozenThanReleased(db, steps, GlobalScope, "global")
  {
    RunsAreSound(db, steps);
    GateCountsFreezes(Run(db, steps), scopeType, scopeId);
    FreezesConserved(db, steps, scopeType, scopeId);
    FreezesConserved(db, steps, GlobalScope, "global");
  }

  lemma PayoutGateSplits(db: Db, seller: string, deal: string)
    ensures PayoutFrozen(db, seller, deal)
      <==> IsFlagActive(db, PayoutFreeze, SellerScope, seller) || IsFlagActive(db, PayoutFreeze, DealScope, deal)
  {
  }

  /** A payout is held back exactly when freezes outnumber releases at its seller, at its deal, or globally. A freeze of
      a single payout is none of the three, so it holds nothing back. */
  lemma PayoutGateIsBalance(db: Db, steps: seq<Step>, seller: string, deal: string)
    requires Empty(db)
    ensures PayoutFrozen(Run(db, steps), seller, deal)
      <==> (MoreFrozenThanReleased(db, steps, SellerScope, seller) || MoreFrozenThanReleased(db, steps, DealScope, deal)
            || MoreFrozenThanReleased(db, steps, GlobalScope, "global"))
  {
    PayoutGateSplits(Run(db, steps), seller, deal);
    GateIsBalance(db, steps, SellerScope, seller);
    GateIsBalance(db, steps, DealScope, deal);
  }

  /** Executing a freeze or an unfreeze of one payout never changes what payout eligibility is told. */
  lemma PayoutScopeIsUnseen(db: Db, step: Step, seller: string, deal: string)
    requires SoundActions(db) && SoundFlags(db.flags)
    requires step.Execute? && step.id < |db.actions| && db.actions[step.id].targetType == PayoutTarget
    ensures PayoutFrozen(Apply(db, step), seller, deal) <==> PayoutFrozen(db, seller, deal)
  {
    var after := Apply(db, step);
    StepFlagsSound(db, step);
    PayoutGateSplits(db, seller, deal);
    PayoutGateSplits(after, seller, deal);
    SameBalance(db, step, SellerScope, seller);
    SameBalance(db, step, DealScope, deal);
    SameBalance(db, step, GlobalScope, "global");
    GateCountsFreezes(db, SellerScope, seller);
    GateCountsFreezes(db, DealScope, deal);
    GateCountsFreezes(after, SellerScope, seller);
    GateCountsFreezes(after, DealScope, deal);
  }

  lemma SameBalance(db: Db, step: Step, scopeType: ScopeType, scopeId: string)
    requires SoundActions(db) && SoundFlags(db.flags) && scopeType != PayoutScope
    requires step.Execute? && step.id < |db.actions| && db.actions[step.id].targetType == PayoutTarget
    ensures ActiveFreezes(Apply(db, step).flags, scopeType, scopeId) == ActiveFreezes(db.flags, scopeType, scopeId)
  {
    StepFreezes(db, step, scopeType, scopeId);
  }

  lemma SystemFreezeCounts(db: Db, id: ActionId, elsewhere: bool, scopeType: ScopeType, scopeId: string)
    requires SoundActions(db) && SoundFlags(db.flags) && CanExecute(db, id)
    requires db.actions[id].actionType == FreezePayouts && db.actions[id].targetType == SystemTarget
    ensures
      var after := Apply(db, Execute(id, elsewhere));
      ActiveFreezes(after.flags, scopeType, scopeId)
        == ActiveFreezes(db.flags, scopeType, scopeId) + One(scopeType == GlobalScope && db.actions[id].targetId == scopeId)
  {
    var a := db.actions[id];
    StepFreezes(db, Execute(id, elsewhere), scopeType, scopeId);
    assert SoundAction(a);
    SoundTrims(a);
    FreezeAccepted(a, id, db.now);
    PerformRaises(db, id, a, elsewhere);
  }

  /** A freeze of the whole system, executed while nothing is frozen globally or at `scope`, closes that payout gate if
      and only if its target id is the word the gates look for (or is the gate's own, for a gate that asks globally). */
  lemma SystemFreezeReach(db: Db, id: ActionId, elsewhere: bool, scopeType: ScopeType, scopeId: string)
    requires SoundActions(db) && SoundFlags(db.flags) && CanExecute(db, id)
    requires db.actions[id].actionType == FreezePayouts && db.actions[id].targetType == SystemTarget
    requires !IsFlagActive(db, PayoutFreeze, scopeType, scopeId)
    ensures IsFlagActive(Apply(db, Execute(id, elsewhere)), PayoutFreeze, scopeType, scopeId)
      <==> db.actions[id].targetId == "global" || (scopeType == GlobalScope && db.actions[id].targetId == scopeId)
  {
    var step := Execute(id, elsewhere);
    GateCountsFreezes(db, scopeType, scopeId);
    SystemFreezeCounts(db, id, elsewhere, scopeType, scopeId);
    SystemFreezeCounts(db, id, elsewhere, GlobalScope, "global");
    StepFlagsSound(db, step);
    GateCountsFreezes(Apply(db, step), scopeType, scopeId);
  }

  // ---------------------------------------------------------------- one action, two freezes

  /** Approving and executing a freeze adds one to its effects, also when it had completed before. */
  lemma ApproveThenExecute(db: Db, id: ActionId, admin: Admin, note: string, elsewhere: bool)
    requires SoundActions(db) && id < |db.actions| && db.actions[id].actionType == FreezePayouts
    requires FlagScope(db.actions[id].targetType, PayoutFreeze).Some?
      && ApprovalOf(db.actions[id], id, Approve(id, admin, note))
    ensures
      var after := Apply(Apply(db, Approve(id, admin, note)), Execute(id, elsewhere));
      && SoundActions(after) && Effects(after, id) == Effects(db, id) + 1
      && InStatus(after, id, Completed) && SameRequest(db.actions[id], after.actions[id])
  {
    var approved := Apply(db, Approve(id, admin, note));
    StepSound(db, Approve(id, admin, note));
    StepSound(approved, Execute(id, elsewhere));
    StepRow(db, Approve(id, admin, note), id);
    StepRow(approved, Execute(id, elsewhere), id);
    assert SoundAction(approved.actions[id]);
    SoundTrims(approved.actions[id]);
    FreezeAccepted(approved.actions[id], id, approved.now);
    PerformRaises(approved, id, approved.actions[id], elsewhere);
    StepEffects(db, Approve(id, admin, note), id);
    StepEffects(approved, Execute(id, elsewhere), id);
  }

  const FREEZE_DEAL := Request(FreezePayouts, DealTarget, "d", "r", "k", "a", Absent, Absent, false)
  const APPROVE_DEAL := Approve(0, "b", "n")

  lemma RequestedFreeze(db: Db)
    requires Empty(db)
    ensures
      var after := Apply(db, Insert(FREEZE_DEAL));
      && SoundActions(after) && |after.actions| == 1 && after.actions[0] == NewAction(FREEZE_DEAL)
      && ApprovalOf(after.actions[0], 0, APPROVE_DEAL) && Effects(after, 0) == 0
  {
    TrimOfTrimmed("d");
    TrimOfTrimmed("r");
    TrimOfTrimmed("k");
    TrimOfTrimmed("n");
    EmptyIsSound(db);
    StepSound(db, Insert(FREEZE_DEAL));
    StepEffects(db, Insert(FREEZE_DEAL), 0);
  }

  /** Completed is not final, and one action can have two effects: the approve route does not look at the status. */
  lemma ReapprovalRepeatsFreeze(db: Db)
    requires Empty(db)
    ensures
      var once := Run(db, [Insert(FREEZE_DEAL), APPROVE_DEAL, Execute(0, true)]);
      var twice := Run(once, [APPROVE_DEAL, Execute(0, true)]);
      InStatus(once, 0, Completed) && Effects(once, 0) == 1 && InStatus(twice, 0, Completed) && Effects(twice, 0) == 2
  {
    var inserted := Apply(db, Insert(FREEZE_DEAL));
    RunThree(db, Insert(FREEZE_DEAL), APPROVE_DEAL, Execute(0, true));
    RequestedFreeze(db);
    ApproveThenExecute(inserted, 0, "b", "n", true);
    var once := Apply(Apply(inserted, APPROVE_DEAL), Execute(0, true));
    RunTwo(once, APPROVE_DEAL, Execute(0, true));
    ApproveThenExecute(once, 0, "b", "n", true);
  }

  /** A run: an approved freeze is released by hand, although nobody asked for an unfreeze. */
  lemma HandReleases(db: Db)
    requires Empty(db)
    ensures
      var steps := [Insert(FREEZE_DEAL), APPROVE_DEAL, Execute(0, true), Release(0, "c", "n")];
      var after := Run(db, steps);
      && |after.flags| == 1 && after.flags[0].status == Released && after.flags[0].releasedBy == Some("c")
      && ReleasedByHand(db, steps, 0) && !Unfrozen(db, steps, 0)
      && forall id :: 0 <= id < |after.actions| ==> after.actions[id].actionType != UnfreezePayouts
  {
    var steps := [Insert(FREEZE_DEAL), APPROVE_DEAL, Execute(0, true), Release(0, "c", "n")];
    var once := Run(db, [Insert(FREEZE_DEAL), APPROVE_DEAL, Execute(0, true)]);
    FrozenOnce(db);
    TrimOfTrimmed("n");
    assert Front(steps) == [Insert(FREEZE_DEAL), APPROVE_DEAL, Execute(0, true)] == steps[..3];
    RunLast(db, steps);
    assert ThawedAt(db, steps, 3, 0, "c");
    ThawApprovedIff(db, steps, 0);
  }

  lemma FrozenOnce(db: Db)
    requires Empty(db)
    ensures
      var once := Run(db, [Insert(FREEZE_DEAL), APPROVE_DEAL, Execute(0, true)]);
      && |once.flags| == 1 && once.flags[0].status == Active
      && |once.actions| == 1 && once.actions[0].actionType == FreezePayouts
  {
    var inserted := Apply(db, Insert(FREEZE_DEAL));
    var approved := Apply(inserted, APPROVE_DEAL);
    RequestedFreeze(db);
    RunThree(db, Insert(FREEZE_DEAL), APPROVE_DEAL, Execute(0, true));
    StepSound(inserted, APPROVE_DEAL);
    ApprovedRaises(approved);
  }

  lemma ApprovedRaises(approved: Db)
    requires SoundActions(approved) && approved.flags == [] && |approved.actions| == 1
    requires CanExecute(approved, 0) && approved.actions[0].actionType == FreezePayouts
    requires FlagScope(approved.actions[0].targetType, PayoutFreeze).Some?
    ensures
      var once := Apply(approved, Execute(0, true));
      && |once.flags| == 1 && once.flags[0].status == Active
      && |once.actions| == 1 && once.actions[0].actionType == FreezePayouts
  {
    var a := approved.actions[0];
    assert SoundAction(a);
    SoundTrims(a);
    FreezeAccepted(a, 0, approved.now);
    PerformRaises(approved, 0, a, true);
  }

  lemma RunTwo(db: Db, s: Step, t: Step)
    ensures Run(db, [s, t]) == Apply(Apply(db, s), t)
  {
    assert Front([s, t]) == [s] && Front([s]) == [];
    RunLast(db, [s, t]);
    RunLast(db, [s]);
  }

  lemma RunThree(db: Db, s: Step, t: Step, u: Step)
    ensures Run(db, [s, t, u]) == Apply(Apply(Apply(db, s), t), u)
  {
    assert Front([s, t, u]) == [s, t];
    RunLast(db, [s, t, u]);
    RunTwo(db, s, t);
  }

  // ---------------------------------------------------------------- freezes that hold nothing back

  /** Executing an executable freeze adds one active freeze at its scope, and none anywhere else. */
  lemma ExecutedFreeze(db: Db, id: ActionId, elsewhere: bool, scopeType: ScopeType, scopeId: string)
    requires SoundActions(db) && SoundFlags(db.flags) && CanExecute(db, id)
      && db.actions[id].actionType == FreezePayouts
    requires FlagScope(db.actions[id].targetType, PayoutFreeze).Some?
    ensures
      var after := Apply(db, Execute(id, elsewhere));
      && SoundFlags(after.flags)
      && ActiveFreezes(after.flags, scopeType, scopeId) == ActiveFreezes(db.flags, scopeType, scopeId)
           + One(FlagScope(db.actions[id].targetType, PayoutFreeze) == Some(scopeType) && db.actions[id].targetId == scopeId)
  {
    var a := db.actions[id];
    StepFreezes(db, Execute(id, elsewhere), scopeType, scopeId);
    StepFlagsSound(db, Execute(id, elsewhere));
    assert SoundAction(a);
    SoundTrims(a);
    FreezeAccepted(a, id, db.now);
    PerformRaises(db, id, a, elsewhere);
  }

  lemma NoFreezes(db: Db, scopeType: ScopeType, scopeId: string)
    requires db.flags == []
    ensures ActiveFreezes(db.flags, scopeType, scopeId) == 0
  {
  }

  const FREEZE_SYSTEM := Request(FreezePayouts, SystemTarget, "s", "r", "k", "a", Absent, Absent, false)
  const FREEZE_PAYOUT := Request(FreezePayouts, PayoutTarget, "p", "r", "k", "a", Absent, Absent, false)

  lemma Requested(db: Db, r: Request)
    requires Empty(db) && Trim(r.targetId) == r.targetId != "" && Trim(r.reason) == r.reason != ""
      && Trim(r.key) == r.key != ""
    requires r.actionType != ResolvePayoutDispatchUnknown
    ensures
      var after := Apply(db, Insert(r));
      SoundActions(after) && SoundFlags(after.flags) && after.flags == [] && after.actions == [NewAction(r)]
          && Effects(after, 0) == 0
  {
    EmptyIsSound(db);
    StepSound(db, Insert(r));
    StepEffects(db, Insert(r), 0);
  }

  /** Where there is no freeze at all every gate is open. */
  lemma NoFreezeOpen(db: Db, scopeType: ScopeType, scopeId: string)
    requires SoundFlags(db.flags) && db.flags == []
    ensures !IsFlagActive(db, PayoutFreeze, scopeType, scopeId)
  {
    NoFreezes(db, scopeType, scopeId);
    NoFreezes(db, GlobalScope, "global");
    GateCountsFreezes(db, scopeType, scopeId);
  }

  /** The database once the system freeze is inserted, before anything is frozen. */
  predicate SystemFreezeWaits(db: Db) {
    SoundActions(db) && SoundFlags(db.flags) && db.flags == [] && db.actions == [NewAction(FREEZE_SYSTEM)]
  }

  lemma SystemFreezeInserted(db: Db)
    requires Empty(db)
    ensures SystemFreezeWaits(Apply(db, Insert(FREEZE_SYSTEM)))
  {
    TrimOfTrimmed("s");
    TrimOfTrimmed("r");
    TrimOfTrimmed("k");
    Requested(db, FREEZE_SYSTEM);
  }

  lemma SystemFreezeActive(inserted: Db)
    requires SystemFreezeWaits(inserted)
    ensures ActiveFreezes(Apply(inserted, Execute(0, true)).flags, GlobalScope, "s") == 1
  {
    ExecutedFreeze(inserted, 0, true, GlobalScope, "s");
    NoFreezes(inserted, GlobalScope, "s");
  }

  lemma SystemFreezeOpens(inserted: Db, deal: string)
    requires SystemFreezeWaits(inserted)
    ensures !IsFlagActive(Apply(inserted, Execute(0, true)), PayoutFreeze, DealScope, deal)
  {
    NoFreezeOpen(inserted, DealScope, deal);
    SystemFreezeReach(inserted, 0, true, DealScope, deal);
  }

  /** A run: a freeze of the whole system under another target id is active, and the gate of every deal is open. */
  lemma SystemFreezeMisses(db: Db, deal: string)
    requires Empty(db)
    ensures
      var after := Run(db, [Insert(FREEZE_SYSTEM), Execute(0, true)]);
      ActiveFreezes(after.flags, GlobalScope, "s") == 1 && !IsFlagActive(after, PayoutFreeze, DealScope, deal)
  {
    var inserted := Apply(db, Insert(FREEZE_SYSTEM));
    RunTwo(db, Insert(FREEZE_SYSTEM), Execute(0, true));
    SystemFreezeInserted(db);
    SystemFreezeActive(inserted);
    SystemFreezeOpens(inserted, deal);
  }

  /** The database once the payout freeze is inserted and approved, before anything is frozen. */
  predicate PayoutFreezeWaits(db: Db) {
    SoundActions(db) && SoundFlags(db.flags) && db.flags == []
    && db.actions == [NewAction(FREEZE_PAYOUT).(status := Approved, approvedBy := Some("b"))]
  }

  lemma PayoutFreezeInserted(db: Db)
    requires Empty(db)
    ensures
      var inserted := Apply(db, Insert(FREEZE_PAYOUT));
      SoundActions(inserted) && SoundFlags(inserted.flags) && inserted.flags == []
          && inserted.actions == [NewAction(FREEZE_PAYOUT)]
  {
    TrimOfTrimmed("p");
    TrimOfTrimmed("r");
    TrimOfTrimmed("k");
    Requested(db, FREEZE_PAYOUT);
  }

  lemma ApprovalLeads(inserted: Db)
    requires SoundActions(inserted) && SoundFlags(inserted.flags) && inserted.flags == []
      && inserted.actions == [NewAction(FREEZE_PAYOUT)]
    ensures PayoutFreezeWaits(Apply(inserted, APPROVE_DEAL))
  {
    TrimOfTrimmed("n");
    StepSound(inserted, APPROVE_DEAL);
  }

  lemma PayoutFreezeApproved(db: Db)
    requires Empty(db)
    ensures PayoutFreezeWaits(Apply(Apply(db, Insert(FREEZE_PAYOUT)), APPROVE_DEAL))
  {
    PayoutFreezeInserted(db);
    ApprovalLeads(Apply(db, Insert(FREEZE_PAYOUT)));
  }

  lemma PayoutFreezeActive(approved: Db)
    requires PayoutFreezeWaits(approved)
    ensures ActiveFreezes(Apply(approved, Execute(0, true)).flags, PayoutScope, "p") == 1
  {
    ExecutedFreeze(approved, 0, true, PayoutScope, "p");
    NoFreezes(approved, PayoutScope, "p");
  }

  /** A run: an approved freeze of one payout is active, and no seller's and no deal's payout is held back. */
  lemma PayoutFreezeMisses(db: Db, seller: string, deal: string)
    requires Empty(db)
    ensures
      var after := Run(db, [Insert(FREEZE_PAYOUT), APPROVE_DEAL, Execute(0, true)]);
      ActiveFreezes(after.flags, PayoutScope, "p") == 1 && !PayoutFrozen(after, seller, deal)
  {
    var approved := Apply(Apply(db, Insert(FREEZE_PAYOUT)), APPROVE_DEAL);
    RunThree(db, Insert(FREEZE_PAYOUT), APPROVE_DEAL, Execute(0, true));
    PayoutFreezeApproved(db);
    PayoutFreezeActive(approved);
    PayoutScopeIsUnseen(approved, Execute(0, true), seller, deal);
  }

  // ---------------------------------------------------------------- a rejected action that executes

  const PAUSE_DEAL := Request(PauseJoiningEmergency, DealTarget, "d", "r", "k", "a", At(1), Absent, false)
  const REJECT_PAUSE := Reject(0, "b", "n")

  /** The database once the pause is inserted and rejected. */
  predicate PauseRejected(db: Db) {
    SoundActions(db) && db.actions == [REJECTED_ROW] && db.flags == [] && Effects(db, 0) == 0
  }

  lemma RequestedPause(db: Db)
    requires Empty(db)
    ensures
      var after := Apply(db, Insert(PAUSE_DEAL));
      SoundActions(after) && after.flags == [] && after.actions == [NewAction(PAUSE_DEAL)] && Effects(after, 0) == 0
  {
    TrimOfTrimmed("d");
    TrimOfTrimmed("r");
    TrimOfTrimmed("k");
    Requested(db, PAUSE_DEAL);
  }

  lemma RejectedPause(db: Db)
    requires Empty(db)
    ensures PauseRejected(Apply(Apply(db, Insert(PAUSE_DEAL)), REJECT_PAUSE))
  {
    var inserted := Apply(db, Insert(PAUSE_DEAL));
    RequestedPause(db);
    TrimOfTrimmed("n");
    StepSound(inserted, REJECT_PAUSE);
    StepEffects(inserted, REJECT_PAUSE, 0);
  }

  const REJECTED_ROW := NewAction(PAUSE_DEAL).(status := Rejected, approvedBy := Some("b"), resultCode := ActionRejected)

  lemma PauseAccepted()
    ensures RaisedInput(REJECTED_ROW, 0) == Some(FlagFor(REJECTED_ROW, 0, PauseJoining, DealScope, At(1)))
    ensures Refusal(FlagFor(REJECTED_ROW, 0, PauseJoining, DealScope, At(1))) == None
    ensures FlagTypeOf(REJECTED_ROW.actionType).Some?
  {
    TrimOfTrimmed("d");
    TrimOfTrimmed("r");
  }

  lemma RejectedRaises(db: Db)
    requires db.actions == [REJECTED_ROW] && db.flags == []
    ensures
      var after := Apply(db, Execute(0, true));
      && |after.flags| == 1 && after.flags[0].status == Active && after.flags[0].approvedBy == Some("b")
      && InStatus(after, 0, Completed)
  {
    PauseAccepted();
    PerformRaises(db, 0, REJECTED_ROW, true);
    StepRow(db, Execute(0, true), 0);
  }

  lemma RejectedCompletes(db: Db)
    requires PauseRejected(db)
    ensures InStatus(db, 0, Rejected) && Effects(Apply(db, Execute(0, true)), 0) == 1
  {
    RejectedRaises(db);
    StepEffects(db, Execute(0, true), 0);
  }

  /** A run: an action that was rejected executes, and its flag names the admin who rejected it as its approver. */
  lemma RejectedExecutes(db: Db)
    requires Empty(db)
    ensures
      var rejected := Run(db, [Insert(PAUSE_DEAL), REJECT_PAUSE]);
      var executed := Apply(rejected, Execute(0, true));
      && InStatus(rejected, 0, Rejected) && InStatus(executed, 0, Completed) && Effects(executed, 0) == 1
      && |executed.flags| == 1 && executed.flags[0].status == Active && executed.flags[0].approvedBy == Some("b")
  {
    var rejected := Apply(Apply(db, Insert(PAUSE_DEAL)), REJECT_PAUSE);
    RunTwo(db, Insert(PAUSE_DEAL), REJECT_PAUSE);
    RejectedPause(db);
    RejectedRaises(rejected);
    RejectedCompletes(rejected);
  }
}
