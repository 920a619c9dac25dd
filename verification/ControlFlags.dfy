/** Whole runs of the flag table: where flags come from, how they end, and what the event log says about them. */
module ControlFlags {
  import opened Text
  import opened ControlModel
  import opened ControlSteps
  import opened ControlActions

  // ---------------------------------------------------------------- rows

  /** A later version of a flag: only its status and releaser differ, and an ended flag never changes again. */
  predicate LaterFlag(before: Flag, after: Flag) {
    && after == before.(status := after.status, releasedBy := after.releasedBy)
    && (before.status != Active ==> after == before)
  }

  lemma ChangeKeeps(db: Db, change: Change, i: nat)
    requires i < |db.flags|
    ensures i < |Changed(db, change).flags| && LaterFlag(db.flags[i], Changed(db, change).flags[i])
  {
  }

  lemma {:induction false} FlagKept(db: Db, steps: seq<Step>, i: nat)
    requires i < |db.flags|
    ensures i < |Run(db, steps).flags| && LaterFlag(db.flags[i], Run(db, steps).flags[i])
  {
    if steps != [] {
      var before := Run(db, Front(steps));
      FlagKept(db, Front(steps), i);
      StepChange(before, Last(steps));
      ChangeKeeps(before, ChangeOf(before, Last(steps)), i);
      RunLast(db, steps);
    }
  }

  /** Pauses carry an expiry and nothing else does; only what carries one can expire. */
  predicate SoundFlag(f: Flag) {
    && (IsPause(f.flagType) <==> f.expiresAt.Some?)
    && f.scopeId != ""
    && (f.status == Expired ==> f.expiresAt.Some?)
    && (f.status == Released <==> f.releasedBy.Some?)
  }

  predicate SoundFlags(flags: seq<Flag>) {
    forall i :: 0 <= i < |flags| ==> SoundFlag(flags[i])
  }

  lemma RaisedSound(a: Action, id: ActionId, now: Time)
    ensures RaisedFlag(a, id, now).Some? ==> SoundFlag(RaisedFlag(a, id, now).value)
  {
  }

  lemma ChangeSound(db: Db, change: Change)
    requires SoundFlags(db.flags)
    requires change.Raised? ==> SoundFlag(change.flag)
    ensures SoundFlags(Changed(db, change).flags)
  {
  }

  lemma StepFlagsSound(db: Db, step: Step)
    requires SoundFlags(db.flags)
    ensures SoundFlags(Apply(db, step).flags)
  {
    StepChange(db, step);
    if step.Execute? && CanExecute(db, step.id) { RaisedSound(db.actions[step.id], step.id, db.now); }
    ChangeSound(db, ChangeOf(db, step));
  }

  lemma {:induction false} FlagsStaySound(db: Db, steps: seq<Step>)
    requires SoundFlags(db.flags)
    ensures SoundFlags(Run(db, steps).flags)
  {
    if steps != [] {
      FlagsStaySound(db, Front(steps));
      StepFlagsSound(Run(db, Front(steps)), Last(steps));
    }
  }

  // ---------------------------------------------------------------- the event log

  function CreationOf(i: FlagId): FlagEvent -> bool { (e: FlagEvent) => e.CreateEvent? && e.flagId == i }

  function EndingOf(i: FlagId): FlagEvent -> bool { (e: FlagEvent) => !e.CreateEvent? && e.flagId == i }

  /** How many events satisfy `p`. */
  function Events(events: seq<FlagEvent>, p: FlagEvent -> bool): nat {
    if events == [] then 0 else One(p(events[0])) + Events(events[1..], p)
  }

  lemma {:induction false} EventsConcat(a: seq<FlagEvent>, b: seq<FlagEvent>, p: FlagEvent -> bool)
    ensures Events(a + b, p) == Events(a, p) + Events(b, p)
  {
    if a == [] {
      assert a + b == b;
    } else {
      assert (a + b)[1..] == a[1..] + b;
      EventsConcat(a[1..], b, p);
    }
  }

  lemma EventAdded(events: seq<FlagEvent>, e: FlagEvent, p: FlagEvent -> bool)
    ensures Events(events + [e], p) == Events(events, p) + One(p(e))
  {
    EventsConcat(events, [e], p);
    assert [e][1..] == [];
  }

  lemma ExpiryEvents(flag: Flag, k: FlagId, now: Time, p: FlagEvent -> bool)
    ensures Events(ExpiryOf(flag, k, now), p) == One(Due(flag, now) && p(ExpireEvent(k)))
  {
  }

  lemma SweepEvents(flags: seq<Flag>, now: Time, k: nat, p: FlagEvent -> bool)
    requires 0 < k <= |flags|
    ensures Events(ExpireEvents(flags, now, k), p)
      == Events(ExpireEvents(flags, now, k - 1), p) + One(Due(flags[k - 1], now) && p(ExpireEvent(k - 1)))
  {
    EventsConcat(ExpireEvents(flags, now, k - 1), ExpiryOf(flags[k - 1], k - 1, now), p);
    ExpiryEvents(flags[k - 1], k - 1, now, p);
  }

  lemma NoEvents(flags: seq<Flag>, now: Time, p: FlagEvent -> bool)
    ensures Events(ExpireEvents(flags, now, 0), p) == 0
  {
  }

  lemma {:induction false} SweepEnds(flags: seq<Flag>, now: Time, k: nat, i: FlagId)
    requires k <= |flags|
    ensures Events(ExpireEvents(flags, now, k), EndingOf(i)) == One(i < k && Due(flags[i], now))
  {
    if k == 0 {
      NoEvents(flags, now, EndingOf(i));
    } else {
      SweepEnds(flags, now, k - 1, i);
      SweepEvents(flags, now, k, EndingOf(i));
    }
  }

  lemma {:induction false} SweepCreatesNone(flags: seq<Flag>, now: Time, k: nat, i: FlagId)
    requires k <= |flags|
    ensures Events(ExpireEvents(flags, now, k), CreationOf(i)) == 0
  {
    if k == 0 {
      NoEvents(flags, now, CreationOf(i));
    } else {
      SweepCreatesNone(flags, now, k - 1, i);
      SweepEvents(flags, now, k, CreationOf(i));
    }
  }

  /** The log tells a flag's life: created once, and ended once exactly when it is no longer active. */
  predicate LoggedFlag(db: Db, i: FlagId) {
    && Events(db.events, CreationOf(i)) == One(i < |db.flags|)
    && Events(db.events, EndingOf(i)) == One(i < |db.flags| && db.flags[i].status != Active)
  }

  lemma EventLogged(events: seq<FlagEvent>, e: FlagEvent, i: FlagId)
    ensures Events(events + [e], CreationOf(i)) == Events(events, CreationOf(i)) + One(e.CreateEvent? && e.flagId == i)
    ensures Events(events + [e], EndingOf(i)) == Events(events, EndingOf(i)) + One(!e.CreateEvent? && e.flagId == i)
  {
    EventAdded(events, e, CreationOf(i));
    EventAdded(events, e, EndingOf(i));
  }

  lemma RaiseLogged(db: Db, flag: Flag, i: FlagId)
    requires LoggedFlag(db, i) && flag.status == Active
    ensures LoggedFlag(InsertFlag(db, flag), i)
  {
    EventLogged(db.events, CreateEvent(|db.flags|, OrAdmin(flag.requestedBy), flag.reason), i);
  }

  lemma ReleaseLogged(db: Db, flagId: FlagId, admin: Admin, reason: string, i: FlagId)
    requires LoggedFlag(db, i)
    ensures LoggedFlag(ReleaseFlag(db, flagId, admin, reason), i)
  {
    if IsActive(db, flagId) { EventLogged(db.events, ReleaseEvent(flagId, OrAdmin(admin), Trim(reason)), i); }
  }

  lemma SweepLogged(db: Db, i: FlagId)
    requires LoggedFlag(db, i)
    ensures LoggedFlag(SweepFlags(db), i)
  {
    var expired := ExpireEvents(db.flags, db.now, |db.flags|);
    EventsConcat(db.events, expired, CreationOf(i));
    EventsConcat(db.events, expired, EndingOf(i));
    SweepEnds(db.flags, db.now, |db.flags|, i);
    SweepCreatesNone(db.flags, db.now, |db.flags|, i);
  }

  lemma ChangeLogged(db: Db, change: Change, i: FlagId)
    requires LoggedFlag(db, i)
    requires change.Raised? ==> change.flag.status == Active
    ensures LoggedFlag(Changed(db, change), i)
  {
    match change
    case Unchanged =>
    case Raised(flag) => RaiseLogged(db, flag, i);
    case Lowered(flagId, admin, reason) => ReleaseLogged(db, flagId, admin, reason, i);
    case Swept => SweepLogged(db, i);
  }

  /** Along every run each flag has one create event, and one terminal event if it has ended and none otherwise. */
  lemma {:induction false} LogTellsLives(db: Db, steps: seq<Step>, i: FlagId)
    requires Empty(db)
    ensures LoggedFlag(Run(db, steps), i)
  {
    if steps != [] {
      var before := Run(db, Front(steps));
      LogTellsLives(db, Front(steps), i);
      StepChange(before, Last(steps));
      ChangeLogged(before, ChangeOf(before, Last(steps)), i);
      RunLast(db, steps);
      assert LoggedFlag(Changed(before, ChangeOf(before, Last(steps))), i);
    }
  }

  // ---------------------------------------------------------------- provenance

  /** Step `e` of the run executes the action and inserts flag `i`. */
  predicate RaisedAt(db: Db, steps: seq<Step>, e: nat, i: FlagId, flag: Flag) {
    && e < |steps|
    && var before := Run(db, steps[..e]);
    && Executes(before, steps[e], flag.actionId)
    && |before.flags| == i
    && RaisedFlag(before.actions[flag.actionId], flag.actionId, before.now).Some?
    && LaterFlag(RaisedFlag(before.actions[flag.actionId], flag.actionId, before.now).value, flag)
  }

  predicate ApprovedAt(db: Db, steps: seq<Step>, k: nat, id: ActionId, admin: Admin) {
    && k < |steps|
    && Approves(Run(db, steps[..k]), steps[k], id)
    && steps[k].admin == admin
  }

  lemma PrefixOfFront(steps: seq<Step>, k: nat)
    requires steps != [] && k <= |steps| - 1
    ensures Front(steps)[..k] == steps[..k] && steps[..|steps| - 1] == Front(steps)
    ensures k < |Front(steps)| ==> Front(steps)[k] == steps[k]
  {
  }

  lemma ApprovedWithin(db: Db, steps: seq<Step>, e: nat, k: nat, id: ActionId, admin: Admin)
    requires e <= |steps| && ApprovedAt(db, steps[..e], k, id, admin)
    ensures k < e && ApprovedAt(db, steps, k, id, admin)
  {
    assert steps[..e][..k] == steps[..k];
  }

  lemma {:induction false} FindApproval(db: Db, steps: seq<Step>, id: ActionId) returns (k: nat)
    requires Empty(db) && InStatus(Run(db, steps), id, Approved)
    ensures Run(db, steps).actions[id].approvedBy.Some?
    ensures ApprovedAt(db, steps, k, id, Run(db, steps).actions[id].approvedBy.value)
  {
    var before := Run(db, Front(steps));
    RunLast(db, steps);
    if id < |before.actions| {
      StepRow(before, Last(steps), id);
    } else {
      NewAccount(before, Last(steps), id);
    }
    if Approves(before, Last(steps), id) {
      k := |steps| - 1;
      PrefixOfFront(steps, k);
    } else {
      k := FindApproval(db, Front(steps), id);
      PrefixOfFront(steps, k);
    }
  }

  lemma StepRaisedFlag(db: Db, step: Step)
    ensures |Apply(db, step).flags| > |db.flags| ==>
      && step.Execute? && CanExecute(db, step.id)
      && RaisedFlag(db.actions[step.id], step.id, db.now).Some?
      && Apply(db, step).flags == db.flags + [RaisedFlag(db.actions[step.id], step.id, db.now).value]
  {
    StepChange(db, step);
  }

  lemma RaisedLast(db: Db, steps: seq<Step>)
    requires steps != [] && |Run(db, steps).flags| > |Run(db, Front(steps)).flags|
    ensures
      var i := |Run(db, Front(steps)).flags|;
      |Run(db, steps).flags| == i + 1 && RaisedAt(db, steps, |steps| - 1, i, Run(db, steps).flags[i])
  {
    RunLast(db, steps);
    StepRaisedFlag(Run(db, Front(steps)), Last(steps));
    PrefixOfFront(steps, |steps| - 1);
  }

  lemma RaisedEarlier(db: Db, steps: seq<Step>, e: nat, i: FlagId)
    requires steps != [] && i < |Run(db, Front(steps)).flags|
    requires RaisedAt(db, Front(steps), e, i, Run(db, Front(steps)).flags[i])
    ensures i < |Run(db, steps).flags| && RaisedAt(db, steps, e, i, Run(db, steps).flags[i])
  {
    var before := Run(db, Front(steps));
    RunLast(db, steps);
    StepChange(before, Last(steps));
    ChangeKeeps(before, ChangeOf(before, Last(steps)), i);
    PrefixOfFront(steps, e);
  }

  lemma {:induction false} FindRaise(db: Db, steps: seq<Step>, i: FlagId) returns (e: nat)
    requires Empty(db) && i < |Run(db, steps).flags|
    ensures RaisedAt(db, steps, e, i, Run(db, steps).flags[i])
  {
    if i < |Run(db, Front(steps)).flags| {
      e := FindRaise(db, Front(steps), i);
      RaisedEarlier(db, steps, e, i);
      assert RaisedAt(db, steps, e, i, Run(db, steps).flags[i]);
    } else {
      RaisedLast(db, steps);
      e := |steps| - 1;
      assert i == |Run(db, Front(steps)).flags|;
      assert RaisedAt(db, steps, e, i, Run(db, steps).flags[i]);
    }
  }

  /** The flags that take four eyes: charging pauses, and payout freezes of one payout, seller or deal. */
  predicate FourEyed(f: Flag) {
    f.flagType == PauseCharging || (f.flagType == PayoutFreeze && f.scopeType != GlobalScope)
  }

  lemma EmptyIsSound(db: Db)
    requires Empty(db)
    ensures SoundActions(db) && UniqueKeys(db.actions) && SoundFlags(db.flags)
  {
  }

  lemma ReadyToRaise(db: Db, id: ActionId, flag: Flag)
    requires SoundActions(db) && CanExecute(db, id) && RaisedFlag(db.actions[id], id, db.now).Some?
    requires LaterFlag(RaisedFlag(db.actions[id], id, db.now).value, flag) && FourEyed(flag)
    ensures InStatus(db, id, Approved) && flag.approvedBy == db.actions[id].approvedBy
      && flag.requestedBy == db.actions[id].requestedBy
    ensures flag.approvedBy.Some? && (flag.requestedBy == "" || flag.approvedBy.value != flag.requestedBy)
  {
  }

  lemma RunsAreSound(db: Db, steps: seq<Step>)
    requires Empty(db)
    ensures SoundActions(Run(db, steps)) && UniqueKeys(Run(db, steps).actions) && SoundFlags(Run(db, steps).flags)
  {
    EmptyIsSound(db);
    RowsStaySound(db, steps);
    KeysStayUnique(db, steps);
    FlagsStaySound(db, steps);
  }

  /** Every such flag traces back to an approval, by somebody other than the requester, of the action that raised it. */
  lemma FlagProvenance(db: Db, steps: seq<Step>, i: FlagId) returns (k: nat, e: nat)
    requires Empty(db) && i < |Run(db, steps).flags| && FourEyed(Run(db, steps).flags[i])
    ensures
      var flag := Run(db, steps).flags[i];
      && k < e && RaisedAt(db, steps, e, i, flag)
      && flag.approvedBy.Some? && ApprovedAt(db, steps, k, flag.actionId, flag.approvedBy.value)
      && (flag.requestedBy == "" || flag.approvedBy.value != flag.requestedBy)
  {
    var flag := Run(db, steps).flags[i];
    e := FindRaise(db, steps, i);
    RunsAreSound(db, steps[..e]);
    ReadyToRaise(Run(db, steps[..e]), flag.actionId, flag);
    k := FindApproval(db, steps[..e], flag.actionId);
    ApprovedWithin(db, steps, e, k, flag.actionId, flag.approvedBy.value);
  }

  /** Step `e` ended flag `i`: the release route, or an approved unfreeze whose approval is step `k`. */
  predicate ThawedAt(db: Db, steps: seq<Step>, e: nat, i: FlagId, releasedBy: Admin) {
    && e < |steps|
    && ChangeOf(Run(db, steps[..e]), steps[e]).Lowered?
    && ChangeOf(Run(db, steps[..e]), steps[e]).flagId == i
    && ChangeOf(Run(db, steps[..e]), steps[e]).admin == releasedBy
  }

  lemma ChangeReleases(db: Db, change: Change, i: FlagId)
    requires i < |db.flags| && db.flags[i].status != Released && Changed(db, change).flags[i].status == Released
    ensures change.Lowered? && change.flagId == i && Changed(db, change).flags[i].releasedBy == Some(change.admin)
  {
  }

  lemma {:induction false} FindThaw(db: Db, steps: seq<Step>, i: FlagId) returns (e: nat)
    requires Empty(db) && i < |Run(db, steps).flags| && Run(db, steps).flags[i].status == Released
    ensures Run(db, steps).flags[i].releasedBy.Some?
    ensures ThawedAt(db, steps, e, i, Run(db, steps).flags[i].releasedBy.value)
  {
    var before := Run(db, Front(steps));
    RunLast(db, steps);
    StepChange(before, Last(steps));
    StepRaisedFlag(before, Last(steps));
    if i < |before.flags| && before.flags[i].status == Released {
      ChangeKeeps(before, ChangeOf(before, Last(steps)), i);
      e := FindThaw(db, Front(steps), i);
    } else {
      ChangeReleases(before, ChangeOf(before, Last(steps)), i);
      e := |steps| - 1;
    }
    PrefixOfFront(steps, e);
  }

  predicate ByHand(steps: seq<Step>, e: nat, i: FlagId, admin: Admin) {
    e < |steps| && steps[e].Release? && steps[e].flagId == i && steps[e].admin == admin && Trim(steps[e].note) != ""
  }

  /** Step `e` executes an unfreeze action, which `approver` had approved in step `k`. */
  predicate ByApprovedUnfreeze(db: Db, steps: seq<Step>, k: nat, e: nat, approver: Admin, admin: Admin) {
    && k < e < |steps| && steps[e].Execute?
    && var before := Run(db, steps[..e]);
    && Executes(before, steps[e], steps[e].id)
    && before.actions[steps[e].id].actionType == UnfreezePayouts
    && ApprovedAt(db, steps, k, steps[e].id, approver)
    && admin == OrElse(Some(approver), before.actions[steps[e].id].requestedBy)
  }

  lemma ReadyToThaw(db: Db, step: Step)
    requires SoundActions(db) && ChangeOf(db, step).Lowered? && step.Execute?
    ensures CanExecute(db, step.id) && InStatus(db, step.id, Approved)
      && db.actions[step.id].actionType == UnfreezePayouts
    ensures ChangeOf(db, step).admin == OrElse(db.actions[step.id].approvedBy, db.actions[step.id].requestedBy)
  {
  }

  lemma FindUnfreeze(db: Db, steps: seq<Step>, e: nat, i: FlagId, admin: Admin) returns (k: nat, approver: Admin)
    requires Empty(db) && ThawedAt(db, steps, e, i, admin) && steps[e].Execute?
    ensures ByApprovedUnfreeze(db, steps, k, e, approver, admin)
  {
    var before := Run(db, steps[..e]);
    RunsAreSound(db, steps[..e]);
    ReadyToThaw(before, steps[e]);
    k := FindApproval(db, steps[..e], steps[e].id);
    approver := before.actions[steps[e].id].approvedBy.value;
    ApprovedWithin(db, steps, e, k, steps[e].id, approver);
  }

  /** A released freeze was released by hand, or by an unfreeze action that somebody had approved before it ran. */
  lemma ThawProvenance(db: Db, steps: seq<Step>, i: FlagId) returns (k: nat, e: nat, approver: Admin)
    requires Empty(db) && i < |Run(db, steps).flags| && Run(db, steps).flags[i].status == Released
    ensures Run(db, steps).flags[i].releasedBy.Some?
    ensures
      var admin := Run(db, steps).flags[i].releasedBy.value;
      ThawedAt(db, steps, e, i, admin)
          && (ByHand(steps, e, i, admin) || ByApprovedUnfreeze(db, steps, k, e, approver, admin))
  {
    e := FindThaw(db, steps, i);
    k, approver := 0, "";
    var admin := Run(db, steps).flags[i].releasedBy.value;
    if steps[e].Execute? {
      k, approver := FindUnfreeze(db, steps, e, i, admin);
    } else {
      assert ByHand(steps, e, i, admin);
    }
  }

  /** A lowering finds an active flag and leaves it released. */
  lemma LoweredOnce(db: Db, step: Step, i: FlagId)
    requires ChangeOf(db, step).Lowered? && ChangeOf(db, step).flagId == i
    ensures i < |db.flags| && db.flags[i].status == Active
    ensures i < |Apply(db, step).flags| && Apply(db, step).flags[i].status == Released
  {
    StepChange(db, step);
  }

  lemma RunTo(db: Db, steps: seq<Step>, e: nat)
    requires e < |steps|
    ensures Run(db, steps[..e + 1]) == Apply(Run(db, steps[..e]), steps[e])
  {
    assert Front(steps[..e + 1]) == steps[..e] && Last(steps[..e + 1]) == steps[e];
    RunLast(db, steps[..e + 1]);
  }

  lemma StaysEnded(db: Db, steps: seq<Step>, e: nat, f: nat, i: FlagId)
    requires e <= f <= |steps| && i < |Run(db, steps[..e]).flags| && Run(db, steps[..e]).flags[i].status == Released
    ensures i < |Run(db, steps[..f]).flags| && Run(db, steps[..f]).flags[i].status == Released
  {
    assert steps[..f] == steps[..e] + steps[e..f];
    RunConcat(db, steps[..e], steps[e..f]);
    FlagKept(Run(db, steps[..e]), steps[e..f], i);
  }

  lemma ThawedFirst(db: Db, steps: seq<Step>, e: nat, f: nat, i: FlagId, a: Admin, b: Admin)
    requires ThawedAt(db, steps, e, i, a) && ThawedAt(db, steps, f, i, b)
    ensures f <= e
  {
    if e < f {
      LoweredOnce(Run(db, steps[..e]), steps[e], i);
      RunTo(db, steps, e);
      StaysEnded(db, steps, e + 1, f, i);
      LoweredOnce(Run(db, steps[..f]), steps[f], i);
    }
  }

  /** A flag was released by the release route in some step. */
  ghost predicate ReleasedByHand(db: Db, steps: seq<Step>, i: FlagId) {
    exists e: nat, admin :: ThawedAt(db, steps, e, i, admin) && steps[e].Release?
  }

  ghost predicate Unfrozen(db: Db, steps: seq<Step>, i: FlagId) {
    exists k: nat, e: nat, approver, admin :: ThawedAt(db, steps, e, i, admin)
        && ByApprovedUnfreeze(db, steps, k, e, approver, admin)
  }

  /** A released freeze goes back to an approved unfreeze if and only if the release route was not what released it. */
  lemma ThawApprovedIff(db: Db, steps: seq<Step>, i: FlagId)
    requires Empty(db) && i < |Run(db, steps).flags| && Run(db, steps).flags[i].status == Released
    ensures Unfrozen(db, steps, i) <==> !ReleasedByHand(db, steps, i)
  {
    var k, e, approver := ThawProvenance(db, steps, i);
    var admin := Run(db, steps).flags[i].releasedBy.value;
    assert ThawedAt(db, steps, e, i, admin);
    forall f, b | ThawedAt(db, steps, f, i, b) ensures f == e {
      ThawedFirst(db, steps, e, f, i, admin, b);
      ThawedFirst(db, steps, f, e, i, b, admin);
    }
    if ByApprovedUnfreeze(db, steps, k, e, approver, admin) {
      assert Unfrozen(db, steps, i);
    } else {
      assert steps[e].Release? && ReleasedByHand(db, steps, i);
    }
  }
}
