/** Expiry is a matter of time alone: no answer and no later step depends on when, or whether, the sweeper runs. */
module ControlSweeps {
  import opened ControlModel
  import opened ControlSteps
  import opened ControlFlags

  /** Rows that differ at most in how a pause past its expiry is marked. */
  predicate AlikeRows(f: Flag, g: Flag, now: Time) {
    || f == g
    || (IsPause(f.flagType) && f.expiresAt.Some? && f.expiresAt.value <= now
        && g == f.(status := g.status, releasedBy := g.releasedBy))
  }

  predicate AlikeFlags(a: seq<Flag>, b: seq<Flag>, now: Time) {
    |a| == |b| && forall i :: 0 <= i < |a| ==> AlikeRows(a[i], b[i], now)
  }

  /** Everything but the marking of expired pauses, and the log of it, is the same. */
  predicate Alike(a: Db, b: Db) {
    && a.actions == b.actions && a.outbox == b.outbox && a.audits == b.audits && a.now == b.now
    && AlikeFlags(a.flags, b.flags, a.now)
  }

  // ---------------------------------------------------------------- the answers

  lemma SameGate(a: Db, b: Db, flagType: FlagType, scopeType: ScopeType, scopeId: string)
    requires Alike(a, b)
    ensures IsFlagActive(a, flagType, scopeType, scopeId) <==> IsFlagActive(b, flagType, scopeType, scopeId)
  {
  }

  lemma {:induction false} SameList(a: Db, b: Db, filter: Filter, k: nat)
    requires Alike(a, b) && k <= |a.flags|
    ensures ListFlags(a, filter, k) == ListFlags(b, filter, k)
  {
    if k > 0 {
      SameList(a, b, filter, k - 1);
      assert AlikeRows(a.flags[k - 1], b.flags[k - 1], a.now);
    }
  }

  ghost predicate SameAnswers(a: Db, b: Db) {
    && (forall flagType, scopeType, scopeId :: IsFlagActive(a, flagType, scopeType, scopeId) == IsFlagActive(b, flagType, scopeType, scopeId))
    && (forall filter :: ListActive(a, filter) == ListActive(b, filter))
    && a.actions == b.actions
  }

  lemma AlikeAnswers(a: Db, b: Db)
    requires Alike(a, b)
    ensures SameAnswers(a, b)
  {
    forall flagType, scopeType, scopeId
      ensures IsFlagActive(a, flagType, scopeType, scopeId) == IsFlagActive(b, flagType, scopeType, scopeId)
    {
      SameGate(a, b, flagType, scopeType, scopeId);
    }
    forall filter ensures ListActive(a, filter) == ListActive(b, filter) {
      SameList(a, b, filter, |a.flags|);
    }
  }

  // ---------------------------------------------------------------- the steps

  lemma SameNewestFreeze(a: Db, b: Db, scopeType: ScopeType, scopeId: string, k: nat)
    requires Alike(a, b) && k <= |a.flags|
    ensures NewestFreeze(a.flags, scopeType, scopeId, k) == NewestFreeze(b.flags, scopeType, scopeId, k)
  {
  }

  lemma SameThaw(a: Db, b: Db, action: Action)
    requires Alike(a, b)
    ensures Thawed(a, action) == Thawed(b, action)
  {
  }

  lemma AlikeReleased(a: Db, b: Db, flagId: FlagId, admin: Admin, reason: string)
    requires Alike(a, b)
    ensures Alike(ReleaseFlag(a, flagId, admin, reason), ReleaseFlag(b, flagId, admin, reason))
  {
  }

  lemma AlikeInserted(a: Db, b: Db, flag: Flag)
    requires Alike(a, b)
    ensures Alike(InsertFlag(a, flag), InsertFlag(b, flag))
  {
  }

  /** The executor sees no difference: same verdict, same result code, same effects. */
  lemma AlikePerformed(a: Db, b: Db, id: ActionId, action: Action, elsewhere: bool)
    requires Alike(a, b)
    ensures Alike(Perform(a, id, action, elsewhere).db, Perform(b, id, action, elsewhere).db)
    ensures Perform(a, id, action, elsewhere).completed == Perform(b, id, action, elsewhere).completed
  {
    if FlagTypeOf(action.actionType).Some? {
      PerformRaises(a, id, action, elsewhere);
      PerformRaises(b, id, action, elsewhere);
      if RaisedFlag(action, id, a.now).Some? { AlikeInserted(a, b, RaisedFlag(action, id, a.now).value); }
    } else if action.actionType == UnfreezePayouts {
      PerformThaws(a, id, action, elsewhere);
      PerformThaws(b, id, action, elsewhere);
      SameThaw(a, b, action);
      if Thawed(a, action) >= 0 {
        AlikeReleased(a, b, Thawed(a, action), OrElse(action.approvedBy, action.requestedBy), action.reason);
      }
    } else if action.actionType == RequeueOutboxEvent {
      assert Alike(Requeue(a, id, action.targetId).db, Requeue(b, id, action.targetId).db);
    }
  }

  lemma SameCode(a: Db, b: Db, id: ActionId, action: Action, elsewhere: bool)
    requires Alike(a, b)
    ensures Perform(a, id, action, elsewhere).code == Perform(b, id, action, elsewhere).code
  {
    if action.actionType == UnfreezePayouts && FlagScope(action.targetType, PayoutFreeze).Some? {
      SameNewestFreeze(a, b, FlagScope(action.targetType, PayoutFreeze).value, action.targetId, |a.flags|);
    }
  }

  lemma AlikeExecuted(a: Db, b: Db, id: ActionId, elsewhere: bool)
    requires Alike(a, b)
    ensures Alike(ExecuteAction(a, id, elsewhere), ExecuteAction(b, id, elsewhere))
  {
    if CanExecute(a, id) {
      AlikePerformed(a, b, id, a.actions[id], elsewhere);
      SameCode(a, b, id, a.actions[id], elsewhere);
    }
  }

  lemma AlikeSwept(a: Db, b: Db)
    requires Alike(a, b)
    ensures Alike(SweepFlags(a), SweepFlags(b))
  {
  }

  lemma AlikeElapsed(a: Db, b: Db, seconds: nat)
    requires Alike(a, b)
    ensures Alike(a.(now := a.now + seconds), b.(now := b.now + seconds))
  {
  }

  lemma AlikeStep(a: Db, b: Db, step: Step)
    requires Alike(a, b)
    ensures Alike(Apply(a, step), Apply(b, step))
  {
    match step
    case Insert(r) =>
    case Approve(id, admin, note) =>
    case Reject(id, admin, note) =>
    case Execute(id, elsewhere) => AlikeExecuted(a, b, id, elsewhere);
    case Release(flagId, admin, note) => AlikeReleased(a, b, flagId, admin, note);
    case Sweep => AlikeSwept(a, b);
    case WorkerWrites(eventId, row) =>
    case Elapse(seconds) => AlikeElapsed(a, b, seconds);
  }

  // ---------------------------------------------------------------- every run

  lemma SweepIsUnseen(db: Db)
    requires SoundFlags(db.flags)
    ensures Alike(SweepFlags(db), db) && Alike(db, db)
  {
  }

  lemma AlikeTrans(a: Db, b: Db, c: Db)
    requires Alike(a, b) && Alike(b, c)
    ensures Alike(a, c)
  {
  }

  /** The same run with its sweeps left out. */
  function Unswept(steps: seq<Step>): seq<Step> {
    if steps == [] then []
    else Unswept(Front(steps)) + if Last(steps) == Sweep then [] else [Last(steps)]
  }

  lemma {:induction false} UnsweptAlike(db: Db, steps: seq<Step>)
    requires Empty(db)
    ensures Alike(Run(db, steps), Run(db, Unswept(steps)))
  {
    if steps == [] {
      EmptyIsSound(db);
      SweepIsUnseen(db);
    } else {
      var before := Run(db, Front(steps));
      UnsweptAlike(db, Front(steps));
      RunLast(db, steps);
      if Last(steps) == Sweep {
        assert Unswept(steps) == Unswept(Front(steps));
        RunsAreSound(db, Front(steps));
        SweepIsUnseen(before);
        AlikeTrans(SweepFlags(before), before, Run(db, Unswept(Front(steps))));
      } else {
        AlikeStep(before, Run(db, Unswept(Front(steps))), Last(steps));
        var unswept := Unswept(steps);
        assert Front(unswept) == Unswept(Front(steps)) && Last(unswept) == Last(steps);
        RunLast(db, unswept);
      }
    }
  }

  /** Two runs that differ only in where, or whether, the sweeper runs end with the same answers to every gate and
      every listing, and with the same action rows. */
  lemma SweepsAreUnseen(db: Db, swept: seq<Step>, other: seq<Step>)
    requires Empty(db) && Unswept(swept) == Unswept(other)
    ensures SameAnswers(Run(db, swept), Run(db, other))
  {
    UnsweptAlike(db, swept);
    UnsweptAlike(db, other);
    AlikeAnswers(Run(db, swept), Run(db, Unswept(swept)));
    AlikeAnswers(Run(db, other), Run(db, Unswept(swept)));
  }

  /** A pause has an end, fixed when it is raised: whatever steps follow, from that time on it is not in force. */
  lemma PauseEndsByTime(db: Db, steps: seq<Step>, more: seq<Step>, i: FlagId)
    requires Empty(db) && i < |Run(db, steps).flags| && IsPause(Run(db, steps).flags[i].flagType)
    ensures
      var flag := Run(db, steps).flags[i];
      var later := Run(Run(db, steps), more);
      && flag.expiresAt.Some? && i < |later.flags|
      && (later.now >= flag.expiresAt.value ==> !InForce(later.flags[i], later.now))
  {
    RunsAreSound(db, steps);
    assert SoundFlag(Run(db, steps).flags[i]);
    FlagKept(Run(db, steps), more, i);
  }

  /** A payout freeze or takedown has none: time and sweeps never end it. */
  lemma {:induction false} FreezeOutlastsTime(db: Db, steps: seq<Step>, more: seq<Step>, i: FlagId)
    requires Empty(db) && i < |Run(db, steps).flags|
    requires Run(db, steps).flags[i].status == Active && !IsPause(Run(db, steps).flags[i].flagType)
    requires forall k :: 0 <= k < |more| ==> more[k].Sweep? || more[k].Elapse?
    ensures
      var later := Run(Run(db, steps), more);
      i < |later.flags| && later.flags[i] == Run(db, steps).flags[i] && InForce(later.flags[i], later.now)
  {
    var from := Run(db, steps);
    RunsAreSound(db, steps);
    assert SoundFlag(from.flags[i]);
    if more != [] {
      FreezeOutlastsTime(db, steps, Front(more), i);
      RunLast(from, more);
      assert Last(more).Sweep? || Last(more).Elapse?;
    }
  }
}
