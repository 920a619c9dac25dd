/** What "newest first" means on every run: the listing, and the freeze that an unfreeze picks. */
module ControlAnswers {
  import opened Text
  import opened ControlModel
  import opened ControlSteps
  import opened ControlFlags

  /** Insertion order is the order of creation times, none of which is ahead of the clock. */
  predicate InOrder(flags: seq<Flag>, now: Time) {
    && (forall i, j :: 0 <= i < j < |flags| ==> flags[i].createdAt <= flags[j].createdAt)
    && (forall i :: 0 <= i < |flags| ==> flags[i].createdAt <= now)
  }

  lemma RaisedNow(a: Action, id: ActionId, now: Time)
    ensures RaisedFlag(a, id, now).Some? ==> RaisedFlag(a, id, now).value.createdAt == now
  {
  }

  lemma StepInOrder(db: Db, step: Step)
    requires InOrder(db.flags, db.now)
    ensures InOrder(Apply(db, step).flags, Apply(db, step).now)
  {
    var after := Apply(db, step);
    StepChange(db, step);
    StepRaisedFlag(db, step);
    forall i | 0 <= i < |db.flags| ensures i < |after.flags| && after.flags[i].createdAt == db.flags[i].createdAt {
      ChangeKeeps(db, ChangeOf(db, step), i);
    }
    if |after.flags| > |db.flags| { RaisedNow(db.actions[step.id], step.id, db.now); }
  }

  lemma {:induction false} RunInOrder(db: Db, steps: seq<Step>)
    requires Empty(db)
    ensures InOrder(Run(db, steps).flags, Run(db, steps).now)
  {
    if steps != [] {
      RunInOrder(db, Front(steps));
      StepInOrder(Run(db, Front(steps)), Last(steps));
      RunLast(db, steps);
    }
  }

  /** On every run an unfreeze releases an active freeze of its scope than which none was created later; it finds none
      exactly when there is none. */
  lemma {:induction false} ThawsTheNewest(db: Db, steps: seq<Step>, scopeType: ScopeType, scopeId: string)
    requires Empty(db)
    ensures
      var flags := Run(db, steps).flags;
      var i := NewestFreeze(flags, scopeType, scopeId, |flags|);
      forall j :: 0 <= j < |flags| && IsFreezeAt(flags[j], scopeType, scopeId) ==>
        i >= 0 && IsFreezeAt(flags[i], scopeType, scopeId) && flags[j].createdAt <= flags[i].createdAt
  {
    RunInOrder(db, steps);
  }

  // ---------------------------------------------------------------- the listing

  predicate NewestFirst(list: seq<Flag>) {
    forall i, j :: 0 <= i < j < |list| ==> list[i].createdAt >= list[j].createdAt
  }

  /** What the listing asks of a row: in force, and as each given filter says; an empty scope id is no filter. */
  predicate Shows(flag: Flag, filter: Filter, now: Time) {
    && flag.status == Active && !(flag.expiresAt.Some? && flag.expiresAt.value <= now)
    && filter.flagType in {None, Some(flag.flagType)} && filter.scopeType in {None, Some(flag.scopeType)}
    && filter.scopeId in {None, Some(""), Some(flag.scopeId)}
  }

  /** How many rows from `from` on and before `k` are shown. */
  function ShownIn(db: Db, filter: Filter, from: nat, k: nat): nat
    requires from <= k <= |db.flags|
  {
    if k == from then 0 else ShownIn(db, filter, from, k - 1) + if Shows(db.flags[k - 1], filter, db.now) then 1 else 0
  }

  lemma ListedShows(flag: Flag, filter: Filter, now: Time)
    ensures Listed(flag, filter, now) <==> Shows(flag, filter, now)
  {
  }

  lemma {:induction false} ListCounts(db: Db, filter: Filter, k: nat)
    requires k <= |db.flags|
    ensures |ListFlags(db, filter, k)| == ShownIn(db, filter, 0, k)
  {
    if k > 0 {
      ListCounts(db, filter, k - 1);
      ListedShows(db.flags[k - 1], filter, db.now);
    }
  }

  lemma {:induction false} ListHolds(db: Db, filter: Filter, k: nat, flag: Flag)
    requires k <= |db.flags| && flag in ListFlags(db, filter, k)
    ensures flag in db.flags[..k] && Shows(flag, filter, db.now)
  {
    if flag in ListFlags(db, filter, k - 1) {
      ListHolds(db, filter, k - 1, flag);
      assert db.flags[..k] == db.flags[..k - 1] + [db.flags[k - 1]];
    } else {
      assert db.flags[..k][k - 1] == flag;
      ListedShows(flag, filter, db.now);
    }
  }

  lemma {:induction false} ListPlace(db: Db, filter: Filter, k: nat, p: nat)
    requires p < k <= |db.flags| && Shows(db.flags[p], filter, db.now)
    ensures
      var i := ShownIn(db, filter, p + 1, k);
      i < |ListFlags(db, filter, k)| && ListFlags(db, filter, k)[i] == db.flags[p]
  {
    ListedShows(db.flags[k - 1], filter, db.now);
    if p < k - 1 { ListPlace(db, filter, k - 1, p); }
  }

  lemma {:induction false} ListOrdered(db: Db, filter: Filter, k: nat)
    requires k <= |db.flags| && InOrder(db.flags, db.now)
    ensures NewestFirst(ListFlags(db, filter, k))
  {
    if k > 0 {
      ListOrdered(db, filter, k - 1);
      var rest := ListFlags(db, filter, k - 1);
      forall i | 0 <= i < |rest| ensures rest[i].createdAt <= db.flags[k - 1].createdAt {
        ListHolds(db, filter, k - 1, rest[i]);
      }
    }
  }

  /** On every run the listing shows rows that are in force and as its filter says, newest first; all of them up to 200, and
      200 of them beyond that. */
  lemma {:induction false} ListedExactly(db: Db, steps: seq<Step>, filter: Filter)
    requires Empty(db)
    ensures
      var at := Run(db, steps);
      var list, n := ListActive(at, filter), ShownIn(at, filter, 0, |at.flags|);
      && |list| == (if n <= 200 then n else 200) && NewestFirst(list)
      && (forall flag :: flag in list ==> flag in at.flags && Shows(flag, filter, at.now))
  {
    var at := Run(db, steps);
    RunInOrder(db, steps);
    ListCounts(at, filter, |at.flags|);
    ListOrdered(at, filter, |at.flags|);
    var all := ListFlags(at, filter, |at.flags|);
    forall flag | flag in ListActive(at, filter) ensures flag in at.flags && Shows(flag, filter, at.now) {
      assert flag in all;
      ListHolds(at, filter, |at.flags|, flag);
    }
  }

  /** In any state such a row is shown exactly when fewer than 200 of them were inserted after it, and in that place. */
  lemma {:induction false} ListedWhere(at: Db, filter: Filter, p: nat)
    requires p < |at.flags| && Shows(at.flags[p], filter, at.now)
    ensures
      var list, newer := ListActive(at, filter), ShownIn(at, filter, p + 1, |at.flags|);
      (newer < |list| <==> newer < 200) && (newer < 200 ==> list[newer] == at.flags[p])
  {
    ListPlace(at, filter, |at.flags|, p);
  }
}
