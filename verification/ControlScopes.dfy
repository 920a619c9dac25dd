/** What executing an action does to the flags, target by target and row by row, and what the gates answer then. */
module ControlScopes {
  import opened Text
  import opened ControlModel
  import opened ControlSteps
  import opened ControlActions
  import opened ControlFreezes

  // ---------------------------------------------------------------- rows

  /** One active row more, with this scope, for the action's target; and its create event; and the action has completed. */
  predicate AddsRow(db: Db, after: Db, id: ActionId, flagType: FlagType, scopeType: ScopeType, expiresAt: Option<Time>)
    requires id < |db.actions|
  {
    var a := db.actions[id];
    && after.flags == db.flags + [Flag(flagType, scopeType, a.targetId, Active, a.reason, a.requestedBy, a.approvedBy, id,
                                       expiresAt, db.now, None)]
    && after.events == db.events + [CreateEvent(|db.flags|, if a.requestedBy == "" then "admin" else a.requestedBy, a.reason)]
    && InStatus(after, id, Completed) && after.now == db.now
  }

  /** No row, no event, and the action has failed. */
  predicate AddsNothing(db: Db, after: Db, id: ActionId) {
    after.flags == db.flags && after.events == db.events && InStatus(after, id, Failed) && after.now == db.now
  }

  lemma FreezeRows(db: Db, id: ActionId, elsewhere: bool)
    requires SoundActions(db) && CanExecute(db, id) && db.actions[id].actionType == FreezePayouts
    ensures
      var after, target := Apply(db, Execute(id, elsewhere)), db.actions[id].targetType;
      && (target == SellerTarget ==> AddsRow(db, after, id, PayoutFreeze, SellerScope, None))
      && (target == DealTarget ==> AddsRow(db, after, id, PayoutFreeze, DealScope, None))
      && (target == PayoutTarget ==> AddsRow(db, after, id, PayoutFreeze, PayoutScope, None))
      && (target == SystemTarget ==> AddsRow(db, after, id, PayoutFreeze, GlobalScope, None))
      && (target !in {SellerTarget, DealTarget, PayoutTarget, SystemTarget} ==> AddsNothing(db, after, id))
  {
    assert SoundAction(db.actions[id]);
    SoundTrims(db.actions[id]);
  }

  function Given(a: Action): DateInput { if a.expiresAt == Absent then a.pauseExpiresAt else a.expiresAt }

  predicate PauseRow(db: Db, after: Db, id: ActionId, flagType: FlagType, scopeType: ScopeType)
    requires id < |db.actions|
  {
    if Given(db.actions[id]).At? then AddsRow(db, after, id, flagType, scopeType, Some(Given(db.actions[id]).time))
    else AddsNothing(db, after, id)
  }

  predicate PauseRowsAre(db: Db, after: Db, id: ActionId, flagType: FlagType)
    requires id < |db.actions|
  {
    var target := db.actions[id].targetType;
    && (target == SellerTarget ==> PauseRow(db, after, id, flagType, SellerScope))
    && (target == DealTarget ==> PauseRow(db, after, id, flagType, DealScope))
    && (target == SystemTarget ==> PauseRow(db, after, id, flagType, GlobalScope))
    && (target !in {SellerTarget, DealTarget, SystemTarget} ==> AddsNothing(db, after, id))
  }

  /** The row of a pause: none where its target has no scope, or its date is missing or no date. */
  lemma PauseIsRaised(a: Action, id: ActionId, now: Time, flagType: FlagType)
    requires SoundAction(a) && IsPause(flagType) && FlagTypeOf(a.actionType) == Some(flagType)
    ensures
      var scope := FlagScope(a.targetType, flagType);
      RaisedFlag(a, id, now) ==
        if scope.None? || !Given(a).At? then None
        else Some(Flag(flagType, scope.value, a.targetId, Active, a.reason, a.requestedBy, a.approvedBy, id,
                       Some(Given(a).time), now, None))
  {
    SoundTrims(a);
  }

  lemma PauseRowsOf(db: Db, id: ActionId, elsewhere: bool, flagType: FlagType)
    requires SoundActions(db) && CanExecute(db, id)
    requires (flagType == PauseJoining && db.actions[id].actionType == PauseJoiningEmergency)
      || (flagType == PauseCharging && db.actions[id].actionType == PauseChargingEmergency)
    ensures PauseRowsAre(db, Apply(db, Execute(id, elsewhere)), id, flagType)
  {
    var a := db.actions[id];
    assert SoundAction(a);
    PauseIsRaised(a, id, db.now, flagType);
    PerformRaises(db, id, a, elsewhere);
  }

  lemma PauseRows(db: Db, id: ActionId, elsewhere: bool)
    requires SoundActions(db) && CanExecute(db, id)
    ensures db.actions[id].actionType == PauseJoiningEmergency ==>
      PauseRowsAre(db, Apply(db, Execute(id, elsewhere)), id, PauseJoining)
    ensures db.actions[id].actionType == PauseChargingEmergency ==>
      PauseRowsAre(db, Apply(db, Execute(id, elsewhere)), id, PauseCharging)
  {
    if db.actions[id].actionType == PauseJoiningEmergency { PauseRowsOf(db, id, elsewhere, PauseJoining); }
    if db.actions[id].actionType == PauseChargingEmergency { PauseRowsOf(db, id, elsewhere, PauseCharging); }
  }

  lemma TakedownRows(db: Db, id: ActionId, elsewhere: bool)
    requires SoundActions(db) && CanExecute(db, id) && db.actions[id].actionType == ContentTakedownRequest
    ensures
      var after, target := Apply(db, Execute(id, elsewhere)), db.actions[id].targetType;
      && (target == SellerTarget ==> AddsRow(db, after, id, ContentTakedown, SellerScope, None))
      && (target == DealTarget ==> AddsRow(db, after, id, ContentTakedown, DealScope, None))
      && (target == ContentTarget ==> AddsRow(db, after, id, ContentTakedown, ContentScope, None))
      && (target !in {SellerTarget, DealTarget, ContentTarget} ==> AddsNothing(db, after, id))
  {
    assert SoundAction(db.actions[id]);
    SoundTrims(db.actions[id]);
  }

  /** Flag `i` is the newest active freeze of the action's target at this scope, and ends; the action has completed. */
  predicate EndsAt(db: Db, after: Db, id: ActionId, scopeType: ScopeType, i: nat)
    requires id < |db.actions|
  {
    var a := db.actions[id];
    var who := if a.approvedBy.Some? && a.approvedBy.value != "" then a.approvedBy.value
               else if a.requestedBy == "" then "admin" else a.requestedBy;
    && i < |db.flags| && IsFreezeAt(db.flags[i], scopeType, a.targetId)
    && (forall j :: i < j < |db.flags| ==> !IsFreezeAt(db.flags[j], scopeType, a.targetId))
    && after.flags == db.flags[i := db.flags[i].(status := Released, releasedBy := Some(who))]
    && after.events == db.events + [ReleaseEvent(i, who, a.reason)] && InStatus(after, id, Completed)
  }

  /** An unfreeze of this target ends the newest active freeze of this scope, and nothing else; it fails if there is none. */
  predicate EndsNewest(db: Db, after: Db, id: ActionId, scopeType: ScopeType)
    requires id < |db.actions|
  {
    if forall j :: 0 <= j < |db.flags| ==> !IsFreezeAt(db.flags[j], scopeType, db.actions[id].targetId) then
      AddsNothing(db, after, id)
    else exists i :: 0 <= i < |db.flags| && EndsAt(db, after, id, scopeType, i)
  }

  lemma UnfreezeEnds(db: Db, id: ActionId, elsewhere: bool, scopeType: ScopeType, i: nat)
    requires SoundActions(db) && CanExecute(db, id) && db.actions[id].actionType == UnfreezePayouts
    requires FlagScope(db.actions[id].targetType, PayoutFreeze) == Some(scopeType)
    requires NewestFreeze(db.flags, scopeType, db.actions[id].targetId, |db.flags|) == i
    ensures EndsAt(db, Apply(db, Execute(id, elsewhere)), id, scopeType, i)
  {
    assert SoundAction(db.actions[id]);
    SoundTrims(db.actions[id]);
  }

  lemma UnfreezeAt(db: Db, id: ActionId, elsewhere: bool, scopeType: ScopeType)
    requires SoundActions(db) && CanExecute(db, id) && db.actions[id].actionType == UnfreezePayouts
    requires FlagScope(db.actions[id].targetType, PayoutFreeze) == Some(scopeType)
    ensures EndsNewest(db, Apply(db, Execute(id, elsewhere)), id, scopeType)
  {
    var i := NewestFreeze(db.flags, scopeType, db.actions[id].targetId, |db.flags|);
    if i >= 0 {
      assert IsFreezeAt(db.flags[i], scopeType, db.actions[id].targetId);
      UnfreezeEnds(db, id, elsewhere, scopeType, i);
    }
  }

  lemma UnfreezeRows(db: Db, id: ActionId, elsewhere: bool)
    requires SoundActions(db) && CanExecute(db, id) && db.actions[id].actionType == UnfreezePayouts
    ensures
      var after, target := Apply(db, Execute(id, elsewhere)), db.actions[id].targetType;
      && (target == SellerTarget ==> EndsNewest(db, after, id, SellerScope))
      && (target == DealTarget ==> EndsNewest(db, after, id, DealScope))
      && (target == PayoutTarget ==> EndsNewest(db, after, id, PayoutScope))
      && (target == SystemTarget ==> EndsNewest(db, after, id, GlobalScope))
      && (target !in {SellerTarget, DealTarget, PayoutTarget, SystemTarget} ==> AddsNothing(db, after, id))
  {
    var scope := FlagScope(db.actions[id].targetType, PayoutFreeze);
    if scope.Some? { UnfreezeAt(db, id, elsewhere, scope.value); }
  }

  /** Every other action leaves the flags and their events alone. */
  lemma OtherRows(db: Db, id: ActionId, elsewhere: bool)
    requires CanExecute(db, id)
    requires db.actions[id].actionType !in {FreezePayouts, UnfreezePayouts, PauseJoiningEmergency, PauseChargingEmergency,
                                            ContentTakedownRequest}
    ensures
      var after := Apply(db, Execute(id, elsewhere));
      after.flags == db.flags && after.events == db.events
  {
  }

  // ---------------------------------------------------------------- gates

  lemma OneRowMore(db: Db, after: Db, flag: Flag, flagType: FlagType, scopeType: ScopeType, scopeId: string)
    requires after.flags == db.flags + [flag] && after.now == db.now
    ensures IsFlagActive(after, flagType, scopeType, scopeId)
      <==> IsFlagActive(db, flagType, scopeType, scopeId) || Gates(flag, flagType, scopeType, scopeId, db.now)
  {
    var n := |db.flags|;
    assert after.flags[n] == flag && forall i :: 0 <= i < n ==> after.flags[i] == db.flags[i];
    if Gates(flag, flagType, scopeType, scopeId, db.now) {
      assert Gates(after.flags[n], flagType, scopeType, scopeId, after.now);
    }
    if IsFlagActive(db, flagType, scopeType, scopeId) {
      var i :| 0 <= i < n && Gates(db.flags[i], flagType, scopeType, scopeId, db.now);
      assert Gates(after.flags[i], flagType, scopeType, scopeId, after.now);
    }
  }

  lemma OnePayoutRowMore(db: Db, after: Db, flag: Flag, seller: string, deal: string)
    requires after.flags == db.flags + [flag] && after.now == db.now
    ensures PayoutFrozen(after, seller, deal) <==> PayoutFrozen(db, seller, deal) || BlocksPayout(flag, seller, deal, db.now)
  {
    var n := |db.flags|;
    assert after.flags[n] == flag && forall i :: 0 <= i < n ==> after.flags[i] == db.flags[i];
    if BlocksPayout(flag, seller, deal, db.now) { assert BlocksPayout(after.flags[n], seller, deal, after.now); }
    if PayoutFrozen(db, seller, deal) {
      var i :| 0 <= i < n && BlocksPayout(db.flags[i], seller, deal, db.now);
      assert BlocksPayout(after.flags[i], seller, deal, after.now);
    }
  }

  /** The row that an execution added, if any. */
  function NewRow(db: Db, after: Db): Flag
    requires |after.flags| == |db.flags| + 1
  {
    after.flags[|db.flags|]
  }

  /** An executed freeze holds back the payouts of its seller, of its deal, or, under the id global, all of them; and those
      that were held back before. A freeze of one payout, or of anything else, holds back none. */
  lemma FreezeHoldsBack(db: Db, id: ActionId, elsewhere: bool, seller: string, deal: string)
    requires SoundActions(db) && CanExecute(db, id) && db.actions[id].actionType == FreezePayouts
    ensures
      var after, target, x := Apply(db, Execute(id, elsewhere)), db.actions[id].targetType, db.actions[id].targetId;
      PayoutFrozen(after, seller, deal) <==>
        || PayoutFrozen(db, seller, deal)
        || (target == SellerTarget && seller == x) || (target == DealTarget && deal == x)
        || (target == SystemTarget && x == "global")
  {
    var after := Apply(db, Execute(id, elsewhere));
    FreezeRows(db, id, elsewhere);
    if db.actions[id].targetType in {SellerTarget, DealTarget, PayoutTarget, SystemTarget} {
      OnePayoutRowMore(db, after, NewRow(db, after), seller, deal);
    }
  }

  /** The same for the gate that is asked about one scope. */
  lemma FreezeCloses(db: Db, id: ActionId, elsewhere: bool, scopeType: ScopeType, scopeId: string)
    requires SoundActions(db) && CanExecute(db, id) && db.actions[id].actionType == FreezePayouts
    ensures
      var after, target, x := Apply(db, Execute(id, elsewhere)), db.actions[id].targetType, db.actions[id].targetId;
      IsFlagActive(after, PayoutFreeze, scopeType, scopeId) <==>
        || IsFlagActive(db, PayoutFreeze, scopeType, scopeId)
        || (target == SellerTarget && scopeType == SellerScope && scopeId == x)
        || (target == DealTarget && scopeType == DealScope && scopeId == x)
        || (target == PayoutTarget && scopeType == PayoutScope && scopeId == x)
        || (target == SystemTarget && (x == "global" || (scopeType == GlobalScope && scopeId == x)))
  {
    var after := Apply(db, Execute(id, elsewhere));
    FreezeRows(db, id, elsewhere);
    if db.actions[id].targetType in {SellerTarget, DealTarget, PayoutTarget, SystemTarget} {
      OneRowMore(db, after, NewRow(db, after), PayoutFreeze, scopeType, scopeId);
    }
  }

  /** Whether a pause of this target is asked about at this scope. */
  predicate Asked(target: TargetType, x: string, scopeType: ScopeType, scopeId: string) {
    || (target == SellerTarget && scopeType == SellerScope && scopeId == x)
    || (target == DealTarget && scopeType == DealScope && scopeId == x)
    || (target == SystemTarget && (x == "global" || (scopeType == GlobalScope && scopeId == x)))
  }

  lemma PauseRowCloses(db: Db, after: Db, id: ActionId, flagType: FlagType, own: ScopeType, scopeType: ScopeType, scopeId: string)
    requires id < |db.actions| && PauseRow(db, after, id, flagType, own)
    ensures IsFlagActive(after, flagType, scopeType, scopeId) <==>
      || IsFlagActive(db, flagType, scopeType, scopeId)
      || (Given(db.actions[id]).At? && Given(db.actions[id]).time > db.now
          && ((own == GlobalScope && db.actions[id].targetId == "global")
              || (own == scopeType && db.actions[id].targetId == scopeId)))
  {
    if Given(db.actions[id]).At? {
      OneRowMore(db, after, NewRow(db, after), flagType, scopeType, scopeId);
    } else {
      SameRowsSameGate(db, after, flagType, scopeType, scopeId);
    }
  }

  /** A pause that lasts beyond now closes its own gate at its scope, and no other. */
  lemma PauseCloses(db: Db, id: ActionId, elsewhere: bool, flagType: FlagType, scopeType: ScopeType, scopeId: string)
    requires SoundActions(db) && CanExecute(db, id) && flagType in {PauseJoining, PauseCharging}
    requires db.actions[id].actionType == if flagType == PauseJoining then PauseJoiningEmergency else PauseChargingEmergency
    ensures
      var after, a := Apply(db, Execute(id, elsewhere)), db.actions[id];
      IsFlagActive(after, flagType, scopeType, scopeId) <==>
        || IsFlagActive(db, flagType, scopeType, scopeId)
        || (Given(a).At? && Given(a).time > db.now && Asked(a.targetType, a.targetId, scopeType, scopeId))
  {
    var after := Apply(db, Execute(id, elsewhere));
    PauseRows(db, id, elsewhere);
    match db.actions[id].targetType
    case SellerTarget => PauseRowCloses(db, after, id, flagType, SellerScope, scopeType, scopeId);
    case DealTarget => PauseRowCloses(db, after, id, flagType, DealScope, scopeType, scopeId);
    case SystemTarget => PauseRowCloses(db, after, id, flagType, GlobalScope, scopeType, scopeId);
    case _ => SameRowsSameGate(db, after, flagType, scopeType, scopeId);
  }

  /** A takedown closes the gate of its deal, its content, or its seller. */
  lemma TakedownCloses(db: Db, id: ActionId, elsewhere: bool, scopeType: ScopeType, scopeId: string)
    requires SoundActions(db) && CanExecute(db, id) && db.actions[id].actionType == ContentTakedownRequest
    ensures
      var after, target, x := Apply(db, Execute(id, elsewhere)), db.actions[id].targetType, db.actions[id].targetId;
      IsFlagActive(after, ContentTakedown, scopeType, scopeId) <==>
        || IsFlagActive(db, ContentTakedown, scopeType, scopeId)
        || (target == SellerTarget && scopeType == SellerScope && scopeId == x)
        || (target == DealTarget && scopeType == DealScope && scopeId == x)
        || (target == ContentTarget && scopeType == ContentScope && scopeId == x)
  {
    var after := Apply(db, Execute(id, elsewhere));
    TakedownRows(db, id, elsewhere);
    if db.actions[id].targetType in {SellerTarget, DealTarget, ContentTarget} {
      OneRowMore(db, after, NewRow(db, after), ContentTakedown, scopeType, scopeId);
    }
  }

  /** At most one row is added, of the action's own flag type. */
  predicate AddsOwnRow(db: Db, after: Db, actionType: ActionType) {
    && after.now == db.now
    && (after.flags == db.flags
        || (|after.flags| == |db.flags| + 1 && after.flags == db.flags + [NewRow(db, after)]
            && FlagTypeOf(actionType) == Some(NewRow(db, after).flagType)))
  }

  lemma OwnRowOnly(db: Db, id: ActionId, elsewhere: bool)
    requires SoundActions(db) && CanExecute(db, id) && db.actions[id].actionType != UnfreezePayouts
    ensures AddsOwnRow(db, Apply(db, Execute(id, elsewhere)), db.actions[id].actionType)
  {
    if FlagTypeOf(db.actions[id].actionType).Some? {
      PerformRaises(db, id, db.actions[id], elsewhere);
    } else {
      OtherRows(db, id, elsewhere);
      PerformElsewhere(db, id, db.actions[id], elsewhere);
    }
  }

  /** An execution closes no gate of another flag type. */
  lemma OtherGatesStay(db: Db, id: ActionId, elsewhere: bool, flagType: FlagType, scopeType: ScopeType, scopeId: string)
    requires SoundActions(db) && CanExecute(db, id) && db.actions[id].actionType != UnfreezePayouts
    requires FlagTypeOf(db.actions[id].actionType) != Some(flagType)
    ensures IsFlagActive(Apply(db, Execute(id, elsewhere)), flagType, scopeType, scopeId)
      <==> IsFlagActive(db, flagType, scopeType, scopeId)
  {
    var after := Apply(db, Execute(id, elsewhere));
    OwnRowOnly(db, id, elsewhere);
    if after.flags == db.flags {
      SameRowsSameGate(db, after, flagType, scopeType, scopeId);
    } else {
      OneRowMore(db, after, NewRow(db, after), flagType, scopeType, scopeId);
    }
  }

  lemma SameRowsSameGate(db: Db, after: Db, flagType: FlagType, scopeType: ScopeType, scopeId: string)
    requires after.flags == db.flags && after.now == db.now
    ensures IsFlagActive(after, flagType, scopeType, scopeId) <==> IsFlagActive(db, flagType, scopeType, scopeId)
  {
  }
}
