/** What a row of the roster shows, and which buyers the searches by contact, code and id return. */
module RosterRows {
  import opened Text
  import opened SqlLike
  import opened BuyerSearch
  import opened BuyerRoster

  // ---------------------------------------------------------------- what a row shows

  /** The buyer's newest participation with a phone. */
  ghost predicate NewestPhone(table: seq<Participation>, p: Participation, buyer: string) {
    && p in table && p.buyerId == buyer && p.phone.Some?
    && forall o :: o in table && o.buyerId == buyer && o.phone.Some? ==> o.createdAt <= p.createdAt
  }

  ghost predicate NewestEmail(table: seq<Participation>, p: Participation, buyer: string) {
    && p in table && p.buyerId == buyer && p.email.Some?
    && forall o :: o in table && o.buyerId == buyer && o.email.Some? ==> o.createdAt <= p.createdAt
  }

  ghost predicate NewestName(table: seq<Participation>, p: Participation, buyer: string) {
    && p in table && p.buyerId == buyer && p.name.Some?
    && forall o :: o in table && o.buyerId == buyer && o.name.Some? ==> o.createdAt <= p.createdAt
  }

  lemma {:induction false} PhoneHead(table: seq<Participation>, p: Participation)
    requires Heads(PhoneClass, table, p)
    ensures p.phone.Some? ==> NewestPhone(table, p, p.buyerId)
    ensures p.phone.None? ==> forall o :: o in table && o.buyerId == p.buyerId ==> o.phone.None?
  {
  }

  lemma {:induction false} EmailHead(table: seq<Participation>, p: Participation)
    requires Heads(EmailClass, table, p)
    ensures p.email.Some? ==> NewestEmail(table, p, p.buyerId)
    ensures p.email.None? ==> forall o :: o in table && o.buyerId == p.buyerId ==> o.email.None?
  {
  }

  /** The phone of a row is the newest one of its buyer; there is none exactly when no participation has one. */
  lemma {:induction false} ShownPhone(q: RosterQuery, table: seq<Participation>, agg: Row)
    requires Aggregated(q, table, agg)
    ensures agg.phone.Some? ==> exists p :: NewestPhone(table, p, agg.buyerId) && p.phone == agg.phone
    ensures agg.phone.None? ==> forall o :: o in table && o.buyerId == agg.buyerId ==> o.phone.None?
  {
    var p :| Heads(PhoneClass, table, p) && p.buyerId == agg.buyerId && p.phone == agg.phone;
    PhoneHead(table, p);
  }

  lemma {:induction false} ShownEmail(q: RosterQuery, table: seq<Participation>, agg: Row)
    requires Aggregated(q, table, agg)
    ensures agg.email.Some? ==> exists p :: NewestEmail(table, p, agg.buyerId) && p.email == agg.email
    ensures agg.email.None? ==> forall o :: o in table && o.buyerId == agg.buyerId ==> o.email.None?
  {
    var p :| Heads(EmailClass, table, p) && p.buyerId == agg.buyerId && p.email == agg.email;
    EmailHead(table, p);
  }

  /** Whatever is searched, but for names, a row shows the newest name of its buyer. */
  lemma {:induction false} ShownName(plan: Plan, table: seq<Participation>, agg: Row)
    requires Aggregated(RosterFor(plan), table, agg) && (plan.intent != Name || plan.tokens == [])
    ensures agg.name.Some? ==> exists p :: NewestName(table, p, agg.buyerId) && p.name == agg.name
    ensures agg.name.None? ==> forall o :: o in table && o.buyerId == agg.buyerId ==> o.name.None?
  {
    var p :| HeadsNames(RosterFor(plan), table, p) && p.buyerId == agg.buyerId && p.name == agg.name;
    if agg.name.Some? { assert NewestName(table, p, agg.buyerId); }
  }

  predicate HasBuyer(table: seq<Participation>, buyer: string) { exists p :: p in table && p.buyerId == buyer }

  lemma RowHasBuyer(q: RosterQuery, table: seq<Participation>, agg: Row)
    requires Aggregated(q, table, agg)
    ensures HasBuyer(table, agg.buyerId)
  {
    var p :| Heads(PhoneClass, table, p) && p.buyerId == agg.buyerId && p.phone == agg.phone;
  }

  ghost predicate IsReturned(plan: Plan, table: seq<Participation>, buyer: string) {
    exists agg: Row :: agg.buyerId == buyer && Returned(RosterFor(plan), table, agg)
  }

  // ---------------------------------------------------------------- which buyers are returned

  /** Without a query every buyer is returned, and nobody else. */
  lemma EmptyRoster(raw: string, table: seq<Participation>, buyer: string)
    ensures IsReturned(PlanOf(Empty, raw), table, buyer) <==> HasBuyer(table, buyer)
  {
    var q := RosterFor(PlanOf(Empty, raw));
    if HasBuyer(table, buyer) {
      var agg := EveryBuyerHasARow(q, table, buyer);
      assert Returned(q, table, agg);
    }
    if agg: Row :| agg.buyerId == buyer && Returned(q, table, agg) { RowHasBuyer(q, table, agg); }
  }

  /** What the filter says of a row, intent by intent. */
  ghost predicate Found(plan: Plan, table: seq<Participation>, agg: Row) {
    match plan.intent
    case Phone => Contains(Keep(match agg.phone case Some(p) => p case None => agg.buyerId, IsDigit), plan.normalized)
    case Email => Contains(Lower(match agg.email case Some(e) => e case None => ""), plan.normalized)
    case OrderCode => exists p :: p in table && p.buyerId == agg.buyerId && plan.normalized in p.orderCodes
    case Id =>
      || Lower(agg.buyerId) == plan.normalized
      || exists p :: p in table && p.buyerId == agg.buyerId && p.participantId == plan.normalized
    case _ => true
  }

  lemma {:induction false} PhoneFilter(plan: Plan, table: seq<Participation>, agg: Row)
    requires plan.intent == Phone
    ensures Holds(RosterFor(plan).filter.sql, agg, table, RosterFor(plan).Params()) <==> Found(plan, table, agg)
  {
    PhonePredicateExact(plan, RosterFor(plan).rank.params, agg, table);
  }

  lemma {:induction false} EmailFilter(plan: Plan, table: seq<Participation>, agg: Row)
    requires plan.intent == Email
    ensures Holds(RosterFor(plan).filter.sql, agg, table, RosterFor(plan).Params()) <==> Found(plan, table, agg)
  {
    EmailPredicateExact(plan, RosterFor(plan).rank.params, agg, table);
  }

  lemma {:induction false} OrderCodeFilter(plan: Plan, table: seq<Participation>, agg: Row)
    requires plan.intent == OrderCode
    ensures Holds(RosterFor(plan).filter.sql, agg, table, RosterFor(plan).Params()) <==> Found(plan, table, agg)
  {
    OrderCodePredicateExact(plan, RosterFor(plan).rank.params, agg, table);
  }

  lemma {:induction false} IdFilter(plan: Plan, table: seq<Participation>, agg: Row)
    requires plan.intent == Id
    ensures Holds(RosterFor(plan).filter.sql, agg, table, RosterFor(plan).Params()) <==> Found(plan, table, agg)
  {
    IdPredicateExact(plan, RosterFor(plan).rank.params, agg, table);
  }

  lemma {:induction false} ReturnedIff(plan: Plan, table: seq<Participation>, agg: Row)
    requires plan.intent in {Phone, Email, OrderCode, Id} && Aggregated(RosterFor(plan), table, agg)
    ensures Returned(RosterFor(plan), table, agg) <==> Found(plan, table, agg)
  {
    match plan.intent
    case Phone => PhoneFilter(plan, table, agg);
    case Email => EmailFilter(plan, table, agg);
    case OrderCode => OrderCodeFilter(plan, table, agg);
    case Id => IdFilter(plan, table, agg);
  }

  /** A returned buyer has a row that is found. */
  lemma {:induction false} FoundRow(plan: Plan, table: seq<Participation>, buyer: string) returns (agg: Row)
    requires plan.intent in {Phone, Email, OrderCode, Id} && IsReturned(plan, table, buyer)
    ensures agg.buyerId == buyer && Aggregated(RosterFor(plan), table, agg) && Found(plan, table, agg)
  {
    agg :| agg.buyerId == buyer && Returned(RosterFor(plan), table, agg);
    ReturnedIff(plan, table, agg);
  }

  lemma {:induction false} RowIsReturned(plan: Plan, table: seq<Participation>, agg: Row)
    requires plan.intent in {Phone, Email, OrderCode, Id} && Aggregated(RosterFor(plan), table, agg) && Found(plan, table, agg)
    ensures IsReturned(plan, table, agg.buyerId)
  {
    ReturnedIff(plan, table, agg);
    assert Returned(RosterFor(plan), table, agg);
  }

  /** The row of a buyer with this phone, or this e-mail, at the head of the aggregate. */
  lemma {:induction false} RowWith(q: RosterQuery, table: seq<Participation>, phone: Participation, email: Participation)
    returns (agg: Row)
    requires Heads(PhoneClass, table, phone) && Heads(EmailClass, table, email) && phone.buyerId == email.buyerId
    ensures agg.buyerId == phone.buyerId && agg.phone == phone.phone && agg.email == email.email && Aggregated(q, table, agg)
  {
    var name := HeadExists(NameClass(q.rank.sql, q.Params(), table), table, phone.buyerId);
    agg := Row(phone.buyerId, name.name, phone.phone, email.email);
    assert HeadsNames(q, table, name);
  }

  ghost predicate NewestPhoneHas(table: seq<Participation>, buyer: string, digits: string) {
    exists p :: NewestPhone(table, p, buyer) && Contains(Keep(p.phone.value, IsDigit), digits)
  }

  predicate NoPhone(table: seq<Participation>, buyer: string) {
    HasBuyer(table, buyer) && forall o :: o in table && o.buyerId == buyer ==> o.phone.None?
  }

  /** A phone search returns a buyer exactly when a newest phone, or the buyer's id where there is none, has the digits. */
  lemma {:induction false} PhoneRoster(plan: Plan, table: seq<Participation>, buyer: string)
    requires plan.intent == Phone
    ensures IsReturned(plan, table, buyer) <==>
      || NewestPhoneHas(table, buyer, plan.normalized)
      || (NoPhone(table, buyer) && Contains(Keep(buyer, IsDigit), plan.normalized))
  {
    if IsReturned(plan, table, buyer) { PhoneReturned(plan, table, buyer); }
    if NewestPhoneHas(table, buyer, plan.normalized) { NewestPhoneFound(plan, table, buyer); }
    if NoPhone(table, buyer) && Contains(Keep(buyer, IsDigit), plan.normalized) { NoPhoneFound(plan, table, buyer); }
  }

  lemma {:induction false} PhoneReturned(plan: Plan, table: seq<Participation>, buyer: string)
    requires plan.intent == Phone && IsReturned(plan, table, buyer)
    ensures NewestPhoneHas(table, buyer, plan.normalized)
      || (NoPhone(table, buyer) && Contains(Keep(buyer, IsDigit), plan.normalized))
  {
    var agg := FoundRow(plan, table, buyer);
    ShownPhone(RosterFor(plan), table, agg);
    RowHasBuyer(RosterFor(plan), table, agg);
  }

  lemma {:induction false} NewestPhoneFound(plan: Plan, table: seq<Participation>, buyer: string)
    requires plan.intent == Phone && NewestPhoneHas(table, buyer, plan.normalized)
    ensures IsReturned(plan, table, buyer)
  {
    var p :| NewestPhone(table, p, buyer) && Contains(Keep(p.phone.value, IsDigit), plan.normalized);
    assert Heads(PhoneClass, table, p);
    var e := HeadExists(EmailClass, table, buyer);
    var agg := RowWith(RosterFor(plan), table, p, e);
    RowIsReturned(plan, table, agg);
  }

  lemma {:induction false} NoPhoneFound(plan: Plan, table: seq<Participation>, buyer: string)
    requires plan.intent == Phone && NoPhone(table, buyer) && Contains(Keep(buyer, IsDigit), plan.normalized)
    ensures IsReturned(plan, table, buyer)
  {
    var agg := EveryBuyerHasARow(RosterFor(plan), table, buyer);
    ShownPhone(RosterFor(plan), table, agg);
    assert agg.phone.None?;
    RowIsReturned(plan, table, agg);
  }

  ghost predicate NewestEmailHas(table: seq<Participation>, buyer: string, text: string) {
    exists p :: NewestEmail(table, p, buyer) && Contains(Lower(p.email.value), text)
  }

  /** An e-mail search returns a buyer exactly when a newest e-mail, in lower case, contains the query. */
  lemma {:induction false} EmailRoster(plan: Plan, table: seq<Participation>, buyer: string)
    requires plan.intent == Email && plan.normalized != ""
    ensures IsReturned(plan, table, buyer) <==> NewestEmailHas(table, buyer, plan.normalized)
  {
    if IsReturned(plan, table, buyer) {
      var agg := FoundRow(plan, table, buyer);
      ShownEmail(RosterFor(plan), table, agg);
      if agg.email.None? { NothingInNothing(plan.normalized); }
    }
    if NewestEmailHas(table, buyer, plan.normalized) { NewestEmailFound(plan, table, buyer); }
  }

  lemma {:induction false} NewestEmailFound(plan: Plan, table: seq<Participation>, buyer: string)
    requires plan.intent == Email && NewestEmailHas(table, buyer, plan.normalized)
    ensures IsReturned(plan, table, buyer)
  {
    var p :| NewestEmail(table, p, buyer) && Contains(Lower(p.email.value), plan.normalized);
    assert Heads(EmailClass, table, p);
    var ph := HeadExists(PhoneClass, table, buyer);
    var agg := RowWith(RosterFor(plan), table, ph, p);
    RowIsReturned(plan, table, agg);
  }

  lemma {:induction false} NothingInNothing(t: string)
    requires t != ""
    ensures !Contains(Lower(""), t)
  {
  }

  /** An order-code search returns exactly the buyers of participations that carry the code. */
  lemma {:induction false} CodeRoster(plan: Plan, table: seq<Participation>, buyer: string)
    requires plan.intent == OrderCode
    ensures IsReturned(plan, table, buyer) <==>
      exists p :: p in table && p.buyerId == buyer && plan.normalized in p.orderCodes
  {
    if IsReturned(plan, table, buyer) { var agg := FoundRow(plan, table, buyer); }
    if p :| p in table && p.buyerId == buyer && plan.normalized in p.orderCodes {
      var agg := EveryBuyerHasARow(RosterFor(plan), table, buyer);
      RowIsReturned(plan, table, agg);
    }
  }

  /** An id search returns exactly the buyer of that id, in any case, and the buyer of the participation of that id. */
  lemma {:induction false} IdRoster(plan: Plan, table: seq<Participation>, buyer: string)
    requires plan.intent == Id
    ensures IsReturned(plan, table, buyer) <==>
      && HasBuyer(table, buyer)
      && (Lower(buyer) == plan.normalized
          || exists p :: p in table && p.buyerId == buyer && p.participantId == plan.normalized)
  {
    if IsReturned(plan, table, buyer) {
      var agg := FoundRow(plan, table, buyer);
      RowHasBuyer(RosterFor(plan), table, agg);
    }
    if HasBuyer(table, buyer) {
      var agg := EveryBuyerHasARow(RosterFor(plan), table, buyer);
      if Found(plan, table, agg) { RowIsReturned(plan, table, agg); }
    }
  }
}
