/**
  The roster query composes the rank, the aggregates, the predicate and one concatenated parameter list. Here it
  is shown to return exactly the right buyers.
*/
module BuyerRoster {
  import opened Text
  import opened BuyerSearch
  import opened SearchWords

  // ---------------------------------------------------------------- the roster query

  function Columns(p: Participation): Row {
    Row(p.buyerId, p.name, p.phone, p.email)
  }

  /** The leading sort keys (name IS NOT NULL) DESC, rank DESC, as one number. */
  ghost function NameClass(rank: Condition, params: seq<string>, table: seq<Participation>): Participation -> int {
    (p: Participation) => (if p.name.Some? then 2 else 0) + (if Holds(rank, Columns(p), table, params) then 1 else 0)
  }

  /** The leading sort keys (phone IS NOT NULL) DESC and (email IS NOT NULL) DESC. */
  function PhoneClass(p: Participation): int { if p.phone.Some? then 1 else 0 }
  function EmailClass(p: Participation): int { if p.email.Some? then 1 else 0 }

  /** `p` may head ARRAY_AGG(... ORDER BY class DESC, created_at DESC) of its buyer: none of that buyer's rows precedes
      it. */
  ghost predicate Heads(rowClass: Participation -> int, table: seq<Participation>, p: Participation) {
    p in table && forall q :: q in table && q.buyerId == p.buyerId ==>
      rowClass(q) < rowClass(p) || (rowClass(q) == rowClass(p) && q.createdAt <= p.createdAt)
  }

  datatype RosterQuery = RosterQuery(rank: Fragment, filter: Fragment) {
    function Params(): seq<string> { rank.params + filter.params }
  }

  /** The route's composition: the rank's placeholders first, the predicate's right after them. */
  function RosterFor(plan: Plan): RosterQuery {
    var rank := RankSql(plan, 1);
    RosterQuery(rank, PredicateSql(plan, 1 + |rank.params|))
  }

  /** A plan as the classifier makes it for a name search. */
  predicate IsNamePlan(plan: Plan) {
    plan.intent == Name && plan.tokens == Tokens(plan.raw)
  }

  ghost predicate HeadsNames(q: RosterQuery, table: seq<Participation>, p: Participation) {
    Heads(NameClass(q.rank.sql, q.Params(), table), table, p)
  }

  /** `agg` is an aggregated row that the query may compute for its buyer (ties in the orders are free). */
  ghost predicate Aggregated(q: RosterQuery, table: seq<Participation>, agg: Row) {
    && (exists p :: HeadsNames(q, table, p) && p.buyerId == agg.buyerId && p.name == agg.name)
    && (exists p :: Heads(PhoneClass, table, p) && p.buyerId == agg.buyerId && p.phone == agg.phone)
    && (exists p :: Heads(EmailClass, table, p) && p.buyerId == agg.buyerId && p.email == agg.email)
  }

  ghost predicate Returned(q: RosterQuery, table: seq<Participation>, agg: Row) {
    Aggregated(q, table, agg) && Holds(q.filter.sql, agg, table, q.Params())
  }

  ghost predicate NameHolds(p: Participation, t: string) {
    p.name.Some? && Contains(SqlNormal(p.name.value), t)
  }

  ghost predicate HoldsAll(p: Participation, tokens: seq<string>) {
    forall t :: t in tokens ==> NameHolds(p, t)
  }

  lemma TokensOfName(p: Participation, plan: Plan)
    requires IsNamePlan(plan)
    ensures HoldsAll(p, plan.tokens) <==>
      forall t :: t in plan.tokens ==> Contains(SqlNormal(NameOrEmpty(Columns(p))), t)
  {
    forall t | t in plan.tokens ensures NameHolds(p, t) <==> Contains(SqlNormal(NameOrEmpty(Columns(p))), t) {
      TokenIsWord(plan.raw, t);
      EmptyHoldsNoToken(t);
    }
  }

  /** A row is kept exactly when the name it shows, which is that of the head participation, holds every token. */
  lemma ShownNameDecides(plan: Plan, table: seq<Participation>, agg: Row, p: Participation)
    requires IsNamePlan(plan) && Aggregated(RosterFor(plan), table, agg)
    requires p.buyerId == agg.buyerId && p.name == agg.name
    ensures Returned(RosterFor(plan), table, agg) <==> plan.tokens != [] && HoldsAll(p, plan.tokens)
  {
    var q := RosterFor(plan);
    TokensOfName(p, plan);
    assert NameOrEmpty(Columns(p)) == NameOrEmpty(agg);
    NamePredicateExact(plan, q.rank.params, agg, table);
  }

  lemma EmptyHoldsNoToken(t: string)
    requires t != ""
    ensures !Contains(SqlNormal(""), t)
  {
  }

  /** If a participation holds the first token, the head of the names is the newest one that does. */
  lemma FirstTokenDecides(plan: Plan, table: seq<Participation>, p: Participation)
    requires IsNamePlan(plan) && plan.tokens != []
    requires var q := RosterFor(plan); HeadsNames(q, table, p)
    ensures var t := plan.tokens[0];
            forall o :: o in table && o.buyerId == p.buyerId && NameHolds(o, t) ==>
                NameHolds(p, t) && p.createdAt >= o.createdAt
  {
    var q := RosterFor(plan);
    var t := plan.tokens[0];
    TokenIsWord(plan.raw, t);
    EmptyHoldsNoToken(t);
    forall o | o in table ensures Holds(q.rank.sql, Columns(o), table, q.Params()) <==> NameHolds(o, t) {
      RankExact(plan, q.filter.params, Columns(o), table);
    }
  }

  lemma SingleToken(p: Participation, tokens: seq<string>)
    requires |tokens| == 1
    ensures HoldsAll(p, tokens) <==> NameHolds(p, tokens[0])
  {
  }

  /** For a one-token query, the head of the names matches exactly when some participation does. */
  lemma HeadMatchesIff(plan: Plan, table: seq<Participation>, p: Participation)
    requires IsNamePlan(plan) && |plan.tokens| == 1
    requires HeadsNames(RosterFor(plan), table, p)
    ensures HoldsAll(p, plan.tokens) <==>
      exists o :: o in table && o.buyerId == p.buyerId && NameHolds(o, plan.tokens[0])
  {
    SingleToken(p, plan.tokens);
    FirstTokenDecides(plan, table, p);
    assert p in table;
  }

  /** For a one-token query, every row the query computes is kept exactly when one of its participations matches. */
  lemma OneTokenExact(plan: Plan, table: seq<Participation>, agg: Row)
    requires IsNamePlan(plan) && |plan.tokens| == 1
    requires Aggregated(RosterFor(plan), table, agg)
    ensures Returned(RosterFor(plan), table, agg) <==>
            exists o :: o in table && o.buyerId == agg.buyerId && NameHolds(o, plan.tokens[0])
  {
    var p :| HeadsNames(RosterFor(plan), table, p) && p.buyerId == agg.buyerId && p.name == agg.name;
    ShownNameDecides(plan, table, agg, p);
    HeadMatchesIff(plan, table, p);
  }

  /**
    For any number of tokens, a row is kept exactly when the newest participation that holds the first token (the
    one it shows) holds them all.
  */
  lemma ManyTokensExact(plan: Plan, table: seq<Participation>, agg: Row)
    requires IsNamePlan(plan) && plan.tokens != [] && Aggregated(RosterFor(plan), table, agg)
    ensures Returned(RosterFor(plan), table, agg) <==>
            exists p :: p in table && p.buyerId == agg.buyerId && p.name == agg.name && HoldsAll(p, plan.tokens)
              && forall o :: o in table && o.buyerId == agg.buyerId && NameHolds(o, plan.tokens[0]) ==>
                  o.createdAt <= p.createdAt
  {
    var p :| HeadsNames(RosterFor(plan), table, p) && p.buyerId == agg.buyerId && p.name == agg.name;
    ShownNameDecides(plan, table, agg, p);
    FirstTokenDecides(plan, table, p);
    assert p in table;
    forall o | o in table && o.buyerId == agg.buyerId && o.name == agg.name
      ensures Returned(RosterFor(plan), table, agg) <==> HoldsAll(o, plan.tokens)
    {
      ShownNameDecides(plan, table, agg, o);
    }
  }

  /** So a buyer is missed whose older name holds every token when a newer one holds only the first. */
  lemma NewerPartialMatchHides(plan: Plan, older: Participation, newer: Participation, agg: Row)
    requires IsNamePlan(plan) && plan.tokens != []
    requires older.buyerId == newer.buyerId == agg.buyerId && older.createdAt < newer.createdAt
    requires HoldsAll(older, plan.tokens) && NameHolds(newer, plan.tokens[0]) && !HoldsAll(newer, plan.tokens)
    requires Aggregated(RosterFor(plan), [older, newer], agg)
    ensures !Returned(RosterFor(plan), [older, newer], agg)
  {
    var table := [older, newer];
    var p :| HeadsNames(RosterFor(plan), table, p) && p.buyerId == agg.buyerId && p.name == agg.name;
    FirstTokenDecides(plan, table, p);
    HeadIsNewer(table, p, plan.tokens[0]);
    ShownNameDecides(plan, table, agg, newer);
  }

  lemma HeadIsNewer(table: seq<Participation>, p: Participation, t: string)
    requires |table| == 2 && table[0].createdAt < table[1].createdAt && p in table && p.buyerId == table[1].buyerId
    requires NameHolds(table[1], t)
    requires forall o :: o in table && o.buyerId == p.buyerId && NameHolds(o, t) ==> p.createdAt >= o.createdAt
    ensures p == table[1]
  {
  }

  lemma HeadExists(rowClass: Participation -> int, table: seq<Participation>, buyer: string) returns (p: Participation)
    requires exists o :: o in table && o.buyerId == buyer
    ensures Heads(rowClass, table, p) && p.buyerId == buyer
  {
    p :| p in table && p.buyerId == buyer;
    for i := 0 to |table|
      invariant p in table && p.buyerId == buyer
      invariant forall k :: 0 <= k < i && table[k].buyerId == buyer ==>
        rowClass(table[k]) < rowClass(p) || (rowClass(table[k]) == rowClass(p) && table[k].createdAt <= p.createdAt)
    {
      var c := table[i];
      if c.buyerId == buyer && (rowClass(c) > rowClass(p) || (rowClass(c) == rowClass(p) && c.createdAt > p.createdAt)) { p := c; }
    }
  }

  /** Every buyer of the table has an aggregated row. */
  lemma EveryBuyerHasARow(q: RosterQuery, table: seq<Participation>, buyer: string) returns (agg: Row)
    requires exists o :: o in table && o.buyerId == buyer
    ensures agg.buyerId == buyer && Aggregated(q, table, agg)
  {
    var n := HeadExists(NameClass(q.rank.sql, q.Params(), table), table, buyer);
    var ph := HeadExists(PhoneClass, table, buyer);
    var em := HeadExists(EmailClass, table, buyer);
    agg := Row(buyer, n.name, ph.phone, em.email);
    assert HeadsNames(q, table, n);
  }

  /** For a one-token name query a buyer is returned exactly when some participation of that buyer matches. */
  lemma OneTokenRoster(plan: Plan, table: seq<Participation>, buyer: string)
    requires IsNamePlan(plan) && |plan.tokens| == 1
    ensures (exists agg: Row :: agg.buyerId == buyer && Returned(RosterFor(plan), table, agg)) <==>
            exists o :: o in table && o.buyerId == buyer && NameHolds(o, plan.tokens[0])
  {
    var q := RosterFor(plan);
    if o :| o in table && o.buyerId == buyer && NameHolds(o, plan.tokens[0]) {
      var agg := EveryBuyerHasARow(q, table, buyer);
      OneTokenExact(plan, table, agg);
    }
    if agg: Row :| agg.buyerId == buyer && Returned(q, table, agg) {
      OneTokenExact(plan, table, agg);
    }
  }

  /** For any tokens a buyer can be returned exactly when one of the newest participations that hold the first token
      holds them all. */
  lemma ManyTokensRoster(plan: Plan, table: seq<Participation>, buyer: string)
    requires IsNamePlan(plan) && plan.tokens != []
    ensures (exists agg: Row :: agg.buyerId == buyer && Returned(RosterFor(plan), table, agg)) <==>
            exists p :: p in table && p.buyerId == buyer && HoldsAll(p, plan.tokens)
                && NewestWith(table, p, plan.tokens[0])
  {
    var q := RosterFor(plan);
    if p :| p in table && p.buyerId == buyer && HoldsAll(p, plan.tokens) && NewestWith(table, p, plan.tokens[0]) {
      NewestHeads(plan, table, p);
      var ph := HeadExists(PhoneClass, table, buyer);
      var em := HeadExists(EmailClass, table, buyer);
      var agg := Row(buyer, p.name, ph.phone, em.email);
      assert Aggregated(q, table, agg);
      ShownNameDecides(plan, table, agg, p);
    }
    if agg: Row :| agg.buyerId == buyer && Returned(q, table, agg) {
      ManyTokensExact(plan, table, agg);
    }
  }

  /** No participation of the same buyer that holds the token is newer. */
  ghost predicate NewestWith(table: seq<Participation>, p: Participation, t: string) {
    forall o :: o in table && o.buyerId == p.buyerId && NameHolds(o, t) ==> o.createdAt <= p.createdAt
  }

  lemma NewestHeads(plan: Plan, table: seq<Participation>, p: Participation)
    requires IsNamePlan(plan) && plan.tokens != [] && p in table
    requires HoldsAll(p, plan.tokens) && NewestWith(table, p, plan.tokens[0])
    ensures HeadsNames(RosterFor(plan), table, p)
  {
    var q := RosterFor(plan);
    var t := plan.tokens[0];
    assert NameHolds(p, t);
    forall o | o in table && o.buyerId == p.buyerId
      ensures Holds(q.rank.sql, Columns(o), table, q.Params()) <==> Contains(SqlNormal(NameOrEmpty(Columns(o))), t)
    {
      RankExact(plan, q.filter.params, Columns(o), table);
    }
  }

  // ---------------------------------------------------------------- searching for what the roster shows

  predicate OneAtATime(table: seq<Participation>, buyer: string) {
    forall o, p ::
      o in table && p in table && o.buyerId == buyer && p.buyerId == buyer && o.createdAt == p.createdAt ==>
        o == p
  }

  /** Without a query the roster shows the newest name of each buyer. */
  lemma ShownIsNewest(raw: string, table: seq<Participation>, p: Participation, o: Participation)
    requires HeadsNames(RosterFor(PlanOf(Empty, raw)), table, p)
    requires o in table && o.buyerId == p.buyerId && o.name.Some?
    ensures p.name.Some? && o.createdAt <= p.createdAt
  {
  }

  /** The participation whose name is shown without a query is the one whose name is shown when that name is searched.
      */
  lemma SameHead(raw: string, name: string, table: seq<Participation>, first: Participation, p: Participation)
    requires HeadsNames(RosterFor(PlanOf(Empty, raw)), table, first) && first.name == Some(name)
      && OneAtATime(table, first.buyerId)
    requires Classify(name).intent == Name && Classify(name).tokens != []
    requires HeadsNames(RosterFor(Classify(name)), table, p) && p.buyerId == first.buyerId
    ensures p == first && HoldsAll(first, Classify(name).tokens)
  {
    var plan := Classify(name);
    forall t | t in plan.tokens ensures NameHolds(first, t) { OwnWordFound(name, t); }
    FirstTokenDecides(plan, table, p);
    assert first in table && p in table;
    assert NameHolds(first, plan.tokens[0]);
    ShownIsNewest(raw, table, first, p);
  }

  /** Searching for the name that the roster shows for a buyer returns that buyer if and only if the first 120
      characters of the name hold a visible character, when no two participations of the buyer were created at one
      moment. */
  lemma ShownNameFindsBuyer(raw: string, name: string, table: seq<Participation>, shown: Row, agg: Row)
    requires Aggregated(RosterFor(PlanOf(Empty, raw)), table, shown) && shown.name == Some(name)
      && OneAtATime(table, shown.buyerId)
    requires Classify(name).intent == Name
    requires agg.buyerId == shown.buyerId && Aggregated(RosterFor(Classify(name)), table, agg)
    ensures Returned(RosterFor(Classify(name)), table, agg) <==> HasVisible(QueryText(name))
  {
    var plan := Classify(name);
    var first :| HeadsNames(RosterFor(PlanOf(Empty, raw)), table, first) && first.buyerId == shown.buyerId
        && first.name == shown.name;
    var p :| HeadsNames(RosterFor(plan), table, p) && p.buyerId == agg.buyerId && p.name == agg.name;
    ShownNameDecides(plan, table, agg, p);
    TokensEmptyIff(plan.raw);
    if plan.tokens != [] { SameHead(raw, name, table, first, p); }
  }
}
