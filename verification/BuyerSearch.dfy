/**
  The admin buyer search as a small compiler: a query string is classified, a plan is made, and the plan is
  turned into an SQL predicate with bound parameters. SQL fragments are syntax trees whose leaves are columns
  and placeholders; `Holds` gives their meaning over a row and one parameter list.
*/
module BuyerSearch {
  import opened Text
  import opened SqlLike

  // ---------------------------------------------------------------- normal forms

  const FIRST_MARK := 0x0591
  const LAST_MARK := 0x05c7

  /** `count` characters in code order, starting at `first`. */
  function CharRange(first: int, count: nat): (r: string)
    requires 0 <= first && first + count <= 0xd800
    ensures forall c :: c in r <==> first <= c as int < first + count
    decreases count
  {
    if count == 0 then [] else [first as char] + CharRange(first + 1, count - 1)
  }

  /** Hebrew points and cantillation marks. */
  const HEBREW_MARKS := CharRange(FIRST_MARK, LAST_MARK - FIRST_MARK + 1)

  const HEBREW_FINALS := "\U{05da}\U{05dd}\U{05df}\U{05e3}\U{05e5}"
  const HEBREW_REGULAR := "\U{05db}\U{05de}\U{05e0}\U{05e4}\U{05e6}"

  /** Control characters, DEL and bidi marks, which the normaliser turns into spaces. */
  predicate IsControl(c: char) {
    c <= '\U{1f}' || c == '\U{7f}' || c == '\U{200e}' || c == '\U{200f}' || '\U{202a}' <= c <= '\U{202e}'
  }

  predicate IsBlank(c: char) { IsSpace(c) || IsControl(c) }

  function DropBlanks(s: string): (r: string)
    ensures |r| <= |s| && r == s[|s| - |r|..]
  {
    if s != [] && IsBlank(s[0]) then DropBlanks(s[1..]) else s
  }

  /** Every maximal run of blanks becomes one space. */
  function Collapse(s: string): string
    decreases |s|
  {
    if s == [] then []
    else if IsBlank(s[0]) then " " + Collapse(DropBlanks(s[1..]))
    else [s[0]] + Collapse(s[1..])
  }

  /** What the normaliser's loop appends for one character. */
  function FoldChar(c: char): string {
    if c in HEBREW_MARKS then []
    else
      var finalIndex := CharIndex(HEBREW_FINALS, c);
      if finalIndex >= 0 then [HEBREW_REGULAR[finalIndex]] else [c]
  }

  function Fold(s: string): string {
    FlatMap(FoldChar, s)
  }

  /** The normal form of a query, as the client-side text rules define it. */
  function Normalized(raw: string): string {
    Lower(Fold(Trim(Collapse(raw))))
  }

  method NormalizeSearchText(raw: string) returns (out: string)
    ensures out == Normalized(raw)
  {
    var text := Trim(Collapse(raw));
    out := "";
    for i := 0 to |text|
      invariant out == Fold(text[..i])
    {
      var ch := text[i];
      var appended := "";
      if ch !in HEBREW_MARKS {
        var finalIndex := CharIndex(HEBREW_FINALS, ch);
        appended := if finalIndex >= 0 then [HEBREW_REGULAR[finalIndex]] else [ch];
      }
      FoldNext(text, i);
      out := out + appended;
    }
    assert text[..|text|] == text;
    out := Lower(out);
  }

  lemma FoldNext(text: string, i: nat)
    requires i < |text|
    ensures Fold(text[..i + 1]) == Fold(text[..i]) + FoldChar(text[i])
  {
    assert text[..i + 1] == text[..i] + [text[i]];
    FlatMapConcat(FoldChar, text[..i], [text[i]]);
    assert [text[i]][1..] == "";
  }

  /** The normal form of a stored name, as the SQL fragment computes it. */
  function SqlNormal(name: string): string {
    Lower(Translate(Translate(name, HEBREW_MARKS, ""), HEBREW_FINALS, HEBREW_REGULAR))
  }

  function NonEmpty(parts: seq<string>): seq<string> {
    if parts == [] then [] else (if parts[0] == "" then [] else [parts[0]]) + NonEmpty(parts[1..])
  }

  function Tokens(raw: string): seq<string> {
    NonEmpty(Split(Normalized(raw), " "))
  }

  // ---------------------------------------------------------------- classification

  datatype Intent = Empty | Name | Phone | Email | OrderCode | Id
  datatype Plan = Plan(intent: Intent, raw: string, normalized: string, tokens: seq<string>)

  predicate IsDigit(c: char) { '0' <= c <= '9' }
  predicate IsHex(c: char) { IsDigit(c) || 'a' <= LowerChar(c) <= 'f' }
  predicate Every(s: string, p: char -> bool) { s == [] || (p(s[0]) && Every(s[1..], p)) }
  predicate AllDigits(s: string) { Every(s, IsDigit) }
  predicate AllHex(s: string) { Every(s, IsHex) }

  function Keep(s: string, keep: char -> bool): string {
    if s == [] then [] else (if keep(s[0]) then [s[0]] else []) + Keep(s[1..], keep)
  }

  function SkipSeparators(s: string): string {
    if s != [] && (IsSpace(s[0]) || s[0] == '-') then SkipSeparators(s[1..]) else s
  }

  /** ct, four digits, four digits, with spaces and dashes between: the human order code in its canonical spelling. */
  function ReadOrderCode(raw: string): Option<string> {
    var a := TrimStart(raw);
    if |a| < 2 || LowerChar(a[0]) != 'c' || LowerChar(a[1]) != 't' then None else
    var b := SkipSeparators(a[2..]);
    if |b| < 4 || !AllDigits(b[..4]) then None else
    var c := SkipSeparators(b[4..]);
    if |c| < 4 || !AllDigits(c[..4]) || !Every(c[4..], IsSpace) then None else
    Some("CT-" + b[..4] + "-" + c[..4])
  }

  predicate IsUuid(s: string) {
    && |s| == 36 && s[8] == s[13] == s[18] == s[23] == '-'
    && AllHex(s[..8]) && AllHex(s[9..13]) && AllHex(s[14..18]) && AllHex(s[19..23]) && AllHex(s[24..])
  }

  predicate NotSpace(c: char) { !IsSpace(c) }
  predicate IsPhoneCharacter(c: char) { !IsSpace(c) && c !in "-+()." }

  function Clip(s: string, max: nat): (r: string)
    ensures |r| <= max && |r| <= |s| && r == s[..|r|]
    ensures |s| <= max ==> r == s
  {
    if |s| <= max then s else s[..max]
  }

  /** The intent of a trimmed and clipped query. */
  function IntentOf(raw: string): Intent {
    if raw == "" then Empty
    else if '@' in raw then Email
    else if ReadOrderCode(raw).Some? then OrderCode
    else if IsUuid(raw) || (|raw| >= 16 && AllHex(raw)) then Id
    else if PhoneDigits(raw) != "" && AllDigits(PhoneDigits(raw)) then Phone
    else Name
  }

  function PhoneDigits(raw: string): string {
    Keep(raw, IsPhoneCharacter)
  }

  function PlanOf(intent: Intent, raw: string): (plan: Plan)
    ensures plan.intent == intent && plan.raw == raw
    ensures intent == Name ==> plan.tokens == Tokens(raw)
  {
    match intent
    case Empty => Plan(Empty, raw, "", [])
    case Email => Plan(Email, raw, Keep(Normalized(raw), NotSpace), [])
    case OrderCode => Plan(OrderCode, raw, match ReadOrderCode(raw) case Some(code) => code case None => "", [])
    case Id => Plan(Id, raw, Lower(raw), [])
    case Phone => Plan(Phone, raw, PhoneDigits(raw), [])
    case Name => Plan(Name, raw, Normalized(raw), Tokens(raw))
  }

  function QueryText(input: string): string {
    Clip(Trim(input), 120)
  }

  function Classify(input: string): Plan {
    var raw := QueryText(input);
    PlanOf(IntentOf(raw), raw)
  }

  // ---------------------------------------------------------------- SQL fragments

  datatype Participation = Participation(participantId: string, buyerId: string, name: Option<string>,
                                         phone: Option<string>, email: Option<string>, createdAt: int, orderCodes: set<string>)

  /** One row as a fragment sees it: a participation, or the aggregated row of one buyer. */
  datatype Row = Row(buyerId: string, name: Option<string>, phone: Option<string>, email: Option<string>)

  datatype Column = BuyerName | BuyerPhone | BuyerEmail | BuyerId
  datatype Operand = Placeholder(n: nat) | Literal(text: string)
  datatype TextExpr =
    | Coalesce(columns: seq<Column>)                       // COALESCE(c1, c2, ..., '')
    | TranslateOf(e: TextExpr, from: Operand, to: string)  // translate(e, from, to)
    | LowerOf(e: TextExpr)                                 // lower(e)
    | DigitsOf(e: TextExpr)                                // regexp_replace(e, '\D', '', 'g')
  datatype Condition =
    | Always
    | Never
    | LikeEscaped(e: TextExpr, pattern: nat)               // e LIKE $pattern ESCAPE '\'
    | AllOf(clauses: seq<Condition>)
    | HasOrderCode(n: nat)                                 // EXISTS a participation of this buyer with order code $n
    | IsIdOrParticipation(e: TextExpr, n: nat)             // e = $n OR EXISTS a participation of this buyer with id $n
  datatype Fragment = Fragment(sql: Condition, params: seq<string>)

  function Bound(params: seq<string>, n: nat): string {
    if 1 <= n <= |params| then params[n - 1] else ""
  }

  function Cell(row: Row, c: Column): Option<string> {
    match c
    case BuyerName => row.name
    case BuyerPhone => row.phone
    case BuyerEmail => row.email
    case BuyerId => Some(row.buyerId)
  }

  function FirstNonNull(row: Row, columns: seq<Column>): string {
    if columns == [] then ""
    else match Cell(row, columns[0]) case Some(v) => v case None => FirstNonNull(row, columns[1..])
  }

  function TextOf(e: TextExpr, row: Row, params: seq<string>): string {
    match e
    case Coalesce(columns) => FirstNonNull(row, columns)
    case TranslateOf(e, from, to) =>
      Translate(TextOf(e, row, params), match from case Placeholder(n) => Bound(params, n) case Literal(t) => t, to)
    case LowerOf(e) => Lower(TextOf(e, row, params))
    case DigitsOf(e) => Keep(TextOf(e, row, params), IsDigit)
  }

  ghost predicate Holds(p: Condition, row: Row, table: seq<Participation>, params: seq<string>) {
    match p
    case Always => true
    case Never => false
    case LikeEscaped(e, n) => Like(TextOf(e, row, params), Bound(params, n))
    case AllOf(clauses) => forall k :: 0 <= k < |clauses| ==> Holds(clauses[k], row, table, params)
    case HasOrderCode(n) => exists p :: p in table && p.buyerId == row.buyerId && Bound(params, n) in p.orderCodes
    case IsIdOrParticipation(e, n) =>
      || TextOf(e, row, params) == Bound(params, n)
      || exists p :: p in table && p.buyerId == row.buyerId && p.participantId == Bound(params, n)
  }

  /** lower(translate(translate(COALESCE(buyer_name, ''), $marks, ''), finals, regular)) */
  function NormalName(marks: nat): TextExpr {
    LowerOf(TranslateOf(TranslateOf(Coalesce([BuyerName]), Placeholder(marks), ""), Literal(HEBREW_FINALS), HEBREW_REGULAR))
  }

  function TokenClause(tokens: seq<string>, firstParam: nat): nat -> Condition {
    (i: nat) => LikeEscaped(NormalName(firstParam), firstParam + 1 + i)
  }

  /** The predicate over the displayed row; its placeholders count from `firstParam`. */
  function PredicateSql(plan: Plan, firstParam: nat): Fragment {
    match plan.intent
    case Empty => Fragment(Always, [])
    case Name =>
      Fragment(if plan.tokens == [] then Never else AllOf(seq(|plan.tokens|, TokenClause(plan.tokens, firstParam))),
               [HEBREW_MARKS] + seq(|plan.tokens|, i requires 0 <= i < |plan.tokens| => SubstringPattern(plan.tokens[i])))
    case Phone => Fragment(LikeEscaped(DigitsOf(Coalesce([BuyerPhone, BuyerId])), firstParam), [SubstringPattern(plan.normalized)])
    case Email => Fragment(LikeEscaped(LowerOf(Coalesce([BuyerEmail])), firstParam), [SubstringPattern(plan.normalized)])
    case OrderCode => Fragment(HasOrderCode(firstParam), [plan.normalized])
    case Id => Fragment(IsIdOrParticipation(LowerOf(Coalesce([BuyerId])), firstParam), [plan.normalized])
  }

  method BuyerSearchPredicateSql(plan: Plan, firstParam: nat) returns (f: Fragment)
    ensures f == PredicateSql(plan, firstParam)
  {
    var params: seq<string> := [];
    match plan.intent {
      case Empty => f := Fragment(Always, params);
      case Name =>
        params := params + [HEBREW_MARKS];
        var marksParam := firstParam + |params| - 1;
        var clauses: seq<Condition> := [];
        for i := 0 to |plan.tokens|
          invariant params == PredicateSql(plan, firstParam).params[..i + 1]
          invariant |clauses| == i && forall k :: 0 <= k < i ==> clauses[k] == TokenClause(plan.tokens, firstParam)(k)
        {
          params := params + [SubstringPattern(plan.tokens[i])];
          clauses := clauses + [LikeEscaped(NormalName(marksParam), firstParam + |params| - 1)];
        }
        assert |clauses| > 0 ==> clauses == seq(|plan.tokens|, TokenClause(plan.tokens, firstParam));
        f := Fragment(if |clauses| > 0 then AllOf(clauses) else Never, params);
      case Phone =>
        params := params + [SubstringPattern(plan.normalized)];
        f := Fragment(LikeEscaped(DigitsOf(Coalesce([BuyerPhone, BuyerId])), firstParam + |params| - 1), params);
      case Email =>
        params := params + [SubstringPattern(plan.normalized)];
        f := Fragment(LikeEscaped(LowerOf(Coalesce([BuyerEmail])), firstParam + |params| - 1), params);
      case OrderCode =>
        params := params + [plan.normalized];
        f := Fragment(HasOrderCode(firstParam + |params| - 1), params);
      case Id =>
        params := params + [plan.normalized];
        f := Fragment(IsIdOrParticipation(LowerOf(Coalesce([BuyerId])), firstParam + |params| - 1), params);
    }
  }

  /** The ORDER BY fragment that puts a matching name first; empty unless a name is searched. */
  function RankSql(plan: Plan, firstParam: nat): Fragment {
    if plan.intent != Name || plan.tokens == [] then Fragment(Always, [])
    else Fragment(LikeEscaped(NormalName(firstParam), firstParam + 1), [HEBREW_MARKS, SubstringPattern(plan.tokens[0])])
  }

  // ---------------------------------------------------------------- meaning of the fragments

  function NameOrEmpty(row: Row): string {
    match row.name case Some(n) => n case None => ""
  }

  lemma NormalNameMeaning(row: Row, params: seq<string>, marks: nat)
    requires Bound(params, marks) == HEBREW_MARKS
    ensures TextOf(NormalName(marks), row, params) == SqlNormal(NameOrEmpty(row))
  {
    var base := Coalesce([BuyerName]);
    assert FirstNonNull(row, [BuyerName][1..]) == "";
    assert TextOf(base, row, params) == NameOrEmpty(row);
    var noMarks := TranslateOf(base, Placeholder(marks), "");
    assert TextOf(noMarks, row, params) == Translate(NameOrEmpty(row), HEBREW_MARKS, "");
  }

  /** A name plan selects exactly the rows whose displayed name holds every token, whatever is bound before it. */
  lemma NamePredicateExact(plan: Plan, before: seq<string>, row: Row, table: seq<Participation>)
    requires plan.intent == Name
    ensures var f := PredicateSql(plan, |before| + 1);
            Holds(f.sql, row, table, before + f.params) <==>
            plan.tokens != [] && forall t :: t in plan.tokens ==> Contains(SqlNormal(NameOrEmpty(row)), t)
  {
    var first := |before| + 1;
    var f := PredicateSql(plan, first);
    var params := before + f.params;
    if plan.tokens != [] {
      NormalNameMeaning(row, params, first);
      forall i | 0 <= i < |plan.tokens|
        ensures Holds(f.sql.clauses[i], row, table, params) <==> Contains(SqlNormal(NameOrEmpty(row)), plan.tokens[i])
      {
        assert f.sql.clauses[i] == LikeEscaped(NormalName(first), first + 1 + i);
        assert Bound(params, first + 1 + i) == SubstringPattern(plan.tokens[i]);
        EscapedSubstring(SqlNormal(NameOrEmpty(row)), plan.tokens[i]);
      }
    }
  }

  /** The rank of a participation is whether its name holds the first token, whatever is bound after it. */
  lemma RankExact(plan: Plan, after: seq<string>, row: Row, table: seq<Participation>)
    requires plan.intent == Name && plan.tokens != []
    ensures var f := RankSql(plan, 1);
            Holds(f.sql, row, table, f.params + after) <==> Contains(SqlNormal(NameOrEmpty(row)), plan.tokens[0])
  {
    var f := RankSql(plan, 1);
    NormalNameMeaning(row, f.params + after, 1);
    EscapedSubstring(SqlNormal(NameOrEmpty(row)), plan.tokens[0]);
  }

  /** A phone plan selects exactly the rows whose phone (or, without one, id) holds the digits in sequence. */
  lemma PhonePredicateExact(plan: Plan, before: seq<string>, row: Row, table: seq<Participation>)
    requires plan.intent == Phone
    ensures var f := PredicateSql(plan, |before| + 1);
            var shown := match row.phone case Some(p) => p case None => row.buyerId;
            Holds(f.sql, row, table, before + f.params) <==> Contains(Keep(shown, IsDigit), plan.normalized)
  {
    var f := PredicateSql(plan, |before| + 1);
    var shown := match row.phone case Some(p) => p case None => row.buyerId;
    assert [BuyerPhone, BuyerId][1..] == [BuyerId];
    assert FirstNonNull(row, [BuyerId]) == row.buyerId;
    assert FirstNonNull(row, [BuyerPhone, BuyerId]) == shown;
    assert TextOf(f.sql.e, row, before + f.params) == Keep(shown, IsDigit);
    EscapedSubstring(Keep(shown, IsDigit), plan.normalized);
  }

  /** An e-mail plan selects exactly the rows whose lower-cased e-mail contains the query. */
  lemma EmailPredicateExact(plan: Plan, before: seq<string>, row: Row, table: seq<Participation>)
    requires plan.intent == Email
    ensures var f := PredicateSql(plan, |before| + 1);
            var shown := match row.email case Some(e) => e case None => "";
            Holds(f.sql, row, table, before + f.params) <==> Contains(Lower(shown), plan.normalized)
  {
    var f := PredicateSql(plan, |before| + 1);
    var shown := match row.email case Some(e) => e case None => "";
    assert Bound(before + f.params, |before| + 1) == SubstringPattern(plan.normalized);
    assert [BuyerEmail][1..] == [];
    assert FirstNonNull(row, [BuyerEmail]) == shown;
    assert TextOf(f.sql.e, row, before + f.params) == Lower(shown);
    EscapedSubstring(Lower(shown), plan.normalized);
  }

  /** An order-code plan selects exactly the rows of buyers with a participation that carries the code. */
  lemma OrderCodePredicateExact(plan: Plan, before: seq<string>, row: Row, table: seq<Participation>)
    requires plan.intent == OrderCode
    ensures var f := PredicateSql(plan, |before| + 1);
            Holds(f.sql, row, table, before + f.params) <==>
            exists p :: p in table && p.buyerId == row.buyerId && plan.normalized in p.orderCodes
  {
    var f := PredicateSql(plan, |before| + 1);
    assert Bound(before + f.params, |before| + 1) == plan.normalized;
  }

  /** An id plan selects exactly the buyer of that id, in any case, and the buyer of the participation of that id. */
  lemma IdPredicateExact(plan: Plan, before: seq<string>, row: Row, table: seq<Participation>)
    requires plan.intent == Id
    ensures var f := PredicateSql(plan, |before| + 1);
            Holds(f.sql, row, table, before + f.params) <==>
            Lower(row.buyerId) == plan.normalized ||
            exists p :: p in table && p.buyerId == row.buyerId && p.participantId == plan.normalized
  {
    var f := PredicateSql(plan, |before| + 1);
    assert Bound(before + f.params, |before| + 1) == plan.normalized;
    assert FirstNonNull(row, [BuyerId]) == row.buyerId;
    assert TextOf(f.sql.e, row, before + f.params) == Lower(row.buyerId);
  }
}
