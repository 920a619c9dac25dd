/** The client's route table: no path matches two entries, and links parse back to what they were built from. */
module Routes {
  import opened Text

  datatype Word =
    | App | Deal | Join | Otp | Payment | PaymentReturn | Confirmation | Track | Recovery | Terms | Privacy | Refunds
    | Accessibility | SellerTerms | Contact | Seller | New | Deals | Edit | Admin | Support | Participants | Users

  /** One step of a pattern: a fixed word, or the group ([^/]+). */
  datatype Piece = Fixed(word: Word) | Hole

  datatype Name =
    | DealRoute | OtpRoute | PaymentRoute | PaymentReturnRoute | ConfirmationRoute | TrackingRoute | RecoveryRoute
    | TermsRoute | PrivacyRoute | RefundsRoute | AccessibilityRoute | SellerTermsRoute | ContactRoute
    | SellerRoute | SellerNewRoute | SellerEditRoute | SellerDealRoute
    | AdminRoute | AdminSupportRoute | AdminDealRoute | AdminParticipantRoute | AdminUserRoute

  function Spelling(w: Word): string {
    match w
    case App => "app"
    case Deal => "deal"
    case Join => "join"
    case Otp => "otp"
    case Payment => "payment"
    case PaymentReturn => "payment-return"
    case Confirmation => "confirmation"
    case Track => "track"
    case Recovery => "recovery"
    case Terms => "terms"
    case Privacy => "privacy"
    case Refunds => "refunds"
    case Accessibility => "accessibility"
    case SellerTerms => "seller-terms"
    case Contact => "contact"
    case Seller => "seller"
    case New => "new"
    case Deals => "deals"
    case Edit => "edit"
    case Admin => "admin"
    case Support => "support"
    case Participants => "participants"
    case Users => "users"
  }

  /** Every pattern starts with /app; the rest follows. */
  function Tail(name: Name): seq<Piece> {
    match name
    case DealRoute => [Fixed(Deal), Hole]
    case OtpRoute => [Fixed(Join), Hole, Fixed(Otp)]
    case PaymentRoute => [Fixed(Join), Hole, Fixed(Payment)]
    case PaymentReturnRoute => [Fixed(PaymentReturn)]
    case ConfirmationRoute => [Fixed(Join), Hole, Fixed(Confirmation)]
    case TrackingRoute => [Fixed(Track), Hole]
    case RecoveryRoute => [Fixed(Recovery), Hole]
    case TermsRoute => [Fixed(Terms)]
    case PrivacyRoute => [Fixed(Privacy)]
    case RefundsRoute => [Fixed(Refunds)]
    case AccessibilityRoute => [Fixed(Accessibility)]
    case SellerTermsRoute => [Fixed(SellerTerms)]
    case ContactRoute => [Fixed(Contact)]
    case SellerRoute => [Fixed(Seller)]
    case SellerNewRoute => [Fixed(Seller), Fixed(New)]
    case SellerEditRoute => [Fixed(Seller), Fixed(Deals), Hole, Fixed(Edit)]
    case SellerDealRoute => [Fixed(Seller), Fixed(Deals), Hole]
    case AdminRoute => [Fixed(Admin)]
    case AdminSupportRoute => [Fixed(Admin), Fixed(Support)]
    case AdminDealRoute => [Fixed(Admin), Fixed(Deals), Hole]
    case AdminParticipantRoute => [Fixed(Admin), Fixed(Participants), Hole]
    case AdminUserRoute => [Fixed(Admin), Fixed(Users), Hole]
  }

  function Pattern(name: Name): seq<Piece> { [Fixed(App)] + Tail(name) }

  const TABLE: seq<Name> :=
    [DealRoute, OtpRoute, PaymentRoute, PaymentReturnRoute, ConfirmationRoute, TrackingRoute, RecoveryRoute,
     TermsRoute, PrivacyRoute, RefundsRoute, AccessibilityRoute, SellerTermsRoute, ContactRoute,
     SellerRoute, SellerNewRoute, SellerEditRoute, SellerDealRoute,
     AdminRoute, AdminSupportRoute, AdminDealRoute, AdminParticipantRoute, AdminUserRoute]

  // ---------------------------------------------------------------- matching

  function PieceText(p: Piece, hole: string): string {
    match p case Fixed(w) => Spelling(w) case Hole => hole
  }

  /** The text a pattern stands for when its group holds `hole`. */
  function Render(pieces: seq<Piece>, hole: string): string {
    if pieces == [] then "" else "/" + PieceText(pieces[0], hole) + Render(pieces[1..], hole)
  }

  /** The length of the segment at the start of a text. */
  function SegmentLength(s: string): (n: nat)
    ensures n <= |s| && '/' !in s[..n] && (n < |s| ==> s[n] == '/')
  {
    if s == [] || s[0] == '/' then 0 else 1 + SegmentLength(s[1..])
  }

  predicate Fits(p: Piece, segment: string) {
    match p case Fixed(w) => segment == Spelling(w) case Hole => segment != ""
  }

  /** Whether the whole path matches, and what the group captured ("" when the pattern has none). */
  function Match(path: string, pieces: seq<Piece>): Option<string>
    decreases |pieces|
  {
    if pieces == [] then (if path == "" then Some("") else None)
    else if path == "" || path[0] != '/' then None
    else
      var n := SegmentLength(path[1..]);
      var segment := path[1..1 + n];
      var rest := Match(path[1 + n..], pieces[1..]);
      if !Fits(pieces[0], segment) || rest.None? then None
      else if pieces[0] == Hole then Some(segment) else rest
  }

  predicate HasHole(pieces: seq<Piece>) { exists i :: 0 <= i < |pieces| && pieces[i] == Hole }

  predicate OneHole(pieces: seq<Piece>) {
    forall i, j :: 0 <= i < j < |pieces| ==> !(pieces[i] == Hole && pieces[j] == Hole)
  }

  predicate Segment(s: string) { '/' !in s }

  lemma WordsAreSegments(w: Word)
    ensures Segment(Spelling(w)) && Spelling(w) != ""
  {
    match w case _ =>
  }

  lemma {:induction false} SegmentThen(segment: string, rest: string)
    requires Segment(segment) && (rest == "" || rest[0] == '/')
    ensures SegmentLength(segment + rest) == |segment|
  {
    if segment != [] {
      assert (segment + rest)[1..] == segment[1..] + rest;
      SegmentThen(segment[1..], rest);
    }
  }

  lemma RenderStarts(pieces: seq<Piece>, hole: string)
    ensures Render(pieces, hole) == "" <==> pieces == []
    ensures pieces != [] ==> Render(pieces, hole)[0] == '/'
  {
  }

  lemma MatchStep(pieces: seq<Piece>, text: string, rest: string)
    requires pieces != [] && Segment(text) && (rest == "" || rest[0] == '/')
    ensures
      var more := Match(rest, pieces[1..]);
      Match("/" + text + rest, pieces)
        == if !Fits(pieces[0], text) || more.None? then None else if pieces[0] == Hole then Some(text) else more
  {
    var path := "/" + text + rest;
    SegmentThen(text, rest);
    assert path[1..] == text + rest;
    assert path[1..1 + |text|] == text && path[1 + |text|..] == rest;
  }

  lemma HoleBehind(pieces: seq<Piece>)
    requires pieces != [] && pieces[0] != Hole
    ensures HasHole(pieces) <==> HasHole(pieces[1..])
  {
  }

  lemma NoHoleBehind(pieces: seq<Piece>)
    requires pieces != [] && pieces[0] == Hole && OneHole(pieces)
    ensures !HasHole(pieces[1..])
  {
  }

  /** Building then matching gives back what was put in the group. */
  lemma {:induction false} MatchOfRender(pieces: seq<Piece>, hole: string)
    requires Segment(hole) && hole != ""
    ensures Match(Render(pieces, hole), pieces).Some?
    ensures HasHole(pieces) ==> Match(Render(pieces, hole), pieces) == Some(hole)
  {
    if pieces != [] {
      if pieces[0].Fixed? { WordsAreSegments(pieces[0].word); }
      RenderStarts(pieces[1..], hole);
      MatchStep(pieces, PieceText(pieces[0], hole), Render(pieces[1..], hole));
      MatchOfRender(pieces[1..], hole);
      if pieces[0] != Hole { HoleBehind(pieces); }
    }
  }

  lemma {:induction false} RenderWithoutHole(pieces: seq<Piece>, a: string, b: string)
    requires !HasHole(pieces)
    ensures Render(pieces, a) == Render(pieces, b)
  {
    if pieces != [] {
      assert pieces[0] != Hole;
      assert !HasHole(pieces[1..]) by {
        assert forall i :: 0 <= i < |pieces[1..]| ==> pieces[1..][i] == pieces[i + 1];
      }
      RenderWithoutHole(pieces[1..], a, b);
    }
  }

  lemma FirstSegment(path: string) returns (segment: string, tail: string)
    requires path != "" && path[0] == '/'
    ensures path == "/" + segment + tail && Segment(segment) && (tail == "" || tail[0] == '/')
    ensures segment == path[1..1 + SegmentLength(path[1..])] && tail == path[1 + SegmentLength(path[1..])..]
  {
    var n := SegmentLength(path[1..]);
    segment, tail := path[1..1 + n], path[1 + n..];
    assert segment == path[1..][..n];
  }

  /** Only built paths match: the path is the pattern with the captured text in its group. */
  lemma {:induction false} RenderOfMatch(path: string, pieces: seq<Piece>)
    requires OneHole(pieces) && Match(path, pieces).Some?
    ensures path == Render(pieces, Match(path, pieces).value)
    ensures HasHole(pieces) ==> Segment(Match(path, pieces).value) && Match(path, pieces).value != ""
  {
    if pieces != [] {
      var segment, tail := FirstSegment(path);
      MatchStep(pieces, segment, tail);
      assert OneHole(pieces[1..]);
      RenderOfMatch(tail, pieces[1..]);
      if pieces[0] == Hole {
        NoHoleBehind(pieces);
        RenderWithoutHole(pieces[1..], Match(tail, pieces[1..]).value, segment);
      } else {
        HoleBehind(pieces);
      }
    }
  }

  // ---------------------------------------------------------------- the table is disjoint

  predicate Meet(p: Piece, q: Piece) { p == q || p == Hole || q == Hole }

  /** Two patterns that could match the same path. */
  predicate Compatible(p: seq<Piece>, q: seq<Piece>) {
    |p| == |q| && forall i :: 0 <= i < |p| ==> Meet(p[i], q[i])
  }

  /** Length and first two letters tell the words apart. */
  function Mark(w: Word): (int, char, char) {
    var s := Spelling(w);
    (|s|, if |s| > 1 then s[0] else ' ', if |s| > 1 then s[1] else ' ')
  }

  function MarkTable(w: Word): (int, char, char) {
    match w
    case App => (3, 'a', 'p')
    case Deal => (4, 'd', 'e')
    case Join => (4, 'j', 'o')
    case Otp => (3, 'o', 't')
    case Payment => (7, 'p', 'a')
    case PaymentReturn => (14, 'p', 'a')
    case Confirmation => (12, 'c', 'o')
    case Track => (5, 't', 'r')
    case Recovery => (8, 'r', 'e')
    case Terms => (5, 't', 'e')
    case Privacy => (7, 'p', 'r')
    case Refunds => (7, 'r', 'e')
    case Accessibility => (13, 'a', 'c')
    case SellerTerms => (12, 's', 'e')
    case Contact => (7, 'c', 'o')
    case Seller => (6, 's', 'e')
    case New => (3, 'n', 'e')
    case Deals => (5, 'd', 'e')
    case Edit => (4, 'e', 'd')
    case Admin => (5, 'a', 'd')
    case Support => (7, 's', 'u')
    case Participants => (12, 'p', 'a')
    case Users => (5, 'u', 's')
  }

  lemma MarkIs(w: Word)
    ensures Mark(w) == MarkTable(w)
  {
  }

  lemma SpellingInjective(v: Word, w: Word)
    requires Spelling(v) == Spelling(w)
    ensures v == w
  {
  }

  lemma {:induction false} BothMatchCompatible(path: string, p: seq<Piece>, q: seq<Piece>)
    requires Match(path, p).Some? && Match(path, q).Some?
    ensures Compatible(p, q)
  {
    if p != [] && q != [] {
      var n := SegmentLength(path[1..]);
      BothMatchCompatible(path[1 + n..], p[1..], q[1..]);
      if p[0].Fixed? && q[0].Fixed? { SpellingInjective(p[0].word, q[0].word); }
      forall i | 0 <= i < |p| ensures Meet(p[i], q[i]) {
        if i > 0 { assert p[1..][i - 1] == p[i] && q[1..][i - 1] == q[i]; }
      }
    }
  }

  lemma TailsApart(a: Name, b: Name)
    requires Compatible(Tail(a), Tail(b))
    ensures a == b
  {
    var p, q := Tail(a), Tail(b);
    assert Meet(p[0], q[0]);
    if |p| > 1 { assert Meet(p[1], q[1]); }
    if |p| > 2 { assert Meet(p[2], q[2]); }
    if |p| > 3 { assert Meet(p[3], q[3]); }
  }

  lemma CompatibleBehind(first: Piece, p: seq<Piece>, q: seq<Piece>)
    requires Compatible([first] + p, [first] + q)
    ensures Compatible(p, q)
  {
    forall i | 0 <= i < |p| ensures i < |q| && Meet(p[i], q[i]) {
      assert Meet(([first] + p)[i + 1], ([first] + q)[i + 1]);
    }
  }

  /** No path matches two entries of the table. */
  lemma AtMostOneEntry(path: string, a: Name, b: Name)
    requires Match(path, Pattern(a)).Some? && Match(path, Pattern(b)).Some?
    ensures a == b
  {
    BothMatchCompatible(path, Pattern(a), Pattern(b));
    CompatibleBehind(Fixed(App), Tail(a), Tail(b));
    TailsApart(a, b);
  }
}
