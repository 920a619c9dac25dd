/** The paths of the route table, spelled out. */
module RoutePaths {
  import opened Text
  import opened PercentCode
  import opened Routes
  import opened RouteLinks

  /** Every path as the client writes it, with `hole` for the encoded id. */
  function Path(name: Name, hole: string): string {
    match name
    case DealRoute => "/app/deal/" + hole
    case OtpRoute => "/app/join/" + hole + "/otp"
    case PaymentRoute => "/app/join/" + hole + "/payment"
    case PaymentReturnRoute => "/app/payment-return"
    case ConfirmationRoute => "/app/join/" + hole + "/confirmation"
    case TrackingRoute => "/app/track/" + hole
    case RecoveryRoute => "/app/recovery/" + hole
    case TermsRoute => "/app/terms"
    case PrivacyRoute => "/app/privacy"
    case RefundsRoute => "/app/refunds"
    case AccessibilityRoute => "/app/accessibility"
    case SellerTermsRoute => "/app/seller-terms"
    case ContactRoute => "/app/contact"
    case SellerRoute => "/app/seller"
    case SellerNewRoute => "/app/seller/new"
    case SellerEditRoute => "/app/seller/deals/" + hole + "/edit"
    case SellerDealRoute => "/app/seller/deals/" + hole
    case AdminRoute => "/app/admin"
    case AdminSupportRoute => "/app/admin/support"
    case AdminDealRoute => "/app/admin/deals/" + hole
    case AdminParticipantRoute => "/app/admin/participants/" + hole
    case AdminUserRoute => "/app/admin/users/" + hole
  }

  // ---------------------------------------------------------------- the table spells these paths

  lemma RenderTail(tail: seq<Piece>, hole: string)
    ensures Render([Fixed(App)] + tail, hole) == "/app" + Render(tail, hole)
  {
    assert ([Fixed(App)] + tail)[1..] == tail;
    assert "/" + "app" == "/app";
  }

  lemma RenderOne(p: Piece, hole: string)
    ensures Render([p], hole) == "/" + PieceText(p, hole)
  {
    assert Render([p][1..], hole) == "";
  }

  lemma RenderTwo(p: Piece, q: Piece, hole: string)
    ensures Render([p, q], hole) == "/" + PieceText(p, hole) + ("/" + PieceText(q, hole))
  {
    assert [p, q][1..] == [q];
    RenderOne(q, hole);
  }

  lemma RenderThree(p: Piece, q: Piece, r: Piece, hole: string)
    ensures Render([p, q, r], hole) == "/" + PieceText(p, hole) + ("/" + PieceText(q, hole) + ("/" + PieceText(r, hole)))
  {
    assert [p, q, r][1..] == [q, r];
    RenderTwo(q, r, hole);
  }

  lemma RenderFour(p: Piece, q: Piece, r: Piece, s: Piece, hole: string)
    ensures Render([p, q, r, s], hole)
      == "/" + PieceText(p, hole)
         + ("/" + PieceText(q, hole) + ("/" + PieceText(r, hole) + ("/" + PieceText(s, hole))))
  {
    assert [p, q, r, s][1..] == [q, r, s];
    RenderThree(q, r, s, hole);
  }

  lemma DealSpells(hole: string)
    ensures "/app" + Render(Tail(DealRoute), hole) == Path(DealRoute, hole)
  {
    RenderTwo(Fixed(Deal), Hole, hole);
  }

  lemma OtpSpells(hole: string)
    ensures "/app" + Render(Tail(OtpRoute), hole) == Path(OtpRoute, hole)
  {
    RenderThree(Fixed(Join), Hole, Fixed(Otp), hole);
  }

  lemma PaymentSpells(hole: string)
    ensures "/app" + Render(Tail(PaymentRoute), hole) == Path(PaymentRoute, hole)
  {
    RenderThree(Fixed(Join), Hole, Fixed(Payment), hole);
  }

  lemma PaymentReturnSpells(hole: string)
    ensures "/app" + Render(Tail(PaymentReturnRoute), hole) == Path(PaymentReturnRoute, hole)
  {
    RenderOne(Fixed(PaymentReturn), hole);
  }

  lemma ConfirmationSpells(hole: string)
    ensures "/app" + Render(Tail(ConfirmationRoute), hole) == Path(ConfirmationRoute, hole)
  {
    RenderThree(Fixed(Join), Hole, Fixed(Confirmation), hole);
  }

  lemma TrackingSpells(hole: string)
    ensures "/app" + Render(Tail(TrackingRoute), hole) == Path(TrackingRoute, hole)
  {
    RenderTwo(Fixed(Track), Hole, hole);
  }

  lemma RecoverySpells(hole: string)
    ensures "/app" + Render(Tail(RecoveryRoute), hole) == Path(RecoveryRoute, hole)
  {
    RenderTwo(Fixed(Recovery), Hole, hole);
  }

  lemma TermsSpells(hole: string)
    ensures "/app" + Render(Tail(TermsRoute), hole) == Path(TermsRoute, hole)
  {
    RenderOne(Fixed(Terms), hole);
  }

  lemma PrivacySpells(hole: string)
    ensures "/app" + Render(Tail(PrivacyRoute), hole) == Path(PrivacyRoute, hole)
  {
    RenderOne(Fixed(Privacy), hole);
  }

  lemma RefundsSpells(hole: string)
    ensures "/app" + Render(Tail(RefundsRoute), hole) == Path(RefundsRoute, hole)
  {
    RenderOne(Fixed(Refunds), hole);
  }

  lemma AccessibilitySpells(hole: string)
    ensures "/app" + Render(Tail(AccessibilityRoute), hole) == Path(AccessibilityRoute, hole)
  {
    RenderOne(Fixed(Accessibility), hole);
  }

  lemma SellerTermsSpells(hole: string)
    ensures "/app" + Render(Tail(SellerTermsRoute), hole) == Path(SellerTermsRoute, hole)
  {
    RenderOne(Fixed(SellerTerms), hole);
  }

  lemma ContactSpells(hole: string)
    ensures "/app" + Render(Tail(ContactRoute), hole) == Path(ContactRoute, hole)
  {
    RenderOne(Fixed(Contact), hole);
  }

  lemma SellerSpells(hole: string)
    ensures "/app" + Render(Tail(SellerRoute), hole) == Path(SellerRoute, hole)
  {
    RenderOne(Fixed(Seller), hole);
  }

  lemma SellerNewSpells(hole: string)
    ensures "/app" + Render(Tail(SellerNewRoute), hole) == Path(SellerNewRoute, hole)
  {
    RenderTwo(Fixed(Seller), Fixed(New), hole);
  }

  lemma SellerEditSpells(hole: string)
    ensures "/app" + Render(Tail(SellerEditRoute), hole) == Path(SellerEditRoute, hole)
  {
    RenderFour(Fixed(Seller), Fixed(Deals), Hole, Fixed(Edit), hole);
  }

  lemma SellerDealSpells(hole: string)
    ensures "/app" + Render(Tail(SellerDealRoute), hole) == Path(SellerDealRoute, hole)
  {
    RenderThree(Fixed(Seller), Fixed(Deals), Hole, hole);
  }

  lemma AdminSpells(hole: string)
    ensures "/app" + Render(Tail(AdminRoute), hole) == Path(AdminRoute, hole)
  {
    RenderOne(Fixed(Admin), hole);
  }

  lemma AdminSupportSpells(hole: string)
    ensures "/app" + Render(Tail(AdminSupportRoute), hole) == Path(AdminSupportRoute, hole)
  {
    RenderTwo(Fixed(Admin), Fixed(Support), hole);
  }

  lemma AdminDealSpells(hole: string)
    ensures "/app" + Render(Tail(AdminDealRoute), hole) == Path(AdminDealRoute, hole)
  {
    RenderThree(Fixed(Admin), Fixed(Deals), Hole, hole);
  }

  lemma Glued(a: string, b: string, hole: string)
    ensures "/app" + ("/" + a + ("/" + b + ("/" + hole))) == ("/app/" + a + "/" + b + "/") + hole
  {
  }

  lemma ParticipantsPath()
    ensures "/app/" + "admin" + "/" + "participants" + "/" == "/app/admin/participants/"
  {
  }

  lemma AdminParticipantSpells(hole: string)
    ensures "/app" + Render(Tail(AdminParticipantRoute), hole) == Path(AdminParticipantRoute, hole)
  {
    RenderThree(Fixed(Admin), Fixed(Participants), Hole, hole);
    Glued("admin", "participants", hole);
    ParticipantsPath();
  }

  lemma AdminUserSpells(hole: string)
    ensures "/app" + Render(Tail(AdminUserRoute), hole) == Path(AdminUserRoute, hole)
  {
    RenderThree(Fixed(Admin), Fixed(Users), Hole, hole);
  }

  lemma TailSpells(name: Name, hole: string)
    ensures "/app" + Render(Tail(name), hole) == Path(name, hole)
  {
    match name
    case DealRoute => DealSpells(hole);
    case OtpRoute => OtpSpells(hole);
    case PaymentRoute => PaymentSpells(hole);
    case PaymentReturnRoute => PaymentReturnSpells(hole);
    case ConfirmationRoute => ConfirmationSpells(hole);
    case TrackingRoute => TrackingSpells(hole);
    case RecoveryRoute => RecoverySpells(hole);
    case TermsRoute => TermsSpells(hole);
    case PrivacyRoute => PrivacySpells(hole);
    case RefundsRoute => RefundsSpells(hole);
    case AccessibilityRoute => AccessibilitySpells(hole);
    case SellerTermsRoute => SellerTermsSpells(hole);
    case ContactRoute => ContactSpells(hole);
    case SellerRoute => SellerSpells(hole);
    case SellerNewRoute => SellerNewSpells(hole);
    case SellerEditRoute => SellerEditSpells(hole);
    case SellerDealRoute => SellerDealSpells(hole);
    case AdminRoute => AdminSpells(hole);
    case AdminSupportRoute => AdminSupportSpells(hole);
    case AdminDealRoute => AdminDealSpells(hole);
    case AdminParticipantRoute => AdminParticipantSpells(hole);
    case AdminUserRoute => AdminUserSpells(hole);
  }

  lemma PatternSpells(name: Name, hole: string)
    ensures Render(Pattern(name), hole) == Path(name, hole)
  {
    RenderTail(Tail(name), hole);
    TailSpells(name, hole);
  }

  // ---------------------------------------------------------------- what parses, and to what

  lemma PageIsMatched(path: string, name: Name)
    requires !TakesId(name) && Parse(TABLE, path) == Found(name, None)
    ensures Match(Normalized(path), Pattern(name)).Some?
  {
    FirstMatchIs(TABLE, Normalized(path));
  }

  lemma {:induction false} PageIsParsed(path: string, name: Name)
    requires !TakesId(name) && Parse(TABLE, path) == Found(name, None)
    ensures Normalized(path) == Path(name, "")
  {
    var normalized := Normalized(path);
    PageIsMatched(path, name);
    EveryName(name);
    PatternSpells(name, "");
    RenderOfMatch(normalized, Pattern(name));
    RenderWithoutHole(Pattern(name), "", Match(normalized, Pattern(name)).value);
  }

  lemma ParsedIsPage(path: string, name: Name)
    requires !TakesId(name) && Normalized(path) == Path(name, "")
    ensures Parse(TABLE, path) == Found(name, None)
  {
    EveryName(name);
    PatternSpells(name, "");
    RenderWithoutHole(Pattern(name), "", "x");
    LinkIsNormal(name, "x");
    MatchOfRender(Pattern(name), "x");
    FoundEntry(TABLE, Normalized(path), name);
  }

  /** A path leads to a page without an id exactly when it is that page's path. */
  lemma ParsesToPageIff(path: string, name: Name)
    requires !TakesId(name)
    ensures Parse(TABLE, path) == Found(name, None) <==> Normalized(path) == Path(name, "")
  {
    if Parse(TABLE, path) == Found(name, None) { PageIsParsed(path, name); }
    if Normalized(path) == Path(name, "") { ParsedIsPage(path, name); }
  }

  ghost predicate LeadsTo(path: string, name: Name, id: string) {
    exists hole :: Segment(hole) && hole != "" && Decode(hole) == Some(id) && Normalized(path) == Path(name, hole)
  }

  lemma ParsedLeads(path: string, name: Name, id: string)
    requires Parse(TABLE, path) == Found(name, Some(id))
    ensures LeadsTo(path, name, id)
  {
    ParsedSpells(path, name, id);
    var hole :| Segment(hole) && hole != "" && Decode(hole) == Some(id) && Normalized(path) == Render(Pattern(name), hole);
    PatternSpells(name, hole);
  }

  lemma LeadsParses(path: string, name: Name, id: string, hole: string)
    requires TakesId(name) && Segment(hole) && hole != "" && Decode(hole) == Some(id) && Normalized(path) == Path(name, hole)
    ensures Parse(TABLE, path) == Found(name, Some(id))
  {
    PatternSpells(name, hole);
    EveryName(name);
    LinkIsNormal(name, hole);
    MatchOfRender(Pattern(name), hole);
    FoundEntry(TABLE, Normalized(path), name);
  }

  /** A path leads to a page with an id exactly when it is that page's path around a text that decodes to the id. */
  lemma ParsesToIdIff(path: string, name: Name, id: string)
    requires TakesId(name)
    ensures Parse(TABLE, path) == Found(name, Some(id)) <==> LeadsTo(path, name, id)
  {
    if Parse(TABLE, path) == Found(name, Some(id)) { ParsedLeads(path, name, id); }
    if LeadsTo(path, name, id) {
      var hole :| Segment(hole) && hole != "" && Decode(hole) == Some(id) && Normalized(path) == Path(name, hole);
      LeadsParses(path, name, id, hole);
    }
  }

  lemma {:induction false} PathParses(path: string, name: Name, id: string)
    requires TakesId(name) && id != "" && path == Path(name, Encode(id))
    ensures Parse(TABLE, path) == Found(name, Some(id))
  {
    PatternSpells(name, Encode(id));
    LinkParses(name, id);
  }

  lemma {:induction false} PageParses(path: string, name: Name)
    requires !TakesId(name) && path == Path(name, "")
    ensures Parse(TABLE, path) == Found(name, None)
  {
    PatternSpells(name, "");
    EveryName(name);
    RenderWithoutHole(Pattern(name), "", "x");
    LinkIsNormal(name, "x");
    ParsesToPageIff(Path(name, ""), name);
  }

  // ---------------------------------------------------------------- the paths one by one

  /** The links to a deal, and to the first step of joining it. */
  lemma {:induction false} DealLinksLead(path: string, id: string)
    requires id != ""
    ensures path == "/app/deal/" + Encode(id) ==> Parse(TABLE, path) == Found(DealRoute, Some(id))
    ensures path == "/app/join/" + Encode(id) + "/otp" ==> Parse(TABLE, path) == Found(OtpRoute, Some(id))
  {
    if path == "/app/deal/" + Encode(id) { PathParses(path, DealRoute, id); }
    if path == "/app/join/" + Encode(id) + "/otp" { PathParses(path, OtpRoute, id); }
  }

  /** The links to the other steps. */
  lemma {:induction false} JoinLinksLead(path: string, id: string)
    requires id != ""
    ensures path == "/app/join/" + Encode(id) + "/payment" ==> Parse(TABLE, path) == Found(PaymentRoute, Some(id))
    ensures path == "/app/join/" + Encode(id) + "/confirmation" ==> Parse(TABLE, path) == Found(ConfirmationRoute, Some(id))
  {
    if path == "/app/join/" + Encode(id) + "/payment" { PathParses(path, PaymentRoute, id); }
    if path == "/app/join/" + Encode(id) + "/confirmation" { PathParses(path, ConfirmationRoute, id); }
  }

  /** The links to a participation. */
  lemma {:induction false} ParticipationLinksLead(path: string, id: string)
    requires id != ""
    ensures path == "/app/track/" + Encode(id) ==> Parse(TABLE, path) == Found(TrackingRoute, Some(id))
    ensures path == "/app/recovery/" + Encode(id) ==> Parse(TABLE, path) == Found(RecoveryRoute, Some(id))
  {
    if path == "/app/track/" + Encode(id) { PathParses(path, TrackingRoute, id); }
    if path == "/app/recovery/" + Encode(id) { PathParses(path, RecoveryRoute, id); }
  }

  /** The links to a seller's deals. */
  lemma {:induction false} SellerLinksLead(path: string, id: string)
    requires id != ""
    ensures path == "/app/seller/deals/" + Encode(id) + "/edit" ==> Parse(TABLE, path) == Found(SellerEditRoute, Some(id))
    ensures path == "/app/seller/deals/" + Encode(id) ==> Parse(TABLE, path) == Found(SellerDealRoute, Some(id))
  {
    if path == "/app/seller/deals/" + Encode(id) + "/edit" { PathParses(path, SellerEditRoute, id); }
    if path == "/app/seller/deals/" + Encode(id) { PathParses(path, SellerDealRoute, id); }
  }

  /** The links to the admin's pages. */
  lemma {:induction false} AdminLinksLead(path: string, id: string)
    requires id != ""
    ensures path == "/app/admin/deals/" + Encode(id) ==> Parse(TABLE, path) == Found(AdminDealRoute, Some(id))
    ensures path == "/app/admin/participants/" + Encode(id) ==> Parse(TABLE, path) == Found(AdminParticipantRoute, Some(id))
  {
    if path == "/app/admin/deals/" + Encode(id) { PathParses(path, AdminDealRoute, id); }
    if path == "/app/admin/participants/" + Encode(id) { PathParses(path, AdminParticipantRoute, id); }
  }

  lemma {:induction false} UserLinksLead(path: string, id: string)
    requires id != ""
    ensures path == "/app/admin/users/" + Encode(id) ==> Parse(TABLE, path) == Found(AdminUserRoute, Some(id))
  {
    if path == "/app/admin/users/" + Encode(id) { PathParses(path, AdminUserRoute, id); }
  }

  /** The pages without an id. */
  lemma {:induction false} PagesLead(path: string)
    ensures path == "/app/terms" ==> Parse(TABLE, path) == Found(TermsRoute, None)
    ensures path == "/app/privacy" ==> Parse(TABLE, path) == Found(PrivacyRoute, None)
    ensures path == "/app/refunds" ==> Parse(TABLE, path) == Found(RefundsRoute, None)
    ensures path == "/app/accessibility" ==> Parse(TABLE, path) == Found(AccessibilityRoute, None)
    ensures path == "/app/seller-terms" ==> Parse(TABLE, path) == Found(SellerTermsRoute, None)
    ensures path == "/app/contact" ==> Parse(TABLE, path) == Found(ContactRoute, None)
    ensures path == "/app/seller" ==> Parse(TABLE, path) == Found(SellerRoute, None)
    ensures path == "/app/seller/new" ==> Parse(TABLE, path) == Found(SellerNewRoute, None)
    ensures path == "/app/admin" ==> Parse(TABLE, path) == Found(AdminRoute, None)
    ensures path == "/app/admin/support" ==> Parse(TABLE, path) == Found(AdminSupportRoute, None)
    ensures path == "/app/payment-return" ==> Parse(TABLE, path) == Found(PaymentReturnRoute, None)
  {
    if path == "/app/terms" { PageParses(path, TermsRoute); }
    if path == "/app/privacy" { PageParses(path, PrivacyRoute); }
    if path == "/app/refunds" { PageParses(path, RefundsRoute); }
    if path == "/app/accessibility" { PageParses(path, AccessibilityRoute); }
    if path == "/app/seller-terms" { PageParses(path, SellerTermsRoute); }
    if path == "/app/contact" { PageParses(path, ContactRoute); }
    if path == "/app/seller" { PageParses(path, SellerRoute); }
    if path == "/app/seller/new" { PageParses(path, SellerNewRoute); }
    if path == "/app/admin" { PageParses(path, AdminRoute); }
    if path == "/app/admin/support" { PageParses(path, AdminSupportRoute); }
    if path == "/app/payment-return" { PageParses(path, PaymentReturnRoute); }
  }

  lemma HomeLeads()
    ensures Parse(TABLE, "/") == Home && Parse(TABLE, "/app") == Home
  {
    assert StripSlashes("/") == StripSlashes("") == "";
    assert StripSlashes("/app") == "/app";
  }

  /** Whatever is none of these paths is home, or not found. */
  lemma NotFoundIff(path: string)
    ensures Parse(TABLE, path) == NotFound <==>
      !IsHome(Normalized(path)) && forall name :: !IsPath(Normalized(path), name)
  {
    var normalized := Normalized(path);
    FirstMatchIs(TABLE, normalized);
    forall name ensures IsPath(normalized, name) <==> Match(normalized, Pattern(name)).Some? { IsPathIff(normalized, name); }
    forall name ensures name in TABLE { EveryName(name); }
    if FirstMatch(TABLE, normalized).Some? { assert IsPath(normalized, FirstMatch(TABLE, normalized).value); }
  }

  ghost predicate IsPath(path: string, name: Name) {
    exists hole :: Segment(hole) && hole != "" && path == Path(name, hole)
  }

  lemma IsPathIff(path: string, name: Name)
    ensures IsPath(path, name) <==> Match(path, Pattern(name)).Some?
  {
    EveryName(name);
    if IsPath(path, name) {
      var hole :| Segment(hole) && hole != "" && path == Path(name, hole);
      PatternSpells(name, hole);
      MatchOfRender(Pattern(name), hole);
    }
    if Match(path, Pattern(name)).Some? {
      RenderOfMatch(path, Pattern(name));
      var hole := if HasHole(Pattern(name)) then Match(path, Pattern(name)).value else "x";
      if !HasHole(Pattern(name)) { RenderWithoutHole(Pattern(name), "x", Match(path, Pattern(name)).value); }
      PatternSpells(name, hole);
      assert Segment(hole) && hole != "" && path == Path(name, hole);
    }
  }
}
