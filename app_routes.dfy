/**
 * Client-side routing: the `ProtectedRoute` guard and the two route tables, one for
 * signed-out visitors and one for signed-in users. A pathname is matched segment by
 * segment; `:name` segments match any non-empty segment.
 */
module AppRoutes {
  import opened Wrappers
  import opened Storage
  import opened UserService

  datatype Page =
    | LoginPage | RegisterPage
    | ConcertsPage | ConcertDetailPage
    | AdminConcertsPage | ConcertFormPage
    | AdminVenuesPage | VenueFormPage | VenueSectionsPage
    | AdminOrdersPage
    | CheckoutPage | PaymentPage | TicketTypesPage

  /** What a location renders: a page, or a `<Navigate replace>` to another path. */
  datatype Outcome = Show(page: Page) | Redirect(to: string)

  datatype Segment = Static(name: string) | Param(name: string)

  datatype Route = Route(pattern: seq<Segment>, page: Page, adminOnly: bool)

  /** `ProtectedRoute`: authentication is checked first, then the admin requirement. */
  function ProtectedRoute(authenticated: bool, admin: bool, adminOnly: bool, page: Page): (o: Outcome)
    ensures !authenticated ==> o == Redirect("/login")
    ensures authenticated && adminOnly && !admin ==> o == Redirect("/concerts")
    ensures authenticated && (!adminOnly || admin) ==> o == Show(page)
  {
    if !authenticated then Redirect("/login")
    else if adminOnly && !admin then Redirect("/concerts")
    else Show(page)
  }

  /** `Boolean(id)` for a route's `:id` parameter: the form pages edit when it is present. */
  predicate IsEditRoute(routeId: Option<string>) {
    routeId.Some? && routeId.value != ""
  }

  /** The routes a signed-out visitor can reach; every other path goes to `/login`. */
  const PublicRoutes: seq<Route> := [
    Route([Static("login")], LoginPage, false),
    Route([Static("register")], RegisterPage, false)
  ]

  /** The routes of a signed-in user, in declaration order; `/` and `*` go to `/concerts`. */
  const ProtectedRoutes: seq<Route> := [
    Route([Static("concerts")], ConcertsPage, false),
    Route([Static("concerts"), Param("id")], ConcertDetailPage, false),
    Route([Static("admin"), Static("concerts")], AdminConcertsPage, true),
    Route([Static("admin"), Static("concerts"), Static("create")], ConcertFormPage, true),
    Route([Static("admin"), Static("concerts"), Static("edit"), Param("id")], ConcertFormPage, true),
    Route([Static("admin"), Static("venues")], AdminVenuesPage, true),
    Route([Static("admin"), Static("venues"), Static("create")], VenueFormPage, true),
    Route([Static("admin"), Static("venues"), Static("edit"), Param("id")], VenueFormPage, true),
    Route([Static("admin"), Static("venues"), Param("venueId"), Static("sections")], VenueSectionsPage, true),
    Route([Static("admin"), Static("orders")], AdminOrdersPage, true)
  ]

  /** Characters up to the next '/' (or the end). */
  function SegmentLength(p: string): (k: nat)
    ensures k <= |p|
    ensures forall i :: 0 <= i < k ==> p[i] != '/'
    ensures k < |p| ==> p[k] == '/'
  {
    if p == [] || p[0] == '/' then 0 else 1 + SegmentLength(p[1..])
  }

  /** The non-empty '/'-separated segments of a pathname. */
  function Segments(p: string): (segs: seq<string>)
    ensures forall i :: 0 <= i < |segs| ==> segs[i] != "" && '/' !in segs[i]
    decreases |p|
  {
    if p == [] then []
    else if p[0] == '/' then Segments(p[1..])
    else
      var k := SegmentLength(p);
      [p[..k]] + Segments(p[k..])
  }

  /** The pathname `/s1/s2/…/sn`. */
  function Join(segs: seq<string>): string {
    if segs == [] then "" else "/" + segs[0] + Join(segs[1..])
  }

  predicate SegmentMatches(p: Segment, s: string) {
    match p
    case Static(n) => s == n
    case Param(_) => s != ""
  }

  predicate Matches(pattern: seq<Segment>, segs: seq<string>) {
    |pattern| == |segs| && forall i :: 0 <= i < |segs| ==> SegmentMatches(pattern[i], segs[i])
  }

  /** The first route of the table whose pattern matches. */
  function FindRoute(routes: seq<Route>, segs: seq<string>): (r: Option<Route>)
    ensures r.Some? ==> r.value in routes && Matches(r.value.pattern, segs)
    ensures r.None? <==> forall i :: 0 <= i < |routes| ==> !Matches(routes[i].pattern, segs)
  {
    if routes == [] then None
    else if Matches(routes[0].pattern, segs) then Some(routes[0])
    else FindRoute(routes[1..], segs)
  }

  /** What the router renders for a pathname's segments when `table` holds the signed-in routes. */
  function ResolveIn(table: seq<Route>, segs: seq<string>, authenticated: bool, admin: bool): Outcome {
    if !authenticated then
      match FindRoute(PublicRoutes, segs)
      case Some(r) => Show(r.page)
      case None => Redirect("/login")
    else if segs == [] then
      Redirect("/concerts")
    else
      match FindRoute(table, segs)
      case Some(r) => ProtectedRoute(authenticated, admin, r.adminOnly, r.page)
      case None => Redirect("/concerts")
  }

  /** What `AppRoutes` renders for a pathname's segments. */
  function Resolve(segs: seq<string>, authenticated: bool, admin: bool): Outcome {
    ResolveIn(ProtectedRoutes, segs, authenticated, admin)
  }

  /** Routing as the app does it: the session is read from storage. */
  function ResolvePath(items: map<string, Item>, pathname: string): Outcome {
    Resolve(Segments(pathname), IsAuthenticated(items), IsAdmin(items))
  }

  lemma {:induction false} SegmentLengthOfJoin(s: string, rest: string)
    requires '/' !in s
    requires rest == [] || rest[0] == '/'
    ensures SegmentLength(s + rest) == |s|
  {
    if s == [] {
      assert s + rest == rest;
    } else {
      assert (s + rest)[0] == s[0];
      assert (s + rest)[1..] == s[1..] + rest;
      SegmentLengthOfJoin(s[1..], rest);
    }
  }

  /** Splitting the pathname built from non-empty, slash-free segments gives the segments back. */
  lemma {:induction false} SegmentsOfJoin(segs: seq<string>)
    requires forall i :: 0 <= i < |segs| ==> segs[i] != "" && '/' !in segs[i]
    ensures Segments(Join(segs)) == segs
  {
    if segs != [] {
      var s, rest := segs[0], Join(segs[1..]);
      assert Join(segs) == "/" + (s + rest);
      assert ("/" + (s + rest))[1..] == s + rest;
      SegmentLengthOfJoin(s, rest);
      assert (s + rest)[..|s|] == s && (s + rest)[|s|..] == rest;
      SegmentsOfJoin(segs[1..]);
    }
  }

  /** The first matching route is found whatever the later entries are. */
  lemma {:induction false} FirstMatchAt(routes: seq<Route>, segs: seq<string>, k: nat)
    requires k < |routes| && Matches(routes[k].pattern, segs)
    requires forall j :: 0 <= j < k ==> !Matches(routes[j].pattern, segs)
    ensures FindRoute(routes, segs) == Some(routes[k])
  {
    if k > 0 {
      FirstMatchAt(routes[1..], segs, k - 1);
    }
  }

  lemma ProtectedPatternsNonEmpty()
    ensures forall i :: 0 <= i < |ProtectedRoutes| ==> ProtectedRoutes[i].pattern != []
  {
  }

  /** No pattern of the table is empty, so a matched path has a segment. */
  lemma MatchedPathIsNotRoot(routes: seq<Route>, segs: seq<string>)
    requires forall i :: 0 <= i < |routes| ==> routes[i].pattern != []
    requires FindRoute(routes, segs).Some?
    ensures segs != []
  {
    var r := FindRoute(routes, segs).value;
    assert |r.pattern| == |segs|;
  }

  /** Signed out, only `/login` and `/register` render; every other path redirects to `/login`. */
  lemma SignedOutRouting(segs: seq<string>, admin: bool)
    ensures Resolve(segs, false, admin) ==
      if segs == ["login"] then Show(LoginPage)
      else if segs == ["register"] then Show(RegisterPage)
      else Redirect("/login")
  {
    var login, register := PublicRoutes[0].pattern, PublicRoutes[1].pattern;
    assert Matches(login, segs) <==> segs == ["login"] by {
      if Matches(login, segs) { assert SegmentMatches(login[0], segs[0]); }
    }
    assert Matches(register, segs) <==> segs == ["register"] by {
      if Matches(register, segs) { assert SegmentMatches(register[0], segs[0]); }
    }
    if Matches(login, segs) {
      FirstMatchAt(PublicRoutes, segs, 0);
    } else if Matches(register, segs) {
      FirstMatchAt(PublicRoutes, segs, 1);
    }
  }

  /** A route is admin-only exactly when its path starts with `/admin`; no route begins with a parameter. */
  lemma AdminOnlyIffAdminPrefix()
    ensures forall i :: 0 <= i < |ProtectedRoutes| ==>
      ProtectedRoutes[i].pattern != [] && ProtectedRoutes[i].pattern[0].Static? &&
      (ProtectedRoutes[i].adminOnly <==> ProtectedRoutes[i].pattern[0].name == "admin")
  {
  }

  /** Every route open to non-administrators shows a concert page. */
  lemma UserRoutesAreConcertPages()
    ensures forall i :: 0 <= i < |ProtectedRoutes| && !ProtectedRoutes[i].adminOnly ==>
      ProtectedRoutes[i].page == ConcertsPage || ProtectedRoutes[i].page == ConcertDetailPage
  {
  }

  /** A signed-in non-administrator sees a concert page or is sent to `/concerts`, whatever the path. */
  lemma NonAdminSeesOnlyConcertPages(segs: seq<string>)
    ensures Resolve(segs, true, false) in {Show(ConcertsPage), Show(ConcertDetailPage), Redirect("/concerts")}
  {
    UserRoutesAreConcertPages();
  }

  /** Every `/admin/...` path sends a signed-in non-administrator to `/concerts`. */
  lemma AdminPathsTurnAwayUsers(segs: seq<string>)
    requires segs != [] && segs[0] == "admin"
    ensures Resolve(segs, true, false) == Redirect("/concerts")
  {
    AdminOnlyIffAdminPrefix();
    var r := FindRoute(ProtectedRoutes, segs);
    if r.Some? {
      assert SegmentMatches(r.value.pattern[0], segs[0]);
    }
  }

  /** An administrator sees the page of every route in the table. */
  lemma AdminSeesEveryRoute(segs: seq<string>)
    requires FindRoute(ProtectedRoutes, segs).Some?
    ensures Resolve(segs, true, true) == Show(FindRoute(ProtectedRoutes, segs).value.page)
  {
    ProtectedPatternsNonEmpty();
    MatchedPathIsNotRoot(ProtectedRoutes, segs);
  }

  /** `/concerts` and `/concerts/:id` render for every signed-in user, administrator or not. */
  lemma ConcertPagesForEveryUser(id: string, admin: bool)
    requires id != ""
    ensures Resolve(["concerts"], true, admin) == Show(ConcertsPage)
    ensures Resolve(["concerts", id], true, admin) == Show(ConcertDetailPage)
  {
    assert Matches(ProtectedRoutes[0].pattern, ["concerts"]);
    FirstMatchAt(ProtectedRoutes, ["concerts"], 0);
    assert Matches(ProtectedRoutes[1].pattern, ["concerts", id]);
    FirstMatchAt(ProtectedRoutes, ["concerts", id], 1);
  }

  /** Signed in, any one-segment path other than `/concerts` is unmatched and redirects to `/concerts`. */
  lemma SingleSegmentFallsBack(seg: string, admin: bool)
    requires seg != "concerts"
    ensures Resolve([seg], true, admin) == Redirect("/concerts")
  {
    SingleSegmentUnmatched(seg);
  }

  lemma SingleSegmentUnmatched(seg: string)
    requires seg != "concerts"
    ensures forall i :: 0 <= i < |ProtectedRoutes| ==> !Matches(ProtectedRoutes[i].pattern, [seg])
  {
    forall i | 0 <= i < |ProtectedRoutes|
      ensures !Matches(ProtectedRoutes[i].pattern, [seg])
    {
      var pattern := ProtectedRoutes[i].pattern;
      if |pattern| == 1 {
        assert pattern == [Static("concerts")];
        assert !SegmentMatches(pattern[0], [seg][0]);
      }
    }
  }

  /**
   * `/`, `/my-orders`, `/checkout`, `/payment` and the ticket-types path are not registered,
   * so a signed-in user who opens them (the checkout page navigates to `/payment`, the
   * admin concert list to `/admin/concerts/:id/tickets`) lands on `/concerts`.
   */
  lemma UnregisteredPagesFallBack(admin: bool)
    ensures Resolve(Segments("/"), true, admin) == Redirect("/concerts")
    ensures Resolve(Segments(Join(["my-orders"])), true, admin) == Redirect("/concerts")
    ensures Resolve(Segments(Join(["checkout"])), true, admin) == Redirect("/concerts")
    ensures Resolve(Segments(Join(["payment"])), true, admin) == Redirect("/concerts")
    ensures forall id :: id != "edit" ==> Resolve(["admin", "concerts", id, "tickets"], true, admin) == Redirect("/concerts")
  {
    NamedPagesFallBack(admin);
    TicketsPathsFallBack(admin);
  }

  lemma NamedPagesFallBack(admin: bool)
    ensures Resolve(Segments("/"), true, admin) == Redirect("/concerts")
    ensures Resolve(Segments(Join(["my-orders"])), true, admin) == Redirect("/concerts")
    ensures Resolve(Segments(Join(["checkout"])), true, admin) == Redirect("/concerts")
    ensures Resolve(Segments(Join(["payment"])), true, admin) == Redirect("/concerts")
  {
    assert Segments("/") == Segments("") == [];
    SegmentsOfJoin(["my-orders"]);
    SegmentsOfJoin(["checkout"]);
    SegmentsOfJoin(["payment"]);
    assert "checkout"[1] != "concerts"[1];
    SingleSegmentFallsBack("my-orders", admin);
    SingleSegmentFallsBack("checkout", admin);
    SingleSegmentFallsBack("payment", admin);
  }

  /**
   * The admin concert list's "Gestionar tickets" button opens `/admin/concerts/:id/tickets`.
   * No route has that shape, so administrators and everyone else land on `/concerts`; only
   * the id `edit` is taken by the concert form instead.
   */
  lemma TicketsPathFallsBack(id: string, admin: bool)
    requires id != "edit"
    ensures Resolve(["admin", "concerts", id, "tickets"], true, admin) == Redirect("/concerts")
  {
    TicketsPathUnmatched(id);
  }

  lemma TicketsPathsFallBack(admin: bool)
    ensures forall id :: id != "edit" ==> Resolve(["admin", "concerts", id, "tickets"], true, admin) == Redirect("/concerts")
  {
    forall id | id != "edit"
      ensures Resolve(["admin", "concerts", id, "tickets"], true, admin) == Redirect("/concerts")
    {
      TicketsPathFallsBack(id, admin);
    }
  }

  lemma TicketsPathUnmatched(id: string)
    requires id != "edit"
    ensures forall i :: 0 <= i < |ProtectedRoutes| ==> !Matches(ProtectedRoutes[i].pattern, ["admin", "concerts", id, "tickets"])
  {
    var segs := ["admin", "concerts", id, "tickets"];
    forall i | 0 <= i < |ProtectedRoutes|
      ensures !Matches(ProtectedRoutes[i].pattern, segs)
    {
      if i == 4 {
        assert !SegmentMatches(ProtectedRoutes[4].pattern[2], segs[2]);
      } else if i == 7 || i == 8 {
        assert !SegmentMatches(ProtectedRoutes[i].pattern[1], segs[1]) by {
          assert "venues"[0] != "concerts"[0];
        }
      }
    }
  }

  lemma AdminConcertsRoute()
    ensures FindRoute(ProtectedRoutes, ["admin", "concerts"]) == Some(ProtectedRoutes[2])
  {
    var segs := ["admin", "concerts"];
    assert Matches(ProtectedRoutes[2].pattern, segs);
    assert !Matches(ProtectedRoutes[1].pattern, segs) by {
      assert !SegmentMatches(ProtectedRoutes[1].pattern[0], segs[0]) by {
        assert "admin"[0] != "concerts"[0];
      }
    }
    FirstMatchAt(ProtectedRoutes, segs, 2);
  }

  lemma AdminVenuesRoute()
    ensures FindRoute(ProtectedRoutes, ["admin", "venues"]) == Some(ProtectedRoutes[5])
  {
    var segs := ["admin", "venues"];
    assert Matches(ProtectedRoutes[5].pattern, segs);
    assert !Matches(ProtectedRoutes[1].pattern, segs) by {
      assert !SegmentMatches(ProtectedRoutes[1].pattern[0], segs[0]) by {
        assert "admin"[0] != "concerts"[0];
      }
    }
    assert !Matches(ProtectedRoutes[2].pattern, segs) by {
      assert !SegmentMatches(ProtectedRoutes[2].pattern[1], segs[1]) by {
        assert "venues"[0] != "concerts"[0];
      }
    }
    FirstMatchAt(ProtectedRoutes, segs, 5);
  }

  lemma AdminConcertsSegments()
    ensures Segments("/admin/concerts") == ["admin", "concerts"]
  {
    assert Join(["admin", "concerts"]) == "/admin/concerts" by {
      assert Join(["concerts"]) == "/" + "concerts" + Join([]);
    }
    SegmentsOfJoin(["admin", "concerts"]);
  }

  lemma AdminVenuesSegments()
    ensures Segments("/admin/venues") == ["admin", "venues"]
  {
    assert Join(["admin", "venues"]) == "/admin/venues" by {
      assert Join(["venues"]) == "/" + "venues" + Join([]);
    }
    SegmentsOfJoin(["admin", "venues"]);
  }

  /**
   * `/admin/concerts` and `/admin/venues`, where the concert and venue forms return after a
   * save, show their list pages to administrators and send everyone else to `/concerts`.
   */
  lemma AdminListPages()
    ensures Resolve(Segments("/admin/concerts"), true, true) == Show(AdminConcertsPage)
    ensures Resolve(Segments("/admin/venues"), true, true) == Show(AdminVenuesPage)
    ensures Resolve(Segments("/admin/concerts"), true, false) == Redirect("/concerts")
    ensures Resolve(Segments("/admin/venues"), true, false) == Redirect("/concerts")
  {
    AdminConcertsSegments();
    AdminVenuesSegments();
    AdminConcertsRoute();
    AdminVenuesRoute();
    AdminPathsTurnAwayUsers(["admin", "concerts"]);
    AdminPathsTurnAwayUsers(["admin", "venues"]);
  }

  /**
   * `/admin/venues/edit/sections` matches both `/admin/venues/edit/:id` and
   * `/admin/venues/:venueId/sections`, which show different pages.
   */
  lemma VenueEditOverlapsSections()
    ensures Matches(ProtectedRoutes[7].pattern, ["admin", "venues", "edit", "sections"])
    ensures Matches(ProtectedRoutes[8].pattern, ["admin", "venues", "edit", "sections"])
    ensures ProtectedRoutes[7].page != ProtectedRoutes[8].page
  {
  }

  /** Of the two overlapping routes, the edit form, declared first, is the one shown. */
  lemma VenueEditBeforeSections()
    ensures FindRoute(ProtectedRoutes, ["admin", "venues", "edit", "sections"]) == Some(ProtectedRoutes[7])
  {
    var segs := ["admin", "venues", "edit", "sections"];
    VenueEditOverlapsSections();
    forall j | 0 <= j < 7
      ensures !Matches(ProtectedRoutes[j].pattern, segs)
    {
      if j == 4 {
        assert !SegmentMatches(ProtectedRoutes[4].pattern[1], segs[1]) by {
          assert "venues"[0] != "concerts"[0];
        }
      }
    }
    FirstMatchAt(ProtectedRoutes, segs, 7);
  }

  /** The two customer pages the checkout flow navigates to, which the signed-in table leaves out. */
  const CustomerFlowRoutes: seq<Route> := [
    Route([Static("checkout")], CheckoutPage, false),
    Route([Static("payment")], PaymentPage, false)
  ]

  /** The ticket-types page the admin concert list navigates to, an admin-only route. */
  const TicketTypesRoute := Route([Static("admin"), Static("concerts"), Param("concertId"), Static("tickets")], TicketTypesPage, true)

  /** The routes the app navigates to but does not register. */
  const AddedRoutes: seq<Route> := CustomerFlowRoutes + [TicketTypesRoute]

  /**
   * The signed-in table with the checkout and payment pages registered as customer routes
   * and the ticket-types page as an admin route, after the existing ones.
   */
  const IntendedProtectedRoutes: seq<Route> := ProtectedRoutes + AddedRoutes

  /** Looking a path up in two tables one after the other is looking it up in their concatenation. */
  lemma {:induction false} FindRouteAppend(a: seq<Route>, b: seq<Route>, segs: seq<string>)
    ensures FindRoute(a + b, segs) == if FindRoute(a, segs).Some? then FindRoute(a, segs) else FindRoute(b, segs)
  {
    if a == [] {
      assert a + b == b;
    } else {
      assert (a + b)[0] == a[0];
      assert (a + b)[1..] == a[1..] + b;
      if !Matches(a[0].pattern, segs) {
        FindRouteAppend(a[1..], b, segs);
      }
    }
  }

  /** A one-segment path other than `concerts` is looked up in the added routes. */
  lemma IntendedSingleSegment(seg: string)
    requires seg != "concerts"
    ensures FindRoute(IntendedProtectedRoutes, [seg]) == FindRoute(AddedRoutes, [seg])
  {
    SingleSegmentUnmatched(seg);
    FindRouteAppend(ProtectedRoutes, AddedRoutes, [seg]);
  }

  lemma CheckoutSegments()
    ensures Segments("/checkout") == ["checkout"]
  {
    assert Join(["checkout"]) == "/checkout";
    SegmentsOfJoin(["checkout"]);
  }

  lemma PaymentSegments()
    ensures Segments("/payment") == ["payment"]
  {
    assert Join(["payment"]) == "/payment";
    SegmentsOfJoin(["payment"]);
  }

  /** With the intended table, `/checkout` shows the checkout page to every signed-in user. */
  lemma IntendedCheckoutPage(admin: bool)
    ensures ResolveIn(IntendedProtectedRoutes, Segments("/checkout"), true, admin) == Show(CheckoutPage)
  {
    CheckoutSegments();
    assert "checkout"[1] != "concerts"[1];
    IntendedSingleSegment("checkout");
    assert Matches(AddedRoutes[0].pattern, ["checkout"]);
    FirstMatchAt(AddedRoutes, ["checkout"], 0);
  }

  /** With the intended table, `/payment` shows the payment page to every signed-in user. */
  lemma IntendedPaymentPage(admin: bool)
    ensures ResolveIn(IntendedProtectedRoutes, Segments("/payment"), true, admin) == Show(PaymentPage)
  {
    PaymentSegments();
    IntendedSingleSegment("payment");
    PaymentRouteFound();
  }

  lemma PaymentRouteFound()
    ensures FindRoute(AddedRoutes, ["payment"]) == Some(AddedRoutes[1])
  {
    assert !Matches(AddedRoutes[0].pattern, ["payment"]) by {
      assert !SegmentMatches(AddedRoutes[0].pattern[0], "payment") by {
        assert "checkout"[0] != "payment"[0];
      }
    }
    FirstMatchAt(AddedRoutes, ["payment"], 1);
  }

  /**
   * With the intended table, `/admin/concerts/:id/tickets` shows the ticket-types page to
   * administrators and sends everyone else to `/concerts`; the id `edit` still opens the
   * concert form, which is declared first.
   */
  lemma IntendedTicketsPage(id: string, admin: bool)
    requires id != "" && id != "edit"
    ensures ResolveIn(IntendedProtectedRoutes, ["admin", "concerts", id, "tickets"], true, admin) ==
      if admin then Show(TicketTypesPage) else Redirect("/concerts")
  {
    IntendedTicketsRoute(id);
  }

  lemma IntendedTicketsRoute(id: string)
    requires id != "" && id != "edit"
    ensures FindRoute(IntendedProtectedRoutes, ["admin", "concerts", id, "tickets"]) == Some(TicketTypesRoute)
  {
    var segs := ["admin", "concerts", id, "tickets"];
    TicketsPathUnmatched(id);
    FindRouteAppend(ProtectedRoutes, AddedRoutes, segs);
    forall j | 0 <= j < 2
      ensures !Matches(AddedRoutes[j].pattern, segs)
    {
    }
    assert Matches(AddedRoutes[2].pattern, segs);
    FirstMatchAt(AddedRoutes, segs, 2);
  }

  /** The intended table routes every path that no added route matches exactly as the app does. */
  lemma IntendedKeepsOtherPaths(segs: seq<string>, authenticated: bool, admin: bool)
    requires forall i :: 0 <= i < |AddedRoutes| ==> !Matches(AddedRoutes[i].pattern, segs)
    ensures ResolveIn(IntendedProtectedRoutes, segs, authenticated, admin) == Resolve(segs, authenticated, admin)
  {
    FindRouteAppend(ProtectedRoutes, AddedRoutes, segs);
  }
}
