/** The storefront router's navigation guard and the route table it reads. A route's meta flags
    are those of every record on its path, parent first, merged together; the guard checks, in
    order, sign-in, the admin role, and guest-only pages. */
module Router {
  import opened Wrappers
  import opened Store

  datatype Meta = Meta(requiresAuth: bool, requiresAdmin: bool, guestOnly: bool)

  const NO_META: Meta := Meta(false, false, false)

  /** The named routes. */
  datatype RouteName =
    | Home | Category | ProductPage | CartPage | Checkout | Orders | OrderDetail | Profile | CmsPage
    | Login | Register | AuthCallback
    | AdminDashboard | AdminProducts | AdminCategories | AdminOrders | AdminUsers | AdminCms
    | AdminBanners | AdminSettings
    | NotFound

  /** A route record: a path, an optional name, its own meta flags and its child records. */
  datatype RouteRecord = RouteRecord(path: string, name: Option<RouteName>, meta: Meta, children: seq<RouteRecord>)

  function Leaf(path: string, name: RouteName, meta: Meta): RouteRecord
  {
    RouteRecord(path, Some(name), meta, [])
  }

  const AUTH: Meta := Meta(true, false, false)
  const ADMIN_ONLY: Meta := Meta(false, true, false)
  const GUEST: Meta := Meta(false, false, true)

  /** The route table: the storefront layout and its pages, the auth pages, the admin layout and
      its pages, and the catch-all. */
  const ROUTES: seq<RouteRecord> := [
    RouteRecord("/", None, NO_META, [
      Leaf("", Home, NO_META),
      Leaf("category/:slug", Category, NO_META),
      Leaf("product/:slug", ProductPage, NO_META),
      Leaf("cart", CartPage, NO_META),
      Leaf("checkout", Checkout, AUTH),
      Leaf("orders", Orders, AUTH),
      Leaf("orders/:id", OrderDetail, AUTH),
      Leaf("profile", Profile, AUTH),
      Leaf("page/:slug", CmsPage, NO_META)
    ]),
    Leaf("/login", Login, GUEST),
    Leaf("/register", Register, GUEST),
    Leaf("/auth/callback", AuthCallback, NO_META),
    RouteRecord("/admin", None, ADMIN_ONLY, [
      Leaf("", AdminDashboard, NO_META),
      Leaf("products", AdminProducts, NO_META),
      Leaf("categories", AdminCategories, NO_META),
      Leaf("orders", AdminOrders, NO_META),
      Leaf("users", AdminUsers, NO_META),
      Leaf("cms", AdminCms, NO_META),
      Leaf("banners", AdminBanners, NO_META),
      Leaf("settings", AdminSettings, NO_META)
    ]),
    Leaf("/:pathMatch(.*)*", NotFound, NO_META)
  ]

  /** The meta of a child record merged over its parent's: a flag is set when either sets it. */
  function Merge(parent: Meta, own: Meta): (m: Meta)
    ensures m.requiresAuth <==> parent.requiresAuth || own.requiresAuth
    ensures m.requiresAdmin <==> parent.requiresAdmin || own.requiresAdmin
    ensures m.guestOnly <==> parent.guestOnly || own.guestOnly
  {
    Meta(parent.requiresAuth || own.requiresAuth, parent.requiresAdmin || own.requiresAdmin,
         parent.guestOnly || own.guestOnly)
  }

  /** The named routes of a list of records, depth first, each with the meta merged along its path. */
  function Flatten(records: seq<RouteRecord>, inherited: Meta): seq<(RouteName, Meta)>
    decreases records
  {
    if records == [] then []
    else
      var r := records[0];
      assert r in records;
      var m := Merge(inherited, r.meta);
      (if r.name.Some? then [(r.name.value, m)] else []) + Flatten(r.children, m) + Flatten(records[1..], inherited)
  }

  /** The entries of a list of named leaf records under the given inherited meta. */
  function LeafEntries(records: seq<RouteRecord>, inherited: Meta): seq<(RouteName, Meta)>
    requires forall k :: 0 <= k < |records| ==> records[k].name.Some?
  {
    seq(|records|, k requires 0 <= k < |records| => (records[k].name.value, Merge(inherited, records[k].meta)))
  }

  /** For named leaves, flattening lists each leaf once, in order, with its merged meta. */
  lemma {:induction false} FlattenLeaves(records: seq<RouteRecord>, inherited: Meta)
    requires forall k :: 0 <= k < |records| ==> records[k].name.Some? && records[k].children == []
    ensures Flatten(records, inherited) == LeafEntries(records, inherited)
    decreases |records|
  {
    if records != [] {
      FlattenLeaves(records[1..], inherited);
      assert Flatten(records[0].children, Merge(inherited, records[0].meta)) == [];
      assert LeafEntries(records, inherited) == [LeafEntries(records, inherited)[0]] + LeafEntries(records[1..], inherited);
    }
  }

  /** The flattened table, written out. */
  const FLAT_ROUTES: seq<(RouteName, Meta)> := [
    (Home, NO_META), (Category, NO_META), (ProductPage, NO_META), (CartPage, NO_META),
    (Checkout, AUTH), (Orders, AUTH), (OrderDetail, AUTH), (Profile, AUTH), (CmsPage, NO_META),
    (Login, GUEST), (Register, GUEST), (AuthCallback, NO_META),
    (AdminDashboard, ADMIN_ONLY), (AdminProducts, ADMIN_ONLY), (AdminCategories, ADMIN_ONLY),
    (AdminOrders, ADMIN_ONLY), (AdminUsers, ADMIN_ONLY), (AdminCms, ADMIN_ONLY),
    (AdminBanners, ADMIN_ONLY), (AdminSettings, ADMIN_ONLY),
    (NotFound, NO_META)
  ]

  /** The storefront layout contributes its nine pages with their own flags. */
  lemma StorefrontEntries()
    ensures Flatten(ROUTES[0].children, NO_META) == FLAT_ROUTES[..9]
  {
    var pages := ROUTES[0].children;
    FlattenLeaves(pages, NO_META);
    assert |LeafEntries(pages, NO_META)| == 9;
    forall k | 0 <= k < 9 ensures LeafEntries(pages, NO_META)[k] == FLAT_ROUTES[k] {
    }
  }

  /** The admin layout contributes its eight pages, each with the layout's admin flag. */
  lemma AdminEntries()
    ensures Flatten(ROUTES[4].children, ADMIN_ONLY) == FLAT_ROUTES[12..20]
  {
    var pages := ROUTES[4].children;
    FlattenLeaves(pages, ADMIN_ONLY);
    assert |LeafEntries(pages, ADMIN_ONLY)| == 8;
    forall k | 0 <= k < 8 ensures LeafEntries(pages, ADMIN_ONLY)[k] == FLAT_ROUTES[12 + k] {
    }
  }

  /** The top-level pages without layout contribute themselves. */
  lemma TopLevelEntries()
    ensures Flatten(ROUTES[1..4], NO_META) == FLAT_ROUTES[9..12]
    ensures Flatten(ROUTES[5..], NO_META) == FLAT_ROUTES[20..]
  {
    FlattenLeaves(ROUTES[1..4], NO_META);
    FlattenLeaves(ROUTES[5..], NO_META);
  }

  /** Flattening a concatenation concatenates the flattenings. */
  lemma {:induction false} FlattenAppend(a: seq<RouteRecord>, b: seq<RouteRecord>, inherited: Meta)
    ensures Flatten(a + b, inherited) == Flatten(a, inherited) + Flatten(b, inherited)
    decreases |a|
  {
    if a != [] {
      assert (a + b)[0] == a[0];
      assert (a + b)[1..] == a[1..] + b;
      FlattenAppend(a[1..], b, inherited);
    } else {
      assert a + b == b;
    }
  }

  /** Merging the nested records gives the written-out table: every admin page inherits the admin
      flag of its layout, and storefront pages get only their own flags. */
  lemma FlattenedTable()
    ensures Flatten(ROUTES, NO_META) == FLAT_ROUTES
  {
    StorefrontEntries();
    AdminEntries();
    TopLevelEntries();
    assert ROUTES == ROUTES[..1] + ROUTES[1..4] + ROUTES[4..5] + ROUTES[5..];
    FlattenAppend(ROUTES[..1] + ROUTES[1..4] + ROUTES[4..5], ROUTES[5..], NO_META);
    FlattenAppend(ROUTES[..1] + ROUTES[1..4], ROUTES[4..5], NO_META);
    FlattenAppend(ROUTES[..1], ROUTES[1..4], NO_META);
    assert Flatten(ROUTES[..1], NO_META) == Flatten(ROUTES[0].children, NO_META);
    assert Flatten(ROUTES[4..5], NO_META) == Flatten(ROUTES[4].children, ADMIN_ONLY);
    assert FLAT_ROUTES == FLAT_ROUTES[..9] + FLAT_ROUTES[9..12] + FLAT_ROUTES[12..20] + FLAT_ROUTES[20..];
  }

  /** The meta of the route with that name, as the flattened table gives it. */
  function MetaOf(name: RouteName): Meta
  {
    match name
    case Checkout | Orders | OrderDetail | Profile => AUTH
    case Login | Register => GUEST
    case AdminDashboard | AdminProducts | AdminCategories | AdminOrders | AdminUsers | AdminCms
       | AdminBanners | AdminSettings => ADMIN_ONLY
    case _ => NO_META
  }

  /** The index of each route in the written-out table. */
  function Position(name: RouteName): nat
  {
    match name
    case Home => 0 case Category => 1 case ProductPage => 2 case CartPage => 3
    case Checkout => 4 case Orders => 5 case OrderDetail => 6 case Profile => 7 case CmsPage => 8
    case Login => 9 case Register => 10 case AuthCallback => 11
    case AdminDashboard => 12 case AdminProducts => 13 case AdminCategories => 14
    case AdminOrders => 15 case AdminUsers => 16 case AdminCms => 17
    case AdminBanners => 18 case AdminSettings => 19
    case NotFound => 20
  }

  /** Every route is listed exactly once in the table, with the meta `MetaOf` gives it. */
  lemma MetaOfIsTable()
    ensures forall k :: 0 <= k < |Flatten(ROUTES, NO_META)| ==>
              Flatten(ROUTES, NO_META)[k].1 == MetaOf(Flatten(ROUTES, NO_META)[k].0)
    ensures forall name: RouteName :: Position(name) < |Flatten(ROUTES, NO_META)| && Flatten(ROUTES, NO_META)[Position(name)].0 == name
    ensures forall j, k ::
              (0 <= j < |Flatten(ROUTES, NO_META)| && 0 <= k < |Flatten(ROUTES, NO_META)| &&
               Flatten(ROUTES, NO_META)[j].0 == Flatten(ROUTES, NO_META)[k].0) ==> j == k
  {
    FlattenedTable();
    FlatTableFacts();
    FlatTableCovers();
  }

  /** Each entry of the written-out table sits at its route's position, with the meta `MetaOf` gives it. */
  lemma FlatTableFacts()
    ensures forall k :: 0 <= k < |FLAT_ROUTES| ==>
              FLAT_ROUTES[k].1 == MetaOf(FLAT_ROUTES[k].0) && Position(FLAT_ROUTES[k].0) == k
  {
    forall k | 0 <= k < |FLAT_ROUTES|
      ensures FLAT_ROUTES[k].1 == MetaOf(FLAT_ROUTES[k].0) && Position(FLAT_ROUTES[k].0) == k
    {
    }
  }

  /** Every route is listed in the written-out table, at its position. */
  lemma FlatTableCovers()
    ensures forall name: RouteName :: Position(name) < |FLAT_ROUTES| && FLAT_ROUTES[Position(name)].0 == name
  {
    forall name: RouteName
      ensures Position(name) < |FLAT_ROUTES| && FLAT_ROUTES[Position(name)].0 == name
    {
    }
  }

  /** Which routes carry which flags. */
  lemma RouteFlags(name: RouteName)
    ensures MetaOf(name).requiresAuth <==> name in {Checkout, Orders, OrderDetail, Profile}
    ensures MetaOf(name).guestOnly <==> name in {Login, Register}
    ensures MetaOf(name).requiresAdmin <==>
              name in {AdminDashboard, AdminProducts, AdminCategories, AdminOrders, AdminUsers,
                       AdminCms, AdminBanners, AdminSettings}
  {
  }

  /** The auth store's state the guard reads. */
  datatype AuthState = AuthState(accessToken: Option<string>, role: Option<Role>)

  /** Signed in means an access token is held (an empty string does not count). */
  predicate IsAuthenticated(auth: AuthState)
  {
    auth.accessToken.Some? && auth.accessToken.value != ""
  }

  /** Admin means the loaded user's role is ADMIN. */
  predicate IsAdmin(auth: AuthState)
  {
    auth.role == Some(ADMIN)
  }

  /** Where a navigation is headed: the matched route and the full path typed or linked. */
  datatype Location = Location(route: RouteName, fullPath: string)

  /** A redirect: to the login page remembering where the user was going, or to the home page. */
  datatype Redirect = ToLogin(redirect: string) | ToHome

  /** The guard's decision for a route with these merged flags, checked in order: sign-in, the
      admin role, guest-only. `None` lets the navigation proceed. */
  function Decide(meta: Meta, fullPath: string, auth: AuthState): (r: Option<Redirect>)
    ensures r == Some(ToLogin(fullPath)) <==> meta.requiresAuth && !IsAuthenticated(auth)
    ensures r == Some(ToHome) <==>
              !(meta.requiresAuth && !IsAuthenticated(auth))
              && ((meta.requiresAdmin && !IsAdmin(auth)) || (meta.guestOnly && IsAuthenticated(auth)))
    ensures r.None? || r == Some(ToLogin(fullPath)) || r == Some(ToHome)
  {
    if meta.requiresAuth && !IsAuthenticated(auth) then Some(ToLogin(fullPath))
    else if meta.requiresAdmin && !IsAdmin(auth) then Some(ToHome)
    else if meta.guestOnly && IsAuthenticated(auth) then Some(ToHome)
    else None
  }

  /** The beforeEach guard on a navigation: the decision for the target route's merged flags. */
  function Guard(to: Location, auth: AuthState): (r: Option<Redirect>)
    ensures r.None? <==>
              && !(MetaOf(to.route).requiresAuth && !IsAuthenticated(auth))
              && !(MetaOf(to.route).requiresAdmin && !IsAdmin(auth))
              && !(MetaOf(to.route).guestOnly && IsAuthenticated(auth))
  {
    Decide(MetaOf(to.route), to.fullPath, auth)
  }

  /** Sign-in is checked before the role: a signed-out visitor of a route that needs both is sent
      to the login page, not home. */
  lemma SignInCheckedFirst(meta: Meta, fullPath: string, auth: AuthState)
    requires meta.requiresAuth && meta.requiresAdmin && !IsAuthenticated(auth)
    ensures Decide(meta, fullPath, auth) == Some(ToLogin(fullPath))
  {
  }

  /** The route a redirect navigates to. */
  function Target(r: Redirect): RouteName
  {
    match r
    case ToLogin(_) => Login
    case ToHome => Home
  }

  /** A redirect is never redirected again: with the same auth state, the guard lets the
      navigation to the login page or to the home page through. */
  lemma RedirectsSettle(to: Location, auth: AuthState, path: string)
    requires Guard(to, auth).Some?
    ensures Guard(Location(Target(Guard(to, auth).value), path), auth).None?
  {
    RouteFlags(Login);
    RouteFlags(Home);
  }

  /** The protected storefront pages send a signed-out visitor to the login page, which brings
      them back to the page they asked for. */
  lemma ProtectedPagesForGuests(to: Location, auth: AuthState)
    requires to.route in {Checkout, Orders, OrderDetail, Profile} && !IsAuthenticated(auth)
    ensures Guard(to, auth) == Some(ToLogin(to.fullPath))
  {
    RouteFlags(to.route);
  }

  /** Routes without flags are always reachable. */
  lemma OpenRoutes(to: Location, auth: AuthState)
    requires MetaOf(to.route) == NO_META
    ensures Guard(to, auth).None?
  {
  }

  /** The admin pages carry only the admin flag, so a signed-out visitor is sent home, not to the
      login page. */
  lemma AdminPagesForGuests(to: Location, auth: AuthState)
    requires MetaOf(to.route).requiresAdmin && !IsAuthenticated(auth) && !IsAdmin(auth)
    ensures Guard(to, auth) == Some(ToHome)
  {
    RouteFlags(to.route);
  }
}
