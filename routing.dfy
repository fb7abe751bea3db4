/** The shell in `App.tsx`: the two route guards, the route table and the chrome rule.
    Each guard is a pure decision over its store's `loading` and `isAuthenticated`. */
module Routing {
  import opened Wrappers

  /** What a guard renders: the spinner, the protected page, or a redirect. */
  datatype Outcome = Pending | Render | Redirect(path: string)

  /** The wrapper a route's element is placed in. */
  datatype Guard = Unguarded | CustomerGuard | MerchantGuard

  datatype Route = Route(pattern: string, guard: Guard)

  /** `ProtectedRoute`, over the customer store. */
  function ProtectedRoute(loading: bool, isAuthenticated: bool): (o: Outcome)
    ensures loading <==> o == Pending
    ensures o == Render <==> !loading && isAuthenticated
    ensures o.Redirect? <==> !loading && !isAuthenticated
    ensures o.Redirect? ==> o.path == "/login"
  {
    if loading then Pending
    else if isAuthenticated then Render else Redirect("/login")
  }

  /** `MerchantProtectedRoute`, over the merchant store only. */
  function MerchantProtectedRoute(loading: bool, isAuthenticated: bool): (o: Outcome)
    ensures loading <==> o == Pending
    ensures o == Render <==> !loading && isAuthenticated
    ensures o.Redirect? <==> !loading && !isAuthenticated
    ensures o.Redirect? ==> o.path == "/merchant/login"
  {
    if loading then Pending
    else if isAuthenticated then Render else Redirect("/merchant/login")
  }

  /** Routes for the given patterns, all under one guard, in order. */
  function Block(patterns: seq<string>, g: Guard): (rs: seq<Route>)
  {
    seq(|patterns|, i requires 0 <= i < |patterns| => Route(patterns[i], g))
  }

  const CustomerPatterns: seq<string> :=
    ["/", "/payment", "/transactions", "/partners", "/profile", "/referral", "/partners/:id", "/offers/:id"]
  const MerchantPatterns: seq<string> :=
    ["/merchant/dashboard", "/merchant/products", "/merchant/products/new", "/merchant/customers",
     "/merchant/search-users", "/merchant/offers", "/merchant/offers/new"]
  const PublicPatterns: seq<string> := ["/login", "/register", "/merchant/login", "/merchant/register"]

  const CustomerAuthPatterns: seq<string> := ["/login", "/register"]
  const MerchantAuthPatterns: seq<string> := ["/merchant/login", "/merchant/register"]

  /** The `<Routes>` table of `AppContent`, in declaration order. */
  const RouteTable: seq<Route> :=
    Block(CustomerAuthPatterns, Unguarded)
    + Block(CustomerPatterns, CustomerGuard)
    + Block(MerchantAuthPatterns, Unguarded)
    + Block(MerchantPatterns, MerchantGuard)

  /** The guard of the first table entry with this pattern, if any. */
  function GuardOf(table: seq<Route>, pattern: string): (g: Option<Guard>)
    ensures g.Some? <==> pattern in Patterns(table)
    ensures g.Some? ==> Route(pattern, g.value) in table
  {
    if table == [] then None
    else if table[0].pattern == pattern then
      assert Patterns(table)[0] == pattern;
      Some(table[0].guard)
    else
      var g := GuardOf(table[1..], pattern);
      assert Patterns(table) == [table[0].pattern] + Patterns(table[1..]);
      g
  }

  /** Every pattern of the table, in order. */
  function Patterns(table: seq<Route>): seq<string> {
    seq(|table|, i requires 0 <= i < |table| => table[i].pattern)
  }

  /** Patterns of the table whose entries carry the given guard, in order. */
  function PatternsWith(table: seq<Route>, g: Guard): seq<string> {
    if table == [] then []
    else (if table[0].guard == g then [table[0].pattern] else []) + PatternsWith(table[1..], g)
  }

  lemma {:induction false} PatternsWithAppend(a: seq<Route>, b: seq<Route>, g: Guard)
    ensures PatternsWith(a + b, g) == PatternsWith(a, g) + PatternsWith(b, g)
  {
    if a == [] {
      assert a + b == b;
    } else {
      assert (a + b)[0] == a[0];
      assert (a + b)[1..] == a[1..] + b;
      PatternsWithAppend(a[1..], b, g);
    }
  }

  lemma {:induction false} PatternsWithBlock(ps: seq<string>, g: Guard, h: Guard)
    ensures PatternsWith(Block(ps, g), h) == if g == h then ps else []
  {
    if ps != [] {
      PatternsWithBlock(ps[1..], g, h);
      assert Block(ps, g)[1..] == Block(ps[1..], g);
    }
  }

  /** The guard-wise patterns of the table are those of its four blocks, concatenated. */
  lemma TableSplit(g: Guard)
    ensures PatternsWith(RouteTable, g) ==
      (if g == Unguarded then CustomerAuthPatterns else []) + (if g == CustomerGuard then CustomerPatterns else [])
      + (if g == Unguarded then MerchantAuthPatterns else []) + (if g == MerchantGuard then MerchantPatterns else [])
  {
    var a, b := Block(CustomerAuthPatterns, Unguarded), Block(CustomerPatterns, CustomerGuard);
    var c, d := Block(MerchantAuthPatterns, Unguarded), Block(MerchantPatterns, MerchantGuard);
    PatternsWithAppend(a + b + c, d, g);
    PatternsWithAppend(a + b, c, g);
    PatternsWithAppend(a, b, g);
    PatternsWithBlock(CustomerAuthPatterns, Unguarded, g);
    PatternsWithBlock(CustomerPatterns, CustomerGuard, g);
    PatternsWithBlock(MerchantAuthPatterns, Unguarded, g);
    PatternsWithBlock(MerchantPatterns, MerchantGuard, g);
  }

  /** Four public routes, the eight customer routes behind `ProtectedRoute`, the seven
      merchant routes behind `MerchantProtectedRoute`, and nothing else. */
  lemma RouteGuards()
    ensures PatternsWith(RouteTable, Unguarded) == PublicPatterns
    ensures PatternsWith(RouteTable, CustomerGuard) == CustomerPatterns
    ensures PatternsWith(RouteTable, MerchantGuard) == MerchantPatterns
  {
    TableSplit(Unguarded);
    TableSplit(CustomerGuard);
    TableSplit(MerchantGuard);
  }

  /** Every pattern of the table is one of the nineteen listed above. */
  lemma TablePatterns()
    ensures Patterns(RouteTable) == CustomerAuthPatterns + CustomerPatterns + MerchantAuthPatterns + MerchantPatterns
  {
    var a, b := Block(CustomerAuthPatterns, Unguarded), Block(CustomerPatterns, CustomerGuard);
    var c, d := Block(MerchantAuthPatterns, Unguarded), Block(MerchantPatterns, MerchantGuard);
    assert Patterns(RouteTable) == Patterns(a) + Patterns(b) + Patterns(c) + Patterns(d);
  }

  /** A pattern outside the four lists has no route. */
  lemma Unlisted(pattern: string)
    requires pattern !in CustomerAuthPatterns && pattern !in CustomerPatterns
    requires pattern !in MerchantAuthPatterns && pattern !in MerchantPatterns
    ensures GuardOf(RouteTable, pattern) == None
  {
    TablePatterns();
  }

  /** The table has no admin route and no `/merchant/profile` route. */
  lemma NoAdminOrProfileRoute()
    ensures GuardOf(RouteTable, "/merchant/profile") == None
    ensures GuardOf(RouteTable, "/admin/dashboard") == None
    ensures GuardOf(RouteTable, "/admin/login") == None
  {
    Unlisted("/merchant/profile");
    Unlisted("/admin/dashboard");
    Unlisted("/admin/login");
  }

  /** What the element of a route pattern renders, given both stores. */
  function Resolve(pattern: string, customerLoading: bool, customerAuth: bool,
                   merchantLoading: bool, merchantAuth: bool): (o: Option<Outcome>)
    ensures o.None? <==> GuardOf(RouteTable, pattern).None?
    ensures GuardOf(RouteTable, pattern) == Some(CustomerGuard) ==>
              o == Some(ProtectedRoute(customerLoading, customerAuth))
    ensures GuardOf(RouteTable, pattern) == Some(MerchantGuard) ==>
              o == Some(MerchantProtectedRoute(merchantLoading, merchantAuth))
    ensures GuardOf(RouteTable, pattern) == Some(Unguarded) ==> o == Some(Render)
  {
    match GuardOf(RouteTable, pattern)
    case None => None
    case Some(Unguarded) => Some(Render)
    case Some(CustomerGuard) => Some(ProtectedRoute(customerLoading, customerAuth))
    case Some(MerchantGuard) => Some(MerchantProtectedRoute(merchantLoading, merchantAuth))
  }

  /** A merchant page never depends on the customer store, and vice versa. */
  lemma GuardsIndependent(pattern: string, cl: bool, ca: bool, cl': bool, ca': bool,
                          ml: bool, ma: bool, ml': bool, ma': bool)
    ensures GuardOf(RouteTable, pattern) == Some(MerchantGuard) ==>
              Resolve(pattern, cl, ca, ml, ma) == Resolve(pattern, cl', ca', ml, ma)
    ensures GuardOf(RouteTable, pattern) == Some(CustomerGuard) ==>
              Resolve(pattern, cl, ca, ml, ma) == Resolve(pattern, cl, ca, ml', ma')
  {
  }

  /** `{isAuthenticated && <Header />}` and `{isAuthenticated && <BottomNav />}`:
      the chrome depends on the customer store alone, whatever the path or merchant state. */
  function ShowChrome(customerAuth: bool, pattern: string, merchantAuth: bool): (show: bool)
    ensures show <==> customerAuth
  {
    customerAuth
  }

  /** The content wrapper's extra class: bottom padding for the bottom navigation. */
  function ContentPadding(customerAuth: bool): (cls: string)
    ensures cls == "pb-24" <==> customerAuth
    ensures !customerAuth ==> cls == ""
  {
    if customerAuth then "pb-24" else ""
  }

  /** The padding is reserved exactly when the bottom navigation is shown. */
  lemma PaddingMatchesChrome(customerAuth: bool, pattern: string, merchantAuth: bool)
    ensures ContentPadding(customerAuth) == "pb-24" <==> ShowChrome(customerAuth, pattern, merchantAuth)
  {
  }
}
