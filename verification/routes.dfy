/** The browser router: the public site under the main layout, one guarded
    dashboard per role whose children are an index redirect plus the routes
    generated from that role's sidebar, and three unguarded top-level pages.
    `withAuth` and `generateRoutes` are not part of this model: a guarded
    entry records the role it is wrapped with, and a generated child matches
    exactly the URLs of its sidebar's items. */
module Routes {
  import opened Wrappers
  import opened Navigation

  /** The page components outside the dashboards. */
  datatype Page = MainLayout | Home | About | Feature | FaqPage | Contact | Login | Signup | DashboardLayout

  /** A child route. */
  datatype Child =
    | Index(redirect: string)               // `{ index: true, element: <Navigate to=... /> }`
    | Leaf(path: string, page: Page)        // `{ path, Component }`
    | Generated(groups: seq<NavGroup>)      // `...generateRoutes(items)`

  /** A top-level route: its path, its component, the role `withAuth` checks
      (if it is wrapped), and its children. */
  datatype RouteEntry = RouteEntry(path: string, layout: Page, guard: Option<string>, children: seq<Child>)

  /** The public site under the main layout. */
  const MainEntry := RouteEntry("/", MainLayout, None, [
    Leaf("/", Home), Leaf("/about", About), Leaf("/feature", Feature), Leaf("/faq", FaqPage), Leaf("/contact", Contact)])

  /** A role's dashboard: `withAuth(DashboardLayout, role)` at "/role", an
      index redirect to the overview, then the routes generated from the
      role's sidebar. */
  function DashboardEntry(role: string, groups: seq<NavGroup>): RouteEntry
  {
    RouteEntry("/" + role, DashboardLayout, Some(role), [Index(RoleBase(role) + "overview"), Generated(groups)])
  }

  /** The router's table, with the three sidebars it generates from as
      parameters. */
  function Table(admin: seq<NavGroup>, user: seq<NavGroup>, agent: seq<NavGroup>): seq<RouteEntry>
  {
    [ MainEntry,
      DashboardEntry(AdminRole, admin),
      DashboardEntry(UserRole, user),
      DashboardEntry(AgentRole, agent),
      RouteEntry("/login", Login, None, []),
      RouteEntry("/signup", Signup, None, []),
      RouteEntry("/dashboard", DashboardLayout, None, []) ]
  }

  const RouterTable: seq<RouteEntry> := Table(AdminSidebarItems, UserSidebarItems, AgentSidebarItems)

  /** The sidebar a table built from three sidebars gives a role. */
  function SidebarOf(admin: seq<NavGroup>, user: seq<NavGroup>, agent: seq<NavGroup>, role: string): seq<NavGroup>
  {
    if role == AdminRole then admin else if role == UserRole then user else agent
  }

  /** Where a role's dashboard sits in the table. */
  function Slot(role: string): nat
  {
    if role == AdminRole then 1 else if role == UserRole then 2 else 3
  }

  predicate SidebarsWellFormed(admin: seq<NavGroup>, user: seq<NavGroup>, agent: seq<NavGroup>)
  {
    WellFormed(admin, AdminRole) && WellFormed(user, UserRole) && WellFormed(agent, AgentRole)
  }

  /** The application's table is built from well-formed sidebars, and each
      role's dashboard generates from the role's sidebar. */
  lemma RouterSidebars(role: string)
    requires IsRole(role)
    ensures SidebarsWellFormed(AdminSidebarItems, UserSidebarItems, AgentSidebarItems)
    ensures SidebarOf(AdminSidebarItems, UserSidebarItems, AgentSidebarItems, role) == GetSidebarItems(role)
  {
    AdminSidebarWellFormed();
    UserSidebarWellFormed();
    AgentSidebarWellFormed();
  }

  /** What a path shows: a page or a dashboard view inside a layout, or a
      redirect; either one behind the entry's guard (if any), since an index
      `<Navigate>` renders inside the guarded layout. */
  datatype Screen = PageScreen(page: Page) | ViewScreen(view: View)

  datatype Resolution = Render(layout: Page, screen: Screen, guard: Option<string>) | Redirect(to: string, guard: Option<string>)

  /** What one child makes of the path. */
  function MatchChild(e: RouteEntry, c: Child, path: string): (r: Option<Resolution>)
    ensures r.Some? ==> r.value.guard == e.guard
  {
    match c
    case Index(target) => if path == e.path then Some(Redirect(target, e.guard)) else None
    case Leaf(p, page) => if p == path then Some(Render(e.layout, PageScreen(page), e.guard)) else None
    case Generated(groups) =>
      match FindByUrl(Items(groups), path)
      case Some(item) => Some(Render(e.layout, ViewScreen(item.component), e.guard))
      case None => None
  }

  /** The first of the entry's children from `k` on that matches the path. */
  function MatchChildren(e: RouteEntry, k: nat, path: string): (r: Option<Resolution>)
    requires k <= |e.children|
    ensures r.Some? ==> r.value.guard == e.guard
    ensures r.None? <==> forall j :: k <= j < |e.children| ==> MatchChild(e, e.children[j], path).None?
    ensures r.Some? ==> exists j :: k <= j < |e.children| && r == MatchChild(e, e.children[j], path)
                                    && forall j' :: k <= j' < j ==> MatchChild(e, e.children[j'], path).None?
    decreases |e.children| - k
  {
    if k == |e.children| then None
    else
      var here := MatchChild(e, e.children[k], path);
      if here.Some? then here else MatchChildren(e, k + 1, path)
  }

  /** One entry: a leaf entry matches its own path; an entry with children
      matches through them. */
  function MatchEntry(e: RouteEntry, path: string): (r: Option<Resolution>)
    ensures r.Some? ==> r.value.guard == e.guard
    ensures |e.children| == 0 ==> (r.Some? <==> path == e.path)
  {
    if |e.children| == 0 then
      if path == e.path then Some(Render(e.layout, PageScreen(e.layout), e.guard)) else None
    else MatchChildren(e, 0, path)
  }

  /** The first entry of the table that matches. */
  function Resolve(table: seq<RouteEntry>, path: string): (r: Option<Resolution>)
    ensures r.Some? ==> exists i :: 0 <= i < |table| && MatchEntry(table[i], path) == r
                                    && forall i' :: 0 <= i' < i ==> MatchEntry(table[i'], path).None?
    ensures r.None? <==> forall i :: 0 <= i < |table| ==> MatchEntry(table[i], path).None?
  {
    if |table| == 0 then None
    else
      var here := MatchEntry(table[0], path);
      if here.Some? then here
      else
        var rest := Resolve(table[1..], path);
        assert forall i :: 1 <= i < |table| ==> table[i] == table[1..][i - 1];
        rest
  }

  /** A role's dashboard matches its bare path with the redirect, each of
      its sidebar's URLs with that item's component, and no path outside its
      base. */
  lemma DashboardMatch(role: string, groups: seq<NavGroup>, path: string)
    requires IsRole(role) && WellFormed(groups, role)
    ensures path == "/" + role ==> MatchEntry(DashboardEntry(role, groups), path) == Some(Redirect(RoleBase(role) + "overview", Some(role)))
    ensures path != "/" + role && !StartsWith(path, RoleBase(role)) ==> MatchEntry(DashboardEntry(role, groups), path).None?
    ensures forall k :: 0 <= k < |Items(groups)| && path == Items(groups)[k].url ==>
              MatchEntry(DashboardEntry(role, groups), path) ==
                Some(Render(DashboardLayout, ViewScreen(Items(groups)[k].component), Some(role)))
  {
    var e := DashboardEntry(role, groups);
    var items := Items(groups);
    if path != "/" + role && !StartsWith(path, RoleBase(role)) {
      forall k | 0 <= k < |items|
        ensures items[k].url != path
      {
        assert Urls(groups)[k] == items[k].url;
      }
    }
    forall k | 0 <= k < |items| && path == items[k].url
      ensures MatchEntry(e, path) == Some(Render(DashboardLayout, ViewScreen(items[k].component), Some(role)))
    {
      assert Urls(groups)[k] == path;
      assert StartsWith(path, RoleBase(role));
      assert path != e.path by { assert |path| > |e.path|; }
      FindFirstIsOnly(items, k);
      assert MatchChild(e, e.children[0], path).None?;
      assert MatchChild(e, e.children[1], path) == Some(Render(DashboardLayout, ViewScreen(items[k].component), Some(role)));
      assert MatchChildren(e, 1, path) == MatchChild(e, e.children[1], path);
    }
  }

  /** The main layout's children match only their five literal paths. */
  lemma MainEntryMatch(path: string)
    ensures MatchEntry(MainEntry, path).Some? ==> path in {"/", "/about", "/feature", "/faq", "/contact"}
  {
  }

  /** No public path lies under a dashboard's base. */
  lemma PublicPathsOutsideDashboards(path: string, role: string)
    requires path in {"/", "/about", "/feature", "/faq", "/contact", "/login", "/signup", "/dashboard"}
    requires IsRole(role)
    ensures !StartsWith(path, RoleBase(role)) && path != "/" + role
  {
    var base := RoleBase(role);
    assert |path| < |base| || path[..|base|][1] != base[1];
    if role == AdminRole {
      assert "/" + role == "/admin";
    } else if role == UserRole {
      assert "/" + role == "/user";
    } else {
      assert "/" + role == "/agent";
    }
  }

  /** A path under one role's base is not another role's bare path. */
  lemma NotOtherBarePath(path: string, role: string, other: string)
    requires IsRole(role) && IsRole(other) && role != other
    requires StartsWith(path, RoleBase(role))
    ensures path != "/" + other
  {
    assert path[1] == RoleBase(role)[1] && path[2] == RoleBase(role)[2];
    if other == AdminRole {
      assert "/" + other == "/admin";
    } else if other == UserRole {
      assert "/" + other == "/user";
    } else {
      assert "/" + other == "/agent";
    }
  }

  /** A path under one role's base matches no entry of the table but that
      role's dashboard. */
  lemma OnlyOwnDashboardMatches(admin: seq<NavGroup>, user: seq<NavGroup>, agent: seq<NavGroup>, role: string, path: string, i: nat)
    requires SidebarsWellFormed(admin, user, agent)
    requires IsRole(role) && StartsWith(path, RoleBase(role))
    requires i < 7 && i != Slot(role)
    ensures MatchEntry(Table(admin, user, agent)[i], path).None?
  {
    var t := Table(admin, user, agent);
    if i == 0 {
      MainEntryMatch(path);
      if MatchEntry(MainEntry, path).Some? {
        PublicPathsOutsideDashboards(path, role);
      }
    } else if i <= 3 {
      var other := if i == 1 then AdminRole else if i == 2 then UserRole else AgentRole;
      assert t[i] == DashboardEntry(other, SidebarOf(admin, user, agent, other));
      BasesExclusive(path, role, other);
      NotOtherBarePath(path, role, other);
      DashboardMatch(other, SidebarOf(admin, user, agent, other), path);
    } else {
      if path == t[i].path {
        PublicPathsOutsideDashboards(path, role);
      }
    }
  }

  /** Every link of a well-formed sidebar resolves, behind its own role's
      guard and in the dashboard layout, to the component the sidebar names. */
  lemma SidebarLinksResolveIn(admin: seq<NavGroup>, user: seq<NavGroup>, agent: seq<NavGroup>, role: string, k: nat)
    requires SidebarsWellFormed(admin, user, agent)
    requires IsRole(role) && k < |Items(SidebarOf(admin, user, agent, role))|
    ensures var item := Items(SidebarOf(admin, user, agent, role))[k];
            Resolve(Table(admin, user, agent), item.url) == Some(Render(DashboardLayout, ViewScreen(item.component), Some(role)))
  {
    var t := Table(admin, user, agent);
    var groups := SidebarOf(admin, user, agent, role);
    var item := Items(groups)[k];
    var path := item.url;
    assert Urls(groups)[k] == path;
    assert StartsWith(path, RoleBase(role));
    var d := Slot(role);
    assert t[d] == DashboardEntry(role, groups);
    DashboardMatch(role, groups, path);
    forall i | 0 <= i < |t| && i != d
      ensures MatchEntry(t[i], path).None?
    {
      OnlyOwnDashboardMatches(admin, user, agent, role, path, i);
    }
    ResolveUnique(t, path, d);
  }

  /** Every sidebar link resolves, behind its own role's guard and in the
      dashboard layout, to the component the sidebar names. */
  lemma SidebarLinksResolve(role: string, k: nat)
    requires IsRole(role) && k < |Items(GetSidebarItems(role))|
    ensures var item := Items(GetSidebarItems(role))[k];
            Resolve(RouterTable, item.url) == Some(Render(DashboardLayout, ViewScreen(item.component), Some(role)))
  {
    RouterSidebars(role);
    SidebarLinksResolveIn(AdminSidebarItems, UserSidebarItems, AgentSidebarItems, role, k);
  }

  /** With distinct URLs the search finds the item itself. */
  lemma {:induction false} FindFirstIsOnly(items: seq<NavItem>, k: nat)
    requires k < |items|
    requires Distinct(UrlsOf(items))
    ensures FindByUrl(items, items[k].url) == Some(items[k])
  {
    if k > 0 {
      assert items[0].url != items[k].url by {
        assert UrlsOf(items)[0] != UrlsOf(items)[k];
      }
      var tail := items[1..];
      assert tail[k - 1] == items[k];
      assert forall i :: 0 <= i < |tail| ==> UrlsOf(tail)[i] == UrlsOf(items)[i + 1];
      FindFirstIsOnly(tail, k - 1);
    }
  }

  /** When only one entry matches, resolution is that entry's match. */
  lemma {:induction false} ResolveUnique(table: seq<RouteEntry>, path: string, d: nat)
    requires d < |table| && MatchEntry(table[d], path).Some?
    requires forall i :: 0 <= i < |table| && i != d ==> MatchEntry(table[i], path).None?
    ensures Resolve(table, path) == MatchEntry(table[d], path)
  {
    if d > 0 {
      assert MatchEntry(table[0], path).None?;
      assert forall i :: 0 <= i < |table[1..]| && i != d - 1 ==> table[1..][i] == table[i + 1];
      ResolveUnique(table[1..], path, d - 1);
    }
  }

  /** A role's bare path matches no entry but its own dashboard. */
  lemma BarePathMatchesOwnOnly(admin: seq<NavGroup>, user: seq<NavGroup>, agent: seq<NavGroup>, role: string, i: nat)
    requires SidebarsWellFormed(admin, user, agent)
    requires IsRole(role) && i < 7 && i != Slot(role)
    ensures MatchEntry(Table(admin, user, agent)[i], "/" + role).None?
  {
    var t := Table(admin, user, agent);
    var path := "/" + role;
    if i == 0 {
      MainEntryMatch(path);
      if role == AdminRole {
        assert path == "/admin";
      } else if role == UserRole {
        assert path == "/user";
      } else {
        assert path == "/agent";
      }
    } else if i <= 3 {
      var other := if i == 1 then AdminRole else if i == 2 then UserRole else AgentRole;
      assert t[i] == DashboardEntry(other, SidebarOf(admin, user, agent, other));
      assert path != "/" + other by { assert path[1..] == role && ("/" + other)[1..] == other; }
      assert !StartsWith(path, RoleBase(other)) by {
        assert |path| < |RoleBase(other)| || path[..|RoleBase(other)|][1] != RoleBase(other)[1];
      }
      DashboardMatch(other, SidebarOf(admin, user, agent, other), path);
    } else {
      assert |path| <= 6 && path[1] != 's' && path[1] != 'l' && path[1] != 'd';
    }
  }

  /** A role's bare dashboard path redirects to its overview, whatever the
      (well-formed) sidebars. */
  lemma DashboardRedirectsIn(admin: seq<NavGroup>, user: seq<NavGroup>, agent: seq<NavGroup>, role: string)
    requires SidebarsWellFormed(admin, user, agent)
    requires IsRole(role)
    ensures Resolve(Table(admin, user, agent), "/" + role) == Some(Redirect(RoleBase(role) + "overview", Some(role)))
  {
    var t := Table(admin, user, agent);
    var path := "/" + role;
    var d := Slot(role);
    assert t[d] == DashboardEntry(role, SidebarOf(admin, user, agent, role));
    DashboardMatch(role, SidebarOf(admin, user, agent, role), path);
    forall i | 0 <= i < |t| && i != d
      ensures MatchEntry(t[i], path).None?
    {
      BarePathMatchesOwnOnly(admin, user, agent, role, i);
    }
    ResolveUnique(t, path, d);
  }

  /** A role's bare dashboard path redirects to its overview. */
  lemma DashboardRedirects(role: string)
    requires IsRole(role)
    ensures Resolve(RouterTable, "/" + role) == Some(Redirect(RoleBase(role) + "overview", Some(role)))
  {
    RouterSidebars(role);
    DashboardRedirectsIn(AdminSidebarItems, UserSidebarItems, AgentSidebarItems, role);
  }

  /** The redirect target renders the role's overview behind the same guard. */
  lemma RedirectTargetRenders(role: string)
    requires IsRole(role)
    ensures Resolve(RouterTable, RoleBase(role) + "overview") ==
              Some(Render(DashboardLayout, ViewScreen(Items(GetSidebarItems(role))[0].component), Some(role)))
  {
    SidebarShape(role);
    SidebarLinksResolve(role, 0);
  }

  /** No dashboard entry matches a public path. */
  lemma DashboardsIgnorePublicPaths(admin: seq<NavGroup>, user: seq<NavGroup>, agent: seq<NavGroup>, path: string)
    requires SidebarsWellFormed(admin, user, agent)
    requires path in {"/", "/about", "/feature", "/faq", "/contact", "/login", "/signup", "/dashboard"}
    ensures forall i :: 1 <= i <= 3 ==> MatchEntry(Table(admin, user, agent)[i], path).None?
  {
    var t := Table(admin, user, agent);
    forall i | 1 <= i <= 3
      ensures MatchEntry(t[i], path).None?
    {
      var role := if i == 1 then AdminRole else if i == 2 then UserRole else AgentRole;
      assert t[i] == DashboardEntry(role, SidebarOf(admin, user, agent, role));
      PublicPathsOutsideDashboards(path, role);
      DashboardMatch(role, SidebarOf(admin, user, agent, role), path);
    }
  }

  /** The public site renders in the main layout without a guard, whatever
      the sidebars. */
  lemma PublicPagesUnguarded(admin: seq<NavGroup>, user: seq<NavGroup>, agent: seq<NavGroup>)
    ensures Resolve(Table(admin, user, agent), "/") == Some(Render(MainLayout, PageScreen(Home), None))
    ensures Resolve(Table(admin, user, agent), "/about") == Some(Render(MainLayout, PageScreen(About), None))
    ensures Resolve(Table(admin, user, agent), "/feature") == Some(Render(MainLayout, PageScreen(Feature), None))
    ensures Resolve(Table(admin, user, agent), "/faq") == Some(Render(MainLayout, PageScreen(FaqPage), None))
    ensures Resolve(Table(admin, user, agent), "/contact") == Some(Render(MainLayout, PageScreen(Contact), None))
  {
    MainHomePage();
    MainAboutPage();
    MainFeaturePage();
    MainFaqPage();
    MainContactPage();
    MainEntryFirst(admin, user, agent, "/");
    MainEntryFirst(admin, user, agent, "/about");
    MainEntryFirst(admin, user, agent, "/feature");
    MainEntryFirst(admin, user, agent, "/faq");
    MainEntryFirst(admin, user, agent, "/contact");
  }

  /** Each of the main layout's children matches its own page. */
  lemma MainHomePage()
    ensures MatchEntry(MainEntry, "/") == Some(Render(MainLayout, PageScreen(Home), None))
  {
    MainChildMatches("/", 0, Home);
  }

  lemma MainAboutPage()
    ensures MatchEntry(MainEntry, "/about") == Some(Render(MainLayout, PageScreen(About), None))
  {
    MainChildMatches("/about", 1, About);
  }

  lemma MainFeaturePage()
    ensures MatchEntry(MainEntry, "/feature") == Some(Render(MainLayout, PageScreen(Feature), None))
  {
    MainChildMatches("/feature", 2, Feature);
  }

  lemma MainFaqPage()
    ensures MatchEntry(MainEntry, "/faq") == Some(Render(MainLayout, PageScreen(FaqPage), None))
  {
    MainChildMatches("/faq", 3, FaqPage);
  }

  lemma MainContactPage()
    ensures MatchEntry(MainEntry, "/contact") == Some(Render(MainLayout, PageScreen(Contact), None))
  {
    MainChildMatches("/contact", 4, Contact);
  }

  /** A main-layout child whose path no earlier child has decides the match. */
  lemma MainChildMatches(path: string, k: nat, page: Page)
    requires k < |MainEntry.children| && MainEntry.children[k] == Leaf(path, page)
    requires forall j :: 0 <= j < k ==> MainEntry.children[j].path != path
    ensures MatchEntry(MainEntry, path) == Some(Render(MainLayout, PageScreen(page), None))
  {
    var e := MainEntry;
    assert MatchChild(e, e.children[k], path) == Some(Render(MainLayout, PageScreen(page), None));
    forall j | 0 <= j < k
      ensures MatchChild(e, e.children[j], path).None?
    {
    }
  }

  /** The main layout comes first: whatever it matches is the resolution. */
  lemma MainEntryFirst(admin: seq<NavGroup>, user: seq<NavGroup>, agent: seq<NavGroup>, path: string)
    requires MatchEntry(MainEntry, path).Some?
    ensures Resolve(Table(admin, user, agent), path) == MatchEntry(MainEntry, path)
  {
    assert Table(admin, user, agent)[0] == MainEntry;
  }

  /** "/login", "/signup" and "/dashboard" render on their own without a
      guard; "/dashboard" shows the dashboard layout to anyone. */
  lemma TopLevelPagesUnguarded(admin: seq<NavGroup>, user: seq<NavGroup>, agent: seq<NavGroup>, path: string)
    requires SidebarsWellFormed(admin, user, agent)
    requires path in {"/login", "/signup", "/dashboard"}
    ensures var r := Resolve(Table(admin, user, agent), path);
            r.Some? && r.value.Render? && r.value.guard == None
    ensures path == "/dashboard" ==>
              Resolve(Table(admin, user, agent), path) == Some(Render(DashboardLayout, PageScreen(DashboardLayout), None))
  {
    var t := Table(admin, user, agent);
    MainEntryMatch(path);
    DashboardsIgnorePublicPaths(admin, user, agent, path);
    var d := if path == "/login" then 4 else if path == "/signup" then 5 else 6;
    ResolveUnique(t, path, d);
  }

  /** The application's table: the public site renders in the main layout
      without a guard. */
  lemma RouterPublicPages()
    ensures Resolve(RouterTable, "/") == Some(Render(MainLayout, PageScreen(Home), None))
    ensures Resolve(RouterTable, "/about") == Some(Render(MainLayout, PageScreen(About), None))
    ensures Resolve(RouterTable, "/feature") == Some(Render(MainLayout, PageScreen(Feature), None))
    ensures Resolve(RouterTable, "/faq") == Some(Render(MainLayout, PageScreen(FaqPage), None))
    ensures Resolve(RouterTable, "/contact") == Some(Render(MainLayout, PageScreen(Contact), None))
  {
    PublicPagesUnguarded(AdminSidebarItems, UserSidebarItems, AgentSidebarItems);
  }

  /** The application's table: "/login", "/signup" and "/dashboard" render
      without a guard. */
  lemma RouterTopLevelPages(path: string)
    requires path in {"/login", "/signup", "/dashboard"}
    ensures var r := Resolve(RouterTable, path);
            r.Some? && r.value.Render? && r.value.guard == None
    ensures path == "/dashboard" ==>
              Resolve(RouterTable, path) == Some(Render(DashboardLayout, PageScreen(DashboardLayout), None))
  {
    RouterSidebars(AdminRole);
    TopLevelPagesUnguarded(AdminSidebarItems, UserSidebarItems, AgentSidebarItems, path);
  }

  /** The agent overview's "View All Transactions" link lands on the user
      history page behind the user guard; the agent's own history URL lands
      on the agent history page behind the agent guard. */
  lemma AgentHistoryLinkGuard()
    ensures Resolve(RouterTable, AgentHistoryLink) ==
              Some(Render(DashboardLayout, ViewScreen(UserTransactionHistory), Some(UserRole)))
    ensures Resolve(RouterTable, AgentHistoryLinkCorrected) ==
              Some(Render(DashboardLayout, ViewScreen(AgentTransactionHistory), Some(AgentRole)))
  {
    UserHistoryItem();
    AgentHistoryItem();
    SidebarLinksResolve(UserRole, 3);
    SidebarLinksResolve(AgentRole, 3);
  }
}
