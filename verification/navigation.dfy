/** The role registry and the three dashboard sidebars: each sidebar is a
    list of titled groups of links, and `getSidebarItems` picks the one for a
    role. The same item lists also generate the dashboard routes. */
module Navigation {
  import opened Wrappers

  /** The `role` constants. */
  const AgentRole := "agent"
  const AdminRole := "admin"
  const UserRole := "user"

  predicate IsRole(r: string)
  {
    r == AgentRole || r == AdminRole || r == UserRole
  }

  /** The three roles are distinct names, none of them empty. */
  lemma RolesDistinct()
    ensures AgentRole != AdminRole && AdminRole != UserRole && UserRole != AgentRole
    ensures |AgentRole| > 0 && |AdminRole| > 0 && |UserRole| > 0
  {
    assert AgentRole[1] != AdminRole[1];
  }

  /** The page components a dashboard link can mount. */
  datatype View =
    | AdminOverview | AdminUserManage | AdminAgentManage | AdminTransactionHistory
    | UserOverview | UserSendMoney | UserDeposit | UserTransactionHistory | UserWithdraw
    | AgentOverview | AgentSendMoney | AgentCashOut | AgentTransactionHistory
    | ProfileManage

  /** One sidebar link. */
  datatype NavItem = NavItem(title: string, url: string, component: View)

  /** A titled group of links. */
  datatype NavGroup = NavGroup(title: string, items: seq<NavItem>)

  const AdminSidebarItems: seq<NavGroup> := [
    NavGroup("Dashboard", [NavItem("Overview", "/admin/overview", AdminOverview)]),
    NavGroup("User Management", [
      NavItem("Manage User", "/admin/manage-user", AdminUserManage),
      NavItem("Manage Agents", "/admin/manage-agents", AdminAgentManage),
      NavItem("Mange Transaction", "/admin/transaction", AdminTransactionHistory),
      NavItem("Manage Profile", "/admin/manage-profile", ProfileManage)])
  ]

  const UserSidebarItems: seq<NavGroup> := [
    NavGroup("Dashboard", [NavItem("overview", "/user/overview", UserOverview)]),
    NavGroup("Wallet Management", [
      NavItem("Send Money", "/user/send-money", UserSendMoney),
      NavItem("Deposit", "/user/deposit", UserDeposit),
      NavItem("Transaction history", "/user/transaction", UserTransactionHistory),
      NavItem("Withdraw", "/user/withdraw", UserWithdraw)]),
    NavGroup("Mange Profile", [NavItem("Mange Profile", "/user/profile", ProfileManage)])
  ]

  const AgentSidebarItems: seq<NavGroup> := [
    NavGroup("Dashboard", [NavItem("Overview", "/agent/overview", AgentOverview)]),
    NavGroup("Wallet Management", [
      NavItem("Add Money", "/agent/add-money", AgentSendMoney),
      NavItem("CashOut", "/agent/CashOUt", AgentCashOut),
      NavItem("Transactions History", "/agent/history", AgentTransactionHistory)]),
    NavGroup("Profile Management", [NavItem("Manage Profile", "/agent/profile", ProfileManage)])
  ]

  /** Every link of a sidebar, group after group. */
  function Items(groups: seq<NavGroup>): (r: seq<NavItem>)
    ensures forall g, it :: g in groups && it in g.items ==> it in r
    ensures forall it :: it in r ==> exists g :: g in groups && it in g.items
  {
    if |groups| == 0 then [] else groups[0].items + Items(groups[1..])
  }

  function UrlsOf(items: seq<NavItem>): (r: seq<string>)
    ensures |r| == |items| && forall i :: 0 <= i < |items| ==> r[i] == items[i].url
  {
    if |items| == 0 then [] else [items[0].url] + UrlsOf(items[1..])
  }

  function Urls(groups: seq<NavGroup>): seq<string>
  {
    UrlsOf(Items(groups))
  }

  predicate StartsWith(s: string, prefix: string)
  {
    |prefix| <= |s| && s[..|prefix|] == prefix
  }

  /** A prefix checked character by character. */
  lemma PrefixByChars(s: string, prefix: string)
    requires |prefix| <= |s|
    requires forall k :: 0 <= k < |prefix| ==> s[k] == prefix[k]
    ensures StartsWith(s, prefix)
  {
    assert s[..|prefix|] == prefix;
  }

  /** The URL space of a role's dashboard. */
  function RoleBase(role: string): string
  {
    "/" + role + "/"
  }

  /** No URL appears twice. */
  predicate Distinct(us: seq<string>)
  {
    forall i, j :: 0 <= i < j < |us| ==> us[i] != us[j]
  }

  predicate AllUnder(us: seq<string>, base: string)
  {
    forall i :: 0 <= i < |us| ==> StartsWith(us[i], base)
  }

  /** A sidebar fit for a role: every URL lies under the role's base, and no
      URL appears twice. */
  predicate WellFormed(groups: seq<NavGroup>, role: string)
  {
    AllUnder(Urls(groups), RoleBase(role)) && Distinct(Urls(groups))
  }

  lemma AdminItems()
    ensures Items(AdminSidebarItems) == AdminSidebarItems[0].items + AdminSidebarItems[1].items
  {
    var a := AdminSidebarItems;
    assert a[1..][1..] == [];
    assert Items(a[1..]) == a[1].items + Items(a[1..][1..]);
  }

  lemma UserItems()
    ensures Items(UserSidebarItems) == UserSidebarItems[0].items + UserSidebarItems[1].items + UserSidebarItems[2].items
  {
    var u := UserSidebarItems;
    assert u[1..][1..][1..] == [];
    assert Items(u[1..][1..]) == u[2].items + Items(u[1..][1..][1..]);
    assert Items(u[1..]) == u[1].items + Items(u[1..][1..]);
  }

  lemma AgentItems()
    ensures Items(AgentSidebarItems) == AgentSidebarItems[0].items + AgentSidebarItems[1].items + AgentSidebarItems[2].items
  {
    var g := AgentSidebarItems;
    assert g[1..][1..][1..] == [];
    assert Items(g[1..][1..]) == g[2].items + Items(g[1..][1..][1..]);
    assert Items(g[1..]) == g[1].items + Items(g[1..][1..]);
  }

  /** The sidebars' links, in order. */
  lemma SidebarItemLists()
    ensures Items(AdminSidebarItems) == AdminSidebarItems[0].items + AdminSidebarItems[1].items
    ensures Items(UserSidebarItems) == UserSidebarItems[0].items + UserSidebarItems[1].items + UserSidebarItems[2].items
    ensures Items(AgentSidebarItems) == AgentSidebarItems[0].items + AgentSidebarItems[1].items + AgentSidebarItems[2].items
  {
    AdminItems();
    UserItems();
    AgentItems();
  }

  lemma AdminUrls()
    ensures Urls(AdminSidebarItems) ==
            ["/admin/overview", "/admin/manage-user", "/admin/manage-agents", "/admin/transaction", "/admin/manage-profile"]
  {
    AdminItems();
  }

  lemma UserUrls()
    ensures Urls(UserSidebarItems) ==
            ["/user/overview", "/user/send-money", "/user/deposit", "/user/transaction", "/user/withdraw", "/user/profile"]
  {
    UserItems();
  }

  lemma AgentUrls()
    ensures Urls(AgentSidebarItems) ==
            ["/agent/overview", "/agent/add-money", "/agent/CashOUt", "/agent/history", "/agent/profile"]
  {
    AgentItems();
  }

  /** The sidebars' URLs, in order. */
  lemma SidebarUrls()
    ensures Urls(AdminSidebarItems) ==
            ["/admin/overview", "/admin/manage-user", "/admin/manage-agents", "/admin/transaction", "/admin/manage-profile"]
    ensures Urls(UserSidebarItems) ==
            ["/user/overview", "/user/send-money", "/user/deposit", "/user/transaction", "/user/withdraw", "/user/profile"]
    ensures Urls(AgentSidebarItems) ==
            ["/agent/overview", "/agent/add-money", "/agent/CashOUt", "/agent/history", "/agent/profile"]
  {
    AdminUrls();
    UserUrls();
    AgentUrls();
  }

  /** `getSidebarItems`: a copy of the role's sidebar, and nothing for any
      other string. */
  function GetSidebarItems(role: string): (r: seq<NavGroup>)
    ensures |r| == 0 <==> !IsRole(role)
    ensures role == AgentRole ==> r == AgentSidebarItems
    ensures role == AdminRole ==> r == AdminSidebarItems
    ensures role == UserRole ==> r == UserSidebarItems
  {
    if role == AgentRole then AgentSidebarItems
    else if role == AdminRole then AdminSidebarItems
    else if role == UserRole then UserSidebarItems
    else []
  }

  lemma AdminUrlsUnder()
    ensures AllUnder(Urls(AdminSidebarItems), RoleBase(AdminRole))
  {
    PrefixByChars("/admin/overview", "/admin/");
    PrefixByChars("/admin/manage-user", "/admin/");
    PrefixByChars("/admin/manage-agents", "/admin/");
    PrefixByChars("/admin/transaction", "/admin/");
    PrefixByChars("/admin/manage-profile", "/admin/");
    assert RoleBase(AdminRole) == "/admin/";
    AdminUrls();
  }

  lemma AdminUrlsDistinct()
    ensures Distinct(Urls(AdminSidebarItems))
  {
    AdminUrls();
    var us := Urls(AdminSidebarItems);
    forall i, j | 0 <= i < j < |us| ensures us[i] != us[j] {
      assert us[i][7] != us[j][7] || us[i][14] != us[j][14];
    }
  }

  lemma UserUrlsUnder()
    ensures AllUnder(Urls(UserSidebarItems), RoleBase(UserRole))
  {
    PrefixByChars("/user/overview", "/user/");
    PrefixByChars("/user/send-money", "/user/");
    PrefixByChars("/user/deposit", "/user/");
    PrefixByChars("/user/transaction", "/user/");
    PrefixByChars("/user/withdraw", "/user/");
    PrefixByChars("/user/profile", "/user/");
    assert RoleBase(UserRole) == "/user/";
    UserUrls();
  }

  lemma UserUrlsDistinct()
    ensures Distinct(Urls(UserSidebarItems))
  {
    UserUrls();
    var us := Urls(UserSidebarItems);
    forall i, j | 0 <= i < j < |us| ensures us[i] != us[j] {
      assert us[i][6] != us[j][6];
    }
  }

  lemma AgentUrlsUnder()
    ensures AllUnder(Urls(AgentSidebarItems), RoleBase(AgentRole))
  {
    PrefixByChars("/agent/overview", "/agent/");
    PrefixByChars("/agent/add-money", "/agent/");
    PrefixByChars("/agent/CashOUt", "/agent/");
    PrefixByChars("/agent/history", "/agent/");
    PrefixByChars("/agent/profile", "/agent/");
    assert RoleBase(AgentRole) == "/agent/";
    AgentUrls();
  }

  lemma AgentUrlsDistinct()
    ensures Distinct(Urls(AgentSidebarItems))
  {
    AgentUrls();
    var us := Urls(AgentSidebarItems);
    forall i, j | 0 <= i < j < |us| ensures us[i] != us[j] {
      assert us[i][7] != us[j][7];
    }
  }

  lemma AdminSidebarWellFormed()
    ensures WellFormed(AdminSidebarItems, AdminRole)
  {
    AdminUrlsUnder();
    AdminUrlsDistinct();
  }

  lemma UserSidebarWellFormed()
    ensures WellFormed(UserSidebarItems, UserRole)
  {
    UserUrlsUnder();
    UserUrlsDistinct();
  }

  lemma AgentSidebarWellFormed()
    ensures WellFormed(AgentSidebarItems, AgentRole)
  {
    AgentUrlsUnder();
    AgentUrlsDistinct();
  }

  /** Every URL a role's sidebar offers lies under that role's base path,
      and no URL appears twice in it. */
  lemma SidebarUnderRole(role: string)
    requires IsRole(role)
    ensures WellFormed(GetSidebarItems(role), role)
  {
    if role == AdminRole {
      AdminSidebarWellFormed();
    } else if role == UserRole {
      UserSidebarWellFormed();
    } else {
      AgentSidebarWellFormed();
    }
  }

  /** No path lies under two roles' bases: "/admin/", "/user/" and
      "/agent/" differ within their first three characters. */
  lemma BasesExclusive(u: string, role: string, other: string)
    requires IsRole(role) && IsRole(other) && role != other
    requires StartsWith(u, RoleBase(role))
    ensures !StartsWith(u, RoleBase(other))
  {
    assert u[1] == RoleBase(role)[1] && u[2] == RoleBase(role)[2];
  }

  /** URL lists under two different roles' bases share no URL. */
  lemma DisjointUnderBases(us: seq<string>, vs: seq<string>, role: string, other: string)
    requires IsRole(role) && IsRole(other) && role != other
    requires AllUnder(us, RoleBase(role)) && AllUnder(vs, RoleBase(other))
    ensures forall u :: u in us ==> u !in vs
  {
    forall u | u in us
      ensures u !in vs
    {
      var i :| 0 <= i < |us| && us[i] == u;
      BasesExclusive(u, role, other);
    }
  }

  /** The sidebars of different roles share no URL. */
  lemma SidebarsDisjoint(role: string, other: string)
    requires IsRole(role) && IsRole(other) && role != other
    ensures forall u :: u in Urls(GetSidebarItems(role)) ==> u !in Urls(GetSidebarItems(other))
  {
    SidebarUnderRole(role);
    SidebarUnderRole(other);
    DisjointUnderBases(Urls(GetSidebarItems(role)), Urls(GetSidebarItems(other)), role, other);
  }

  function Titles(groups: seq<NavGroup>): (r: seq<string>)
    ensures |r| == |groups| && forall i :: 0 <= i < |groups| ==> r[i] == groups[i].title
  {
    seq(|groups|, i requires 0 <= i < |groups| => groups[i].title)
  }

  function Sizes(groups: seq<NavGroup>): (r: seq<nat>)
    ensures |r| == |groups| && forall i :: 0 <= i < |groups| ==> r[i] == |groups[i].items|
  {
    seq(|groups|, i requires 0 <= i < |groups| => |groups[i].items|)
  }

  /** The sidebars' group titles in order, and how many links each holds. */
  lemma SidebarGroups()
    ensures Titles(GetSidebarItems(AdminRole)) == ["Dashboard", "User Management"]
    ensures Sizes(GetSidebarItems(AdminRole)) == [1, 4]
    ensures Titles(GetSidebarItems(UserRole)) == ["Dashboard", "Wallet Management", "Mange Profile"]
    ensures Sizes(GetSidebarItems(UserRole)) == [1, 4, 1]
    ensures Titles(GetSidebarItems(AgentRole)) == ["Dashboard", "Wallet Management", "Profile Management"]
    ensures Sizes(GetSidebarItems(AgentRole)) == [1, 3, 1]
  {
    RolesDistinct();
  }

  lemma AdminShape()
    ensures var groups := AdminSidebarItems;
            && groups[0].title == "Dashboard" && |groups[0].items| == 1
            && groups[0].items[0].url == RoleBase(AdminRole) + "overview"
    ensures var items := Items(AdminSidebarItems);
            items[0].url == RoleBase(AdminRole) + "overview" && items[|items| - 1].component == ProfileManage
  {
    assert RoleBase(AdminRole) + "overview" == "/admin/overview";
    AdminItems();
  }

  lemma UserShape()
    ensures var groups := UserSidebarItems;
            && groups[0].title == "Dashboard" && |groups[0].items| == 1
            && groups[0].items[0].url == RoleBase(UserRole) + "overview"
    ensures var items := Items(UserSidebarItems);
            items[0].url == RoleBase(UserRole) + "overview" && items[|items| - 1].component == ProfileManage
  {
    assert RoleBase(UserRole) + "overview" == "/user/overview";
    UserItems();
  }

  lemma AgentShape()
    ensures var groups := AgentSidebarItems;
            && groups[0].title == "Dashboard" && |groups[0].items| == 1
            && groups[0].items[0].url == RoleBase(AgentRole) + "overview"
    ensures var items := Items(AgentSidebarItems);
            items[0].url == RoleBase(AgentRole) + "overview" && items[|items| - 1].component == ProfileManage
  {
    assert RoleBase(AgentRole) + "overview" == "/agent/overview";
    AgentItems();
  }

  /** Each sidebar opens with a "Dashboard" group holding only the overview
      page, and ends with the profile page. */
  lemma SidebarShape(role: string)
    requires IsRole(role)
    ensures var groups := GetSidebarItems(role);
            && groups[0].title == "Dashboard" && |groups[0].items| == 1
            && groups[0].items[0].url == RoleBase(role) + "overview"
    ensures var items := Items(GetSidebarItems(role));
            && items[0].url == RoleBase(role) + "overview"
            && items[|items| - 1].component == ProfileManage
  {
    if role == AdminRole {
      AdminShape();
    } else if role == UserRole {
      UserShape();
    } else {
      AgentShape();
    }
  }

  /** The first link with a URL, if any. */
  function FindByUrl(items: seq<NavItem>, url: string): (r: Option<NavItem>)
    ensures r.None? <==> forall i :: 0 <= i < |items| ==> items[i].url != url
    ensures r.Some? ==> r.value in items && r.value.url == url
  {
    if |items| == 0 then None
    else if items[0].url == url then Some(items[0])
    else
      var r := FindByUrl(items[1..], url);
      assert forall i :: 1 <= i < |items| ==> items[i] == items[1..][i - 1];
      r
  }

  // ---------------------------------------------------------------------
  // Overview quick links

  /** The user overview's "Deposit", "Withdraw" and "Send Money" buttons. */
  const UserQuickLinks: seq<string> := ["/user/deposit", "/user/withdraw", "/user/send-money"]

  /** The agent overview's "CashOut" and "Add Money" buttons. */
  const AgentQuickLinks: seq<string> := ["/agent/CashOUt", "/agent/add-money"]

  /** The agent overview's "View All Transactions" link as written. */
  const AgentHistoryLink := "/user/transaction"

  /** The agent history page's URL. */
  const AgentHistoryLinkCorrected := "/agent/history"

  lemma UserHistoryItem()
    ensures Items(UserSidebarItems)[3] == NavItem("Transaction history", "/user/transaction", UserTransactionHistory)
  {
    UserItems();
  }

  lemma AgentHistoryItem()
    ensures Items(AgentSidebarItems)[3] == NavItem("Transactions History", "/agent/history", AgentTransactionHistory)
  {
    AgentItems();
  }

  /** Each quick action opens a link of the same role's sidebar. */
  lemma QuickLinksInSidebar()
    ensures forall u :: u in UserQuickLinks ==> u in Urls(GetSidebarItems(UserRole))
    ensures forall u :: u in AgentQuickLinks ==> u in Urls(GetSidebarItems(AgentRole))
  {
    SidebarUrls();
  }

  /** "View All Transactions" on the agent overview points into the user
      dashboard, at the user history page, which is not an agent URL. */
  lemma AgentHistoryLinkLeavesDashboard()
    ensures AgentHistoryLink !in Urls(GetSidebarItems(AgentRole))
    ensures !StartsWith(AgentHistoryLink, RoleBase(AgentRole))
    ensures AgentHistoryLink in Urls(GetSidebarItems(UserRole))
    ensures FindByUrl(Items(UserSidebarItems), AgentHistoryLink) ==
            Some(NavItem("Transaction history", "/user/transaction", UserTransactionHistory))
  {
    AgentUrls();
    UserUrls();
    UserHistoryItem();
    assert AgentHistoryLink[1] == 'u';
  }

  /** The agent's own history URL opens the agent transaction history. */
  lemma AgentHistoryLinkCorrectedStaysInDashboard()
    ensures AgentHistoryLinkCorrected in Urls(GetSidebarItems(AgentRole))
    ensures FindByUrl(Items(AgentSidebarItems), AgentHistoryLinkCorrected) ==
            Some(NavItem("Transactions History", "/agent/history", AgentTransactionHistory))
  {
    AgentUrls();
    AgentHistoryItem();
  }
}
