/** The role gate and view dispatch of `App.tsx`: a constant navigation table filtered by
    the user's role, a `switch` from view name to module, and the one piece of layout
    state, the current view, which only a click on a visible navigation item changes. */
module Navigation {
  import opened Wrappers
  import opened Types
  import opened Lists

  /** The view names the layout switches on; `Other(name)` stands for a name that is none
      of the seven known ones. */
  datatype View =
    | DashboardView | ProjectsView | FinanceView | ClientsView | InventoryView | LogsView
    | SettingsView | Other(name: string)

  datatype NavItem = NavItem(title: string, view: View, roles: seq<Role>)

  const DASHBOARD_ITEM := NavItem("Dashboard", DashboardView, [ADMIN, ENGINEER, FINANCE])
  const PROJECTS_ITEM := NavItem("Obras", ProjectsView, [ADMIN, ENGINEER, FINANCE])
  const FINANCE_ITEM := NavItem("Financeiro", FinanceView, [ADMIN, FINANCE])
  const CLIENTS_ITEM := NavItem("Clientes", ClientsView, [ADMIN, FINANCE])
  const INVENTORY_ITEM := NavItem("Estoque & Compras", InventoryView, [ADMIN, ENGINEER])
  const LOGS_ITEM := NavItem("Diário de Obra", LogsView, [ADMIN, ENGINEER])
  const SETTINGS_ITEM := NavItem("Configurações", SettingsView, [ADMIN, ENGINEER, FINANCE])

  /** `NAV_ITEMS`, in sidebar order. */
  const NAV_ITEMS: seq<NavItem> := [DASHBOARD_ITEM, PROJECTS_ITEM, FINANCE_ITEM, CLIENTS_ITEM,
                                    INVENTORY_ITEM, LOGS_ITEM, SETTINGS_ITEM]

  /** `useState('dashboard')` */
  const INITIAL_VIEW: View := DashboardView

  function CanSee(role: Role): NavItem -> bool {
    (item: NavItem) => role in item.roles
  }

  /** Some entry of `items` leads to `v`. */
  predicate Offers(items: seq<NavItem>, v: View) {
    exists i :: 0 <= i < |items| && items[i].view == v
  }

  /** `NAV_ITEMS.filter(item => item.roles.includes(role))`, in table order: ADMIN sees
      all seven entries, ENGINEER all but finance and clients, FINANCE all but inventory
      and logs. */
  function VisibleNav(role: Role): (r: seq<NavItem>)
    ensures role == ADMIN ==> r == NAV_ITEMS
    ensures role == ENGINEER ==>
      r == [DASHBOARD_ITEM, PROJECTS_ITEM, INVENTORY_ITEM, LOGS_ITEM, SETTINGS_ITEM]
    ensures role == FINANCE ==>
      r == [DASHBOARD_ITEM, PROJECTS_ITEM, FINANCE_ITEM, CLIENTS_ITEM, SETTINGS_ITEM]
  {
    FilterKeepsAll(NAV_ITEMS, CanSee(ADMIN));
    EngineerNav();
    FinanceNav();
    Filter(NAV_ITEMS, CanSee(role))
  }

  /** The entries an ENGINEER is offered, one filter step at a time. */
  lemma EngineerNav()
    ensures Filter(NAV_ITEMS, CanSee(ENGINEER)) == [DASHBOARD_ITEM, PROJECTS_ITEM, INVENTORY_ITEM, LOGS_ITEM, SETTINGS_ITEM]
  {
    var p := CanSee(ENGINEER);
    assert !p(FINANCE_ITEM) && !p(CLIENTS_ITEM);
    var t6: seq<NavItem> := [SETTINGS_ITEM];
    FilterCons(SETTINGS_ITEM, [], p);
    assert Filter(t6, p) == [SETTINGS_ITEM];
    var t5 := [LOGS_ITEM] + t6;
    FilterCons(LOGS_ITEM, t6, p);
    assert Filter(t5, p) == [LOGS_ITEM, SETTINGS_ITEM];
    var t4 := [INVENTORY_ITEM] + t5;
    FilterCons(INVENTORY_ITEM, t5, p);
    assert Filter(t4, p) == [INVENTORY_ITEM, LOGS_ITEM, SETTINGS_ITEM];
    var t3 := [CLIENTS_ITEM] + t4;
    FilterCons(CLIENTS_ITEM, t4, p);
    assert Filter(t3, p) == [INVENTORY_ITEM, LOGS_ITEM, SETTINGS_ITEM];
    var t2 := [FINANCE_ITEM] + t3;
    FilterCons(FINANCE_ITEM, t3, p);
    assert Filter(t2, p) == [INVENTORY_ITEM, LOGS_ITEM, SETTINGS_ITEM];
    var t1 := [PROJECTS_ITEM] + t2;
    FilterCons(PROJECTS_ITEM, t2, p);
    assert Filter(t1, p) == [PROJECTS_ITEM, INVENTORY_ITEM, LOGS_ITEM, SETTINGS_ITEM];
    var t0 := [DASHBOARD_ITEM] + t1;
    FilterCons(DASHBOARD_ITEM, t1, p);
    assert Filter(t0, p) == [DASHBOARD_ITEM, PROJECTS_ITEM, INVENTORY_ITEM, LOGS_ITEM, SETTINGS_ITEM];
    assert t0 == NAV_ITEMS;
  }

  /** The entries FINANCE is offered, one filter step at a time. */
  lemma FinanceNav()
    ensures Filter(NAV_ITEMS, CanSee(FINANCE)) == [DASHBOARD_ITEM, PROJECTS_ITEM, FINANCE_ITEM, CLIENTS_ITEM, SETTINGS_ITEM]
  {
    var p := CanSee(FINANCE);
    assert !p(INVENTORY_ITEM) && !p(LOGS_ITEM);
    var t6: seq<NavItem> := [SETTINGS_ITEM];
    FilterCons(SETTINGS_ITEM, [], p);
    assert Filter(t6, p) == [SETTINGS_ITEM];
    var t5 := [LOGS_ITEM] + t6;
    FilterCons(LOGS_ITEM, t6, p);
    assert Filter(t5, p) == [SETTINGS_ITEM];
    var t4 := [INVENTORY_ITEM] + t5;
    FilterCons(INVENTORY_ITEM, t5, p);
    assert Filter(t4, p) == [SETTINGS_ITEM];
    var t3 := [CLIENTS_ITEM] + t4;
    FilterCons(CLIENTS_ITEM, t4, p);
    assert Filter(t3, p) == [CLIENTS_ITEM, SETTINGS_ITEM];
    var t2 := [FINANCE_ITEM] + t3;
    FilterCons(FINANCE_ITEM, t3, p);
    assert Filter(t2, p) == [FINANCE_ITEM, CLIENTS_ITEM, SETTINGS_ITEM];
    var t1 := [PROJECTS_ITEM] + t2;
    FilterCons(PROJECTS_ITEM, t2, p);
    assert Filter(t1, p) == [PROJECTS_ITEM, FINANCE_ITEM, CLIENTS_ITEM, SETTINGS_ITEM];
    var t0 := [DASHBOARD_ITEM] + t1;
    FilterCons(DASHBOARD_ITEM, t1, p);
    assert Filter(t0, p) == [DASHBOARD_ITEM, PROJECTS_ITEM, FINANCE_ITEM, CLIENTS_ITEM, SETTINGS_ITEM];
    assert t0 == NAV_ITEMS;
  }

  /** Every role is offered the dashboard, the projects and the settings; ENGINEER is never
      offered finance or clients, FINANCE never inventory or logs. */
  lemma VisibleViews(role: Role)
    ensures Offers(VisibleNav(role), DashboardView)
    ensures Offers(VisibleNav(role), ProjectsView)
    ensures Offers(VisibleNav(role), SettingsView)
    ensures role == ENGINEER ==>
      !Offers(VisibleNav(role), FinanceView) && !Offers(VisibleNav(role), ClientsView)
    ensures role == FINANCE ==>
      !Offers(VisibleNav(role), InventoryView) && !Offers(VisibleNav(role), LogsView)
  {
    var nav := VisibleNav(role);
    assert nav[0].view == DashboardView && nav[1].view == ProjectsView;
    assert nav[|nav| - 1].view == SettingsView;
  }

  /** What the main area shows. */
  datatype Screen =
    | AuthScreen | DashboardModule | ClientsModule | ProjectsModule | FinanceModule
    | InventoryModule | DailyLogsModule | SettingsModule

  /** `renderContent()`: the module of a view name; an unknown name shows the dashboard. */
  function RenderContent(view: View): (m: Screen)
    ensures m != AuthScreen
    ensures view.Other? ==> m == DashboardModule
  {
    match view
    case DashboardView => DashboardModule
    case ClientsView => ClientsModule
    case ProjectsView => ProjectsModule
    case FinanceView => FinanceModule
    case InventoryView => InventoryModule
    case LogsView => DailyLogsModule
    case SettingsView => SettingsModule
    case Other(_) => DashboardModule
  }

  /** Each navigation entry leads to a module of its own, so no two entries share one. */
  lemma NavEntriesDispatch()
    ensures RenderContent(DASHBOARD_ITEM.view) == DashboardModule
    ensures RenderContent(PROJECTS_ITEM.view) == ProjectsModule
    ensures RenderContent(FINANCE_ITEM.view) == FinanceModule
    ensures RenderContent(CLIENTS_ITEM.view) == ClientsModule
    ensures RenderContent(INVENTORY_ITEM.view) == InventoryModule
    ensures RenderContent(LOGS_ITEM.view) == DailyLogsModule
    ensures RenderContent(SETTINGS_ITEM.view) == SettingsModule
  {
  }

  /** Without a current user only the login screen is rendered. */
  function Render(user: Option<User>, view: View): (m: Screen)
    ensures m == AuthScreen <==> user.None?
  {
    if user.None? then AuthScreen else RenderContent(view)
  }

  // ---------------------------------------------------------------- layout state

  /** The state that decides what `MainLayout` shows: the current user (held by the
      store) and `currentView` (held by the layout). */
  datatype Layout = Layout(user: Option<User>, view: View)

  /** A session starts (the store sets a user), ends (`logout`), or the user clicks the
      `index`-th visible navigation button (desktop sidebar and mobile menu alike). */
  datatype Event = SignIn(who: User) | SignOut | Click(index: nat)

  function Initial(): Layout {
    Layout(None, INITIAL_VIEW)
  }

  /** `currentView` names an entry of the signed-in user's navigation. */
  predicate Gated(l: Layout) {
    l.user.Some? ==> Offers(VisibleNav(l.user.value.role), l.view)
  }

  /** Clicking a visible button sets the view to that button's view. */
  function ClickView(l: Layout, index: nat): (v: View)
    ensures l.user.Some? ==> v == l.view || Offers(VisibleNav(l.user.value.role), v)
    ensures l.user.Some? && index < |VisibleNav(l.user.value.role)| ==> v == VisibleNav(l.user.value.role)[index].view
    ensures !(l.user.Some? && index < |VisibleNav(l.user.value.role)|) ==> v == l.view
  {
    if l.user.Some? && index < |VisibleNav(l.user.value.role)| then
      VisibleNav(l.user.value.role)[index].view
    else
      l.view
  }

  /** The layout as written: `currentView` is component state that survives a logout, so a
      sign-in keeps whatever view the previous session left. */
  function StepAsWritten(l: Layout, e: Event): Layout {
    match e
    case SignIn(u) => l.(user := Some(u))
    case SignOut => l.(user := None)
    case Click(i) => l.(view := ClickView(l, i))
  }

  /** An ADMIN opens finance and logs out; an ENGINEER then signs in and is shown the
      finance module, which the ENGINEER's navigation does not offer. */
  lemma ViewLeaksAcrossSessions(admin: User, engineer: User)
    requires admin.role == ADMIN && engineer.role == ENGINEER
    ensures var l := StepAsWritten(StepAsWritten(StepAsWritten(StepAsWritten(
        Initial(), SignIn(admin)), Click(2)), SignOut), SignIn(engineer));
      && !Gated(l)
      && Render(l.user, l.view) == FinanceModule
  {
    assert NAV_ITEMS[2].view == FinanceView;
  }

  /** The evidently intended layout: every session starts on the initial view. */
  function Step(l: Layout, e: Event): Layout {
    match e
    case SignIn(u) => Layout(Some(u), INITIAL_VIEW)
    case SignOut => l.(user := None)
    case Click(i) => l.(view := ClickView(l, i))
  }

  /** The corrected layout starts gated and every event keeps it gated. */
  lemma StepKeepsGated(l: Layout, e: Event)
    requires Gated(l)
    ensures Gated(Step(l, e))
  {
    if e.SignIn? {
      VisibleViews(e.who.role);
    }
  }

  lemma InitialGated()
    ensures Gated(Initial())
  {
  }

  /** A gated layout never shows a module the user's navigation does not list; in
      particular ENGINEER never sees finance or clients, FINANCE never inventory or logs. */
  lemma GatedRendersVisibleModule(l: Layout)
    requires Gated(l) && l.user.Some?
    ensures exists i :: 0 <= i < |VisibleNav(l.user.value.role)| &&
                        Render(l.user, l.view) == RenderContent(VisibleNav(l.user.value.role)[i].view)
    ensures l.user.value.role == ENGINEER ==>
      Render(l.user, l.view) != FinanceModule && Render(l.user, l.view) != ClientsModule
    ensures l.user.value.role == FINANCE ==>
      Render(l.user, l.view) != InventoryModule && Render(l.user, l.view) != DailyLogsModule
  {
    var nav := VisibleNav(l.user.value.role);
    var i :| 0 <= i < |nav| && nav[i].view == l.view;
  }
}
