/** The plan gating of the barbershop front end (App.tsx): which actions and
    panels each tier unlocks, the dashboard figures derived from the user's
    appointments, and the state changes of the App, ServicesManager and
    AIAssistant components. */
module Barbershop {
  import opened Types

  /** The views the App can show. */
  datatype View = Dashboard | Schedule | Services | Subscription | Team

  // ---------------------------------------------------------------------------
  // ServicesManager: service quota

  /** The user may not add another service ("Novo Serviço" disabled, warning shown). */
  predicate AtLimit(u: User)
  {
    |u.services| >= LimitsFor(u.plan).maxServices
  }

  /** The user's service count respects their tier's quota. */
  predicate WithinQuota(u: User)
  {
    |u.services| <= LimitsFor(u.plan).maxServices
  }

  /** The quota shown next to the service count: a number, or "∞". */
  datatype SlotCap = Infinite | Slots(n: int)

  function SlotsLabel(l: Limits): SlotCap
  {
    if l.maxServices > 100 then Infinite else Slots(l.maxServices)
  }

  /** Adding is blocked at 5 services on FREE and at 9999 on PRO and BUSINESS. */
  lemma AtLimitByTier(u: User)
    ensures u.plan == FREE ==> (AtLimit(u) <==> |u.services| >= 5)
    ensures u.plan != FREE ==> (AtLimit(u) <==> |u.services| >= UNLIMITED)
  {
  }

  /** Moving to a tier that is no lower never blocks adding a service. */
  lemma HigherTierNeverBlocks(u: User, p: Tier)
    requires Rank(u.plan) <= Rank(p)
    requires !AtLimit(u)
    ensures !AtLimit(u.(plan := p))
  {
    Monotone(u.plan, p);
  }

  /** Only FREE shows a finite quota; the other tiers show "∞". */
  lemma SlotsLabelByTier(t: Tier)
    ensures SlotsLabel(LimitsFor(t)) == if t == FREE then Slots(5) else Infinite
  {
  }

  /** Adding one service while not at the limit keeps the user within quota. */
  lemma AddKeepsQuota(u: User, s: Service)
    requires !AtLimit(u)
    ensures WithinQuota(u.(services := u.services + [s]))
  {
  }

  /** Changing to a tier that is no lower keeps the user within quota. */
  lemma UpgradeKeepsQuota(u: User, p: Tier)
    requires WithinQuota(u) && Rank(u.plan) <= Rank(p)
    ensures WithinQuota(u.(plan := p))
  {
    Monotone(u.plan, p);
  }

  /** The FREE button stays selectable on PRO, and moving a PRO user with six
      services to FREE leaves them above FREE's quota. */
  lemma DowngradeCanExceedQuota()
    ensures exists u: User :: u.plan == PRO && WithinQuota(u) && !PlanButtonDisabled(u.plan, FREE)
                              && !WithinQuota(u.(plan := FREE))
  {
    var s := Service("1", "Corte", 35, 30, None);
    var u := User("u1", "Barber", PROVIDER, PRO, None, [s, s, s, s, s, s], [], [], None);
    assert |u.services| == 6;
    assert WithinQuota(u) && !WithinQuota(u.(plan := FREE));
  }

  /** On PRO or BUSINESS the FREE button is selectable, and with more than five
      services the move to FREE leaves the user at the limit and above quota. */
  lemma DowngradeExceedsQuota(u: User)
    requires u.plan != FREE && |u.services| > 5
    ensures !PlanButtonDisabled(u.plan, FREE)
    ensures AtLimit(u.(plan := FREE)) && !WithinQuota(u.(plan := FREE))
  {
  }

  // ---------------------------------------------------------------------------
  // ServicesManager.handleAdd: the new-service form

  /** The add-service form. `price` is None while the number field is empty;
      `duration` is the select's value in minutes, which the model does not restrict. */
  datatype ServiceForm = ServiceForm(name: string, price: Option<int>, duration: int)

  const EmptyForm: ServiceForm := ServiceForm("", None, 30)

  /** The description a FREE user's new service gets. */
  const DefaultDescription: string := "Serviço padrão."

  /** The service handleAdd hands to onAddService, or None when it returns early.
      `aiDescription` is the text the description generator returned; it is
      only asked for, and only used, on paid tiers. */
  function DraftService(plan: Tier, form: ServiceForm, id: string, aiDescription: string): (r: Option<Service>)
    ensures r.None? <==> form.name == "" || form.price.None?
    ensures r.Some? ==> r.value.id == id && r.value.name == form.name && r.value.duration == form.duration
    ensures r.Some? ==> r.value.price == form.price.value
    ensures r.Some? && plan == FREE ==> r.value.description == Some(DefaultDescription)
    ensures r.Some? && plan != FREE ==> r.value.description == Some(aiDescription)
  {
    if form.name == "" || form.price.None? then None
    else
      var description := if plan != FREE then aiDescription else DefaultDescription;
      Some(Service(id, form.name, form.price.value, form.duration, Some(description)))
  }

  // ---------------------------------------------------------------------------
  // DashboardStats, AIAssistant, PlansPage, Sidebar: tier gates

  /** The financial dashboard shows the lock panel. */
  predicate DashboardLocked(plan: Tier)
  {
    !LimitsFor(plan).hasFinancialDashboard
  }

  /** The AI coach shows the "Recurso PRO" badge and askAI does nothing. */
  predicate AICoachLocked(plan: Tier)
  {
    !LimitsFor(plan).hasAIReports
  }

  /** Both panels are locked exactly on FREE. */
  lemma LocksByTier(t: Tier)
    ensures DashboardLocked(t) <==> t == FREE
    ensures AICoachLocked(t) <==> t == FREE
  {
  }

  /** Whether the plans page disables the button of tier `target`. */
  function PlanButtonDisabled(current: Tier, target: Tier): bool
  {
    match target
    case FREE => current == FREE
    case PRO => current == PRO || current == BUSINESS
    case BUSINESS => current == BUSINESS
  }

  /** A button is disabled exactly for the current plan, and PRO also from BUSINESS;
      so a selectable plan always differs from the current one. */
  lemma PlanButtonRule(current: Tier, target: Tier)
    ensures PlanButtonDisabled(current, target) <==> target == current || (target == PRO && current == BUSINESS)
    ensures !PlanButtonDisabled(current, target) ==> target != current
  {
  }

  const BaseNav: seq<View> := [Dashboard, Schedule, Services, Subscription]

  /** The sidebar's navigation entries, in order. */
  method SidebarNav(plan: Tier) returns (items: seq<View>)
    ensures |items| == if plan == BUSINESS then 5 else 4
    ensures items[..4] == BaseNav
    ensures Team in items <==> plan == BUSINESS
    ensures Team in items <==> LimitsFor(plan).hasTeamManagement
  {
    items := BaseNav;
    if plan == BUSINESS {
      items := items + [Team];
    }
    assert items[..4] == BaseNav;
  }

  // ---------------------------------------------------------------------------
  // Dashboard figures

  /** Sum of all appointment prices, folded from the left as `reduce` does. */
  function Revenue(apps: seq<Appointment>): int
  {
    if apps == [] then 0 else Revenue(apps[..|apps| - 1]) + apps[|apps| - 1].price
  }

  /** "Receita Est.": None stands for "Bloqueado". */
  function EstimatedRevenue(u: User): Option<int>
  {
    if u.plan == FREE then None else Some(Revenue(u.appointments))
  }

  /** The "Próximos" list: the CONFIRMED appointments. */
  function Upcoming(apps: seq<Appointment>): (r: seq<Appointment>)
    ensures |r| <= |apps|
    ensures forall a :: a in r ==> a in apps && a.status == CONFIRMED
    ensures forall a :: a in apps && a.status == CONFIRMED ==> a in r
  {
    if apps == [] then []
    else (if apps[0].status == CONFIRMED then [apps[0]] else []) + Upcoming(apps[1..])
  }

  /** Revenue is additive over concatenation. */
  lemma {:induction false} RevenueAppend(a: seq<Appointment>, b: seq<Appointment>)
    ensures Revenue(a + b) == Revenue(a) + Revenue(b)
    decreases |b|
  {
    if b == [] {
      assert a + b == a;
    } else {
      var b' := b[..|b| - 1];
      assert (a + b)[..|a + b| - 1] == a + b';
      RevenueAppend(a, b');
    }
  }

  /** The estimate is hidden exactly when the dashboard is locked, and otherwise
      is the sum of every appointment's price. */
  lemma EstimatedRevenueGate(u: User)
    ensures EstimatedRevenue(u).None? <==> u.plan == FREE
    ensures EstimatedRevenue(u).None? <==> DashboardLocked(u.plan)
    ensures EstimatedRevenue(u).Some? ==> EstimatedRevenue(u).value == Revenue(u.appointments)
  {
  }

  /** Filtering distributes over concatenation, so the list keeps the original order. */
  lemma {:induction false} UpcomingAppend(a: seq<Appointment>, b: seq<Appointment>)
    ensures Upcoming(a + b) == Upcoming(a) + Upcoming(b)
    decreases |a|
  {
    if a == [] {
      assert a + b == b;
    } else {
      assert (a + b)[0] == a[0];
      assert (a + b)[1..] == a[1..] + b;
      UpcomingAppend(a[1..], b);
    }
  }

  /** Filtering the list again changes nothing. */
  lemma {:induction false} UpcomingIdempotent(s: seq<Appointment>)
    ensures Upcoming(Upcoming(s)) == Upcoming(s)
    decreases |s|
  {
    if s != [] {
      var head := if s[0].status == CONFIRMED then [s[0]] else [];
      UpcomingIdempotent(s[1..]);
      UpcomingAppend(head, Upcoming(s[1..]));
      assert Upcoming(head) == head;
    }
  }

  /** Revenue of a list with one appointment in front. */
  lemma RevenueCons(x: Appointment, s: seq<Appointment>)
    ensures Revenue([x] + s) == x.price + Revenue(s)
  {
    RevenueAppend([x], s);
    assert [x][..0] == [];
  }

  /** With non-negative prices, the upcoming appointments are worth no more than the estimate. */
  lemma {:induction false} UpcomingRevenueBound(s: seq<Appointment>)
    requires forall i :: 0 <= i < |s| ==> s[i].price >= 0
    ensures 0 <= Revenue(Upcoming(s)) <= Revenue(s)
    decreases |s|
  {
    if s != [] {
      var rest := s[1..];
      UpcomingRevenueBound(rest);
      assert s == [s[0]] + rest;
      RevenueCons(s[0], rest);
      if s[0].status == CONFIRMED {
        assert Upcoming(s) == [s[0]] + Upcoming(rest);
        RevenueCons(s[0], Upcoming(rest));
      } else {
        assert Upcoming(s) == Upcoming(rest);
      }
    }
  }

  // ---------------------------------------------------------------------------
  // Initial state

  /** MOCK_USER; the three appointment dates come from the clock. */
  function MockUser(today: string, yesterday: string, twoDaysAgo: string): User
  {
    User("u1", "Esteban Barber", PROVIDER, FREE, None,
      [Service("1", "Corte Masculino", 35, 30, Some("Corte clássico na tesoura e máquina.")),
       Service("2", "Barba", 20, 15, Some("Modelagem e aparo da barba."))],
      [Appointment("101", "1", "João Silva", today, CONFIRMED, 35),
       Appointment("102", "2", "Marcos Souza", yesterday, COMPLETED, 20),
       Appointment("103", "1", "Alexandre Dias", twoDaysAgo, COMPLETED, 35)],
      ["https://picsum.photos/300/300", "https://picsum.photos/300/301"],
      Some("Esteban's Cuts"))
  }

  /** The mock user starts on FREE within quota, with one upcoming appointment
      and R$ 90 of appointments behind the locked estimate. */
  lemma MockUserFacts(today: string, yesterday: string, twoDaysAgo: string)
    ensures var u := MockUser(today, yesterday, twoDaysAgo);
      WithinQuota(u) && !AtLimit(u) && EstimatedRevenue(u) == None &&
      Upcoming(u.appointments) == [u.appointments[0]] && Revenue(u.appointments) == 90
  {
    var u := MockUser(today, yesterday, twoDaysAgo);
    var a := u.appointments;
    assert Upcoming(a[2..]) == [] by {
      assert a[2..][1..] == [];
    }
    assert Upcoming(a[1..]) == [] by {
      assert a[1..][1..] == a[2..];
    }
    assert Revenue(a[..1]) == 35 by {
      assert a[..1][..0] == [];
    }
    assert Revenue(a[..2]) == 55 by {
      assert a[..2][..1] == a[..1];
    }
    assert a[..3][..2] == a[..2];
  }

  // ---------------------------------------------------------------------------
  // Stateful components

  /** The root component: the signed-in user and the current view. */
  class App {
    var user: User
    var view: View

    constructor(today: string, yesterday: string, twoDaysAgo: string)
      ensures user == MockUser(today, yesterday, twoDaysAgo) && view == Dashboard
    {
      user := MockUser(today, yesterday, twoDaysAgo);
      view := Dashboard;
    }

    /** setView from a navigation entry: only the view changes. */
    method Navigate(v: View)
      modifies this
      ensures view == v && user == old(user)
    {
      view := v;
    }

    /** handleUpgrade: switch plan and go to the dashboard. */
    method Upgrade(newPlan: Tier)
      modifies this
      ensures user == old(user).(plan := newPlan)
      ensures user.services == old(user.services) && user.appointments == old(user.appointments)
      ensures view == Dashboard
    {
      user := user.(plan := newPlan);
      view := Dashboard;
    }

    /** handleAddService: append one service at the end. */
    method AddService(service: Service)
      modifies this
      ensures user == old(user).(services := old(user.services) + [service])
      ensures |user.services| == |old(user.services)| + 1 && user.services[|user.services| - 1] == service
      ensures view == old(view)
    {
      user := user.(services := user.services + [service]);
    }
  }

  /** The services panel: its form and whether the add modal is open. */
  class ServicesManager {
    var form: ServiceForm
    var modalOpen: bool

    constructor()
      ensures form == EmptyForm && !modalOpen
    {
      form := EmptyForm;
      modalOpen := false;
    }

    /** A click on "Novo Serviço": the button is disabled at the limit. */
    method OpenModal(u: User)
      modifies this
      ensures modalOpen == (old(modalOpen) || !AtLimit(u))
      ensures form == old(form)
    {
      if !AtLimit(u) {
        modalOpen := true;
      }
    }

    /** "Cancelar": close the modal, keeping what was typed. */
    method CloseModal()
      modifies this
      ensures !modalOpen && form == old(form)
    {
      modalOpen := false;
    }

    /** handleAdd: build the service from the form, hand it to the App, then reset
        the form and close the modal; do nothing when the name or price is empty. */
    method HandleAdd(app: App, id: string, aiDescription: string) returns (added: bool)
      modifies this, app
      ensures var draft := DraftService(old(app.user.plan), old(form), id, aiDescription);
        added == draft.Some? &&
        (added ==> app.user == old(app.user).(services := old(app.user.services) + [draft.value])
                   && form == EmptyForm && !modalOpen) &&
        (!added ==> app.user == old(app.user) && form == old(form) && modalOpen == old(modalOpen))
      ensures app.view == old(app.view)
    {
      var draft := DraftService(app.user.plan, form, id, aiDescription);
      added := draft.Some?;
      if added {
        app.AddService(draft.value);
        form := EmptyForm;
        modalOpen := false;
      }
    }
  }

  /** The AI coach panel: the last answer and whether a request is running. */
  class AIAssistant {
    var response: Option<string>
    var loading: bool

    constructor()
      ensures response == None && !loading
    {
      response := None;
      loading := false;
    }

    /** askAI: ignored while locked; otherwise shows the generator's `advice`. */
    method AskAI(u: User, advice: string)
      modifies this
      ensures AICoachLocked(u.plan) ==> response == old(response) && loading == old(loading)
      ensures !AICoachLocked(u.plan) ==> response == Some(advice) && !loading
    {
      if AICoachLocked(u.plan) {
        return;
      }
      loading := true;
      response := Some(advice);
      loading := false;
    }
  }
}
