/**
 * The bank's home page (`src/pages/Index.tsx`): choosing a service opens
 * the authentication dialog, a successful authentication switches to the
 * consent-waiting view, and completing consent greets the user and resets
 * the page.
 */
module IndexPage {
  import opened Wrappers

  /** A service on offer; the description, icon and features are presentation only. */
  datatype Service = Service(id: string, title: string)

  const Services: seq<Service> := [
    Service("personal-banking", "Personal Banking"),
    Service("investment", "Investment Services"),
    Service("credit-solutions", "Credit Solutions")
  ]

  /** `services.find(s => s.id === selectedService)?.title`. */
  function FindTitle(services: seq<Service>, selected: Option<string>): (t: Option<string>)
    ensures t.None? <==> selected.None? || forall i :: 0 <= i < |services| ==> services[i].id != selected.value
    ensures t.Some? ==> exists i :: 0 <= i < |services| && services[i] == Service(selected.value, t.value)
  {
    if selected.None? || services == [] then None
    else if services[0].id == selected.value then Some(services[0].title)
    else FindTitle(services[1..], selected)
  }

  /** The title of the selected service, if the selection names one. */
  function ServiceTitle(selected: Option<string>): Option<string>
  {
    FindTitle(Services, selected)
  }

  /** The `serviceName` handed to the authentication dialog: the title, or `''` when there is none. */
  function AuthServiceName(selected: Option<string>): (name: string)
    ensures ServiceTitle(selected).Some? ==> name == ServiceTitle(selected).value
    ensures ServiceTitle(selected).None? ==> name == ""
  {
    match ServiceTitle(selected)
    case Some(title) => title
    case None => ""
  }

  const WelcomePrefix := "Welcome! You can now access "

  /** The greeting: a missing title is interpolated as `undefined`. */
  function WelcomeText(selected: Option<string>): (text: string)
    ensures |text| >= |WelcomePrefix| && text[..|WelcomePrefix|] == WelcomePrefix
    ensures ServiceTitle(selected).Some? ==> text[|WelcomePrefix|..] == ServiceTitle(selected).value
    ensures ServiceTitle(selected).None? ==> text[|WelcomePrefix|..] == "undefined"
  {
    WelcomePrefix + match ServiceTitle(selected) case Some(title) => title case None => "undefined"
  }

  /** Each offered service is found by its id. */
  lemma EveryServiceHasItsTitle(i: nat)
    requires i < |Services|
    ensures ServiceTitle(Some(Services[i].id)) == Some(Services[i].title)
    ensures AuthServiceName(Some(Services[i].id)) == Services[i].title
  {
    assert Services[0].id != Services[1].id && Services[0].id != Services[2].id && Services[1].id != Services[2].id;
  }

  /** Ids that are not on offer, and no selection, give no title. */
  lemma UnknownServiceHasNoTitle(selected: Option<string>)
    requires selected.Some? ==> selected.value !in ["personal-banking", "investment", "credit-solutions"]
    ensures ServiceTitle(selected).None?
    ensures AuthServiceName(selected) == ""
  {
  }

  /** What the page renders. */
  datatype View =
    | ConsentWaitingView
    | HomeView(authDialogOpen: bool)

  class BankHome {
    var selectedService: Option<string>
    var showAuth: bool
    var isAuthenticated: bool
    var waitingForConsent: bool
    /** The texts passed to `alert`, in order. */
    var alerts: seq<string>

    /** The user is authenticated exactly while the page waits for consent. */
    predicate Valid()
      reads this
    {
      isAuthenticated == waitingForConsent
    }

    constructor ()
      ensures selectedService.None? && !showAuth && !isAuthenticated && !waitingForConsent && alerts == []
      ensures Valid()
    {
      selectedService := None;
      showAuth := false;
      isAuthenticated := false;
      waitingForConsent := false;
      alerts := [];
    }

    /**
     * The render: while waiting for consent only the waiting view, otherwise the
     * home page; under the invariant, the waiting view shows exactly while authenticated.
     */
    function View(): (v: View)
      reads this
      ensures v.ConsentWaitingView? <==> waitingForConsent
      ensures v.HomeView? ==> v.authDialogOpen == showAuth
      ensures Valid() ==> (v.ConsentWaitingView? <==> isAuthenticated)
    {
      if waitingForConsent then ConsentWaitingView else HomeView(showAuth)
    }

    /** The `serviceName` the open dialog shows. */
    function DialogServiceName(): string
      reads this
    {
      AuthServiceName(selectedService)
    }

    /** `handleServiceSelect`: remember the service and open the dialog. */
    method HandleServiceSelect(serviceId: string)
      requires Valid()
      modifies this
      ensures Valid()
      ensures selectedService == Some(serviceId) && showAuth
      ensures isAuthenticated == old(isAuthenticated) && waitingForConsent == old(waitingForConsent)
      ensures alerts == old(alerts)
    {
      selectedService := Some(serviceId);
      showAuth := true;
    }

    /** `handleAuthSuccess`: authenticated, dialog closed, waiting for consent. */
    method HandleAuthSuccess()
      requires Valid()
      modifies this
      ensures Valid()
      ensures isAuthenticated && !showAuth && waitingForConsent
      ensures selectedService == old(selectedService) && alerts == old(alerts)
      ensures View() == ConsentWaitingView
    {
      isAuthenticated := true;
      showAuth := false;
      waitingForConsent := true;
    }

    /** `handleConsentComplete`: greet the user with the selected service's title, then reset. */
    method HandleConsentComplete()
      requires Valid()
      modifies this
      ensures Valid()
      ensures !waitingForConsent && selectedService.None? && !isAuthenticated
      ensures showAuth == old(showAuth)
      ensures alerts == old(alerts) + [WelcomeText(old(selectedService))]
      ensures View() == HomeView(old(showAuth))
    {
      waitingForConsent := false;
      alerts := alerts + [WelcomeText(selectedService)];
      selectedService := None;
      isAuthenticated := false;
    }

    /** The dialog's `onClose`: only the dialog closes. */
    method HandleAuthClose()
      requires Valid()
      modifies this
      ensures Valid()
      ensures !showAuth
      ensures selectedService == old(selectedService) && isAuthenticated == old(isAuthenticated)
      ensures waitingForConsent == old(waitingForConsent) && alerts == old(alerts)
    {
      showAuth := false;
    }
  }

  /** The whole journey for one service ends where it began, with one greeting naming the service. */
  method Journey(i: nat) returns (page: BankHome)
    requires i < |Services|
    ensures fresh(page) && page.Valid()
    ensures page.selectedService.None? && !page.showAuth && !page.isAuthenticated && !page.waitingForConsent
    ensures page.alerts == [WelcomePrefix + Services[i].title]
  {
    page := new BankHome();
    page.HandleServiceSelect(Services[i].id);
    assert page.DialogServiceName() == Services[i].title by {
      EveryServiceHasItsTitle(i);
    }
    page.HandleAuthSuccess();
    page.HandleConsentComplete();
    EveryServiceHasItsTitle(i);
  }
}
