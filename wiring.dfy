/**
 * How the screens fit together through the activity's callbacks: the values
 * one screen hands over are the ones the next screen starts from.
 */
module Wiring {
  import opened Wrappers
  import opened Text
  import opened Api
  import Navigation
  import Auth
  import Home
  import LabourHome
  import LabourProvider
  import LabourRequests

  /**
   * The account type chosen on the first screen reaches the auth screen as
   * its preferred role, locks the role there, and is the role a sign-up
   * registers.
   */
  lemma ChosenTypeIsRegistered(s: Navigation.NavState, userType: string)
    requires Navigation.ScreenOf(s).UserTypeSelection?
    requires userType == "CUSTOMER" || userType == "LABOUR"
    ensures Navigation.ScreenOf(Navigation.SelectUserType(s, userType)) == Navigation.Auth(Some(userType))
    ensures Auth.RoleLocked(Auth.NormalizeRole(Some(userType)))
    ensures Auth.InitialRole(Auth.NormalizeRole(Some(userType))) == userType
  {
    Navigation.ChoosingUserTypeOpensAuth(s, userType);
    assert IsUppercase(userType) by {
      if userType == "CUSTOMER" {
        assert userType == ['C', 'U', 'S', 'T', 'O', 'M', 'E', 'R'];
      } else {
        assert userType == ['L', 'A', 'B', 'O', 'U', 'R'];
      }
    }
    UppercaseIsUppercase(userType);
    assert Auth.NormalizeRole(Some(userType)) == Some(userType);
  }

  /**
   * A confirmed login reply hands its session to the activity, which opens
   * the labour home for the labour role and the customer home for any other.
   */
  lemma ConfirmedLoginRoutesByRole(s: Navigation.NavState, reply: Call<AuthResponse>)
    requires Navigation.Consistent(s) && Navigation.ScreenOf(s).Auth?
    requires Confirmed(reply)
    ensures Auth.SessionOf(reply).Some?
    ensures var d := reply.body.value.payload;
      var next := Navigation.LoginSuccess(s, d.name, d.email, d.token, d.role);
      Navigation.ScreenOf(next)
      == if Navigation.IsLabourRole(d.role) then Navigation.LabourHome(d.email, d.token)
         else Navigation.Home(d.name, d.email, d.token)
  {
    var d := reply.body.value.payload;
    Navigation.LoginRoutesByRole(s, d.name, d.email, d.token, d.role);
  }

  /**
   * Each card of the labour home opens the service manager on its own tab:
   * the first on "Attach Service", the second on "My Mapped Services", and
   * the manager's clamp keeps that tab.
   */
  lemma CardOpensItsTab(s: Navigation.NavState, card: LabourHome.ActionCard)
    requires Navigation.Consistent(s) && Navigation.ScreenOf(s).LabourHome?
    ensures var tab := LabourHome.ManagerTab(card);
      && Navigation.ScreenOf(Navigation.OpenServiceManager(s, tab))
         == Navigation.LabourProvider(s.loggedInEmail, s.loggedInToken, tab)
      && LabourProvider.CoerceIn(tab, 0, 1) == tab
      && (tab == 0 <==> card == LabourHome.AddOrMapService)
  {
    Navigation.ManagerRoundTrip(s, LabourHome.ManagerTab(card));
  }

  /**
   * "Request Service" on a home result opens the request screen on that
   * result's service, provided the service list holds it and ids are
   * distinct.
   */
  lemma RequestOpensOnService(s: Navigation.NavState, item: MappedServiceItem, services: seq<ServiceItem>,
                              service: ServiceItem)
    requires Navigation.Consistent(s) && Navigation.ScreenOf(s).Home?
    requires LabourRequests.DistinctIds(services) && service in services && item.serviceId == Some(service.serviceId)
    ensures var next := Navigation.ScreenOf(Navigation.NavigateToLabour(s, Home.CardOf(item).requestTarget));
      && next == Navigation.LabourRequests(s.loggedInEmail, s.loggedInToken, item.serviceId)
      && LabourRequests.InitialSelection(services, next.initialServiceId) == Some(service)
  {
    Navigation.RequestServiceRoundTrip(s, item.serviceId);
    LabourRequests.SelectsRequestedService(services, service);
  }

  /**
   * A result without a service id, or with one the list does not hold,
   * opens the request screen on the first listed service.
   */
  lemma UnknownRequestOpensOnFirst(s: Navigation.NavState, item: MappedServiceItem, services: seq<ServiceItem>)
    requires Navigation.Consistent(s) && Navigation.ScreenOf(s).Home?
    requires forall t | t in services :: item.serviceId != Some(t.serviceId)
    ensures var next := Navigation.ScreenOf(Navigation.NavigateToLabour(s, Home.CardOf(item).requestTarget));
      LabourRequests.InitialSelection(services, next.initialServiceId) == FirstOrNull(services)
  {
    Navigation.RequestServiceRoundTrip(s, item.serviceId);
  }
}
