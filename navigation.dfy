/**
 * The activity's navigation: nine remembered state variables, the `when`
 * that picks the screen from them, and the callbacks the screens are given.
 */
module Navigation {
  import opened Wrappers
  import opened Text

  /** The remembered state variables of `MainActivity.onCreate`. */
  datatype NavState = NavState(
    isLoggedIn: bool,
    loggedInName: Option<string>,
    loggedInEmail: Option<string>,
    loggedInToken: Option<string>,
    loggedInRole: Option<string>,
    selectedUserType: Option<string>,
    showLabourScreen: bool,
    selectedCustomerServiceId: Option<int>,
    labourInitialTab: int)

  /** The state when the activity starts. */
  const Start := NavState(false, None, None, None, None, None, false, None, 0)

  /** The screen on display, with the arguments it is given. */
  datatype Screen =
    | UserTypeSelection
    | Auth(preferredRole: Option<string>)
    | LabourHome(userEmail: Option<string>, token: Option<string>)
    | LabourProvider(userEmail: Option<string>, token: Option<string>, initialTab: int)
    | LabourRequests(userEmail: Option<string>, token: Option<string>, initialServiceId: Option<int>)
    | Home(name: Option<string>, userEmail: Option<string>, token: Option<string>)

  /** `"LABOUR".equals(loggedInRole, ignoreCase = true)`; a `null` role is not the labour role. */
  predicate IsLabourRole(role: Option<string>) {
    role.Some? && EqualsIgnoreCase("LABOUR", role.value)
  }

  /**
   * The `when` in `setContent`: role selection before a user type is chosen,
   * the auth screen until login, then the labour screens for the labour role
   * and the customer screens for every other role.
   */
  function ScreenOf(s: NavState): (sc: Screen)
    ensures sc.UserTypeSelection? <==> !s.isLoggedIn && s.selectedUserType.None?
    ensures sc.Auth? <==> !s.isLoggedIn && s.selectedUserType.Some?
    ensures sc.Auth? ==> sc.preferredRole == s.selectedUserType
    ensures sc.LabourHome? <==> s.isLoggedIn && IsLabourRole(s.loggedInRole) && !s.showLabourScreen
    ensures sc.LabourProvider? <==> s.isLoggedIn && IsLabourRole(s.loggedInRole) && s.showLabourScreen
    ensures sc.LabourProvider? ==> sc.initialTab == s.labourInitialTab
    ensures sc.LabourRequests? <==> s.isLoggedIn && !IsLabourRole(s.loggedInRole) && s.showLabourScreen
    ensures sc.LabourRequests? ==> sc.initialServiceId == s.selectedCustomerServiceId
    ensures sc.Home? <==> s.isLoggedIn && !IsLabourRole(s.loggedInRole) && !s.showLabourScreen
    ensures (sc.LabourHome? || sc.LabourProvider? || sc.LabourRequests? || sc.Home?) ==>
              sc.userEmail == s.loggedInEmail && sc.token == s.loggedInToken
    ensures sc.Home? ==> sc.name == s.loggedInName
  {
    if !s.isLoggedIn && s.selectedUserType.None? then UserTypeSelection
    else if !s.isLoggedIn then Auth(s.selectedUserType)
    else if IsLabourRole(s.loggedInRole) then
      if !s.showLabourScreen then LabourHome(s.loggedInEmail, s.loggedInToken)
      else LabourProvider(s.loggedInEmail, s.loggedInToken, s.labourInitialTab)
    else if s.showLabourScreen then LabourRequests(s.loggedInEmail, s.loggedInToken, s.selectedCustomerServiceId)
    else Home(s.loggedInName, s.loggedInEmail, s.loggedInToken)
  }

  // ---- The callbacks, as functions of the state ----

  /** `onSelectCustomer` / `onSelectLabour` of the role-selection screen. */
  function SelectUserType(s: NavState, userType: string): NavState {
    s.(selectedUserType := Some(userType))
  }

  /** `onBackToRoleSelection` of the auth screen. */
  function BackToRoleSelection(s: NavState): NavState {
    s.(selectedUserType := None)
  }

  /** `onLoginSuccess(name, email, token, role)` of the auth screen. */
  function LoginSuccess(s: NavState, name: Option<string>, email: Option<string>,
                        token: Option<string>, role: Option<string>): NavState {
    s.(loggedInName := name, loggedInEmail := email, loggedInToken := token,
       loggedInRole := role, isLoggedIn := true)
  }

  /** `onOpenServiceManager(tab)` of the labour home screen. */
  function OpenServiceManager(s: NavState, tab: int): NavState {
    s.(labourInitialTab := tab, showLabourScreen := true)
  }

  /** `onLogout` of the labour home screen and of the customer home screen. */
  function Logout(s: NavState): NavState {
    s.(isLoggedIn := false, loggedInName := None, loggedInEmail := None, loggedInToken := None,
       loggedInRole := None, selectedUserType := None)
  }

  /** `onBack` of the service manager. */
  function ProviderBack(s: NavState): NavState {
    s.(showLabourScreen := false)
  }

  /** `onLogout` of the service manager, which also closes it. */
  function ProviderLogout(s: NavState): NavState {
    Logout(s).(showLabourScreen := false)
  }

  /** `onNavigateToLabour(serviceId)` of the customer home screen. */
  function NavigateToLabour(s: NavState, serviceId: Option<int>): NavState {
    s.(selectedCustomerServiceId := serviceId, showLabourScreen := true)
  }

  /** `onBack` of the labour-request screen. */
  function LabourRequestsBack(s: NavState): NavState {
    s.(showLabourScreen := false, selectedCustomerServiceId := None)
  }

  /** A user action that reaches one of the callbacks. */
  datatype Event =
    | ChooseCustomer
    | ChooseLabour
    | ChangeUserType
    | LoggedIn(name: Option<string>, email: Option<string>, token: Option<string>, role: Option<string>)
    | OpenManager(tab: int)
    | LogoutFromLabourHome
    | BackFromManager
    | LogoutFromManager
    | RequestService(serviceId: Option<int>)
    | BackFromLabourRequests
    | LogoutFromHome

  /** A callback can only fire from the screen that was handed it. */
  predicate Enabled(s: NavState, e: Event) {
    match e
    case ChooseCustomer | ChooseLabour => ScreenOf(s).UserTypeSelection?
    case ChangeUserType | LoggedIn(_, _, _, _) => ScreenOf(s).Auth?
    case OpenManager(_) | LogoutFromLabourHome => ScreenOf(s).LabourHome?
    case BackFromManager | LogoutFromManager => ScreenOf(s).LabourProvider?
    case BackFromLabourRequests => ScreenOf(s).LabourRequests?
    case RequestService(_) | LogoutFromHome => ScreenOf(s).Home?
  }

  function Step(s: NavState, e: Event): NavState {
    match e
    case ChooseCustomer => SelectUserType(s, "CUSTOMER")
    case ChooseLabour => SelectUserType(s, "LABOUR")
    case ChangeUserType => BackToRoleSelection(s)
    case LoggedIn(name, email, token, role) => LoginSuccess(s, name, email, token, role)
    case OpenManager(tab) => OpenServiceManager(s, tab)
    case LogoutFromLabourHome => Logout(s)
    case BackFromManager => ProviderBack(s)
    case LogoutFromManager => ProviderLogout(s)
    case RequestService(id) => NavigateToLabour(s, id)
    case BackFromLabourRequests => LabourRequestsBack(s)
    case LogoutFromHome => Logout(s)
  }

  /** Whether every event of `events` is enabled in turn from `s`. */
  predicate Possible(s: NavState, events: seq<Event>)
    decreases |events|
  {
    events == [] || (Enabled(s, events[0]) && Possible(Step(s, events[0]), events[1..]))
  }

  function Run(s: NavState, events: seq<Event>): NavState
    decreases |events|
  {
    if events == [] then s else Run(Step(s, events[0]), events[1..])
  }

  /**
   * What holds in every state the activity can reach: nothing about a user is
   * remembered while logged out, a secondary screen is only open while logged
   * in, a pending service id belongs to the customer's request screen, and
   * the user type is one of the two choices.
   */
  predicate Consistent(s: NavState) {
    && (!s.isLoggedIn ==>
          s.loggedInName.None? && s.loggedInEmail.None? && s.loggedInToken.None? && s.loggedInRole.None?)
    && (s.showLabourScreen ==> s.isLoggedIn)
    && (s.selectedCustomerServiceId.Some? ==> s.showLabourScreen && !IsLabourRole(s.loggedInRole))
    && (s.selectedUserType.None? || s.selectedUserType == Some("CUSTOMER") || s.selectedUserType == Some("LABOUR"))
  }

  /** Every enabled callback keeps the state consistent. */
  lemma StepConsistent(s: NavState, e: Event)
    requires Consistent(s) && Enabled(s, e)
    ensures Consistent(Step(s, e))
  {
  }

  /** Every state reached from the start by enabled callbacks is consistent. */
  lemma {:induction false} RunConsistent(s: NavState, events: seq<Event>)
    requires Consistent(s) && Possible(s, events)
    ensures Consistent(Run(s, events))
    decreases |events|
  {
    if events != [] {
      StepConsistent(s, events[0]);
      RunConsistent(Step(s, events[0]), events[1..]);
    }
  }

  lemma ReachableConsistent(events: seq<Event>)
    requires Possible(Start, events)
    ensures Consistent(Run(Start, events))
  {
    RunConsistent(Start, events);
  }

  /** The start shows the role selection; choosing a type shows the auth screen with that role. */
  lemma ChoosingUserTypeOpensAuth(s: NavState, userType: string)
    requires ScreenOf(s).UserTypeSelection?
    ensures ScreenOf(SelectUserType(s, userType)) == Auth(Some(userType))
    ensures ScreenOf(BackToRoleSelection(SelectUserType(s, userType))) == UserTypeSelection
  {
  }

  /** A login from the auth screen lands on the labour home for the labour role, on the customer home otherwise. */
  lemma LoginRoutesByRole(s: NavState, name: Option<string>, email: Option<string>,
                          token: Option<string>, role: Option<string>)
    requires Consistent(s) && ScreenOf(s).Auth?
    ensures IsLabourRole(role) ==> ScreenOf(LoginSuccess(s, name, email, token, role)) == LabourHome(email, token)
    ensures !IsLabourRole(role) ==> ScreenOf(LoginSuccess(s, name, email, token, role)) == Home(name, email, token)
  {
  }

  /**
   * Every logout forgets the user and the chosen type: the next screen is the
   * role selection and the state is the start state but for the last tab.
   */
  lemma LogoutReturnsToStart(s: NavState)
    requires Consistent(s)
    ensures ScreenOf(s).LabourHome? || ScreenOf(s).Home? ==> Logout(s) == Start.(labourInitialTab := s.labourInitialTab)
    ensures ScreenOf(s).LabourProvider? ==> ProviderLogout(s) == Start.(labourInitialTab := s.labourInitialTab)
    ensures ScreenOf(Logout(s)) == UserTypeSelection && ScreenOf(ProviderLogout(s)) == UserTypeSelection
  {
  }

  /** Opening the manager shows it at the given tab; coming back shows the labour home again. */
  lemma ManagerRoundTrip(s: NavState, tab: int)
    requires Consistent(s) && ScreenOf(s).LabourHome?
    ensures ScreenOf(OpenServiceManager(s, tab)) == LabourProvider(s.loggedInEmail, s.loggedInToken, tab)
    ensures ProviderBack(OpenServiceManager(s, tab)) == s.(labourInitialTab := tab)
    ensures ScreenOf(ProviderBack(OpenServiceManager(s, tab))) == ScreenOf(s)
  {
  }

  /** Requesting a service opens the request screen for that id; coming back restores the state exactly. */
  lemma RequestServiceRoundTrip(s: NavState, serviceId: Option<int>)
    requires Consistent(s) && ScreenOf(s).Home?
    ensures ScreenOf(NavigateToLabour(s, serviceId)) == LabourRequests(s.loggedInEmail, s.loggedInToken, serviceId)
    ensures LabourRequestsBack(NavigateToLabour(s, serviceId)) == s
  {
  }

  /** The activity's remembered state, changed in place by the callbacks. */
  class MainActivity {
    var isLoggedIn: bool
    var loggedInName: Option<string>
    var loggedInEmail: Option<string>
    var loggedInToken: Option<string>
    var loggedInRole: Option<string>
    var selectedUserType: Option<string>
    var showLabourScreen: bool
    var selectedCustomerServiceId: Option<int>
    var labourInitialTab: int

    function State(): NavState
      reads this
    {
      NavState(isLoggedIn, loggedInName, loggedInEmail, loggedInToken, loggedInRole,
               selectedUserType, showLabourScreen, selectedCustomerServiceId, labourInitialTab)
    }

    ghost predicate Valid()
      reads this
    {
      Consistent(State())
    }

    function CurrentScreen(): Screen
      reads this
    {
      ScreenOf(State())
    }

    constructor ()
      ensures State() == Start && Valid()
      ensures CurrentScreen() == UserTypeSelection
    {
      isLoggedIn := false;
      loggedInName := None;
      loggedInEmail := None;
      loggedInToken := None;
      loggedInRole := None;
      selectedUserType := None;
      showLabourScreen := false;
      selectedCustomerServiceId := None;
      labourInitialTab := 0;
    }

    method OnSelectCustomer()
      requires Valid() && CurrentScreen().UserTypeSelection?
      modifies this`selectedUserType
      ensures Valid() && State() == SelectUserType(old(State()), "CUSTOMER")
      ensures CurrentScreen() == Auth(Some("CUSTOMER"))
    {
      selectedUserType := Some("CUSTOMER");
    }

    method OnSelectLabour()
      requires Valid() && CurrentScreen().UserTypeSelection?
      modifies this`selectedUserType
      ensures Valid() && State() == SelectUserType(old(State()), "LABOUR")
      ensures CurrentScreen() == Auth(Some("LABOUR"))
    {
      selectedUserType := Some("LABOUR");
    }

    method OnBackToRoleSelection()
      requires Valid() && CurrentScreen().Auth?
      modifies this`selectedUserType
      ensures Valid() && State() == BackToRoleSelection(old(State()))
      ensures CurrentScreen() == UserTypeSelection
    {
      selectedUserType := None;
    }

    method OnLoginSuccess(name: Option<string>, email: Option<string>, token: Option<string>, role: Option<string>)
      requires Valid() && CurrentScreen().Auth?
      modifies this`loggedInName, this`loggedInEmail, this`loggedInToken, this`loggedInRole, this`isLoggedIn
      ensures Valid() && State() == LoginSuccess(old(State()), name, email, token, role)
      ensures CurrentScreen() == if IsLabourRole(role) then LabourHome(email, token) else Home(name, email, token)
    {
      LoginRoutesByRole(State(), name, email, token, role);
      loggedInName := name;
      loggedInEmail := email;
      loggedInToken := token;
      loggedInRole := role;
      isLoggedIn := true;
    }

    method OnOpenServiceManager(tab: int)
      requires Valid() && CurrentScreen().LabourHome?
      modifies this`labourInitialTab, this`showLabourScreen
      ensures Valid() && State() == OpenServiceManager(old(State()), tab)
      ensures CurrentScreen() == LabourProvider(loggedInEmail, loggedInToken, tab)
    {
      labourInitialTab := tab;
      showLabourScreen := true;
    }

    /** The labour home's `onLogout` (lines 66-73) and the customer home's (lines 112-119) are the same code. */
    method OnLogout()
      requires Valid() && (CurrentScreen().LabourHome? || CurrentScreen().Home?)
      modifies this`isLoggedIn, this`loggedInName, this`loggedInEmail, this`loggedInToken,
               this`loggedInRole, this`selectedUserType
      ensures Valid() && State() == Logout(old(State()))
      ensures State() == Start.(labourInitialTab := labourInitialTab)
    {
      LogoutReturnsToStart(State());
      isLoggedIn := false;
      loggedInName := None;
      loggedInEmail := None;
      loggedInToken := None;
      loggedInRole := None;
      selectedUserType := None;
    }

    method OnProviderBack()
      requires Valid() && CurrentScreen().LabourProvider?
      modifies this`showLabourScreen
      ensures Valid() && State() == ProviderBack(old(State()))
      ensures CurrentScreen() == LabourHome(loggedInEmail, loggedInToken)
    {
      showLabourScreen := false;
    }

    method OnProviderLogout()
      requires Valid() && CurrentScreen().LabourProvider?
      modifies this`isLoggedIn, this`loggedInName, this`loggedInEmail, this`loggedInToken,
               this`loggedInRole, this`selectedUserType, this`showLabourScreen
      ensures Valid() && State() == ProviderLogout(old(State()))
      ensures State() == Start.(labourInitialTab := labourInitialTab)
    {
      LogoutReturnsToStart(State());
      isLoggedIn := false;
      loggedInName := None;
      loggedInEmail := None;
      loggedInToken := None;
      loggedInRole := None;
      selectedUserType := None;
      showLabourScreen := false;
    }

    method OnNavigateToLabour(serviceId: Option<int>)
      requires Valid() && CurrentScreen().Home?
      modifies this`selectedCustomerServiceId, this`showLabourScreen
      ensures Valid() && State() == NavigateToLabour(old(State()), serviceId)
      ensures CurrentScreen() == LabourRequests(loggedInEmail, loggedInToken, serviceId)
    {
      selectedCustomerServiceId := serviceId;
      showLabourScreen := true;
    }

    method OnLabourRequestsBack()
      requires Valid() && CurrentScreen().LabourRequests?
      modifies this`showLabourScreen, this`selectedCustomerServiceId
      ensures Valid() && State() == LabourRequestsBack(old(State()))
      ensures CurrentScreen() == Home(loggedInName, loggedInEmail, loggedInToken)
    {
      showLabourScreen := false;
      selectedCustomerServiceId := None;
    }
  }
}
