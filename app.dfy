/**
 * The app shell: the current screen and the navigation history stack, the
 * handlers that push screens, and the dispatch from screen name to the view it
 * renders.
 */
module App {
  import opened Wrappers
  import opened Types

  /** The navigation state: the current screen and the screens to go back to, most recent last. */
  datatype Nav = Nav(current: string, history: seq<string>)

  /** `navigateToScreen(screen)`: the current screen is remembered and `screen` becomes current. */
  function Push(n: Nav, screen: string): (r: Nav)
    ensures r.current == screen && |r.history| == |n.history| + 1
    ensures r.history[..|n.history|] == n.history && r.history[|n.history|] == n.current
  {
    Nav(screen, n.history + [n.current])
  }

  /** `navigateBack()`: the most recent remembered screen becomes current; nothing happens when there is none. */
  function Back(n: Nav): (r: Nav)
    ensures n.history == [] ==> r == n
    ensures n.history != [] ==> r.current == n.history[|n.history| - 1] && r.history + [r.current] == n.history
  {
    if |n.history| > 0 then Nav(n.history[|n.history| - 1], n.history[..|n.history| - 1]) else n
  }

  /** Going back right after navigating restores the screen and the history. */
  lemma BackAfterPush(n: Nav, screen: string)
    ensures Back(Push(n, screen)) == n
  {
    assert (n.history + [n.current])[..|n.history|] == n.history;
  }

  /** Navigating through `screens` in order. */
  function PushAll(n: Nav, screens: seq<string>): (r: Nav)
    ensures |r.history| == |n.history| + |screens|
    ensures screens != [] ==> r.current == screens[|screens| - 1]
    ensures screens == [] ==> r == n
  {
    if screens == [] then n else Push(PushAll(n, screens[..|screens| - 1]), screens[|screens| - 1])
  }

  /** Pressing back `k` times. */
  function BackTimes(n: Nav, k: nat): Nav
    decreases k
  {
    if k == 0 then n else BackTimes(Back(n), k - 1)
  }

  /** Every navigation is undone by exactly one press of back, so `k` pushes are undone by `k` backs. */
  lemma {:induction false} BackUndoesPushes(n: Nav, screens: seq<string>)
    ensures BackTimes(PushAll(n, screens), |screens|) == n
    decreases |screens|
  {
    if screens != [] {
      var init := screens[..|screens| - 1];
      BackAfterPush(PushAll(n, init), screens[|screens| - 1]);
      BackUndoesPushes(n, init);
    }
  }

  /** Back on a history of length `h` can be pressed `h` times before it stops changing anything. */
  lemma {:induction false} BackTimesShrinks(n: Nav, k: nat)
    ensures |BackTimes(n, k).history| == if k <= |n.history| then |n.history| - k else 0
    decreases k
  {
    if k > 0 {
      BackTimesShrinks(Back(n), k - 1);
    }
  }

  /** The views the dispatch can render. */
  datatype View =
    | SplashView | OnboardingView | AuthView | MainView | ServiceDiscoveryView | ServiceListingView
    | AllCategoriesView | OfferSkillsView | ServiceDetailView | BookingsView | MessagesView | ProfileView
    | EditProfileView | MyServicesView | PaymentMethodsView | HelpSupportView | PrivacyPolicyView
    | TermsOfServiceView | SettingsView

  /** The screen name each view is rendered for. */
  function ScreenName(v: View): string {
    match v
    case SplashView => "splash"
    case OnboardingView => "onboarding"
    case AuthView => "auth"
    case MainView => "main"
    case ServiceDiscoveryView => "services"
    case ServiceListingView => "service-listing"
    case AllCategoriesView => "all-categories"
    case OfferSkillsView => "offer-skills"
    case ServiceDetailView => "service-detail"
    case BookingsView => "bookings"
    case MessagesView => "messages"
    case ProfileView => "profile"
    case EditProfileView => "edit-profile"
    case MyServicesView => "my-services"
    case PaymentMethodsView => "payment-methods"
    case HelpSupportView => "help-support"
    case PrivacyPolicyView => "privacy-policy"
    case TermsOfServiceView => "terms-of-service"
    case SettingsView => "settings"
  }

  /** The view rendered for the current screen; an unrecognised name renders the splash screen. */
  function ViewFor(screen: string): View {
    match screen
    case "onboarding" => OnboardingView
    case "auth" => AuthView
    case "main" => MainView
    case "services" => ServiceDiscoveryView
    case "service-listing" => ServiceListingView
    case "all-categories" => AllCategoriesView
    case "offer-skills" => OfferSkillsView
    case "service-detail" => ServiceDetailView
    case "bookings" => BookingsView
    case "messages" => MessagesView
    case "profile" => ProfileView
    case "edit-profile" => EditProfileView
    case "my-services" => MyServicesView
    case "payment-methods" => PaymentMethodsView
    case "help-support" => HelpSupportView
    case "privacy-policy" => PrivacyPolicyView
    case "terms-of-service" => TermsOfServiceView
    case "settings" => SettingsView
    case _ => SplashView
  }

  /** Every view is reached from its own screen name, and from no other name except through the splash default. */
  lemma DispatchRoundTrip(v: View, screen: string)
    ensures ViewFor(ScreenName(v)) == v
    ensures v != SplashView ==> (ViewFor(screen) == v <==> screen == ScreenName(v))
  {
    match v {
      case SplashView =>
      case OnboardingView =>
      case AuthView =>
      case MainView =>
      case ServiceDiscoveryView =>
      case ServiceListingView =>
      case AllCategoriesView =>
      case OfferSkillsView =>
      case ServiceDetailView =>
      case BookingsView =>
      case MessagesView =>
      case ProfileView =>
      case EditProfileView =>
      case MyServicesView =>
      case PaymentMethodsView =>
      case HelpSupportView =>
      case PrivacyPolicyView =>
      case TermsOfServiceView =>
      case SettingsView =>
    }
  }

  /** The splash screen is rendered exactly for "splash" and for names no case recognises. */
  lemma SplashIsDefault(screen: string)
    ensures ViewFor(screen) == SplashView <==> forall v: View :: v != SplashView ==> screen != ScreenName(v)
  {
    if ViewFor(screen) != SplashView {
      DispatchRoundTrip(ViewFor(screen), screen);
    }
  }

  /** The handlers whose whole effect is navigating to a fixed screen. */
  datatype Handler =
    | OnboardingFinish | AuthSuccess | Logout | FindServices | BackToMain | BackToServices
    | SeeAll | OfferSkills | BackToOfferSkills | DeleteService | ContactService | BookService
    | BookingsPress | MessagesPress | ProfilePress | EditProfile | MyServices | PaymentMethods
    | AddService | HelpSupport | PrivacyPolicy | TermsOfService | Settings

  /** The screen each handler navigates to. */
  function Target(h: Handler): (screen: string)
    ensures ViewFor(screen) != SplashView
  {
    match h
    case OnboardingFinish => "auth"
    case AuthSuccess => "main"
    case Logout => "auth"
    case FindServices => "services"
    case BackToMain => "main"
    case BackToServices => "services"
    case SeeAll => "all-categories"
    case OfferSkills => "offer-skills"
    case BackToOfferSkills => "offer-skills"
    case DeleteService => "offer-skills"
    case ContactService => "messages"
    case BookService => "bookings"
    case BookingsPress => "bookings"
    case MessagesPress => "messages"
    case ProfilePress => "profile"
    case EditProfile => "edit-profile"
    case MyServices => "my-services"
    case PaymentMethods => "payment-methods"
    case AddService => "offer-skills"
    case HelpSupport => "help-support"
    case PrivacyPolicy => "privacy-policy"
    case TermsOfService => "terms-of-service"
    case Settings => "settings"
  }

  /** Where the splash screen leads: onboarding on first launch, sign-in otherwise. */
  function SplashTarget(isFirstLaunch: bool): (screen: string)
    ensures ViewFor(screen) == (if isFirstLaunch then OnboardingView else AuthView)
  {
    if isFirstLaunch then "onboarding" else "auth"
  }

  /** The app's navigation state and the selections handed to the next screen. */
  class AppNavigator {
    var currentScreen: string
    var navigationHistory: seq<string>
    var selectedService: Option<Service>
    var selectedCategory: Option<string>
    var isOwnService: bool

    function State(): Nav
      reads this
    {
      Nav(currentScreen, navigationHistory)
    }

    constructor ()
      ensures currentScreen == "splash" && navigationHistory == []
      ensures selectedService == None && selectedCategory == None && !isOwnService
    {
      currentScreen := "splash";
      navigationHistory := [];
      selectedService := None;
      selectedCategory := None;
      isOwnService := false;
    }

    method NavigateToScreen(screen: string)
      modifies this
      ensures navigationHistory == old(navigationHistory) + [old(currentScreen)] && currentScreen == screen
      ensures State() == Push(old(State()), screen)
      ensures selectedService == old(selectedService) && selectedCategory == old(selectedCategory)
      ensures isOwnService == old(isOwnService)
    {
      navigationHistory := navigationHistory + [currentScreen];
      currentScreen := screen;
    }

    method NavigateBack()
      modifies this
      ensures State() == Back(old(State()))
      ensures old(navigationHistory) == [] ==> currentScreen == old(currentScreen) && navigationHistory == []
      ensures old(navigationHistory) != [] ==>
        currentScreen == old(navigationHistory)[|old(navigationHistory)| - 1] &&
        navigationHistory == old(navigationHistory)[..|old(navigationHistory)| - 1]
      ensures selectedService == old(selectedService) && selectedCategory == old(selectedCategory)
      ensures isOwnService == old(isOwnService)
    {
      if |navigationHistory| > 0 {
        var previous := navigationHistory[|navigationHistory| - 1];
        navigationHistory := navigationHistory[..|navigationHistory| - 1];
        currentScreen := previous;
      }
    }

    method HandleSplashFinish(isFirstLaunch: bool)
      modifies this
      ensures State() == Push(old(State()), SplashTarget(isFirstLaunch))
      ensures selectedService == old(selectedService) && selectedCategory == old(selectedCategory)
      ensures isOwnService == old(isOwnService)
    {
      if isFirstLaunch {
        NavigateToScreen("onboarding");
      } else {
        NavigateToScreen("auth");
      }
    }

    /** A handler that only navigates, such as sign-in success or logout: a push, never a reset. */
    method Handle(h: Handler)
      modifies this
      ensures State() == Push(old(State()), Target(h))
      ensures selectedService == old(selectedService) && selectedCategory == old(selectedCategory)
      ensures isOwnService == old(isOwnService)
    {
      NavigateToScreen(Target(h));
    }

    method HandleCategoryPress(category: string)
      modifies this
      ensures State() == Push(old(State()), "service-listing")
      ensures selectedCategory == Some(category)
      ensures selectedService == old(selectedService) && isOwnService == old(isOwnService)
    {
      selectedCategory := Some(category);
      NavigateToScreen("service-listing");
    }

    method HandleServicePress(service: Service, isOwn: bool)
      modifies this
      ensures State() == Push(old(State()), "service-detail")
      ensures selectedService == Some(service) && isOwnService == isOwn
      ensures selectedCategory == old(selectedCategory)
    {
      selectedService := Some(service);
      isOwnService := isOwn;
      NavigateToScreen("service-detail");
    }
  }
}
