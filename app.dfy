/**
 * The app's root reducer: which screen is shown, moved on by the splash and onboarding hand-overs
 * and by the two explicit navigation actions.
 */
module AppModel {
  import SplashModel
  import OnboardingModel
  import HomeModel

  datatype Screen = SplashScreen | OnboardingScreen | HomeScreen

  /** The app starts on the splash screen. */
  const InitialScreen: Screen := SplashScreen

  datatype Action =
    | Splash(splash: SplashModel.Action)
    | Onboarding(onboarding: OnboardingModel.Action)
    | Home(home: HomeModel.Action)
    | NavigateToOnboarding
    | NavigateToHome

  /** The screen after an action; every action not listed keeps the screen. */
  function Next(screen: Screen, a: Action): (r: Screen)
    ensures r == OnboardingScreen <==>
      a == Splash(SplashModel.OnboardingComplete) || a == NavigateToOnboarding
      || (screen == OnboardingScreen && a != Splash(SplashModel.HomeComplete)
          && a != Onboarding(OnboardingModel.OnboardingComplete) && a != NavigateToHome)
    ensures r == HomeScreen <==>
      a == Splash(SplashModel.HomeComplete) || a == Onboarding(OnboardingModel.OnboardingComplete) || a == NavigateToHome
      || (screen == HomeScreen && a != Splash(SplashModel.OnboardingComplete) && a != NavigateToOnboarding)
  {
    if a == Splash(SplashModel.OnboardingComplete) || a == NavigateToOnboarding then OnboardingScreen
    else if a == Splash(SplashModel.HomeComplete) || a == Onboarding(OnboardingModel.OnboardingComplete)
         || a == NavigateToHome then HomeScreen
    else screen
  }

  /** The screen after the actions, in order. */
  function Navigate(screen: Screen, actions: seq<Action>): Screen
    decreases |actions|
  {
    if actions == [] then screen else Navigate(Next(screen, actions[0]), actions[1..])
  }

  /** No action leads to the splash screen from another one. */
  lemma NeverBackToSplash(screen: Screen, a: Action)
    ensures Next(screen, a) == SplashScreen ==> screen == SplashScreen
  {
  }

  /** Once the splash screen is left, no sequence of actions returns to it. */
  lemma {:induction false} SplashLeftForGood(screen: Screen, actions: seq<Action>)
    requires screen != SplashScreen
    ensures Navigate(screen, actions) != SplashScreen
    decreases |actions|
  {
    if actions != [] {
      NeverBackToSplash(screen, actions[0]);
      SplashLeftForGood(Next(screen, actions[0]), actions[1..]);
    }
  }

  /**
   * The splash hand-over, forwarded to the root reducer, opens onboarding on the first launch
   * and home otherwise.
   */
  lemma SplashHandOver(s: SplashModel.State, firstLaunch: bool)
    ensures var e := SplashModel.Step(s, SplashModel.AnimationComplete, firstLaunch).effect;
      e.SendAction?
      && Next(SplashScreen, Splash(e.action)) == (if firstLaunch then OnboardingScreen else HomeScreen)
  {
  }

  /** The root store's screen, reassigned in place. */
  class AppSession {
    var currentScreen: Screen

    constructor ()
      ensures currentScreen == InitialScreen
    {
      currentScreen := SplashScreen;
    }

    method Reduce(a: Action)
      modifies this
      ensures currentScreen == Next(old(currentScreen), a)
    {
      if a == Splash(SplashModel.OnboardingComplete) {
        currentScreen := OnboardingScreen;
      } else if a == Splash(SplashModel.HomeComplete) {
        currentScreen := HomeScreen;
      } else if a == Onboarding(OnboardingModel.OnboardingComplete) {
        currentScreen := HomeScreen;
      } else if a == NavigateToOnboarding {
        currentScreen := OnboardingScreen;
      } else if a == NavigateToHome {
        currentScreen := HomeScreen;
      }
    }
  }
}
