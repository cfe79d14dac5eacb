/**
 * The top-level router: which screen is shown (welcome, login, signup, tutorial, landing) and the
 * signed-in user. `U` is the user record as the backend returns it.
 */
module AuthFlow {
  import opened Options

  datatype Screen = Welcome | Login | Signup | Tutorial | Landing

  /** What is rendered; the tutorial and the landing page receive the user. */
  datatype View<U> = StartView | LoginView | SignupView | TutorialView(user: U) | LandingView(user: U)

  /** The render rule: landing and tutorial need a user; welcome, login and signup render their screen;
      anything else falls back to the start screen. */
  function Render<U>(screen: Screen, user: Option<U>): (v: View<U>)
    ensures v.LandingView? <==> screen == Landing && user.Some?
    ensures v.TutorialView? <==> screen == Tutorial && user.Some?
    ensures (v.LandingView? || v.TutorialView?) ==> v.user == user.value
    ensures v.LoginView? <==> screen == Login
    ensures v.SignupView? <==> screen == Signup
    ensures v.StartView? <==> screen == Welcome || ((screen == Landing || screen == Tutorial) && user.None?)
  {
    match screen
    case Landing => if user.Some? then LandingView(user.value) else StartView
    case Tutorial => if user.Some? then TutorialView(user.value) else StartView
    case Welcome => StartView
    case Login => LoginView
    case Signup => SignupView
  }

  /** Nobody signed in never sees the tutorial or the landing page. */
  lemma SignedOutSeesNoUserScreens<U>(screen: Screen)
    ensures Render<U>(screen, None) in {StartView, LoginView, SignupView}
  {
  }

  /** The router's state. */
  class Router<U> {
    var currentScreen: Screen
    var user: Option<U>

    function View(): View<U>
      reads this
    {
      Render(currentScreen, user)
    }

    constructor ()
      ensures currentScreen == Welcome && user == None
      ensures View() == StartView
    {
      currentScreen := Welcome;
      user := None;
    }

    method HandleLoginSuccess(userData: U)
      modifies this
      ensures user == Some(userData) && currentScreen == Landing
      ensures View() == LandingView(userData)
    {
      user := Some(userData);
      currentScreen := Landing;
    }

    method HandleSignupSuccess(userData: U)
      modifies this
      ensures user == Some(userData) && currentScreen == Tutorial
      ensures View() == TutorialView(userData)
    {
      user := Some(userData);
      currentScreen := Tutorial;
    }

    method HandleTutorialComplete()
      modifies this
      ensures currentScreen == Landing && user == old(user)
      ensures old(user).Some? ==> View() == LandingView(old(user).value)
    {
      currentScreen := Landing;
    }

    method HandleLogout()
      modifies this
      ensures currentScreen == Welcome && user == None
      ensures View() == StartView
    {
      user := None;
      currentScreen := Welcome;
    }

    method SwitchToLogin()
      modifies this
      ensures currentScreen == Login && user == old(user)
      ensures View() == LoginView
    {
      currentScreen := Login;
    }

    method SwitchToSignup()
      modifies this
      ensures currentScreen == Signup && user == old(user)
      ensures View() == SignupView
    {
      currentScreen := Signup;
    }
  }
}
