/** The root page: one nullable `user` state field that decides whether the
    login page or the dashboard is on screen. */
module Session {
  import opened Users

  datatype Screen = LoginScreen | DashboardScreen(user: User)

  /** What the root page renders for a session. */
  function ScreenFor(session: Option<User>): (s: Screen)
    ensures s.LoginScreen? <==> session.None?
    ensures s.DashboardScreen? ==> session == Some(s.user)
  {
    match session
    case None => LoginScreen
    case Some(u) => DashboardScreen(u)
  }

  class App {
    var user: Option<User>

    /** The page starts with nobody logged in. */
    constructor ()
      ensures user == None
      ensures Screen() == LoginScreen
    {
      user := None;
    }

    function Screen(): Screen
      reads this
    {
      ScreenFor(user)
    }

    /** `handleLogin`: the session becomes exactly the user the login page passed up. */
    method HandleLogin(userData: User)
      modifies this
      ensures user == Some(userData)
      ensures Screen() == DashboardScreen(userData)
    {
      user := Some(userData);
    }

    /** `handleLogout`: the session is cleared, whatever it was. */
    method HandleLogout()
      modifies this
      ensures user == None
      ensures Screen() == LoginScreen
    {
      user := None;
    }
  }
}
