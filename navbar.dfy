/**
 * The top bar: which controls appear for a path and a user, where a logo click
 * goes, and where a logout ends.
 */
module Navbar {
  import opened Wrappers
  import opened AuthContext

  predicate IsLandingPage(path: string)
  {
    path == "/" || path == "/landing"
  }

  predicate IsAuthPage(path: string)
  {
    path == "/login" || path == "/signup"
  }

  /** The right-hand side: the profile menu of a signed-in user, or the two sign-in links. */
  datatype RightSide = ProfileMenu(name: string, email: string) | AuthLinks(loginHref: string, signupHref: string)

  /** What the bar shows for a path: the hamburger or a spacer in its place, the logo's position, and the right-hand side. */
  datatype Header = Header(hamburger: bool, spacer: bool, logoCentred: bool, right: RightSide)

  function Render(path: string, user: Option<UserData>): Header
  {
    var hamburger := !IsLandingPage(path) && !IsAuthPage(path) && user.Some?;
    Header(hamburger, !hamburger, !(IsLandingPage(path) || IsAuthPage(path)),
      if user.Some? then
        ProfileMenu(if user.value.name.Some? && user.value.name.value != "" then user.value.name.value else "User", user.value.email)
      else AuthLinks("/login", "/signup"))
  }

  /**
   * The hamburger shows exactly for a signed-in user away from the landing and
   * auth pages, and the spacer exactly when it does not; signed in, the menu
   * names the user or says "User"; signed out, the bar links to "/login" and
   * "/signup".
   */
  lemma RenderRules(path: string, user: Option<UserData>)
    ensures var h := Render(path, user);
      && (h.hamburger <==> user.Some? && path !in {"/", "/landing", "/login", "/signup"})
      && h.spacer == !h.hamburger
      && (h.logoCentred <==> path !in {"/", "/landing", "/login", "/signup"})
      && (user.None? ==> h.right == AuthLinks("/login", "/signup") && !h.hamburger)
      && (user.Some? ==> h.right.ProfileMenu? && h.right.email == user.value.email && h.right.name != "")
      && (user.Some? && user.value.name.Some? && user.value.name.value != "" ==> h.right.name == user.value.name.value)
      && (user.Some? && (user.value.name.None? || user.value.name.value == "") ==> h.right.name == "User")
  {
  }

  /** A logo click: the dashboard when signed in, the landing page otherwise. */
  function LogoTarget(user: Option<UserData>): (route: string)
    ensures user.Some? ==> route == "/dashboard"
    ensures user.None? ==> route == "/landing"
  {
    if user.Some? then "/dashboard" else "/landing"
  }

  /**
   * The routes pushed by the logout item: `logout` pushes "/landing" after
   * signing out and the handler pushes it again; when sign-out throws, neither
   * runs.
   */
  function LogoutNavigation(signedOut: bool): (routes: seq<string>)
    ensures signedOut ==> routes != [] && routes[|routes| - 1] == "/landing"
    ensures forall r :: r in routes ==> r == "/landing"
    ensures !signedOut ==> routes == []
  {
    if signedOut then ["/landing", "/landing"] else []
  }
}
