/** The layout around every page: whether the bars are drawn, and the panel's open flag. */
module AppShell {
  import Navbar

  /** The routes drawn without the top bar and the side panel. */
  const NoNavRoutes: seq<string> := ["/login", "/signup"]

  predicate HideNav(path: string)
  {
    path in NoNavRoutes
  }

  /** The bars are hidden exactly on "/login" and "/signup", which are the top bar's own auth pages. */
  lemma HideNavOnAuthPages(path: string)
    ensures HideNav(path) <==> path == "/login" || path == "/signup"
    ensures HideNav(path) <==> Navbar.IsAuthPage(path)
  {
  }

  /** The shell's state: whether the side panel is open. */
  class Shell {
    var isSidebarOpen: bool

    constructor ()
      ensures !isSidebarOpen
    {
      isSidebarOpen := false;
    }

    /** `toggleSidebar`: flips the flag, so two toggles restore it. */
    method ToggleSidebar()
      modifies this
      ensures isSidebarOpen == !old(isSidebarOpen)
    {
      isSidebarOpen := !isSidebarOpen;
    }

    /** `closeSidebar`: the panel is closed afterwards, whatever it was, so closing again changes nothing. */
    method CloseSidebar()
      modifies this
      ensures !isSidebarOpen
    {
      isSidebarOpen := false;
    }
  }
}
