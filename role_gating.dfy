/**
 * The role rule that spans the pages: an NGO is never offered a way to donate,
 * and every other signed-in user is.
 */
module RoleGating {
  import opened Wrappers
  import opened AuthContext
  import Sidebar
  import MyListings
  import Dashboard
  import DonatePage
  import SellPage

  /**
   * For an NGO: the side panel offers no Donate action, "My Listings" shows no
   * donation buttons, the dashboard shows the NGO view (not the member view with
   * its donate card), and the donation page shows the blocking message.
   */
  lemma NgoNeverSeesDonate(user: UserData, path: string, open: bool, loading: bool, fetching: bool, submitted: bool,
                           stats: Dashboard.DashboardStats, recent: seq<Dashboard.ActivityRow>,
                           requests: seq<Dashboard.DonationRequest>)
    requires user.role == Some(Ngo)
    ensures forall l :: l in Sidebar.QuickActions(Some(user)) ==> l.href != "/donate"
    ensures !MyListings.ShowsDonationButtons(user)
    ensures !Dashboard.PageView(loading, fetching, Some(user), stats, recent, requests).MemberView?
    ensures !loading && !fetching ==> Dashboard.PageView(loading, fetching, Some(user), stats, recent, requests).NgoView?
    ensures !loading ==> DonatePage.PageView(loading, Some(user), submitted) == DonatePage.NgoBlocked
  {
    Sidebar.QuickActionsByRole(Some(user));
  }

  /** Any other signed-in user is offered Donate in the side panel, in "My Listings" and on the dashboard, and gets the form. */
  lemma OthersSeeDonate(user: UserData, stats: Dashboard.DashboardStats, recent: seq<Dashboard.ActivityRow>,
                        requests: seq<Dashboard.DonationRequest>)
    requires user.role != Some(Ngo)
    ensures Sidebar.Link("/donate", "Donate") in Sidebar.QuickActions(Some(user))
    ensures MyListings.ShowsDonationButtons(user)
    ensures Dashboard.PageView(false, false, Some(user), stats, recent, requests).MemberView?
    ensures Dashboard.PageView(false, false, Some(user), stats, recent, requests).showsDonateCard
    ensures DonatePage.PageView(false, Some(user), false) == DonatePage.Form
  {
    Sidebar.QuickActionsByRole(Some(user));
  }

  /**
   * The sell page has no role gate: outside an NGO it shows the same view as the
   * donation page, and a loaded NGO, whom the donation page blocks, still gets
   * the sell form or its confirmation.
   */
  lemma SellGatesLikeDonateOutsideNgo(loading: bool, user: Option<UserData>, submitted: bool)
    ensures !(user.Some? && user.value.role == Some(Ngo)) ==>
      && (SellPage.PageView(loading, user, submitted) == SellPage.Loading <==> DonatePage.PageView(loading, user, submitted) == DonatePage.Loading)
      && (SellPage.PageView(loading, user, submitted) == SellPage.SignInPrompt <==> DonatePage.PageView(loading, user, submitted) == DonatePage.SignInPrompt)
      && (SellPage.PageView(loading, user, submitted) == SellPage.Form <==> DonatePage.PageView(loading, user, submitted) == DonatePage.Form)
      && (SellPage.PageView(loading, user, submitted) == SellPage.Confirmation <==> DonatePage.PageView(loading, user, submitted) == DonatePage.Confirmation)
    ensures !loading && user.Some? && user.value.role == Some(Ngo) ==>
      && DonatePage.PageView(loading, user, submitted) == DonatePage.NgoBlocked
      && SellPage.PageView(loading, user, submitted) == (if submitted then SellPage.Confirmation else SellPage.Form)
  {
  }
}
