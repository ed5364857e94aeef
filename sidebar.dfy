/**
 * The side panel: hidden while auth loads, the same three links for every role,
 * quick actions chosen by role, and the footer's fallbacks.
 */
module Sidebar {
  import opened Wrappers
  import opened Text
  import opened AuthContext

  datatype Link = Link(href: string, caption: string)

  /** The navigation links, the same for every role. */
  const BaseLinks: seq<Link> := [Link("/dashboard", "Dashboard"), Link("/my-listings", "My Listings"), Link("/tasks", "Tasks")]

  /** A link is highlighted when the path is its target, exactly. */
  predicate IsActive(path: string, l: Link)
  {
    path == l.href
  }

  /** An NGO gets "Raise a Request" alone; everyone else, signed in or not, gets Sell and Donate. */
  function QuickActions(user: Option<UserData>): seq<Link>
  {
    if user.Some? && user.value.role == Some(Ngo) then [Link("/raise-request", "Raise a Request")]
    else [Link("/sell", "Sell"), Link("/donate", "Donate")]
  }

  /** The avatar's letter: the first character of the name upper-cased, or "U" without a name. */
  function Initial(name: Option<string>): (letter: string)
    ensures |letter| == 1
    ensures name.Some? && name.value != "" ==> letter == [UpperChar(name.value[0])]
    ensures name.None? || name.value == "" ==> letter == "U"
  {
    if name.Some? && name.value != "" then ToUpper(name.value[..1]) else "U"
  }

  /** The footer's name: the name, or "User" when it is missing or empty. */
  function DisplayName(name: Option<string>): (shown: string)
    ensures shown != ""
    ensures name.Some? && name.value != "" ==> shown == name.value
    ensures name.None? || name.value == "" ==> shown == "User"
  {
    if name.Some? && name.value != "" then name.value else "User"
  }

  /** The footer's role: the role's name, or "Member" without one. */
  function RoleLabel(role: Option<Role>): (shown: string)
    ensures role.Some? ==> shown == RoleName(role.value)
    ensures role.None? ==> shown == "Member"
  {
    if role.Some? then RoleName(role.value) else "Member"
  }

  /** The rendered panel; each link is paired with whether it is highlighted. */
  datatype Panel = Panel(open: bool, links: seq<(Link, bool)>, quick: seq<Link>, initial: string, name: string, role: string)

  /** Nothing while auth loads; otherwise the panel for this path and user. */
  function Render(loading: bool, open: bool, path: string, user: Option<UserData>): Option<Panel>
  {
    if loading then None
    else
      var name := if user.Some? then user.value.name else None;
      var role := if user.Some? then user.value.role else None;
      Some(Panel(open, seq(|BaseLinks|, i requires 0 <= i < |BaseLinks| => (BaseLinks[i], IsActive(path, BaseLinks[i]))),
                 QuickActions(user), Initial(name), DisplayName(name), RoleLabel(role)))
  }

  /**
   * Nothing is shown while loading; otherwise the three links appear for every
   * user, and a link is highlighted exactly when the path is its target, so at
   * most one is.
   */
  lemma RenderLinks(loading: bool, open: bool, path: string, user: Option<UserData>)
    ensures loading <==> Render(loading, open, path, user).None?
    ensures var p := Render(loading, open, path, user);
      p.Some? ==>
        && |p.value.links| == |BaseLinks|
        && (forall i :: 0 <= i < |BaseLinks| ==> p.value.links[i].0 == BaseLinks[i])
        && (forall i :: 0 <= i < |BaseLinks| ==> (p.value.links[i].1 <==> path == BaseLinks[i].href))
        && (forall i, j :: 0 <= i < j < |BaseLinks| ==> !(p.value.links[i].1 && p.value.links[j].1))
  {
  }

  /**
   * An NGO is offered "Raise a Request" alone, never Donate or Sell; every other
   * user, and a signed-out visitor, is offered Sell and Donate and nothing else.
   */
  lemma QuickActionsByRole(user: Option<UserData>)
    ensures user.Some? && user.value.role == Some(Ngo) ==>
      && QuickActions(user) == [Link("/raise-request", "Raise a Request")]
      && forall l :: l in QuickActions(user) ==> l.href != "/donate" && l.href != "/sell"
    ensures !(user.Some? && user.value.role == Some(Ngo)) ==>
      && QuickActions(user) == [Link("/sell", "Sell"), Link("/donate", "Donate")]
      && Link("/sell", "Sell") in QuickActions(user) && Link("/donate", "Donate") in QuickActions(user)
  {
  }
}
