/**
 * The navigation bar (client/src/pages/Navbar.jsx) and the routes it links to
 * (client/src/App.jsx:32-75).
 *
 * Both the desktop menu and the mobile menu map the same five item names to paths; the
 * mobile menu is rendered only while `open`, and following one of its links closes it.
 * The router is reduced to its list of child routes and an exact path match.
 */
module Navbar {
  import opened Optional
  import Ascii

  const MenuItems: seq<string> := ["Home", "About", "Service", "Projects", "Contact"]

  /** The `to` of a menu link: "/" for "Home", otherwise "/" and the lower-cased item. */
  function PathFor(item: string): (path: string)
    ensures |path| >= 1 && path[0] == '/'
    ensures item == "Home" ==> path == "/"
    ensures item != "Home" ==> path[1..] == Ascii.Lower(item)
  {
    "/" + (if item == "Home" then "" else Ascii.Lower(item))
  }

  /** A rendered link: its text, its target, and whether clicking it closes the mobile menu. */
  datatype NavLink = NavLink(text: string, to: string, closesMenu: bool)

  /** The desktop `<nav>`: one link per item, always rendered, with no click handler. */
  function DesktopLinks(): (links: seq<NavLink>)
    ensures |links| == |MenuItems|
    ensures forall i :: 0 <= i < |links| ==>
      links[i].text == MenuItems[i] && links[i].to == PathFor(MenuItems[i]) && !links[i].closesMenu
  {
    seq(|MenuItems|, i requires 0 <= i < |MenuItems| => NavLink(MenuItems[i], PathFor(MenuItems[i]), false))
  }

  /** The mobile `<nav>`: rendered only while the menu is open; each link closes it. */
  function MobileLinks(open: bool): (links: seq<NavLink>)
    ensures !open <==> links == []
    ensures open ==> |links| == |MenuItems| && forall i :: 0 <= i < |links| ==>
      links[i].text == MenuItems[i] && links[i].to == PathFor(MenuItems[i]) && links[i].closesMenu
  {
    if open then
      seq(|MenuItems|, i requires 0 <= i < |MenuItems| => NavLink(MenuItems[i], PathFor(MenuItems[i]), true))
    else []
  }

  /** Both menus, when shown, offer the same items with the same targets in the same order. */
  lemma DesktopAndMobileAgree()
    ensures |MobileLinks(true)| == |DesktopLinks()|
    ensures forall i :: 0 <= i < |DesktopLinks()| ==>
      MobileLinks(true)[i].to == DesktopLinks()[i].to && MobileLinks(true)[i].text == DesktopLinks()[i].text
  {
  }

  /** The targets of the five menu items, in menu order. */
  lemma MenuPaths()
    ensures |MenuItems| == 5
    ensures PathFor(MenuItems[0]) == "/"
    ensures PathFor(MenuItems[1]) == "/about"
    ensures PathFor(MenuItems[2]) == "/service"
    ensures PathFor(MenuItems[3]) == "/projects"
    ensures PathFor(MenuItems[4]) == "/contact"
  {
    assert MenuItems[1] == "About";
    assert Ascii.Lower("About") == "about";
    assert MenuItems[2] == "Service";
    assert Ascii.Lower("Service") == "service";
    assert MenuItems[3] == "Projects";
    assert Ascii.Lower("Projects") == "projects";
    assert MenuItems[4] == "Contact";
    assert Ascii.Lower("Contact") == "contact";
  }

  /** A child route of the layout: the `index` route, a static segment, or the `*` catch-all. */
  datatype Route = Index | Segment(name: string) | CatchAll

  /** The layout's children in declaration order. */
  const Routes: seq<Route> :=
    [Index, Segment("about"), Segment("contact"), Segment("service"), Segment("projects"), CatchAll]

  predicate Matches(route: Route, path: string) {
    match route
    case Index => path == "/"
    case Segment(name) => path == "/" + name
    case CatchAll => true
  }

  /**
   * The position of the first route at or after `from` that matches `path`. With the
   * catch-all declared last and every other route static, the first match from the start
   * is the route the router renders.
   */
  function FirstMatch(routes: seq<Route>, path: string, from: nat): (r: Option<nat>)
    requires from <= |routes|
    ensures r.Some? ==>
      && from <= r.value < |routes|
      && Matches(routes[r.value], path)
      && forall j :: from <= j < r.value ==> !Matches(routes[j], path)
    ensures r.None? ==> forall j :: from <= j < |routes| ==> !Matches(routes[j], path)
    decreases |routes| - from
  {
    if from == |routes| then None
    else if Matches(routes[from], path) then Some(from)
    else FirstMatch(routes, path, from + 1)
  }

  /** The route the router renders for `path`; the catch-all answers every unknown path. */
  function Resolve(path: string): (r: Route)
    ensures r in Routes && Matches(r, path)
    ensures r.CatchAll? <==> forall j :: 0 <= j < |Routes| && !Routes[j].CatchAll? ==> !Matches(Routes[j], path)
  {
    var k := FirstMatch(Routes, path, 0);
    if k.Some? then Routes[k.value]
    else assert Matches(Routes[5], path); CatchAll
  }

  /** A path some page answers, i.e. one that does not fall through to the 404 route. */
  predicate Routed(path: string) {
    !Resolve(path).CatchAll?
  }

  /** A path is answered by the first route that matches it. */
  lemma ResolvesToFirstMatch(path: string, k: nat)
    requires k < |Routes| && Matches(Routes[k], path)
    requires forall j :: 0 <= j < k ==> !Matches(Routes[j], path)
    ensures Resolve(path) == Routes[k]
  {
    var m := FirstMatch(Routes, path, 0);
    assert m.Some? && m.value == k;
  }

  /** The pages the menu items lead to, in menu order. */
  const MenuRoutes: seq<Route> :=
    [Index, Segment("about"), Segment("service"), Segment("projects"), Segment("contact")]

  /** The menu position of the item leading to a route; -1 for a route no item leads to. */
  function MenuPosition(route: Route): int {
    match route
    case Index => 0
    case Segment(name) =>
      if name == "about" then 1
      else if name == "service" then 2
      else if name == "projects" then 3
      else if name == "contact" then 4
      else -1
    case CatchAll => -1
  }

  lemma MenuItemRoute(i: nat)
    requires i < |MenuItems|
    ensures Resolve(PathFor(MenuItems[i])) == MenuRoutes[i]
  {
    MenuPaths();
    if i == 0 {
      ResolvesToFirstMatch("/", 0);
    } else if i == 1 {
      ResolvesToFirstMatch("/about", 1);
    } else if i == 2 {
      ResolvesToFirstMatch("/service", 3);
    } else if i == 3 {
      ResolvesToFirstMatch("/projects", 4);
    } else {
      ResolvesToFirstMatch("/contact", 2);
    }
  }

  /** `MenuPosition` recovers each menu route's position. */
  lemma MenuRoutePosition(i: nat)
    requires i < |MenuRoutes|
    ensures MenuPosition(MenuRoutes[i]) == i
  {
  }

  /**
   * Every menu item starts with "/", reaches a page rather than the 404 route, and no
   * two items lead to the same page.
   */
  lemma MenuItemsRouted()
    ensures forall i :: 0 <= i < |MenuItems| ==> PathFor(MenuItems[i])[0] == '/' && Routed(PathFor(MenuItems[i]))
    ensures forall i, j :: 0 <= i < j < |MenuItems| ==>
      PathFor(MenuItems[i]) != PathFor(MenuItems[j]) && Resolve(PathFor(MenuItems[i])) != Resolve(PathFor(MenuItems[j]))
  {
    forall i | 0 <= i < |MenuItems|
      ensures Routed(PathFor(MenuItems[i]))
      ensures MenuPosition(Resolve(PathFor(MenuItems[i]))) == i
    {
      MenuItemRoute(i);
      MenuRoutePosition(i);
    }
  }

  /** The navbar's own state: the current location and whether the mobile menu is open. */
  datatype NavState = NavState(location: string, open: bool)

  /** `open` starts out `false`. */
  function InitialAt(location: string): NavState {
    NavState(location, false)
  }

  /** The hamburger button, the logo link, and a click on the i-th desktop or mobile link. */
  datatype NavEvent = ToggleMenu | FollowLogo | FollowDesktop(i: nat) | FollowMobile(i: nat)

  /** The logo's `to`. */
  const LogoPath: string := "/"

  /**
   * The hamburger flips `open`; a link navigates to its target, and a mobile link also
   * closes the menu. The logo leads home and, having no click handler, leaves the menu
   * as it is. A click on a link that is not rendered changes nothing.
   */
  function Step(st: NavState, e: NavEvent): (r: NavState)
    ensures e.ToggleMenu? ==> r.open == !st.open && r.location == st.location
    ensures e.FollowLogo? ==> r.location == "/" && r.open == st.open
    ensures e.FollowDesktop? && e.i < |DesktopLinks()| ==>
      r.location == DesktopLinks()[e.i].to && r.open == st.open
    ensures e.FollowMobile? && e.i < |MobileLinks(st.open)| ==>
      r.location == MobileLinks(st.open)[e.i].to && !r.open
    ensures e.FollowMobile? && !st.open ==> r == st
  {
    match e
    case ToggleMenu => st.(open := !st.open)
    case FollowLogo => st.(location := LogoPath)
    case FollowDesktop(i) =>
      var links := DesktopLinks();
      if i < |links| then st.(location := links[i].to) else st
    case FollowMobile(i) =>
      var links := MobileLinks(st.open);
      if i < |links| then NavState(links[i].to, !links[i].closesMenu) else st
  }

  /** Pressing the hamburger twice leaves the menu as it was. */
  lemma ToggleTwice(st: NavState)
    ensures Step(Step(st, ToggleMenu), ToggleMenu) == st
  {
  }

  /** After following a mobile link the menu is closed and renders no links. */
  lemma MobileLinkCloses(st: NavState, i: nat)
    requires st.open && i < |MenuItems|
    ensures !Step(st, FollowMobile(i)).open
    ensures MobileLinks(Step(st, FollowMobile(i)).open) == []
    ensures Step(st, FollowMobile(i)).location == PathFor(MenuItems[i])
  {
  }

  /** Applies the events in order. */
  function Run(st: NavState, events: seq<NavEvent>): NavState
    decreases |events|
  {
    if |events| == 0 then st else Run(Step(st, events[0]), events[1..])
  }

  /** Every rendered link targets a routed page. */
  lemma LinksRouted(i: nat)
    requires i < |MenuItems|
    ensures Routed(DesktopLinks()[i].to)
    ensures Routed(MobileLinks(true)[i].to)
  {
    MenuItemRoute(i);
  }

  /** One navbar event keeps the location on a routed page. */
  lemma StepKeepsRouted(st: NavState, e: NavEvent)
    requires Routed(st.location)
    ensures Routed(Step(st, e).location)
  {
    match e {
      case ToggleMenu =>
      case FollowLogo =>
        MenuItemRoute(0);
      case FollowDesktop(i) =>
        if i < |MenuItems| {
          LinksRouted(i);
        }
      case FollowMobile(i) =>
        if st.open && i < |MenuItems| {
          LinksRouted(i);
        }
    }
  }

  /** Navigating only through the navbar (logo or menu links) never reaches the 404 route from a routed page. */
  lemma {:induction false} NavigationStaysRouted(st: NavState, events: seq<NavEvent>)
    requires Routed(st.location)
    ensures Routed(Run(st, events).location)
    decreases |events|
  {
    if |events| > 0 {
      StepKeepsRouted(st, events[0]);
      NavigationStaysRouted(Step(st, events[0]), events[1..]);
    }
  }

  /**
   * The navbar mounts with the menu closed; started on any menu target, every sequence
   * of navbar events stays on a routed page.
   */
  lemma StartedOnMenuTargetStaysRouted(i: nat, events: seq<NavEvent>)
    requires i < |MenuItems|
    ensures !InitialAt(PathFor(MenuItems[i])).open
    ensures Routed(Run(InitialAt(PathFor(MenuItems[i])), events).location)
  {
    MenuItemRoute(i);
    NavigationStaysRouted(InitialAt(PathFor(MenuItems[i])), events);
  }
}
