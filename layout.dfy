/** The admin layout shell: the navbar title looked up from the route, and the sidebar/navbar state driven
    by window resizes, scrolls and the toggle button. */
module Layout {
  /** `routeTitles`, as written. */
  const routeTitles: map<string, string> := map[
    "/admin" := "Dashboard",
    "/admin/rents" := "Rents",
    "/admin/booking" := "Booking",
    "/admin/users" := "Users",
    "/admin/room" := "Room",
    "/admin/food" := "Food",
    "/admin/console" := "Console",
    "/admin/controller" := "Controller",
    "/admin/tv" := "TV",
    "/admin/transaction" := "Transaction",
    "/admin/analysis-report" := "Analysis & Report",
    "/admin/settings" := "Settings"
  ]

  const DefaultTitle: string := "Cosmic Admin"

  /** `routeTitles[path] || "Cosmic Admin"` over a given table: a listed route with a non-empty title gets
      that title, anything else the default. */
  function TitleIn(titles: map<string, string>, path: string): (t: string)
    ensures path in titles && titles[path] != "" ==> t == titles[path]
    ensures path !in titles || titles[path] == "" ==> t == DefaultTitle
    ensures t != ""
  {
    if path in titles && titles[path] != "" then titles[path] else DefaultTitle
  }

  /** `getPageTitle`, as written. */
  function PageTitle(path: string): string {
    TitleIn(routeTitles, path)
  }

  /** The sidebar's links, in menu order (the "Manage" and "Inventory" labels have no link). */
  const sidebarLinks: seq<string> := [
    "/admin", "/admin/rent", "/admin/booking", "/admin/users", "/admin/room", "/admin/food",
    "/admin/console", "/admin/controller", "/admin/tv", "/admin/transaction", "/admin/analysis-report",
    "/admin/settings"
  ]

  /** As written: the table's key is "/admin/rents" while the sidebar links to "/admin/rent", so the rent page
      is titled "Cosmic Admin". */
  lemma RentLinkGetsDefaultTitle()
    ensures sidebarLinks[1] == "/admin/rent" && sidebarLinks[1] !in routeTitles
    ensures PageTitle(sidebarLinks[1]) == DefaultTitle
  {
  }

  /** The table keyed by the routes the sidebar links to. */
  const correctedRouteTitles: map<string, string> := routeTitles - {"/admin/rents"} + map["/admin/rent" := "Rents"]

  /** `getPageTitle` over the corrected table. */
  function CorrectedPageTitle(path: string): string {
    TitleIn(correctedRouteTitles, path)
  }

  /** With the corrected table every sidebar link gets a title of its own, the rent page gets "Rents", and
      every other route keeps the title it had. */
  lemma EverySidebarLinkHasItsTitle()
    ensures forall i :: 0 <= i < |sidebarLinks| ==> sidebarLinks[i] in correctedRouteTitles
    ensures forall i :: 0 <= i < |sidebarLinks| ==> CorrectedPageTitle(sidebarLinks[i]) != DefaultTitle
    ensures CorrectedPageTitle("/admin/rent") == "Rents"
    ensures forall path :: path != "/admin/rent" && path != "/admin/rents" ==> CorrectedPageTitle(path) == PageTitle(path)
  {
    assert forall k | k in correctedRouteTitles :: correctedRouteTitles[k] != "" && correctedRouteTitles[k] != DefaultTitle;
  }

  /** The width below which the layout is in mobile mode. */
  const MobileBreakpoint: int := 768

  /** The scroll offset up to which the navbar always shows on mobile. */
  const ScrollThreshold: int := 50

  /** The layout's state, updated in place by the window handlers and the toggle button. */
  class LayoutShell {
    var sidebarOpen: bool
    var isMobile: bool
    var navbarVisible: bool
    var lastScrollY: int

    /** First render: sidebar open, desktop, navbar visible, no scroll seen. */
    constructor()
      ensures sidebarOpen && !isMobile && navbarVisible && lastScrollY == 0
    {
      sidebarOpen := true;
      isMobile := false;
      navbarVisible := true;
      lastScrollY := 0;
    }

    /** `handleResize(innerWidth)`: mobile below the breakpoint, and the sidebar open exactly on desktop. */
    method HandleResize(width: int)
      modifies this
      ensures isMobile <==> width < MobileBreakpoint
      ensures sidebarOpen == !isMobile
      ensures navbarVisible == old(navbarVisible) && lastScrollY == old(lastScrollY)
    {
      var mobile := width < MobileBreakpoint;
      isMobile := mobile;
      if mobile {
        sidebarOpen := false;
      } else {
        sidebarOpen := true;
      }
    }

    /** `handleScroll(scrollY)`: ignored on desktop; on mobile the navbar hides when scrolling down past the
        threshold, shows otherwise, and the offset is remembered. */
    method HandleScroll(scrollY: int)
      modifies this
      ensures !old(isMobile) ==> navbarVisible == old(navbarVisible) && lastScrollY == old(lastScrollY)
      ensures old(isMobile) ==> lastScrollY == scrollY
      ensures old(isMobile) ==> (navbarVisible <==> scrollY <= ScrollThreshold || scrollY <= old(lastScrollY))
      ensures sidebarOpen == old(sidebarOpen) && isMobile == old(isMobile)
    {
      if !isMobile {
        return;
      }
      if scrollY > ScrollThreshold {
        if scrollY > lastScrollY {
          navbarVisible := false;
        } else {
          navbarVisible := true;
        }
      } else {
        navbarVisible := true;
      }
      lastScrollY := scrollY;
    }

    /** `toggleSidebar`: the sidebar flips and nothing else changes. */
    method ToggleSidebar()
      modifies this
      ensures sidebarOpen == !old(sidebarOpen)
      ensures isMobile == old(isMobile) && navbarVisible == old(navbarVisible) && lastScrollY == old(lastScrollY)
    {
      sidebarOpen := !sidebarOpen;
    }
  }

  /** The navbar rule of a mobile scroll, as a function of the new and the last offset. */
  function NavbarAfterScroll(scrollY: int, lastScrollY: int): (visible: bool)
    ensures scrollY <= ScrollThreshold ==> visible
    ensures scrollY > ScrollThreshold ==> (visible <==> scrollY <= lastScrollY)
  {
    if scrollY > ScrollThreshold then scrollY <= lastScrollY else true
  }

  /** Toggling twice restores the sidebar; scrolling on desktop changes nothing. */
  method ToggleTwiceRestores(shell: LayoutShell)
    modifies shell
    ensures shell.sidebarOpen == old(shell.sidebarOpen)
    ensures shell.isMobile == old(shell.isMobile) && shell.navbarVisible == old(shell.navbarVisible)
    ensures shell.lastScrollY == old(shell.lastScrollY)
  {
    shell.ToggleSidebar();
    shell.ToggleSidebar();
  }

  /** A mobile scroll sets the navbar by NavbarAfterScroll, from the offset seen last. */
  method ScrollFollowsRule(shell: LayoutShell, scrollY: int)
    requires shell.isMobile
    modifies shell
    ensures shell.navbarVisible == NavbarAfterScroll(scrollY, old(shell.lastScrollY))
    ensures shell.lastScrollY == scrollY
  {
    shell.HandleScroll(scrollY);
  }
}
