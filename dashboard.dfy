/**
 * The dashboard shell: which sidebar tab a URL path selects, the sidebar
 * that follows the mouse, the dark-mode switch and the one-shot request
 * for the user's position.
 */
module Dashboard {
  import opened Wrappers
  import opened Strings

  datatype Tab = OverviewTab | ReportTab | RiskTab | NotificationsTab

  /** One entry of the sidebar's `tabs` table. */
  datatype TabEntry = TabEntry(id: Tab, caption: string, path: string)

  const Tabs: seq<TabEntry> := [
    TabEntry(OverviewTab, "Overview", "/dashboard"),
    TabEntry(ReportTab, "Report Fire", "/dashboard/report"),
    TabEntry(RiskTab, "Risk Assessment", "/dashboard/risk"),
    TabEntry(NotificationsTab, "Alerts", "/dashboard/notifications")
  ]

  /** The dashboard root, with or without its trailing slash. */
  predicate IsRoot(path: string) {
    path == "/dashboard" || path == "/dashboard/"
  }

  /**
   * `getCurrentTab`: the root is the overview; otherwise the first of
   * `/report`, `/risk`, `/notifications` that the path contains decides;
   * any other path falls back to the overview.
   */
  function GetCurrentTab(path: string): (t: Tab)
    ensures IsRoot(path) ==> t == OverviewTab
    ensures t == ReportTab ==> Contains(path, "/report")
    ensures t == RiskTab ==> Contains(path, "/risk") && !Contains(path, "/report")
    ensures t == NotificationsTab ==> Contains(path, "/notifications") && !Contains(path, "/report") && !Contains(path, "/risk")
  {
    if IsRoot(path) then OverviewTab
    else if Contains(path, "/report") then ReportTab
    else if Contains(path, "/risk") then RiskTab
    else if Contains(path, "/notifications") then NotificationsTab
    else OverviewTab
  }

  /** A report path is the report tab even when it also mentions risk or notifications. */
  lemma ReportTakesPriority(path: string)
    requires !IsRoot(path) && Contains(path, "/report")
    ensures GetCurrentTab(path) == ReportTab
  {
  }

  /** `/risk` is checked before `/notifications`. */
  lemma RiskBeforeNotifications(path: string)
    requires !IsRoot(path) && !Contains(path, "/report") && Contains(path, "/risk")
    ensures GetCurrentTab(path) == RiskTab
  {
  }

  /** Without `/report` or `/risk`, a path that mentions `/notifications` is the alerts tab. */
  lemma NotificationsAfterEarlierMarkers(path: string)
    requires !IsRoot(path) && !Contains(path, "/report") && !Contains(path, "/risk")
    requires Contains(path, "/notifications")
    ensures GetCurrentTab(path) == NotificationsTab
  {
  }

  /** A path that mentions none of the three markers shows the overview. */
  lemma UnknownPathIsOverview(path: string)
    requires !Contains(path, "/report") && !Contains(path, "/risk") && !Contains(path, "/notifications")
    ensures GetCurrentTab(path) == OverviewTab
  {
  }

  // The lemmas below are stated for a `path` equal to a tab's literal path
  // rather than for the literal itself: given a literal argument, the
  // verifier unfolds `Contains` on it without bound.

  lemma ReportPathIsReport(path: string)
    requires path == "/dashboard/report"
    ensures GetCurrentTab(path) == ReportTab
  {
    assert path[10..17] == "/report";
    OccursImpliesContains(path, "/report", 10);
  }

  lemma RiskPathMarkers(path: string)
    requires path == "/dashboard/risk"
    ensures !Contains(path, "/report")
    ensures Contains(path, "/risk")
  {
    assert 'p' !in path;
    MissingCharNotContained(path, "/report", 'p');
    assert path[10..15] == "/risk";
    OccursImpliesContains(path, "/risk", 10);
  }

  lemma RiskPathIsRisk(path: string)
    requires path == "/dashboard/risk"
    ensures GetCurrentTab(path) == RiskTab
  {
    RiskPathMarkers(path);
  }

  lemma NotificationsPathLetters(path: string)
    requires path == "/dashboard/notifications"
    ensures 'p' !in path && 'k' !in path
  {
  }

  lemma NotificationsPathLacksEarlierMarkers(path: string)
    requires path == "/dashboard/notifications"
    ensures !Contains(path, "/report") && !Contains(path, "/risk")
  {
    NotificationsPathLetters(path);
    MissingCharNotContained(path, "/report", 'p');
    MissingCharNotContained(path, "/risk", 'k');
  }

  lemma NotificationsPathHasMarker(path: string)
    requires path == "/dashboard/notifications"
    ensures Contains(path, "/notifications")
  {
    assert path[10..24] == "/notifications";
    OccursImpliesContains(path, "/notifications", 10);
  }

  lemma NotificationsPathIsNotifications(path: string)
    requires path == "/dashboard/notifications"
    ensures GetCurrentTab(path) == NotificationsTab
  {
    NotificationsPathLacksEarlierMarkers(path);
    NotificationsPathHasMarker(path);
  }

  /** Navigating to a tab's own path highlights that tab. */
  lemma {:induction false} TabPathsSelectTheirTab(i: int)
    requires 0 <= i < |Tabs|
    ensures GetCurrentTab(Tabs[i].path) == Tabs[i].id
  {
    if i == 1 {
      ReportPathIsReport(Tabs[i].path);
    } else if i == 2 {
      RiskPathIsRisk(Tabs[i].path);
    } else if i == 3 {
      NotificationsPathIsNotifications(Tabs[i].path);
    }
  }

  /** The shell's own state. */
  class DashboardState {
    var sidebarOpen: bool
    var darkMode: bool
    var locationFetched: bool
    var userLocation: Option<(real, real)>

    constructor ()
      ensures !sidebarOpen && !darkMode && !locationFetched && userLocation == None
    {
      sidebarOpen, darkMode, locationFetched, userLocation := false, false, false, None;
    }

    /** The effect's guard: a position is requested only while none has been fetched. */
    method LocationEffect(geolocationAvailable: bool) returns (requested: bool)
      ensures requested <==> geolocationAvailable && !locationFetched
    {
      requested := geolocationAvailable && !locationFetched;
    }

    /**
     * The success callback as written: it stores the position, then calls
     * `updateLocation`, which the auth context does not provide, so the call
     * throws before the flag is set.
     */
    method PositionReceivedAsWritten(latitude: real, longitude: real) returns (threw: bool)
      modifies this`userLocation
      ensures userLocation == Some((latitude, longitude))
      ensures threw && locationFetched == old(locationFetched)
    {
      userLocation := Some((latitude, longitude));
      threw := true;
    }

    /** The success callback as intended: store the position and close the guard. */
    method PositionReceived(latitude: real, longitude: real)
      modifies this`userLocation, this`locationFetched
      ensures userLocation == Some((latitude, longitude)) && locationFetched
    {
      userLocation := Some((latitude, longitude));
      locationFetched := true;
    }

    /** `onMouseMove`: the left edge opens the sidebar, past 240 pixels closes it, between leaves it. */
    method MouseMoved(clientX: real)
      modifies this`sidebarOpen
      ensures clientX < 40.0 ==> sidebarOpen
      ensures clientX > 240.0 ==> !sidebarOpen
      ensures 40.0 <= clientX <= 240.0 ==> sidebarOpen == old(sidebarOpen)
    {
      if clientX < 40.0 {
        sidebarOpen := true;
      } else if clientX > 240.0 {
        sidebarOpen := false;
      }
    }

    /** The dark-mode button. */
    method ToggleDarkMode()
      modifies this`darkMode
      ensures darkMode == !old(darkMode)
    {
      darkMode := !darkMode;
    }
  }

  /** Two presses of the dark-mode button restore the theme. */
  method ToggleTwiceRestores(d: DashboardState)
    modifies d
    ensures d.darkMode == old(d.darkMode)
  {
    d.ToggleDarkMode();
    d.ToggleDarkMode();
  }

  /**
   * As written: on a fresh mount with geolocation available the position is
   * requested; its success callback stores the position and then throws a
   * `TypeError` at the `updateLocation` call, so the flag stays false. The
   * dead flag has no further visible effect: within one mount the effect
   * never runs again (its only dependency, `updateLocation`, is always
   * undefined), and a remount re-creates the flag anyway. What can be
   * observed is the uncaught error after the position was stored.
   */
  method FirstPositionAsWritten(latitude: real, longitude: real)
    returns (requested: bool, threw: bool, stored: Option<(real, real)>, flagSet: bool)
    ensures requested && threw && !flagSet
    ensures stored == Some((latitude, longitude))
  {
    var d := new DashboardState();
    requested := d.LocationEffect(true);
    threw := d.PositionReceivedAsWritten(latitude, longitude);
    stored, flagSet := d.userLocation, d.locationFetched;
  }

  /**
   * As intended: the callback completes without an error, stores the
   * position and sets the flag, so the guard refuses any further request
   * in this mount (`requestedAgain`).
   */
  method FirstPositionAsIntended(latitude: real, longitude: real)
    returns (requested: bool, threw: bool, stored: Option<(real, real)>, flagSet: bool, requestedAgain: bool)
    ensures requested && !threw && flagSet && !requestedAgain
    ensures stored == Some((latitude, longitude))
  {
    var d := new DashboardState();
    requested := d.LocationEffect(true);
    d.PositionReceived(latitude, longitude);
    threw := false;
    stored, flagSet := d.userLocation, d.locationFetched;
    requestedAgain := d.LocationEffect(true);
  }
}
