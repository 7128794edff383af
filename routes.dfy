/**
 * The dashboard's navigation table (src/lib/routes.ts) and the sidebar's
 * active-entry rule (src/components/dashboard/sidebar-nav.tsx).
 */
module Routes {
  import opened Wrappers
  import Auth

  datatype Icon = HomeIcon | BriefcaseIcon | BarChartIcon | UserIcon | SettingsIcon | HelpCircleIcon

  datatype Route = Route(href: string, icon: Icon, title: string, description: Option<string>)

  /** `dashboardRoutes`. */
  const DashboardRoutes: seq<Route> := [
    Route("/home", HomeIcon, "Home", Some("Dashboard overview and summary")),
    Route("/jobs", BriefcaseIcon, "Jobs", Some("Track and manage your job applications")),
    Route("/analytics", BarChartIcon, "Analytics", Some("View statistics and insights")),
    Route("/profile", UserIcon, "Profile", Some("Manage your personal profile")),
    Route("/settings", SettingsIcon, "Settings", Some("Configure application settings")),
    Route("/help", HelpCircleIcon, "Help", Some("Find help and support resources"))
  ]

  /** The sidebar highlights an entry when the path equals its `href`. */
  predicate IsActive(pathname: string, route: Route) {
    pathname == route.href
  }

  /** Six entries, in the fixed order. */
  lemma TableShape()
    ensures |DashboardRoutes| == 6
    ensures seq(6, i requires 0 <= i < 6 => DashboardRoutes[i].title)
            == ["Home", "Jobs", "Analytics", "Profile", "Settings", "Help"]
  {
  }

  /** No two entries share an `href`. */
  lemma HrefsDistinct()
    ensures forall i, j :: 0 <= i < j < |DashboardRoutes| ==> DashboardRoutes[i].href != DashboardRoutes[j].href
  {
  }

  /** Every entry is a protected route. */
  lemma AllProtected()
    ensures forall i :: 0 <= i < |DashboardRoutes| ==> Auth.IsProtectedRoute(DashboardRoutes[i].href)
  {
    forall i | 0 <= i < |DashboardRoutes|
      ensures Auth.IsProtectedRoute(DashboardRoutes[i].href)
    {
      var h := DashboardRoutes[i].href;
      assert h != "/" && h[1] != 'a' ==> Auth.IsProtectedRoute(h);
      if i == 2 {
        assert h[..6] != "/auth/" by { assert h[2] == 'n'; }
      }
    }
  }

  /** At most one entry is active for any path. */
  lemma AtMostOneActive(pathname: string, i: int, j: int)
    requires 0 <= i < |DashboardRoutes| && 0 <= j < |DashboardRoutes|
    requires IsActive(pathname, DashboardRoutes[i]) && IsActive(pathname, DashboardRoutes[j])
    ensures i == j
  {
    HrefsDistinct();
  }
}
