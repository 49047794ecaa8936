/** Route tracking: the current URL after each completed navigation, and one
    CSS class on the application root naming the section the URL is in. */
module RouteService {
  import opened Wrappers
  import opened Text

  const RouteClasses: set<string> := {"dashboard-route", "home-route", "products-route", "users-route"}

  /** `updateRouteClass`'s rule: dashboard wins over everything, home needs
      exactly `/home` or `/`, then products before users; no class otherwise. */
  function RouteClass(url: string): (r: Option<string>)
    ensures Contains(url, "/dashboard") ==> r == Some("dashboard-route")
    ensures r == Some("home-route") <==> !Contains(url, "/dashboard") && (url == "/home" || url == "/")
    ensures r == Some("products-route") <==>
      !Contains(url, "/dashboard") && url != "/home" && url != "/" && Contains(url, "/products")
    ensures r == Some("users-route") <==>
      !Contains(url, "/dashboard") && url != "/home" && url != "/" && !Contains(url, "/products") && Contains(url, "/users")
    ensures r.Some? ==> r.value in RouteClasses
  {
    if Contains(url, "/dashboard") then Some("dashboard-route")
    else if url == "/home" || url == "/" then Some("home-route")
    else if Contains(url, "/products") then Some("products-route")
    else if Contains(url, "/users") then Some("users-route")
    else None
  }

  /** The root's classes after `updateRouteClass`: the four route classes
      removed, the URL's added. */
  function WithRouteClass(classes: set<string>, url: string): (r: set<string>)
    ensures forall c :: c in classes && c !in RouteClasses ==> c in r
    ensures r * RouteClasses == (match RouteClass(url) case Some(c) => {c} case None => {})
  {
    classes - RouteClasses + (match RouteClass(url) case Some(c) => {c} case None => {})
  }

  /** So at most one route class is ever present, and none for a URL outside the four sections. */
  lemma AtMostOneRouteClass(classes: set<string>, url: string)
    ensures |WithRouteClass(classes, url) * RouteClasses| <= 1
    ensures RouteClass(url).None? ==> WithRouteClass(classes, url) * RouteClasses == {}
  {
  }

  /** `event.urlAfterRedirects || event.url`. */
  function NavigationUrl(urlAfterRedirects: string, url: string): (r: string)
    ensures urlAfterRedirects != "" ==> r == urlAfterRedirects
    ensures urlAfterRedirects == "" ==> r == url
  {
    if urlAfterRedirects != "" then urlAfterRedirects else url
  }

  class RouteService {
    /** The `app-root` element's classes; `None` when there is no such element. */
    var appRoot: Option<set<string>>
    var currentRoute: string
    /** Every route pushed to `currentRoute$`, oldest first. */
    var routes: seq<string>

    /** Tracking starts from the router's current URL. */
    constructor (routerUrl: string, appRoot: Option<set<string>>)
      ensures currentRoute == routerUrl && routes == ["", routerUrl]
      ensures this.appRoot == (match appRoot case Some(cs) => Some(WithRouteClass(cs, routerUrl)) case None => None)
    {
      this.appRoot := match appRoot case Some(cs) => Some(WithRouteClass(cs, routerUrl)) case None => None;
      currentRoute := routerUrl;
      routes := ["", routerUrl];
    }

    method UpdateRouteClass(url: string)
      modifies this
      ensures appRoot.None? <==> old(appRoot).None?
      ensures old(appRoot).None? ==> appRoot == old(appRoot)
      ensures old(appRoot).Some? ==> appRoot == Some(WithRouteClass(old(appRoot).value, url))
      ensures currentRoute == old(currentRoute) && routes == old(routes)
    {
      match appRoot {
        case None =>
          return;
        case Some(cs) =>
          var kept := cs - RouteClasses;
          match RouteClass(url) {
            case Some(c) =>
              kept := kept + {c};
              assert kept == WithRouteClass(cs, url);
            case None =>
              assert kept == WithRouteClass(cs, url);
          }
          appRoot := Some(kept);
      }
    }

    /** A `NavigationEnd` event. */
    method OnNavigationEnd(urlAfterRedirects: string, url: string)
      modifies this
      ensures currentRoute == NavigationUrl(urlAfterRedirects, url)
      ensures routes == old(routes) + [currentRoute]
      ensures old(appRoot).Some? ==> appRoot == Some(WithRouteClass(old(appRoot).value, currentRoute))
      ensures old(appRoot).None? ==> appRoot.None?
    {
      var u := if urlAfterRedirects != "" then urlAfterRedirects else url;
      UpdateRouteClass(u);
      currentRoute := u;
      routes := routes + [u];
    }

    function GetCurrentRoute(): (r: string)
      reads this
      ensures r == currentRoute
    {
      currentRoute
    }

    /** `isDashboard()`'s latest value. */
    function IsDashboard(): (r: bool)
      reads this
      ensures r <==> Contains(currentRoute, "/dashboard")
    {
      Contains(currentRoute, "/dashboard")
    }
  }
}
