/**
 * The root component (src/app/app.component.ts): after every completed navigation
 * it keeps the route of the current URL, the part before the query string, so the
 * title bar can hide itself on the login and register pages.
 */
module App {
  import opened Wrappers
  import opened Strings

  /** `url.split('?')[0]`: the URL up to its first `?`. */
  function CurrentRoute(url: string): (route: string)
    ensures route <= url
    ensures '?' !in route
    ensures |route| < |url| ==> url[|route|] == '?'
  {
    Split(url, '?')[0]
  }

  /** A URL without a query string is its own route. */
  lemma {:induction false} RouteWithoutQuery(url: string)
    requires '?' !in url
    ensures CurrentRoute(url) == url
  {
    SplitWithout(url, '?');
  }

  /** The URL is its route followed by nothing or by a suffix starting at the first `?`. */
  lemma RouteThenQuery(url: string)
    ensures url == CurrentRoute(url) + url[|CurrentRoute(url)|..]
    ensures var query := url[|CurrentRoute(url)|..]; query == [] || query[0] == '?'
    ensures forall i :: 0 <= i < |CurrentRoute(url)| ==> url[i] != '?'
  {
    var route := CurrentRoute(url);
    assert forall i :: 0 <= i < |route| ==> url[i] == route[i];
  }

  /** The route of a route followed by a query string is that route. */
  lemma {:induction false} RouteOfRouteAndQuery(route: string, query: string)
    requires '?' !in route
    ensures CurrentRoute(route + "?" + query) == route
  {
    SplitAround(route, '?', query);
  }

  class AppComponent {
    var currentRoute: string
    /** The login status; `isLoggedIn` is not part of this model, its answers arrive as inputs. */
    var loggedIn: Option<bool>

    constructor ()
      ensures currentRoute == "" && loggedIn == None
    {
      currentRoute := "";
      loggedIn := None;
    }

    /** A NavigationEnd event: the route of the router's URL becomes the current route. */
    method OnNavigationEnd(url: string)
      modifies this
      ensures currentRoute == CurrentRoute(url)
      ensures '?' !in currentRoute && currentRoute <= url
      ensures loggedIn == old(loggedIn)
    {
      currentRoute := CurrentRoute(url);
    }

    /** An answer of the login-status stream. */
    method OnLoginStatus(res: bool)
      modifies this
      ensures loggedIn == Some(res) && currentRoute == old(currentRoute)
    {
      loggedIn := Some(res);
    }
  }
}
