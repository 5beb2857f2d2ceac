/** Which routes appear in the navigation menu for the signed-in user. */
module Routes {
  import opened Text
  import Lists

  /** A route's navigation-relevant fields; a missing `requiredRoles` is
      `None`, a missing `hideFromNav` is false. */
  datatype RouteConfig = RouteConfig(path: string, name: string, requiredRoles: Option<seq<string>>, hideFromNav: bool)

  /** `hasAnyRole`: the user's role (from the token, `None` when absent)
      is one of the required ones. */
  function HasAnyRole(role: Option<string>, requiredRoles: seq<string>): (b: bool)
    ensures b <==> role.Some? && role.value != "" && role.value in requiredRoles
  {
    if role.None? || role.value == "" then false else role.value in requiredRoles
  }

  /** Requiring more roles never hides a route that was shown. */
  lemma MoreRolesNeverRevoke(role: Option<string>, required: seq<string>, extra: seq<string>)
    ensures HasAnyRole(role, required) ==> HasAnyRole(role, required + extra) && HasAnyRole(role, extra + required)
  {
  }

  /** The menu's test for one route. */
  predicate ShownInNav(role: Option<string>, route: RouteConfig) {
    if route.hideFromNav then false
    else if route.requiredRoles.None? || route.requiredRoles.value == [] then true
    else HasAnyRole(role, route.requiredRoles.value)
  }

  function Shown(role: Option<string>): RouteConfig -> bool {
    route => ShownInNav(role, route)
  }

  /** `useFilteredRoutes`: the shown routes, in order. */
  function FilteredRoutes(routes: seq<RouteConfig>, role: Option<string>): (r: seq<RouteConfig>)
    ensures Lists.SubsequenceOf(r, routes)
    ensures forall i :: 0 <= i < |r| ==>
      (!r[i].hideFromNav
       && (r[i].requiredRoles.None? || r[i].requiredRoles.value == [] || HasAnyRole(role, r[i].requiredRoles.value)))
    ensures forall x :: multiset(r)[x] == if ShownInNav(role, x) then multiset(routes)[x] else 0
  {
    Lists.FilterIsSubsequence(routes, Shown(role));
    Lists.FilterKeepsExactly(routes, Shown(role));
    Lists.Filter(routes, Shown(role))
  }

  /** A route is listed exactly when it is not hidden and is either open to
      everyone or open to the user's role. */
  lemma ListedIff(routes: seq<RouteConfig>, role: Option<string>, route: RouteConfig)
    ensures route in FilteredRoutes(routes, role) <==>
      route in routes && !route.hideFromNav
      && (route.requiredRoles.None? || route.requiredRoles.value == [] || HasAnyRole(role, route.requiredRoles.value))
  {
    var r := FilteredRoutes(routes, role);
    assert route in r <==> multiset(r)[route] > 0;
    assert route in routes <==> multiset(routes)[route] > 0;
  }
}
