/**
 * The search rule shared by the schedule-management page and the public
 * transport-schedule page: a case-insensitive substring match over route
 * number, route name and details, and an optional exact route filter.
 */
module RouteSearch {
  import opened Text

  /** `searchTerm` (lowered) occurs in the lowered route number, route name or details. */
  predicate MatchesSearch(routeNo: string, routeName: string, details: string, searchTerm: string)
  {
    var q := Lower(searchTerm);
    Includes(Lower(routeNo), q) || Includes(Lower(routeName), q) || Includes(Lower(details), q)
  }

  /** An empty filter (falsy in JavaScript) admits every route; otherwise the route number must equal it. */
  predicate MatchesFilter(routeNo: string, filterRoute: string)
  {
    filterRoute == "" || routeNo == filterRoute
  }

  /** The empty search term and the empty filter admit every route. */
  lemma EmptyQueryMatches(routeNo: string, routeName: string, details: string)
    ensures MatchesSearch(routeNo, routeName, details, "")
    ensures MatchesFilter(routeNo, "")
  {
    IncludesEmpty(Lower(routeNo));
  }

  /** A match of the search means one of the three lowered fields contains the lowered term. */
  lemma SearchHitOccurs(routeNo: string, routeName: string, details: string, searchTerm: string)
    requires MatchesSearch(routeNo, routeName, details, searchTerm)
    ensures exists i :: OccursAt(Lower(routeNo), Lower(searchTerm), i)
                     || OccursAt(Lower(routeName), Lower(searchTerm), i)
                     || OccursAt(Lower(details), Lower(searchTerm), i)
  {
    var q := Lower(searchTerm);
    IncludesIffOccurs(Lower(routeNo), q);
    IncludesIffOccurs(Lower(routeName), q);
    IncludesIffOccurs(Lower(details), q);
  }
}
