/**
 * The public transport-schedule page: a constant table of routes, the
 * route-number drop-down built from it and the search/filter view of it.
 */
module TransportSchedule {
  import opened Seqs
  import opened Geo
  import opened RouteSearch
  import opened Text

  /** One row of `routesData`; on this page the times are single display strings. */
  datatype Route = Route(
    routeNo: string,
    routeName: string,
    startTime: string,
    departureTime: string,
    details: string,
    coordinates: seq<Point>)

  /** `routesData`, the table the page shows. */
  const RoutesData: seq<Route> := [
    Route("Route 01", "Dhanmondi <> DSC ", "07:30 AM - 10:30 AM - 2.30 PM", "1:30 PM - 05:30 PM",
          "Dhanmondi - Sobhanbag <> Shyamoli Square <> Technical Mor > Majar Road Gabtoli <> Konabari Bus Stop <> Eastern Housing<> Rupnagar <> Birulia Bus Stand <> Daffodil Smart City",
          [Point(23.874, 90.320), Point(23.870, 90.325), Point(23.860, 90.330), Point(23.855, 90.340), Point(23.750, 90.380)]),
    Route("Route 02", "Uttara Route", "08:00 AM", "06:00 PM", "DIU Campus to Uttara via Mirpur",
          [Point(23.874, 90.320), Point(23.880, 90.350), Point(23.890, 90.370)]),
    Route("Route 03", "Bashundhara Route", "09:00 AM", "07:00 PM", "DIU Campus to Bashundhara via Kuril",
          [Point(23.874, 90.320), Point(23.870, 90.335), Point(23.865, 90.345)])
  ]

  /** The route passes the search box and the route drop-down. */
  function Matches(searchTerm: string, filterRoute: string): Route -> bool
  {
    (r: Route) => MatchesSearch(r.routeNo, r.routeName, r.details, searchTerm)
                  && MatchesFilter(r.routeNo, filterRoute)
  }

  /** `filteredRoutes`: the routes that match, in table order. */
  function FilteredRoutes(routes: seq<Route>, searchTerm: string, filterRoute: string): (r: seq<Route>)
    ensures IsSubseq(r, routes)
    ensures forall x :: x in r ==> x in routes && MatchesSearch(x.routeNo, x.routeName, x.details, searchTerm)
    ensures filterRoute != "" ==> forall x :: x in r ==> x.routeNo == filterRoute
    ensures forall x :: x in routes && Matches(searchTerm, filterRoute)(x) ==> multiset(r)[x] == multiset(routes)[x]
  {
    FilterIsSubseq(routes, Matches(searchTerm, filterRoute));
    Filter(routes, Matches(searchTerm, filterRoute))
  }

  /** An empty search term and no route filter list every route: every string includes `""`. */
  lemma EmptyQueryShowsAllRoutes(routes: seq<Route>)
    ensures FilteredRoutes(routes, "", "") == routes
  {
    forall i | 0 <= i < |routes| ensures Matches("", "")(routes[i]) {
      EmptyQueryMatches(routes[i].routeNo, routes[i].routeName, routes[i].details);
    }
    FilterAll(routes, Matches("", ""));
  }

  /** A non-empty search term selects only routes in which it occurs, ignoring ASCII case. */
  lemma SearchResultsContainTerm(routes: seq<Route>, searchTerm: string, filterRoute: string, x: Route)
    requires x in FilteredRoutes(routes, searchTerm, filterRoute)
    ensures exists i :: OccursAt(Lower(x.routeNo), Lower(searchTerm), i)
                     || OccursAt(Lower(x.routeName), Lower(searchTerm), i)
                     || OccursAt(Lower(x.details), Lower(searchTerm), i)
  {
    SearchHitOccurs(x.routeNo, x.routeName, x.details, searchTerm);
  }

  /** `routesData.map(r => r.routeNo)`. */
  function RouteNos(routes: seq<Route>): (r: seq<string>)
    ensures |r| == |routes| && forall i :: 0 <= i < |routes| ==> r[i] == routes[i].routeNo
  {
    seq(|routes|, i requires 0 <= i < |routes| => routes[i].routeNo)
  }

  /** `routeNumbers`: each route number once, in order of first appearance. */
  function RouteNumbers(routes: seq<Route>): (r: seq<string>)
    ensures Distinct(r)
    ensures IsSubseq(r, RouteNos(routes))
    ensures forall n :: n in r ==> n in RouteNos(routes)
    ensures forall i :: 0 <= i < |routes| ==> routes[i].routeNo in r
    ensures forall i, j :: 0 <= i < j < |r| ==> FirstIndex(RouteNos(routes), r[i]) < FirstIndex(RouteNos(routes), r[j])
  {
    DedupFirstOccurrenceOrder(RouteNos(routes));
    DedupIsSubseq(RouteNos(routes));
    Dedup(RouteNos(routes))
  }

  /** The route has route number `n`. */
  function HasRouteNo(n: string): Route -> bool
  {
    (r: Route) => r.routeNo == n
  }

  /** With an empty search box, choosing a route number lists exactly the routes with that number. */
  lemma EmptySearchSelectsRoute(routes: seq<Route>, filterRoute: string)
    requires filterRoute != ""
    ensures FilteredRoutes(routes, "", filterRoute) == Filter(routes, HasRouteNo(filterRoute))
  {
    forall i | 0 <= i < |routes|
      ensures Matches("", filterRoute)(routes[i]) == HasRouteNo(filterRoute)(routes[i])
    {
      EmptyQueryMatches(routes[i].routeNo, routes[i].routeName, routes[i].details);
    }
    FilterCongruent(routes, Matches("", filterRoute), HasRouteNo(filterRoute));
  }

  /** The drop-down of the shipped table lists its three route numbers in table order. */
  lemma RoutesDataRouteNumbers()
    ensures RouteNumbers(RoutesData) == ["Route 01", "Route 02", "Route 03"]
  {
    var nos := RouteNos(RoutesData);
    assert nos == ["Route 01", "Route 02", "Route 03"];
    DedupOfDistinct(nos);
  }
}
