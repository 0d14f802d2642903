/**
 * The interpretation of a Mapbox Directions reply in rides/utils.py
 * (`get_distance_and_duration`). The HTTP request itself is not modelled:
 * its outcome is an input.
 */
module Directions {
  import opened Wrappers

  /** A route object of the reply; a key that is absent (or null) is None. */
  datatype Route = Route(distance: Option<real>, duration: Option<real>)

  /** The decoded JSON body, or a body `response.json()` could not decode. */
  datatype Body = Undecodable | Object(code: Option<string>, routes: Option<seq<Route>>)

  /** What the request produced: an exception, or a response with its status code. */
  datatype Fetch = Raised | Response(statusCode: int, body: Body)

  /** Distance in kilometres and duration in minutes. */
  datatype Metrics = Metrics(distanceKm: real, durationMin: real)

  /** Status 200, code "Ok", a non-empty route list whose first route has both numbers. */
  predicate IsUsableReply(fetch: Fetch) {
    && fetch.Response?
    && fetch.statusCode == 200
    && fetch.body.Object?
    && fetch.body.code == Some("Ok")
    && fetch.body.routes.Some? && fetch.body.routes.value != []
    && fetch.body.routes.value[0].distance.Some?
    && fetch.body.routes.value[0].duration.Some?
  }

  /** The first (best) route of a usable reply. */
  function FirstRoute(fetch: Fetch): Route
    requires IsUsableReply(fetch)
  {
    fetch.body.routes.value[0]
  }

  /**
   * get_distance_and_duration: None for a missing or empty access token, an
   * exception, an undecodable body, a status other than 200, a code other than
   * "Ok", no routes, or a first route lacking distance or duration; otherwise
   * metres become kilometres and seconds become minutes.
   */
  function DistanceAndDuration(token: Option<string>, fetch: Fetch): (r: Option<Metrics>)
    ensures token.None? || token == Some("") ==> r.None?
    ensures fetch.Raised? || (fetch.Response? && fetch.body.Undecodable?) ==> r.None?
    ensures fetch.Response? && (fetch.statusCode != 200 || (fetch.body.Object? && fetch.body.code != Some("Ok"))) ==> r.None?
    ensures fetch.Response? && fetch.body.Object? && (fetch.body.routes.None? || fetch.body.routes == Some([])) ==> r.None?
    ensures r.Some? <==> token.Some? && token.value != "" && IsUsableReply(fetch)
    ensures r.Some? ==> r.value.distanceKm * 1000.0 == FirstRoute(fetch).distance.value
    ensures r.Some? ==> r.value.durationMin * 60.0 == FirstRoute(fetch).duration.value
  {
    if token.None? || token.value == "" then None
    else match fetch
      case Raised => None
      case Response(status, body) =>
        match body
        case Undecodable => None
        case Object(code, routes) =>
          if status == 200 && code == Some("Ok") then
            if routes.None? || routes.value == [] then None
            else
              var route := routes.value[0];
              if route.duration.None? || route.distance.None? then None
              else Some(Metrics(route.distance.value / 1000.0, route.duration.value / 60.0))
          else None
  }

  /** The reply Mapbox gives for a single route of the given length and travel time. */
  function SingleRouteReply(m: Metrics): Fetch {
    Response(200, Object(Some("Ok"), Some([Route(Some(m.distanceKm * 1000.0), Some(m.durationMin * 60.0))])))
  }

  /** Decoding a single-route reply gives back the metrics it was made from. */
  lemma DecodeSingleRouteReply(token: string, m: Metrics)
    requires token != ""
    ensures DistanceAndDuration(Some(token), SingleRouteReply(m)) == Some(m)
  {
  }

  /** Only the first route counts: routes after it never change the result. */
  lemma LaterRoutesIgnored(token: Option<string>, status: int, code: Option<string>, first: Route, rest: seq<Route>)
    ensures DistanceAndDuration(token, Response(status, Object(code, Some([first] + rest))))
         == DistanceAndDuration(token, Response(status, Object(code, Some([first]))))
  {
  }
}
