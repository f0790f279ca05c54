/**
 * The sketch's web routes: `server.on("/", handleRoot)`,
 * `server.on("/status", handleStatus)` and `server.onNotFound(handleNotFound)`.
 * A request is dispatched on its path alone, the URL path with its query
 * string already removed by the web server library; the response is a status code
 * (sections 15.3.1 and 15.5.5 of RFC 9110), a content type and a body.
 */
module Http {
  import opened Wrappers
  import Status

  /** A response body: the dashboard page, kept opaque, or literal text. */
  datatype Body = DashboardPage | Text(text: string)

  datatype Response = Response(code: int, contentType: string, body: Body)

  /** The handlers the sketch registers for a path. */
  datatype Handler = Root | StatusHandler

  /** The route table, in registration order. */
  const Routes: seq<(string, Handler)> := [("/", Root), ("/status", StatusHandler)]

  /** The handler of the first route registered for `path`, if any. */
  function Lookup(routes: seq<(string, Handler)>, path: string): (r: Option<Handler>)
    ensures r.None? <==> forall i :: 0 <= i < |routes| ==> routes[i].0 != path
    ensures r.Some? ==> exists i :: 0 <= i < |routes| && routes[i] == (path, r.value)
                           && forall j :: 0 <= j < i ==> routes[j].0 != path
  {
    if routes == [] then None
    else if routes[0].0 == path then Some(routes[0].1)
    else
      var r := Lookup(routes[1..], path);
      assert forall i :: 1 <= i < |routes| ==> routes[i] == routes[1..][i - 1];
      r
  }

  /** `handleRoot` and `handleStatus`: both answer 200, the dashboard as HTML, the status as JSON. */
  function Invoke(h: Handler, occupied: bool): (r: Response)
    ensures r.code == 200
    ensures r.body == DashboardPage <==> h == Root
    ensures r.contentType == (if h == Root then "text/html" else "application/json")
    ensures h == StatusHandler ==> r.body == Text(Status.StatusJSON(occupied))
  {
    match h
    case Root => Response(200, "text/html", DashboardPage)
    case StatusHandler => Response(200, "application/json", Text(Status.StatusJSON(occupied)))
  }

  /** `handleNotFound`. */
  const NotFound: Response := Response(404, "text/plain", Text("Not found"))

  /**
   * The response to a request for `path` (without its query string) while
   * the slot's flag is `occupied`.
   */
  function Serve(path: string, occupied: bool): (r: Response)
    ensures path == "/" ==> r == Response(200, "text/html", DashboardPage)
    ensures path == "/status" ==> r == Response(200, "application/json", Text(Status.StatusJSON(occupied)))
    ensures path != "/" && path != "/status" ==> r == Response(404, "text/plain", Text("Not found"))
  {
    match Lookup(Routes, path)
    case Some(h) => Invoke(h, occupied)
    case None => NotFound
  }

  /** What the dashboard reads from /status is the occupancy the response was built from. */
  lemma ServeStatusSnapshot(occupied: bool)
    ensures var r := Serve("/status", occupied);
      r.body.Text? &&
      Status.ParseStatus(r.body.text)
        == Some(Status.Snapshot(Status.Slot1Field(occupied), Status.FreeSlots(occupied), Status.TotalSlots))
  {
    Status.StatusRoundTrip(occupied);
  }
}
