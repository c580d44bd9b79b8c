/** The outgoing side of the client: the access key, the six fixed
    endpoints, and the flat parameter map each public method sends. */
module Requests {
  import opened Common
  import opened Text

  /** The demo key a client falls back to when none is given. */
  const DefaultKey: string := "MW9S-E7SL-26DU-VV8V"

  /** A client is its access key, fixed for the client's lifetime. A
      client built with `key=None` has none, and then sends none. */
  datatype Client = Client(key: Option<string>)

  const DefaultClient: Client := Client(Some(DefaultKey))

  /** The six base URLs, one per functional category of the API. */
  datatype Endpoint = Advisories | Estimates | Routes | Schedules | Stations | VersionInfo

  /** The host and path every endpoint shares. */
  const ApiRoot: string := "https://api.bart.gov/api/"

  /** Every endpoint is an `.aspx` page under the API root. */
  function Url(e: Endpoint): (r: string)
    ensures |r| > |ApiRoot| + 5 && r[..|ApiRoot|] == ApiRoot && r[|r| - 5..] == ".aspx"
  {
    match e
    case Advisories => "https://api.bart.gov/api/bsa.aspx"
    case Estimates => "https://api.bart.gov/api/etd.aspx"
    case Routes => "https://api.bart.gov/api/route.aspx"
    case Schedules => "https://api.bart.gov/api/sched.aspx"
    case Stations => "https://api.bart.gov/api/stn.aspx"
    case VersionInfo => "https://api.bart.gov/api/version.aspx"
  }

  /** A parameter the caller may pass either as a number or as text
      (a platform, a trip count, a route or schedule number). */
  datatype Scalar = Int(i: int) | Str(s: string)

  /** Python's `str()` of such a parameter, which is how it ends up in the
      query string and how `etd` compares a platform. */
  function Render(v: Scalar): (r: string)
    ensures v.Int? ==> DecimalToInt(r) == Some(v.i)
    ensures v.Str? ==> r == v.s
  {
    match v
    case Int(i) =>
      IntDecimalRoundTrip(i);
      IntToDecimal(i)
    case Str(s) => s
  }

  function RenderOpt(v: Option<Scalar>): Option<string>
  {
    match v
    case None => None
    case Some(x) => Some(Render(x))
  }

  /** The parameter map a method builds; `None` marks a parameter the
      caller left out. */
  type Payload = map<string, Option<string>>

  datatype Request = Request(endpoint: Endpoint, payload: Payload)

  /** The three entries every payload has: the command, the client's key
      and the JSON format flag. */
  ghost predicate Carries(p: Payload, cmd: string, key: Option<string>)
  {
    && "cmd" in p && p["cmd"] == Some(cmd)
    && "key" in p && p["key"] == key
    && "json" in p && p["json"] == Some("y")
  }

  /** The pairs that reach the query string: the transport omits every
      parameter whose value is `None`. */
  function Sent(p: Payload): (q: map<string, string>)
    ensures forall k :: k in q <==> k in p && p[k].Some?
    ensures forall k :: k in q ==> p[k] == Some(q[k])
  {
    map k | k in p && p[k].Some? :: p[k].value
  }

  /** A payload with nothing but the three fixed entries. */
  function Base(c: Client, cmd: string): (p: Payload)
    ensures Carries(p, cmd, c.key)
    ensures p.Keys == {"cmd", "key", "json"}
  {
    map["cmd" := Some(cmd), "key" := c.key, "json" := Some("y")]
  }

  /** The filters `etd` works with: a platform wins over a direction, so
      the direction is dropped when both are given. */
  datatype EtdFilter = EtdFilter(plat: Option<Scalar>, direction: Option<string>)

  function PreferPlatform(plat: Option<Scalar>, direction: Option<string>): (f: EtdFilter)
    ensures f.plat == plat
    ensures f.direction.Some? <==> plat.None? && direction.Some?
    ensures f.direction.Some? ==> f.direction == direction
  {
    if plat.Some? && direction.Some? then EtdFilter(plat, None) else EtdFilter(plat, direction)
  }

  // ----- Advisories -----

  function BsaRequest(c: Client, orig: Option<string>): (r: Request)
    ensures r.endpoint == Advisories && Carries(r.payload, "bsa", c.key)
    ensures r.payload.Keys == {"cmd", "key", "orig", "json"} && r.payload["orig"] == orig
  {
    Request(Advisories, Base(c, "bsa")["orig" := orig])
  }

  /** Every help method sends the same payload to its own category. */
  function HelpRequest(c: Client, e: Endpoint): (r: Request)
    ensures r.endpoint == e && Carries(r.payload, "help", c.key)
    ensures r.payload.Keys == {"cmd", "key", "json"}
  {
    Request(e, Base(c, "help"))
  }

  /** A method whose only parameter is its command. */
  function BareRequest(c: Client, e: Endpoint, cmd: string): (r: Request)
    ensures r.endpoint == e && Carries(r.payload, cmd, c.key)
    ensures r.payload.Keys == {"cmd", "key", "json"}
  {
    Request(e, Base(c, cmd))
  }

  // ----- Real-time estimates -----

  function EtdRequest(c: Client, orig: string, plat: Option<Scalar>, direction: Option<string>): (r: Request)
    ensures r.endpoint == Estimates && Carries(r.payload, "etd", c.key)
    ensures r.payload.Keys == {"cmd", "key", "orig", "plat", "dir", "json"}
    ensures r.payload["orig"] == Some(orig) && r.payload["plat"] == RenderOpt(plat)
    ensures plat.Some? ==> r.payload["dir"] == None
    ensures plat.None? ==> r.payload["dir"] == direction
  {
    var f := PreferPlatform(plat, direction);
    Request(Estimates, Base(c, "etd")["orig" := Some(orig)]["plat" := RenderOpt(f.plat)]["dir" := f.direction])
  }

  // ----- Route information -----

  function RouteInfoRequest(c: Client, route: Scalar, sched: Option<Scalar>, date: Option<string>): (r: Request)
    ensures r.endpoint == Routes && Carries(r.payload, "routeinfo", c.key)
    ensures r.payload.Keys == {"cmd", "key", "route", "sched", "date", "json"}
    ensures r.payload["route"] == Some(Render(route)) && r.payload["sched"] == RenderOpt(sched)
    ensures r.payload["date"] == date
  {
    Request(Routes, Base(c, "routeinfo")["route" := Some(Render(route))]["sched" := RenderOpt(sched)]["date" := date])
  }

  function RoutesRequest(c: Client, sched: Option<Scalar>, date: Option<string>): (r: Request)
    ensures r.endpoint == Routes && Carries(r.payload, "routes", c.key)
    ensures r.payload.Keys == {"cmd", "key", "sched", "date", "json"}
    ensures r.payload["sched"] == RenderOpt(sched) && r.payload["date"] == date
  {
    Request(Routes, Base(c, "routes")["sched" := RenderOpt(sched)]["date" := date])
  }

  // ----- Schedule information -----

  /** `arrive` with its internal `command` argument, which `depart` sets. */
  function TripRequest(c: Client, cmd: string, orig: string, dest: string, time: Option<string>,
                       date: Option<string>, before: Option<Scalar>, after: Option<Scalar>): (r: Request)
    ensures r.endpoint == Schedules && Carries(r.payload, cmd, c.key)
    ensures r.payload.Keys == {"cmd", "key", "orig", "dest", "time", "date", "b", "a", "json"}
    ensures r.payload["orig"] == Some(orig) && r.payload["dest"] == Some(dest)
    ensures r.payload["time"] == time && r.payload["date"] == date
    ensures r.payload["b"] == RenderOpt(before) && r.payload["a"] == RenderOpt(after)
  {
    var p := Base(c, cmd)["orig" := Some(orig)]["dest" := Some(dest)]["time" := time]["date" := date];
    Request(Schedules, p["b" := RenderOpt(before)]["a" := RenderOpt(after)])
  }

  function FareRequest(c: Client, orig: string, dest: string, date: Option<string>, sched: Option<Scalar>): (r: Request)
    ensures r.endpoint == Schedules && Carries(r.payload, "fare", c.key)
    ensures r.payload.Keys == {"cmd", "key", "orig", "dest", "date", "json"}
    ensures r.payload["orig"] == Some(orig) && r.payload["dest"] == Some(dest) && r.payload["date"] == date
  {
    Request(Schedules, Base(c, "fare")["orig" := Some(orig)]["dest" := Some(dest)]["date" := date])
  }

  function RouteSchedRequest(c: Client, route: Scalar, date: Option<string>, time: Option<string>, sched: Option<Scalar>): (r: Request)
    ensures r.endpoint == Schedules && Carries(r.payload, "routesched", c.key)
    ensures r.payload.Keys == {"cmd", "key", "route", "time", "date", "sched", "json"}
    ensures r.payload["route"] == Some(Render(route)) && r.payload["time"] == time
    ensures r.payload["date"] == date && r.payload["sched"] == RenderOpt(sched)
  {
    Request(Schedules, Base(c, "routesched")["route" := Some(Render(route))]["time" := time]["date" := date]["sched" := RenderOpt(sched)])
  }

  function StnSchedRequest(c: Client, orig: string, date: Option<string>): (r: Request)
    ensures r.endpoint == Schedules && Carries(r.payload, "stnsched", c.key)
    ensures r.payload.Keys == {"cmd", "key", "orig", "date", "json"}
    ensures r.payload["orig"] == Some(orig) && r.payload["date"] == date
  {
    Request(Schedules, Base(c, "stnsched")["orig" := Some(orig)]["date" := date])
  }

  // ----- Station information -----

  /** `stninfo` and `stnaccess`: a station code and nothing else. */
  function StationRequest(c: Client, cmd: string, orig: string): (r: Request)
    ensures r.endpoint == Stations && Carries(r.payload, cmd, c.key)
    ensures r.payload.Keys == {"cmd", "key", "orig", "json"} && r.payload["orig"] == Some(orig)
  {
    Request(Stations, Base(c, cmd)["orig" := Some(orig)])
  }

  // ----- Every public method -----

  /** One public method of the client together with its arguments. The
      argument of `bsa` is its `orig`; it is named `station` here because
      `orig` is a `string` field of the other constructors. */
  datatype Call =
    | Bsa(station: Option<string>)
    | TrainCount
    | Elev
    | ElevHelp
    | Etd(orig: string, plat: Option<Scalar>, direction: Option<string>)
    | EtdHelp
    | RouteInfo(route: Scalar, sched: Option<Scalar>, date: Option<string>)
    | RoutesList(sched: Option<Scalar>, date: Option<string>)
    | RouteHelp
    | Arrive(orig: string, dest: string, time: Option<string>, date: Option<string>, before: Option<Scalar>, after: Option<Scalar>)
    | Depart(orig: string, dest: string, time: Option<string>, date: Option<string>, before: Option<Scalar>, after: Option<Scalar>)
    | Fare(orig: string, dest: string, date: Option<string>, sched: Option<Scalar>)
    | Holiday
    | RouteSched(route: Scalar, date: Option<string>, time: Option<string>, sched: Option<Scalar>)
    | Scheds
    | Special
    | StnSched(orig: string, date: Option<string>)
    | SchedHelp
    | StnHelp
    | StnInfo(orig: string)
    | StnAccess(orig: string)
    | Stns
    | Version

  /** The request a call issues. */
  function RequestOf(c: Client, call: Call): Request
  {
    match call
    case Bsa(station) => BsaRequest(c, station)
    case TrainCount => BareRequest(c, Advisories, "count")
    case Elev => BareRequest(c, Advisories, "elev")
    case ElevHelp => HelpRequest(c, Advisories)
    case Etd(orig, plat, direction) => EtdRequest(c, orig, plat, direction)
    case EtdHelp => HelpRequest(c, Estimates)
    case RouteInfo(route, sched, date) => RouteInfoRequest(c, route, sched, date)
    case RoutesList(sched, date) => RoutesRequest(c, sched, date)
    case RouteHelp => HelpRequest(c, Routes)
    case Arrive(o, d, t, dt, b, a) => TripRequest(c, "arrive", o, d, t, dt, b, a)
    case Depart(o, d, t, dt, b, a) => TripRequest(c, "depart", o, d, t, dt, b, a)
    case Fare(o, d, dt, s) => FareRequest(c, o, d, dt, s)
    case Holiday => BareRequest(c, Schedules, "holiday")
    case RouteSched(route, date, time, sched) => RouteSchedRequest(c, route, date, time, sched)
    case Scheds => BareRequest(c, Schedules, "scheds")
    case Special => BareRequest(c, Schedules, "special")
    case StnSched(orig, date) => StnSchedRequest(c, orig, date)
    case SchedHelp => HelpRequest(c, Schedules)
    case StnHelp => HelpRequest(c, Stations)
    case StnInfo(orig) => StationRequest(c, "stninfo", orig)
    case StnAccess(orig) => StationRequest(c, "stnaccess", orig)
    case Stns => BareRequest(c, Stations, "stns")
    case Version => BareRequest(c, VersionInfo, "ver")
  }

  /** The command tag each method is documented to send. */
  function Command(call: Call): string
  {
    match call
    case Bsa(_) => "bsa"
    case TrainCount => "count"
    case Elev => "elev"
    case Etd(_, _, _) => "etd"
    case RouteInfo(_, _, _) => "routeinfo"
    case RoutesList(_, _) => "routes"
    case Arrive(_, _, _, _, _, _) => "arrive"
    case Depart(_, _, _, _, _, _) => "depart"
    case Fare(_, _, _, _) => "fare"
    case Holiday => "holiday"
    case RouteSched(_, _, _, _) => "routesched"
    case Scheds => "scheds"
    case Special => "special"
    case StnSched(_, _) => "stnsched"
    case StnInfo(_) => "stninfo"
    case StnAccess(_) => "stnaccess"
    case Stns => "stns"
    case Version => "ver"
    case _ => "help"
  }

  /** The category each method is listed under in the client's overview. */
  function Category(call: Call): Endpoint
  {
    match call
    case Bsa(_) | TrainCount | Elev | ElevHelp => Advisories
    case Etd(_, _, _) | EtdHelp => Estimates
    case RouteInfo(_, _, _) | RoutesList(_, _) | RouteHelp => Routes
    case StnHelp | StnInfo(_) | StnAccess(_) | Stns => Stations
    case Arrive(_, _, _, _, _, _) | Depart(_, _, _, _, _, _) | Fare(_, _, _, _) | Holiday => Schedules
    case RouteSched(_, _, _, _) | Scheds | Special | StnSched(_, _) | SchedHelp => Schedules
    case Version => VersionInfo
  }

  /** Every method sends its request to the URL of the category it is
      listed under. */
  lemma RequestGoesToCategory(c: Client, call: Call)
    ensures RequestOf(c, call).endpoint == Category(call)
  {
  }

  /** The six categories have six different URLs. */
  lemma UrlsDistinct(a: Endpoint, b: Endpoint)
    ensures Url(a) == Url(b) <==> a == b
  {
  }

  /** Every request carries its command, the client's own key and the JSON
      flag. The command and the flag always reach the query string; the key
      does exactly when the client has one. */
  lemma EveryRequestCarriesKey(c: Client, call: Call)
    ensures Carries(RequestOf(c, call).payload, Command(call), c.key)
    ensures var q := Sent(RequestOf(c, call).payload);
      && ("key" in q <==> c.key.Some?)
      && (c.key.Some? ==> q["key"] == c.key.value)
      && "cmd" in q && q["cmd"] == Command(call)
      && "json" in q && q["json"] == "y"
  {
  }

  /** Giving `etd` a direction next to a platform changes nothing. */
  lemma EtdPlatformWinsRequest(c: Client, orig: string, plat: Scalar, direction: string)
    ensures RequestOf(c, Etd(orig, Some(plat), Some(direction))) == RequestOf(c, Etd(orig, Some(plat), None))
  {
  }

  /** `depart` issues exactly the request `arrive` issues with the same
      arguments, except for the command tag. */
  lemma DepartIsArrive(c: Client, o: string, d: string, t: Option<string>, dt: Option<string>, b: Option<Scalar>, a: Option<Scalar>)
    ensures var arrive := RequestOf(c, Arrive(o, d, t, dt, b, a));
      && RequestOf(c, Depart(o, d, t, dt, b, a)) == Request(arrive.endpoint, arrive.payload["cmd" := Some("depart")])
  {
    var base := Base(c, "arrive");
    assert base["cmd" := Some("depart")] == Base(c, "depart");
  }

  /** `fare` accepts a schedule number but never sends it. */
  lemma FareDropsSchedule(c: Client, o: string, d: string, dt: Option<string>, s1: Option<Scalar>, s2: Option<Scalar>)
    ensures RequestOf(c, Fare(o, d, dt, s1)) == RequestOf(c, Fare(o, d, dt, s2))
    ensures "sched" !in RequestOf(c, Fare(o, d, dt, s1)).payload
  {
  }
}
