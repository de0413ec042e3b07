/**
 * `FederatedRoutingManager.parse_routing`: turning the fedcatalog response
 * into an ordered list of routes, one per `DATACENTER=` line.
 *
 * Classifying a response line (`FedcatResponseLine`, the parser states) is
 * not part of this model: the response arrives as already classified lines.
 * Each line acts on the current route, which is a placeholder route until the
 * first `DATACENTER=` line.
 */
module Routing {

  datatype Line =
    | Blank
    | Param(key: string, value: string)         // key=value query parameter
    | Datacenter(id: string, url: string)       // DATACENTER=id,url
    | Service(kind: string, url: string)        // e.g. STATIONSERVICE=url
    | Request(item: string)                     // NET STA LOC CHA START END

  /** The provider id of the placeholder route that exists before any `DATACENTER=` line. */
  const Placeholder: string := "EMPTY_EMPTY_EMPTY"

  /** The parser's own alias table; it differs from the registry's (USPSC here, USPC there). */
  const ParserRemap: map<string, string> := map["IRISDMC" := "IRIS", "GEOFON" := "GFZ", "SED" := "ETH", "USPSC" := "USP"]

  /** The query parameters of a routing response, one object shared by the routes. */
  class ParamSet {
    var items: seq<(string, string)>

    constructor ()
      ensures items == []
    {
      items := [];
    }
  }

  /** `FederatedRoute`: one provider's part of the response. */
  class Route {
    var providerId: string
    var datacenterUrl: string
    var services: map<string, string>
    var parameters: ParamSet
    var requestItems: seq<string>

    constructor (id: string, url: string)
      ensures providerId == id && datacenterUrl == url
      ensures services == map[] && requestItems == []
      ensures fresh(parameters) && parameters.items == []
    {
      providerId := id;
      datacenterUrl := url;
      services := map[];
      parameters := new ParamSet();
      requestItems := [];
    }

    /** The route's own fields, as a value. */
    ghost function Value(): RouteValue
      reads this
    {
      RouteValue(providerId, datacenterUrl, services, requestItems)
    }
  }

  datatype RouteValue = RouteValue(
    providerId: string,
    datacenterUrl: string,
    services: map<string, string>,
    requestItems: seq<string>)

  /** The effect of one line on the routes built so far (lines before any route act on the placeholder). */
  function Extend(routes: seq<RouteValue>, line: Line): seq<RouteValue>
  {
    match line
    case Datacenter(id, url) => routes + [RouteValue(id, url, map[], [])]
    case Service(kind, url) =>
      if routes == [] then routes
      else
        var last := routes[|routes| - 1];
        routes[|routes| - 1 := last.(services := last.services[kind := url])]
    case Request(item) =>
      if routes == [] then routes
      else
        var last := routes[|routes| - 1];
        routes[|routes| - 1 := last.(requestItems := last.requestItems + [item])]
    case _ => routes
  }

  /** The routes the loop builds from `lines`, in response order. */
  function Blocks(lines: seq<Line>): seq<RouteValue>
  {
    if lines == [] then [] else Extend(Blocks(lines[..|lines| - 1]), lines[|lines| - 1])
  }

  /** The `key=value` lines of the response, in order. */
  function ParamLines(lines: seq<Line>): seq<(string, string)>
  {
    if lines == [] then []
    else
      var last := lines[|lines| - 1];
      ParamLines(lines[..|lines| - 1]) + if last.Param? then [(last.key, last.value)] else []
  }

  /** `if len(fed_resp) > 0 and not fed_resp[-1].request_items: del fed_resp[-1]`. */
  function DropTrailingEmpty(routes: seq<RouteValue>): (r: seq<RouteValue>)
    ensures r <= routes
    ensures |r| < |routes| <==> |routes| > 0 && routes[|routes| - 1].requestItems == []
    ensures |r| >= |routes| - 1
  {
    if |routes| > 0 && routes[|routes| - 1].requestItems == [] then routes[..|routes| - 1] else routes
  }

  function RemapId(id: string): string
  {
    if id in ParserRemap then ParserRemap[id] else id
  }

  function Remapped(routes: seq<RouteValue>): (r: seq<RouteValue>)
  {
    seq(|routes|, j requires 0 <= j < |routes| => routes[j].(providerId := RemapId(routes[j].providerId)))
  }

  /** What `parse_routing` returns, as values. */
  function Plan(lines: seq<Line>): seq<RouteValue>
  {
    Remapped(DropTrailingEmpty(Blocks(lines)))
  }

  /** The ids of the `DATACENTER=` lines, in response order. */
  function DatacenterIds(lines: seq<Line>): seq<string>
  {
    if lines == [] then []
    else
      var last := lines[|lines| - 1];
      DatacenterIds(lines[..|lines| - 1]) + if last.Datacenter? then [last.id] else []
  }

  /** The request lines that come after the first `DATACENTER=` line, in order. */
  function RequestsAfterFirstDatacenter(lines: seq<Line>): seq<string>
  {
    if lines == [] then []
    else
      var init, last := lines[..|lines| - 1], lines[|lines| - 1];
      RequestsAfterFirstDatacenter(init) + if last.Request? && DatacenterIds(init) != [] then [last.item] else []
  }

  /**
   * The request lines of the k-th block: those preceded by exactly k + 1
   * `DATACENTER=` lines, i.e. after the k-th one and before the next.
   */
  function RequestsOfBlock(lines: seq<Line>, k: nat): seq<string>
  {
    if lines == [] then []
    else
      var init, last := lines[..|lines| - 1], lines[|lines| - 1];
      RequestsOfBlock(init, k) + if last.Request? && |DatacenterIds(init)| == k + 1 then [last.item] else []
  }

  /** All request items of the routes, route after route. */
  function Flatten(routes: seq<RouteValue>): seq<string>
  {
    if routes == [] then [] else Flatten(routes[..|routes| - 1]) + routes[|routes| - 1].requestItems
  }

  /** The loop opens one route per `DATACENTER=` line, in response order, with that line's id. */
  lemma {:induction false} BlocksFollowDatacenters(lines: seq<Line>)
    ensures |Blocks(lines)| == |DatacenterIds(lines)|
    ensures forall k :: 0 <= k < |Blocks(lines)| ==> Blocks(lines)[k].providerId == DatacenterIds(lines)[k]
  {
    if lines != [] {
      BlocksFollowDatacenters(lines[..|lines| - 1]);
    }
  }

  /** Extending the last route by one request adds that request at the end of the flattened items. */
  lemma FlattenExtendLast(routes: seq<RouteValue>, item: string)
    requires routes != []
    ensures Flatten(routes[|routes| - 1 := routes[|routes| - 1].(requestItems := routes[|routes| - 1].requestItems + [item])])
         == Flatten(routes) + [item]
  {
    var last := routes[|routes| - 1];
    var updated := routes[|routes| - 1 := last.(requestItems := last.requestItems + [item])];
    assert updated[..|updated| - 1] == routes[..|routes| - 1];
  }

  /** Every request line after the first `DATACENTER=` line lands in a route, in order; none is lost. */
  lemma {:induction false} BlocksKeepRequests(lines: seq<Line>)
    ensures Flatten(Blocks(lines)) == RequestsAfterFirstDatacenter(lines)
  {
    if lines != [] {
      var init, last := lines[..|lines| - 1], lines[|lines| - 1];
      BlocksKeepRequests(init);
      BlocksFollowDatacenters(init);
      var before := Blocks(init);
      match last
      case Datacenter(id, url) =>
        assert (before + [RouteValue(id, url, map[], [])])[..|before|] == before;
      case Service(kind, url) =>
        if before != [] {
          var l := before[|before| - 1];
          var updated := before[|before| - 1 := l.(services := l.services[kind := url])];
          assert updated[..|updated| - 1] == before[..|before| - 1];
        }
      case Request(item) =>
        if before != [] {
          FlattenExtendLast(before, item);
        }
      case _ =>
    }
  }

  /** A block whose `DATACENTER=` line has not come yet has no request lines. */
  lemma {:induction false} RequestsOfLaterBlock(lines: seq<Line>, k: nat)
    requires |DatacenterIds(lines)| <= k
    ensures RequestsOfBlock(lines, k) == []
  {
    if lines != [] {
      var init := lines[..|lines| - 1];
      assert |DatacenterIds(init)| <= |DatacenterIds(lines)|;
      RequestsOfLaterBlock(init, k);
    }
  }

  /**
   * Each route the loop builds holds exactly the request lines between its
   * `DATACENTER=` line and the next one.
   */
  lemma {:induction false} BlocksHoldOwnRequests(lines: seq<Line>)
    ensures forall k :: 0 <= k < |Blocks(lines)| ==> Blocks(lines)[k].requestItems == RequestsOfBlock(lines, k)
  {
    if lines != [] {
      var init, last := lines[..|lines| - 1], lines[|lines| - 1];
      BlocksHoldOwnRequests(init);
      BlocksFollowDatacenters(init);
      var before := Blocks(init);
      forall k | 0 <= k < |Blocks(lines)|
        ensures Blocks(lines)[k].requestItems == RequestsOfBlock(lines, k)
      {
        if k < |before| {
          assert Blocks(lines)[k].requestItems == before[k].requestItems + if last.Request? && k == |before| - 1 then [last.item] else [];
        } else {
          RequestsOfLaterBlock(init, k);
        }
      }
    }
  }

  lemma {:induction false} FlattenRemapped(routes: seq<RouteValue>)
    ensures Flatten(Remapped(routes)) == Flatten(routes)
  {
    if routes != [] {
      var init := routes[..|routes| - 1];
      FlattenRemapped(init);
      assert Remapped(routes)[..|routes| - 1] == Remapped(init);
    }
  }

  /**
   * What `parse_routing` returns: one route per `DATACENTER=` line in
   * response order, less the last one exactly when no request line follows
   * the last `DATACENTER=` line; ids in `ParserRemap` replaced and all others
   * kept; each route holding the request lines between its `DATACENTER=` line
   * and the next, so that together the routes hold every request line after
   * the first `DATACENTER=` line, in order.
   */
  lemma PlanShape(lines: seq<Line>)
    ensures |Plan(lines)| == |DatacenterIds(lines)| || |Plan(lines)| == |DatacenterIds(lines)| - 1
    ensures |Plan(lines)| < |DatacenterIds(lines)| <==>
      |DatacenterIds(lines)| > 0 && RequestsOfBlock(lines, |DatacenterIds(lines)| - 1) == []
    ensures forall k :: 0 <= k < |Plan(lines)| ==>
      && Plan(lines)[k].providerId == RemapId(DatacenterIds(lines)[k])
      && Plan(lines)[k].requestItems == RequestsOfBlock(lines, k)
    ensures Flatten(Plan(lines)) == RequestsAfterFirstDatacenter(lines)
  {
    var blocks := Blocks(lines);
    BlocksFollowDatacenters(lines);
    BlocksKeepRequests(lines);
    BlocksHoldOwnRequests(lines);
    var kept := DropTrailingEmpty(blocks);
    FlattenDropTrailingEmpty(blocks);
    FlattenRemapped(kept);
    forall k | 0 <= k < |Plan(lines)|
      ensures Plan(lines)[k].providerId == RemapId(DatacenterIds(lines)[k])
      ensures Plan(lines)[k].requestItems == RequestsOfBlock(lines, k)
    {
      assert kept[k] == blocks[k];
    }
  }

  /** Dropping the trailing route loses no request item, since it has none. */
  lemma FlattenDropTrailingEmpty(routes: seq<RouteValue>)
    ensures Flatten(DropTrailingEmpty(routes)) == Flatten(routes)
  {
    if |routes| > 0 && routes[|routes| - 1].requestItems == [] {
      assert Flatten(routes) == Flatten(routes[..|routes| - 1]) + [];
    }
  }

  lemma BlocksSnoc(lines: seq<Line>, line: Line)
    ensures Blocks(lines + [line]) == Extend(Blocks(lines), line)
    ensures ParamLines(lines + [line]) == ParamLines(lines) + if line.Param? then [(line.key, line.value)] else []
  {
    assert (lines + [line])[..|lines|] == lines;
  }

  /** The response of the `parse_routing` example: two providers, the first one GEOFON. */
  function ExampleResponse(): seq<Line>
  {
    [ Param("minlat", "34.0"),
      Param("level", "network"),
      Blank,
      Datacenter("GEOFON", "http://geofon.gfz-potsdam.de"),
      Service("DATASELECTSERVICE", "http://geofon.gfz-potsdam.de/fdsnws/dataselect/1/"),
      Request("CK ASHT -- HHZ 2015-01-01T00:00:00 2016-01-02T00:00:00"),
      Blank,
      Datacenter("INGV", "http://www.ingv.it"),
      Service("STATIONSERVICE", "http://webservices.rm.ingv.it/fdsnws/station/1/"),
      Request("HL ARG -- BHZ 2015-01-01T00:00:00 2016-01-02T00:00:00"),
      Request("HL ARG -- VHZ 2015-01-01T00:00:00 2016-01-02T00:00:00") ]
  }

  /**
   * The shape of the example: two parameters, a blank line, a provider with
   * one service and one request, a blank line, a provider with one service
   * and two requests.
   */
  lemma {:induction false} TwoProviderBlocks(k1: string, v1: string, k2: string, v2: string,
                                             a: string, ua: string, sa: string, wa: string, ra: string,
                                             b: string, ub: string, sb: string, wb: string, rb1: string, rb2: string)
    ensures
      var lines := [Param(k1, v1), Param(k2, v2), Blank,
                    Datacenter(a, ua), Service(sa, wa), Request(ra), Blank,
                    Datacenter(b, ub), Service(sb, wb), Request(rb1), Request(rb2)];
      && Blocks(lines) == [RouteValue(a, ua, map[sa := wa], [ra]), RouteValue(b, ub, map[sb := wb], [rb1, rb2])]
      && ParamLines(lines) == [(k1, v1), (k2, v2)]
  {
    var p0: seq<Line> := [];
    var p1 := p0 + [Param(k1, v1)];
    var p2 := p1 + [Param(k2, v2)];
    var p3 := p2 + [Blank];
    var p4 := p3 + [Datacenter(a, ua)];
    var p5 := p4 + [Service(sa, wa)];
    var p6 := p5 + [Request(ra)];
    var p7 := p6 + [Blank];
    var p8 := p7 + [Datacenter(b, ub)];
    var p9 := p8 + [Service(sb, wb)];
    var p10 := p9 + [Request(rb1)];
    var p11 := p10 + [Request(rb2)];
    BlocksSnoc(p0, Param(k1, v1));
    BlocksSnoc(p1, Param(k2, v2));
    BlocksSnoc(p2, Blank);
    BlocksSnoc(p3, Datacenter(a, ua));
    BlocksSnoc(p4, Service(sa, wa));
    BlocksSnoc(p5, Request(ra));
    BlocksSnoc(p6, Blank);
    BlocksSnoc(p7, Datacenter(b, ub));
    BlocksSnoc(p8, Service(sb, wb));
    BlocksSnoc(p9, Request(rb1));
    BlocksSnoc(p10, Request(rb2));
    assert Blocks(p0) == [];
    assert Blocks(p3) == [];
    assert Blocks(p4) == [RouteValue(a, ua, map[], [])];
    var none: map<string, string> := map[];
    assert none[sa := wa] == map[sa := wa];
    assert Blocks(p5) == [RouteValue(a, ua, map[sa := wa], [])];
    var noItems: seq<string> := [];
    assert noItems + [ra] == [ra] && noItems + [rb1] == [rb1];
    assert Blocks(p6) == [RouteValue(a, ua, map[sa := wa], [ra])];
    var first := RouteValue(a, ua, map[sa := wa], [ra]);
    assert Blocks(p8) == [first, RouteValue(b, ub, map[], [])];
    assert none[sb := wb] == map[sb := wb];
    assert Blocks(p9) == [first, RouteValue(b, ub, map[sb := wb], [])];
    assert Blocks(p10) == [first, RouteValue(b, ub, map[sb := wb], [rb1])];
    assert [rb1] + [rb2] == [rb1, rb2];
    assert p11 == [Param(k1, v1), Param(k2, v2), Blank,
                   Datacenter(a, ua), Service(sa, wa), Request(ra), Blank,
                   Datacenter(b, ub), Service(sb, wb), Request(rb1), Request(rb2)];
  }

  /**
   * The example parses to a GFZ route (GEOFON remapped) with its one request
   * line, then an INGV route with its two, both sharing the two parameters.
   */
  lemma ExamplePlan()
    ensures Plan(ExampleResponse()) == [
      RouteValue("GFZ", "http://geofon.gfz-potsdam.de",
        map["DATASELECTSERVICE" := "http://geofon.gfz-potsdam.de/fdsnws/dataselect/1/"],
        ["CK ASHT -- HHZ 2015-01-01T00:00:00 2016-01-02T00:00:00"]),
      RouteValue("INGV", "http://www.ingv.it",
        map["STATIONSERVICE" := "http://webservices.rm.ingv.it/fdsnws/station/1/"],
        ["HL ARG -- BHZ 2015-01-01T00:00:00 2016-01-02T00:00:00",
         "HL ARG -- VHZ 2015-01-01T00:00:00 2016-01-02T00:00:00"])]
    ensures ParamLines(ExampleResponse()) == [("minlat", "34.0"), ("level", "network")]
  {
    TwoProviderBlocks("minlat", "34.0", "level", "network",
      "GEOFON", "http://geofon.gfz-potsdam.de",
      "DATASELECTSERVICE", "http://geofon.gfz-potsdam.de/fdsnws/dataselect/1/",
      "CK ASHT -- HHZ 2015-01-01T00:00:00 2016-01-02T00:00:00",
      "INGV", "http://www.ingv.it",
      "STATIONSERVICE", "http://webservices.rm.ingv.it/fdsnws/station/1/",
      "HL ARG -- BHZ 2015-01-01T00:00:00 2016-01-02T00:00:00",
      "HL ARG -- VHZ 2015-01-01T00:00:00 2016-01-02T00:00:00");
    assert RemapId("GEOFON") == "GFZ" && RemapId("INGV") == "INGV";
  }

  /** The table replaces the four directory codes and leaves every other id as it is. */
  lemma RemapIdTable(id: string)
    ensures RemapId("IRISDMC") == "IRIS" && RemapId("GEOFON") == "GFZ"
    ensures RemapId("SED") == "ETH" && RemapId("USPSC") == "USP"
    ensures id !in {"IRISDMC", "GEOFON", "SED", "USPSC"} ==> RemapId(id) == id
  {
  }

  /**
   * `parse_routing`. Every route returned shares one parameter object: the
   * placeholder's, captured at the first `DATACENTER=` line. Because later
   * `key=value` lines act on the current route's parameters, which is that
   * same object, it ends up holding every `key=value` line of the response.
   */
  method ParseRouting(lines: seq<Line>) returns (routes: seq<Route>, ghost shared: ParamSet)
    ensures fresh(shared) && shared.items == ParamLines(lines)
    ensures |routes| == |Plan(lines)|
    ensures forall j :: 0 <= j < |routes| ==>
      fresh(routes[j]) && routes[j].parameters == shared && routes[j].Value() == Plan(lines)[j]
    ensures forall j, k :: 0 <= j < k < |routes| ==> routes[j] != routes[k]
  {
    var fedResp;
    fedResp, shared := BuildRoutes(lines);
    if |fedResp| > 0 && fedResp[|fedResp| - 1].requestItems == [] {
      fedResp := fedResp[..|fedResp| - 1];
    }
    RemapProviderIds(fedResp);
    routes := fedResp;
  }

  /** `routes` are distinct objects that share `shared` and hold `values`. */
  ghost predicate Mirrors(routes: seq<Route>, shared: ParamSet, values: seq<RouteValue>)
    reads set j | 0 <= j < |routes| :: routes[j]
  {
    && |routes| == |values|
    && (forall j :: 0 <= j < |routes| ==> routes[j].parameters == shared && routes[j].Value() == values[j])
    && (forall j, k :: 0 <= j < k < |routes| ==> routes[j] != routes[k])
  }

  /** The loop of `parse_routing` over the response lines. */
  method BuildRoutes(lines: seq<Line>) returns (fedResp: seq<Route>, ghost shared: ParamSet)
    ensures fresh(shared) && shared.items == ParamLines(lines)
    ensures forall j :: 0 <= j < |fedResp| ==> fresh(fedResp[j])
    ensures Mirrors(fedResp, shared, Blocks(lines))
  {
    fedResp := [];
    var provider := new Route(Placeholder, "");
    ghost var placeholder := provider;
    shared := provider.parameters;
    var parameters: ParamSet? := null;
    for i := 0 to |lines|
      invariant fresh(placeholder) && fresh(shared) && fresh(provider)
      invariant placeholder.providerId == Placeholder && placeholder.parameters == shared
      invariant provider.parameters == shared
      invariant fedResp == [] ==> provider == placeholder
      invariant fedResp != [] ==> provider == fedResp[|fedResp| - 1] && parameters == shared
      invariant forall j :: 0 <= j < |fedResp| ==> fresh(fedResp[j]) && fedResp[j] != placeholder
      invariant Mirrors(fedResp, shared, Blocks(lines[..i]))
      invariant shared.items == ParamLines(lines[..i])
    {
      assert lines[..i + 1] == lines[..i] + [lines[i]];
      BlocksSnoc(lines[..i], lines[i]);
      fedResp, provider, parameters := Step(fedResp, provider, parameters, lines[i], placeholder, shared, Blocks(lines[..i]));
    }
    assert lines[..|lines|] == lines;
  }

  /**
   * The body of the loop for one line: a `DATACENTER=` line first captures the
   * current route's parameters if that route is still the placeholder.
   */
  method Step(fedResp: seq<Route>, provider: Route, parameters: ParamSet?, line: Line,
              ghost placeholder: Route, ghost shared: ParamSet, ghost values: seq<RouteValue>)
    returns (fedResp': seq<Route>, provider': Route, parameters': ParamSet?)
    requires placeholder.providerId == Placeholder && placeholder.parameters == shared
    requires provider.parameters == shared
    requires fedResp == [] ==> provider == placeholder
    requires fedResp != [] ==> provider == fedResp[|fedResp| - 1] && parameters == shared
    requires forall j :: 0 <= j < |fedResp| ==> fedResp[j] != placeholder
    requires Mirrors(fedResp, shared, values)
    modifies provider`services, provider`requestItems, shared
    ensures (provider' == provider && fedResp' == fedResp) || (fresh(provider') && fedResp' == fedResp + [provider'])
    ensures provider'.parameters == shared
    ensures fedResp' == [] ==> provider' == placeholder
    ensures fedResp' != [] ==> provider' == fedResp'[|fedResp'| - 1] && parameters' == shared
    ensures Mirrors(fedResp', shared, Extend(values, line))
    ensures shared.items == old(shared.items) + if line.Param? then [(line.key, line.value)] else []
  {
    fedResp', provider', parameters' := fedResp, provider, parameters;
    match line
    case Datacenter(id, url) =>
      if provider.providerId == Placeholder {
        parameters' := provider.parameters;
      }
      assert parameters' == shared;
      provider', fedResp' := OpenRoute(fedResp, id, url, parameters', values);
    case Param(key, value) =>
      AddParam(provider.parameters, key, value);
    case Service(kind, url) =>
      AddService(fedResp, provider, kind, url, shared, values);
    case Request(item) =>
      AddRequest(fedResp, provider, item, shared, values);
    case Blank =>
  }

  /**
   * A `DATACENTER=` line starts a new route, which is given the shared
   * parameters and appended to the result.
   */
  method OpenRoute(fedResp: seq<Route>, id: string, url: string, parameters: ParamSet,
                   ghost values: seq<RouteValue>) returns (route: Route, extended: seq<Route>)
    requires Mirrors(fedResp, parameters, values)
    ensures fresh(route) && route.parameters == parameters && extended == fedResp + [route]
    ensures Mirrors(extended, parameters, Extend(values, Datacenter(id, url)))
  {
    route := new Route(id, url);
    route.parameters := parameters;
    extended := fedResp + [route];
  }

  /** A `key=value` line is added to the current route's parameters. */
  method AddParam(parameters: ParamSet, key: string, value: string)
    modifies parameters
    ensures parameters.items == old(parameters.items) + [(key, value)]
  {
    parameters.items := parameters.items + [(key, value)];
  }

  /** A service line registers its URL on the current route. */
  method AddService(fedResp: seq<Route>, provider: Route, kind: string, url: string,
                    ghost shared: ParamSet, ghost values: seq<RouteValue>)
    requires Mirrors(fedResp, shared, values)
    requires fedResp != [] ==> provider == fedResp[|fedResp| - 1]
    requires fedResp == [] ==> provider !in fedResp
    modifies provider`services
    ensures provider.services == old(provider.services)[kind := url]
    ensures Mirrors(fedResp, shared, Extend(values, Service(kind, url)))
  {
    provider.services := provider.services[kind := url];
  }

  /** A request line is appended to the current route's request items. */
  method AddRequest(fedResp: seq<Route>, provider: Route, item: string,
                    ghost shared: ParamSet, ghost values: seq<RouteValue>)
    requires Mirrors(fedResp, shared, values)
    requires fedResp != [] ==> provider == fedResp[|fedResp| - 1]
    requires fedResp == [] ==> provider !in fedResp
    modifies provider`requestItems
    ensures provider.requestItems == old(provider.requestItems) + [item]
    ensures Mirrors(fedResp, shared, Extend(values, Request(item)))
  {
    provider.requestItems := provider.requestItems + [item];
  }

  /** The last loop of `parse_routing`: provider ids found in `ParserRemap` are replaced. */
  method RemapProviderIds(routes: seq<Route>)
    requires forall j, k :: 0 <= j < k < |routes| ==> routes[j] != routes[k]
    modifies set j | 0 <= j < |routes| :: routes[j]
    ensures forall j :: 0 <= j < |routes| ==>
      routes[j].parameters == old(routes[j].parameters) &&
      routes[j].Value() == old(routes[j].Value()).(providerId := RemapId(old(routes[j].providerId)))
  {
    for k := 0 to |routes|
      invariant forall j :: 0 <= j < |routes| ==> routes[j].parameters == old(routes[j].parameters)
      invariant forall j :: 0 <= j < k ==>
        routes[j].Value() == old(routes[j].Value()).(providerId := RemapId(old(routes[j].providerId)))
      invariant forall j :: k <= j < |routes| ==> routes[j].Value() == old(routes[j].Value())
    {
      var prov := routes[k];
      if prov.providerId in ParserRemap {
        prov.providerId := ParserRemap[prov.providerId];
      }
    }
  }
}
