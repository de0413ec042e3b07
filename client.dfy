/**
 * `FederatedClient`: sending each route's request to its provider and keeping
 * the books (`_request`), the second routing attempt for what failed
 * (`attempt_reroute`), and the common tail of `get_waveforms`,
 * `get_waveforms_bulk`, `get_stations` and `get_stations_bulk`.
 *
 * The network is not modelled: a provider's answer, the fedcatalog routing
 * request together with the fan-out over its routes (`query`), and the
 * conversion of returned data into request lines (`data_to_request`) are
 * inputs given as functions.
 */
module Client {
  import opened Wrappers
  import Args
  import PosixPath
  import Routing

  /** The two provider services a route can be sent to ("DATASELECTSERVICE", "STATIONSERVICE"). */
  datatype ServiceKind = DataSelect | Station

  /** The `filename` argument: absent, a path, or an already open file object. */
  datatype FileTarget = NoFile | Path(path: string) | OpenFile

  /** What a provider's `get_waveforms_bulk` / `get_stations_bulk` does. */
  datatype ProviderResponse<D> =
    | Delivered(data: D)                // returns data (or, with a file, writes it)
    | NoData                            // raises FDSNNoDataException
    | ServiceFailure(message: string)   // raises any other FDSNException

  /** How `_request` ends: normally, or by re-raising the provider's error. */
  datatype Outcome = Returned | Raised(message: string)

  /** A keyword-argument value. */
  datatype Value = Flag(flag: bool) | Text(text: string)

  /** The errors a `get_*` call can end with. */
  datatype DispatchError =
    | BulkNotAllowed          // `bulk` given to get_waveforms / get_stations
    | RerouteToFile           // rerouting requested together with `filename`
    | NoDataAvailable         // FDSNNoDataException("No data available for request.")
    | Propagated(message: string)   // an error raised while routing or querying

  /** The three queues `_request` pushes to. */
  class Queues<D, R> {
    var output: seq<D>
    var passed: seq<R>
    var failed: seq<seq<string>>

    constructor ()
      ensures output == [] && passed == [] && failed == []
    {
      output, passed, failed := [], [], [];
    }
  }

  /** `os.path.join(dirname(f), provider_id + "-" + basename(f))`. */
  function ProviderFileName(providerId: string, filename: string): string
  {
    PosixPath.Join(PosixPath.Dirname(filename), providerId + "-" + PosixPath.Basename(filename))
  }

  /**
   * The per-provider file stays in the caller's directory and is named by the
   * provider id, a dash, and the caller's file name.
   */
  lemma ProviderFileNamePlacement(providerId: string, filename: string)
    requires '/' !in providerId
    ensures PosixPath.Basename(ProviderFileName(providerId, filename)) == providerId + "-" + PosixPath.Basename(filename)
    ensures PosixPath.Dirname(ProviderFileName(providerId, filename)) == PosixPath.Dirname(filename)
  {
    var name := providerId + "-" + PosixPath.Basename(filename);
    assert forall c :: c in name ==> c in providerId || c == '-' || c in PosixPath.Basename(filename);
    PosixPath.DirnameBasenameOfJoin(PosixPath.Dirname(filename), name);
  }

  /** Where `_request` sends the provider's answer: a path is renamed per provider, other targets are kept. */
  function Sink(providerId: string, filename: FileTarget): (sink: FileTarget)
    ensures sink.NoFile? <==> filename.NoFile?
  {
    match filename
    case Path(path) => Path(ProviderFileName(providerId, path))
    case _ => filename
  }

  /**
   * `_request`: asks the route's provider (`fetch`, called with the service
   * kind, the route's request lines and the output target) and keeps the books. With an output file
   * nothing is pushed on success; without one the data goes to `output` and
   * its request form to `passed`. "No data" pushes the route's request items
   * to `failed` and returns; any other provider error pushes them too and is
   * re-raised.
   */
  method Request<D, R>(queues: Queues<D, R>, route: Routing.Route, kind: ServiceKind, filename: FileTarget,
                       fetch: (ServiceKind, seq<string>, FileTarget) -> ProviderResponse<D>, dataToRequest: D -> R)
    returns (outcome: Outcome, sink: FileTarget)
    modifies queues
    ensures sink == Sink(route.providerId, filename)
    ensures outcome == (if fetch(kind, route.requestItems, sink).ServiceFailure? then Raised(fetch(kind, route.requestItems, sink).message) else Returned)
    ensures fetch(kind, route.requestItems, sink).Delivered? && sink.NoFile? ==>
      && queues.output == old(queues.output) + [fetch(kind, route.requestItems, sink).data]
      && queues.passed == old(queues.passed) + [dataToRequest(fetch(kind, route.requestItems, sink).data)]
      && queues.failed == old(queues.failed)
    ensures fetch(kind, route.requestItems, sink).Delivered? && !sink.NoFile? ==>
      queues.output == old(queues.output) && queues.passed == old(queues.passed) && queues.failed == old(queues.failed)
    ensures !fetch(kind, route.requestItems, sink).Delivered? ==>
      && queues.output == old(queues.output) && queues.passed == old(queues.passed)
      && queues.failed == old(queues.failed) + [route.requestItems]
  {
    sink := filename;
    if filename.Path? {
      sink := Path(ProviderFileName(route.providerId, filename.path));
    }
    var response := fetch(kind, route.requestItems, sink);
    match response
    case Delivered(data) =>
      outcome := Returned;
      if !sink.NoFile? {
        // nothing gets put into the output or passed queues
        return;
      }
      var details := dataToRequest(data);
      queues.output := queues.output + [data];
      queues.passed := queues.passed + [details];
    case NoData =>
      queues.failed := queues.failed + [route.requestItems];
      outcome := Returned;
    case ServiceFailure(message) =>
      queues.failed := queues.failed + [route.requestItems];
      outcome := Raised(message);
  }

  /**
   * What a `query` over a routing plan gives back: merged data, the request
   * form of each delivery (the `passed` queue) and the request lines of each
   * route that failed (the `failed` queue, as `Request` fills it).
   */
  datatype QueryResult<D, R> = QueryResult(data: seq<D>, passed: seq<R>, failed: seq<seq<string>>)

  /**
   * A routing request followed by a query of the routes it returns, for a
   * service kind, request lines (the rerouting bulk request), fedcatalog
   * arguments and provider arguments.
   */
  type Requery<!D, !R> = (ServiceKind, seq<seq<string>>, map<string, Value>, map<string, Value>) -> Result<QueryResult<D, R>, DispatchError>

  /** The keyword arguments that `attempt_reroute` changes in place. */
  class Kwargs {
    var entries: map<string, Value>

    constructor (entries: map<string, Value>)
      ensures this.entries == entries
    {
      this.entries := entries;
    }
  }

  /** The data after a rerouting query: the new data appended to the existing data. */
  function Rerouted<D, R>(existing: seq<D>, more: Result<QueryResult<D, R>, DispatchError>): Result<seq<D>, DispatchError>
  {
    match more
    case Failure(e) => Failure(e)
    case Success(q) => Success(existing + q.data)
  }

  /**
   * `attempt_reroute`: refused when the provider arguments name a file;
   * otherwise sets `includeoverlaps` to true in the fedcatalog arguments,
   * routes and queries the failed lines again, and appends what arrives to the
   * existing data, or returns the existing data when nothing arrives.
   */
  method AttemptReroute<D, R>(bulk: seq<seq<string>>, kind: ServiceKind, fedKwargs: Kwargs, svcKwargs: map<string, Value>,
                              existing: seq<D>, requery: Requery<D, R>)
    returns (r: Result<seq<D>, DispatchError>)
    modifies fedKwargs
    ensures "filename" in svcKwargs ==> r == Failure(RerouteToFile) && fedKwargs.entries == old(fedKwargs.entries)
    ensures "filename" !in svcKwargs ==>
      && fedKwargs.entries == old(fedKwargs.entries)["includeoverlaps" := Flag(true)]
      && r == Rerouted(existing, requery(kind, bulk, fedKwargs.entries, svcKwargs))
  {
    if "filename" in svcKwargs {
      return Failure(RerouteToFile);
    }
    fedKwargs.entries := fedKwargs.entries["includeoverlaps" := Flag(true)];
    var answer := requery(kind, bulk, fedKwargs.entries, svcKwargs);
    if answer.Failure? {
      return Failure(answer.error);
    }
    var moreData := answer.value.data;
    var data := existing;
    if |moreData| > 0 {
      if |existing| > 0 {
        data := existing + moreData;
      } else {
        assert existing + moreData == moreData;
        data := moreData;
      }
    } else {
      assert existing + moreData == existing;
    }
    return Success(data);
  }

  /** The fedcatalog arguments of a `get_*` call: the distributed ones with `includeoverlaps` set. */
  function RoutingArgs(kwargs: map<string, Value>, includeoverlaps: bool): map<string, Value>
  {
    Args.FedcatalogArgs(kwargs)["includeoverlaps" := Flag(includeoverlaps)]
  }

  /**
   * The end of a `get_*` call once the first query has answered: reroute only
   * when asked to and something failed, then refuse an empty result.
   */
  function Finish<D, R>(kind: ServiceKind, reroute: bool, first: QueryResult<D, R>,
                        fed: map<string, Value>, svc: map<string, Value>, requery: Requery<D, R>): Result<seq<D>, DispatchError>
  {
    var data :=
      if reroute && |first.failed| > 0 then
        if "filename" in svc then Failure(RerouteToFile)
        else Rerouted(first.data, requery(kind, first.failed, fed["includeoverlaps" := Flag(true)], svc))
      else Success(first.data);
    match data
    case Failure(e) => Failure(e)
    case Success(d) => if |d| == 0 then Failure(NoDataAvailable) else Success(d)
  }

  /**
   * A `get_*` call: `query` stands for the fedcatalog routing request (or the
   * caller's existing routes) followed by the query of every route; `bulkForm`
   * tells the `*_bulk` variants, which take `bulk` as a named argument, from
   * the others, which refuse it among the keyword arguments (the `*_bulk`
   * variants cannot receive it there, as it is a named parameter).
   */
  method Get<D, R>(kind: ServiceKind, bulkForm: bool, kwargs: map<string, Value>, includeoverlaps: bool, reroute: bool,
                   query: (ServiceKind, map<string, Value>, map<string, Value>) -> Result<QueryResult<D, R>, DispatchError>,
                   requery: Requery<D, R>)
    returns (r: Result<seq<D>, DispatchError>)
    requires bulkForm ==> "bulk" !in kwargs
    ensures "bulk" in kwargs ==> r == Failure(BulkNotAllowed)
    ensures "bulk" !in kwargs ==>
      var fed, svc := RoutingArgs(kwargs, includeoverlaps), Args.ServiceArgs(kwargs);
      r == match query(kind, fed, svc)
           case Failure(e) => Failure(e)
           case Success(first) => Finish(kind, reroute, first, fed, svc, requery)
  {
    var fed, svc := Args.DistributeArgs(kwargs);
    fed := fed["includeoverlaps" := Flag(includeoverlaps)];
    if !bulkForm && "bulk" in fed {
      return Failure(BulkNotAllowed);
    }
    var answer := query(kind, fed, svc);
    if answer.Failure? {
      return Failure(answer.error);
    }
    var data := answer.value.data;
    var failed := answer.value.failed;
    if reroute && |failed| > 0 {
      var fedKwargs := new Kwargs(fed);
      var rerouted := AttemptReroute(failed, kind, fedKwargs, svc, data, requery);
      if rerouted.Failure? {
        return Failure(rerouted.error);
      }
      data := rerouted.value;
    }
    if |data| == 0 {
      return Failure(NoDataAvailable);
    }
    return Success(data);
  }

  /**
   * The finishing policy: without the `reroute` flag or without failures no
   * second routing request is made (any `requery` gives the same result);
   * a successful result is never empty and starts with the data of the first
   * query; an empty first result with nothing recovered is the no-data error.
   */
  lemma FinishPolicy<D, R>(kind: ServiceKind, reroute: bool, first: QueryResult<D, R>,
                           fed: map<string, Value>, svc: map<string, Value>, requery: Requery<D, R>, other: Requery<D, R>)
    ensures !(reroute && |first.failed| > 0) ==>
      Finish(kind, reroute, first, fed, svc, requery) == Finish(kind, reroute, first, fed, svc, other)
    ensures !(reroute && |first.failed| > 0) ==>
      (Finish(kind, reroute, first, fed, svc, requery) == Failure(NoDataAvailable) <==> |first.data| == 0)
    ensures Finish(kind, reroute, first, fed, svc, requery).Success? ==>
      var d := Finish(kind, reroute, first, fed, svc, requery).value;
      |d| > 0 && first.data <= d
    ensures reroute && |first.failed| > 0 && "filename" in svc ==>
      Finish(kind, reroute, first, fed, svc, requery) == Failure(RerouteToFile)
  {
  }
}
