# ObsPy federated FDSN client: routing and dispatch core

This project models the client side of ObsPy's federated FDSN client
(`obspy/clients/fdsn/routers/fedcatalog_client.py`) and proves properties of
the model. The client asks IRIS's *fedcatalog* service which data center
(provider) holds which channels. It splits the answer into one route per
provider, sends each route to that provider's FDSN web service, and collects
the results. If asked, it reroutes what failed to any other provider.

The model is in six modules:

- `Args` (`args.dfy`) splits the caller's keyword arguments between the routing
  service and the providers (`distribute_args`). It also builds a bulk request
  text (`get_bulk_string`).
- `Providers` (`providers.dfy`) is the registry of data centers
  (`FedcatalogProviders`): a class whose `Refresh` replaces its table in place
  and adds the `REMAPS` aliases. `Get` and `Pretty` read the table.
- `Routing` (`routing.dfy`) is `FederatedRoutingManager.parse_routing`, in two forms:
  - an imperative parser over `Route` objects. All routes share the one
    parameter object that belonged to the placeholder route;
  - the value it must build (`Plan`), with lemmas about that value.
- `Client` (`client.dfy`) covers three parts of `FederatedClient`:
  - `_request`: one provider request, keeping the output, passed and failed
    queues;
  - `attempt_reroute`;
  - the shared tail of `get_waveforms`, `get_waveforms_bulk`, `get_stations`
    and `get_stations_bulk`.
- `Strings` models Python's `"\n".join`, used by `get_bulk_string`. It also
  defines splitting at newlines, which the source does not call; it exists
  to state that the bulk text splits back into its lines.
- `PosixPath` models the parts of `posixpath` that `_request` uses to name a
  per-provider output file.
- `Wrappers` holds `Option` and `Result`.

Some things are inputs rather than code:

- The network is a parameter: the provider directory, each provider's answer,
  the routing request together with the per-route fan-out (`query`), and the
  conversion of data to request lines (`data_to_request`).
- A routing response arrives already split into classified lines.

The registry's alias table maps `USPC` to `USP`, while the parser's maps `USPSC`
to `USP`. Both tables are modelled as written.

## Model

| member | source | states |
|---|---|---|
| Args.DistributeArgs | obspy/clients/fdsn/routers/fedcatalog_client.py:86-101 | The fedcatalog side keeps exactly the caller's keys that are not `filename`, `attach_response`, `user`, `password` or `base_url`. The provider side keeps exactly those of `user`, `password`, `attach_response`, `filename` that were given. Values are unchanged, and `base_url` reaches neither side. |
| Args.DistributionPartition | obspy/clients/fdsn/routers/fedcatalog_client.py:86-101 | The two sides are disjoint. Together they hold every argument except `base_url`. |
| Args.GetBulkString | obspy/clients/fdsn/routers/fedcatalog_client.py:121-155 | A vector (an iterable without `read`) is refused with "cannot handle vectors". Unrecognized input is refused. Text and readable input succeed, and the result ends with the bulk body. |
| Args.ArgLinesEmpty | obspy/clients/fdsn/routers/fedcatalog_client.py:121-123 | There are no `key=value` lines exactly when every argument value is None. |
| Args.ArgLinesNewlineFree | obspy/clients/fdsn/routers/fedcatalog_client.py:121-123 | Keys and values without newlines give argument lines without newlines. |
| Args.BulkVerbatim | obspy/clients/fdsn/routers/fedcatalog_client.py:149-153 | With no argument that has a value, the body is returned verbatim. |
| Args.BulkLines | obspy/clients/fdsn/routers/fedcatalog_client.py:149-153 | Split at newlines, the result gives back the argument lines followed by the lines of the body. |
| Args.BulkExample | obspy/clients/fdsn/routers/fedcatalog_client.py:149-151 | `level=channel` in front of a one-line bulk request gives `level=channel\n<request>`. |
| Providers.ByName | obspy/clients/fdsn/routers/fedcatalog_client.py:272 | Every listed provider is in the table under its own name. Every entry is a listed record with that name. |
| Providers.ByNameLastWins | obspy/clients/fdsn/routers/fedcatalog_client.py:272 | When two records share a name, the later one is kept. |
| Providers.AliasKeepsOthers | obspy/clients/fdsn/routers/fedcatalog_client.py:280-282 | Every name that is not an alias keeps its presence and its record. |
| Providers.AliasSpec | obspy/clients/fdsn/routers/fedcatalog_client.py:280-282 | Each alias whose directory name is present holds that name's record. An alias whose directory name is absent is untouched. |
| Providers.RemapsWellFormed | obspy/clients/fdsn/routers/fedcatalog_client.py:57-60 | No directory name of `REMAPS` is also an alias, and no alias appears twice. |
| Providers.FedcatalogProviders.constructor | obspy/clients/fdsn/routers/fedcatalog_client.py:184-191 | The registry starts empty, unlocked and with no failures, then refreshes once. |
| Providers.FedcatalogProviders.Get | obspy/clients/fdsn/routers/fedcatalog_client.py:237-243 | An unknown name gives "". A missing or empty detail gives the whole record. A detail succeeds exactly when it is one of the six record keys of this model, and otherwise raises KeyError. Each of the six details gives exactly that field of the record: `name`, `description`, `location`, `website` and `lastUpdate` as text, `serviceURLs` as a map. |
| Providers.FedcatalogProviders.Pretty | obspy/clients/fdsn/routers/fedcatalog_client.py:299-302 | An unknown name gives "". A known name gives `name:description, location WEB:websiteLastUpdate:lastUpdate` for its record. |
| Providers.FedcatalogProviders.AddAliases | obspy/clients/fdsn/routers/fedcatalog_client.py:280-282 | The remap loop leaves the table equal to the aliased table, and changes nothing but the table. |
| Providers.FedcatalogProviders.Refresh | obspy/clients/fdsn/routers/fedcatalog_client.py:259-282 | Nothing changes when the table is filled and the call is not forced, or when the lock is held. A failed directory request keeps the table and counts one more failure. A successful one replaces the table with the aliased directory and clears the count. A call that takes the lock releases it, and a call that finds it held leaves it held. |
| Providers.AliasesAnswerAlike | obspy/clients/fdsn/routers/fedcatalog_client.py:288-292 | After a successful refresh, an alias answers `pretty` and `get` exactly as its directory name does, e.g. `pretty("IRIS") == pretty("IRISDMC")`. The answer is not empty. |
| Providers.RefreshedRegistryListsDirectory | obspy/clients/fdsn/routers/fedcatalog_client.py:272-282 | After a successful refresh, every provider the directory listed is in the table. |
| Routing.DropTrailingEmpty | obspy/clients/fdsn/routers/fedcatalog_client.py:1013-1014 | The result is a prefix of the routes. It is shorter, by exactly one, exactly when the last route has no request items. |
| Routing.BlocksFollowDatacenters | obspy/clients/fdsn/routers/fedcatalog_client.py:1002-1010 | The loop opens one route per `DATACENTER=` line, in response order, with that line's id. |
| Routing.BlocksKeepRequests | obspy/clients/fdsn/routers/fedcatalog_client.py:1002-1012 | Every request line after the first `DATACENTER=` line lands in a route, in order. None is lost or duplicated. |
| Routing.FlattenRemapped | obspy/clients/fdsn/routers/fedcatalog_client.py:1024-1026 | Remapping ids does not change any request item. |
| Routing.FlattenDropTrailingEmpty | obspy/clients/fdsn/routers/fedcatalog_client.py:1013-1014 | Dropping the trailing empty route loses no request item. |
| Routing.RequestsOfLaterBlock | obspy/clients/fdsn/routers/fedcatalog_client.py:1002-1012 | A route whose `DATACENTER=` line has not come yet has no request lines. |
| Routing.BlocksHoldOwnRequests | obspy/clients/fdsn/routers/fedcatalog_client.py:1002-1012 | The k-th route the loop builds holds exactly the request lines between the k-th `DATACENTER=` line and the next one, in order. |
| Routing.PlanShape | obspy/clients/fdsn/routers/fedcatalog_client.py:997-1027 | There is one route per `DATACENTER=` line. The last one is dropped exactly when no request line follows the last `DATACENTER=` line. The ids are the lines' ids with the parser's remap applied. Route k holds exactly the request lines between the k-th `DATACENTER=` line and the next. Together, the routes hold every request line after the first `DATACENTER=` line, in order. |
| Routing.RemapIdTable | obspy/clients/fdsn/routers/fedcatalog_client.py:1016-1026 | IRISDMC, GEOFON, SED and USPSC become IRIS, GFZ, ETH and USP. Every other id is kept. |
| Routing.TwoProviderBlocks | obspy/clients/fdsn/routers/fedcatalog_client.py:950-960 | A response shaped like the documented example has two parameters. Its first provider has one service and one request, and its second has one service and two requests. It parses to those two routes and those two parameters. |
| Routing.ExamplePlan | obspy/clients/fdsn/routers/fedcatalog_client.py:950-970 | The documented response parses to a GFZ route holding its one request line, then an INGV route holding its two. The parameter lines are `minlat=34.0` and `level=network`. |
| Routing.ParseRouting | obspy/clients/fdsn/routers/fedcatalog_client.py:997-1027 | The method returns new, distinct routes whose fields equal `Plan` route by route. All routes share one new parameter object, which holds every `key=value` line of the response in order. |
| Routing.BuildRoutes | obspy/clients/fdsn/routers/fedcatalog_client.py:997-1012 | The loop over the lines builds distinct new routes equal to `Blocks`. Each shares the placeholder's parameter object, captured at the first `DATACENTER=` line. |
| Routing.Step | obspy/clients/fdsn/routers/fedcatalog_client.py:1003-1012 | One line either extends the current route or appends one new route. The placeholder's parameters are captured at the first `DATACENTER=` line. The routes afterwards equal the value `Extend` gives, and only a `key=value` line adds to the shared parameters. |
| Routing.OpenRoute | obspy/clients/fdsn/routers/fedcatalog_client.py:1005-1010 | A `DATACENTER=` line appends a new route with that id and URL, given the shared parameters. |
| Routing.AddParam | obspy/clients/fdsn/routers/fedcatalog_client.py:1011-1012 | A `key=value` line is appended to the current route's parameters. |
| Routing.AddService | obspy/clients/fdsn/routers/fedcatalog_client.py:1011-1012 | A service line sets that service's URL on the current route and changes nothing else. |
| Routing.AddRequest | obspy/clients/fdsn/routers/fedcatalog_client.py:1011-1012 | A request line is appended to the current route's request items and changes nothing else. |
| Routing.RemapProviderIds | obspy/clients/fdsn/routers/fedcatalog_client.py:1024-1026 | Each route's id is replaced by its remap. Every other field and the parameter object are kept. |
| PosixPath.DirnameBasenameOfJoin | obspy/clients/fdsn/routers/fedcatalog_client.py:538-543 | Joining a `dirname` result with a slash-free name gives a path whose `basename` is the name and whose `dirname` is the directory. |
| Client.ProviderFileNamePlacement | obspy/clients/fdsn/routers/fedcatalog_client.py:538-543 | The per-provider file is in the caller's directory and is named `<provider id>-<caller's file name>`. |
| Client.Sink | obspy/clients/fdsn/routers/fedcatalog_client.py:538-544 | Output goes to a file exactly when the caller gave a path or an open file. |
| Client.Request | obspy/clients/fdsn/routers/fedcatalog_client.py:538-566 | The provider's data is recorded in the output and passed queues only when no file is used. Writing to a file records nothing. "No data" records the route's request lines as failed and returns normally. Any other `FDSNException` also records them as failed, then is re-raised. |
| Client.AttemptReroute | obspy/clients/fdsn/routers/fedcatalog_client.py:889-910 | Rerouting is refused when output goes to a file, and then the arguments are unchanged. Otherwise the routing arguments gain `includeoverlaps=True` in place, and the result is the existing data followed by whatever the second attempt delivers. |
| Client.Get | obspy/clients/fdsn/routers/fedcatalog_client.py:652-672 | The method covers `get_waveforms`, and the same tail at lines 603-618, 730-746 and 844-863. A `bulk` keyword is refused. Otherwise the routing request gets the distributed arguments with `includeoverlaps`. It reroutes only when asked and something failed, and an empty result is the no-data error. |
| Client.FinishPolicy | obspy/clients/fdsn/routers/fedcatalog_client.py:666-672 | Without `reroute`, or with no failures, no second routing request is made, and the no-data error comes exactly when the first query returned nothing. A successful result is never empty and starts with the first query's data. Rerouting with an output file is refused. |

## Left out

- Network I/O is not modelled:
  - the provider directory request;
  - `get_routing` / `get_routing_bulk`;
  - `query`, with its thread pool and queues;
  - the providers' own FDSN clients.

  Each is a parameter: an `Option` for the directory, a function for the others.
- Classifying response lines is not modelled. That is `str.splitlines`, `FedcatResponseLine` and the parser state classes. `parse_routing` receives lines already classified as blank, parameter, `DATACENTER=`, service or request.
- Rendering a route's request text (`FederatedRoute.text`) is not modelled. It filters parameters and reformats times, as the doctest output shows.
- `convert_to_string` is not modelled; argument values arrive as text.
- `data_to_request` and the `Stream`/`Inventory` types are not modelled. Data is opaque, and merging (`+=`) is sequence concatenation.
- Args.GetBulkString: the branch that reads a file named by a bulk string (lines 137-144) is not modelled. Strings are taken at line 128 first, so it cannot run. A readable object is modelled by what `read()` returns.
- Providers.FedcatalogProviders.Get: the whole-record answer is the record itself, not the `str()` of the Python dict.
- Providers.FedcatalogProviders.Get: a provider record is whatever JSON object the directory returns. The model fixes it to exactly six keys: `name`, `description`, `location`, `website`, `lastUpdate` (spelled as `pretty` uses it) and `serviceURLs`. Records with other keys are not modelled; for those, `get` of such a key would succeed in the source but raises KeyError here. Records missing one of the six keys are not modelled either; for those, `get` and `pretty` would raise KeyError in the source.
- Providers.FedcatalogProviders.Refresh: the lock is a flag, so concurrent callers are not modelled. The log message after more than three failures is left out; the attempt happens anyway.
- `__iter__`, `__getitem__` and `names` of the registry are plain accessors of the table and are not modelled separately.
- Client.Request: only "no data" and other `FDSNException`s are modelled as provider errors. An exception of another type from the provider, or one from `data_to_request`, propagates without pushing to `failed` (lines 529-566); that case is not modelled.
- Client.Request: the provider receives the route's request lines, not the rendered request text with its parameters. The argument assertions at lines 514-527 always hold for the modelled types. Logging and printing are left out.
- Client.Get: `existing_routes` / `get_existing_route` are folded into `query`, and so are the six selectors of `get_waveforms`. Line 167 constructs `NotImplementedError` without raising it; that path is outside this model.
- Client.Get: `get_waveforms_bulk` accepts `quality`, `minimumlength`, `longestonly` and `filename` as named parameters and never uses them. The model's caller passes them nowhere.
- Client.AttemptReroute: the second attempt's `str(bulk)` rendering and `keep_unique=True` are inside `requery`. Its failures are only logged.
- Python assertions are modelled as errors. Running with `-O` would skip them, and that is not modelled.
