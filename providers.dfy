/**
 * `FedcatalogProviders`: the registry of data centers (providers) that the
 * fedcatalog directory lists, refreshed on demand and kept when a refresh
 * fails. The directory request is an input: `Some(records)` for the list the
 * directory returned, `None` for any failure (HTTP error, bad JSON, a record
 * without a name).
 */
module Providers {
  import opened Wrappers

  /** One provider record of the directory, keyed by `name`. */
  datatype ProviderRecord = ProviderRecord(
    name: string,
    description: string,
    location: string,
    website: string,
    lastUpdate: string,
    serviceURLs: map<string, string>)

  /** The keys a record has, which `get` accepts as a detail. */
  const RecordKeys: set<string> := {"name", "description", "location", "website", "lastUpdate", "serviceURLs"}

  /** The registry's alias table: (directory name, ObsPy name). */
  const Remaps: seq<(string, string)> := [("IRISDMC", "IRIS"), ("GEOFON", "GFZ"), ("SED", "ETH"), ("USPC", "USP")]

  /** What `get` returns: text, a service-URL map, or the whole record (rendered with `str`). */
  datatype Answer = Text(text: string) | Urls(urls: map<string, string>) | Whole(record: ProviderRecord)

  /** `record[key]`, which raises KeyError for a key the record does not have. */
  datatype LookupError = KeyError(key: string)

  function Field(record: ProviderRecord, key: string): Result<Answer, LookupError>
  {
    if key == "name" then Success(Text(record.name))
    else if key == "description" then Success(Text(record.description))
    else if key == "location" then Success(Text(record.location))
    else if key == "website" then Success(Text(record.website))
    else if key == "lastUpdate" then Success(Text(record.lastUpdate))
    else if key == "serviceURLs" then Success(Urls(record.serviceURLs))
    else Failure(KeyError(key))
  }

  /** `"{name}:{description}, {location} WEB:{website}LastUpdate:{lastUpdate}"`. */
  function Format(record: ProviderRecord): string
  {
    record.name + ":" + record.description + ", " + record.location
      + " WEB:" + record.website + "LastUpdate:" + record.lastUpdate
  }

  /** `{v['name']: v for v in records}`: a later record replaces an earlier one of the same name. */
  function ByName(records: seq<ProviderRecord>): (m: map<string, ProviderRecord>)
    ensures forall i :: 0 <= i < |records| ==> records[i].name in m
    ensures forall k :: k in m ==> m[k].name == k && m[k] in records
  {
    if records == [] then map[]
    else
      var init, last := records[..|records| - 1], records[|records| - 1];
      assert forall r :: r in init ==> r in records;
      ByName(init)[last.name := last]
  }

  /** The record kept under a name is the last one in the list with that name. */
  lemma {:induction false} ByNameLastWins(records: seq<ProviderRecord>, i: nat)
    requires i < |records|
    requires forall j :: i < j < |records| ==> records[j].name != records[i].name
    ensures ByName(records)[records[i].name] == records[i]
  {
    if i < |records| - 1 {
      ByNameLastWins(records[..|records| - 1], i);
    }
  }

  /** The remap loop of `refresh` over the first pairs of an alias table. */
  function Alias(m: map<string, ProviderRecord>, pairs: seq<(string, string)>): map<string, ProviderRecord>
  {
    if pairs == [] then m
    else
      var prev := Alias(m, pairs[..|pairs| - 1]);
      var (irisName, obspyName) := pairs[|pairs| - 1];
      if irisName in prev then prev[obspyName := prev[irisName]] else prev
  }

  function Targets(pairs: seq<(string, string)>): set<string>
  {
    set i | 0 <= i < |pairs| :: pairs[i].1
  }

  /** No directory name of the table is also an alias, and no alias is used twice. */
  predicate WellFormedTable(pairs: seq<(string, string)>)
  {
    && (forall i, j :: 0 <= i < |pairs| && 0 <= j < |pairs| ==> pairs[i].0 != pairs[j].1)
    && (forall i, j :: 0 <= i < j < |pairs| ==> pairs[i].1 != pairs[j].1)
  }

  /** Aliasing leaves every name that is not an alias as it was. */
  lemma {:induction false} AliasKeepsOthers(m: map<string, ProviderRecord>, pairs: seq<(string, string)>)
    ensures forall k :: k !in Targets(pairs) ==> (k in Alias(m, pairs) <==> k in m)
    ensures forall k :: k !in Targets(pairs) && k in m ==> Alias(m, pairs)[k] == m[k]
  {
    if pairs != [] {
      var init := pairs[..|pairs| - 1];
      AliasKeepsOthers(m, init);
      assert Targets(pairs) == Targets(init) + {pairs[|pairs| - 1].1};
    }
  }

  /**
   * After aliasing, each alias whose directory name is present holds that
   * name's record, and an alias whose directory name is absent is untouched.
   */
  lemma {:induction false} AliasSpec(m: map<string, ProviderRecord>, pairs: seq<(string, string)>)
    requires WellFormedTable(pairs)
    ensures forall i :: 0 <= i < |pairs| && pairs[i].0 in m ==>
      pairs[i].1 in Alias(m, pairs) && Alias(m, pairs)[pairs[i].1] == m[pairs[i].0]
    ensures forall i :: 0 <= i < |pairs| && pairs[i].0 !in m ==>
      (pairs[i].1 in Alias(m, pairs) <==> pairs[i].1 in m) &&
      (pairs[i].1 in m ==> Alias(m, pairs)[pairs[i].1] == m[pairs[i].1])
  {
    if pairs != [] {
      var n := |pairs| - 1;
      var init := pairs[..n];
      assert forall i :: 0 <= i < |init| ==> init[i] == pairs[i];
      assert WellFormedTable(init);
      AliasSpec(m, init);
      AliasKeepsOthers(m, init);
      var prev := Alias(m, init);
      var (irisName, obspyName) := pairs[n];
      assert irisName !in Targets(init);
      assert irisName in prev <==> irisName in m;
      forall i | 0 <= i < n
        ensures pairs[i].1 in Alias(m, pairs) <==> pairs[i].1 in prev
        ensures pairs[i].1 in prev ==> Alias(m, pairs)[pairs[i].1] == prev[pairs[i].1]
      {
        assert pairs[i].1 != obspyName;
      }
    }
  }

  lemma RemapsWellFormed()
    ensures WellFormedTable(Remaps)
  {
  }

  class FedcatalogProviders {
    var providers: map<string, ProviderRecord>
    /** Whether another caller is inside `refresh` (the `Lock`). */
    var locked: bool
    var failedRefreshes: nat

    /** Starts empty and refreshes once. */
    constructor (directory: Option<seq<ProviderRecord>>)
      ensures !locked
      ensures directory.None? ==> providers == map[] && failedRefreshes == 1
      ensures directory.Some? ==> providers == Alias(ByName(directory.value), Remaps) && failedRefreshes == 0
    {
      providers := map[];
      locked := false;
      failedRefreshes := 0;
      new;
      Refresh(false, directory);
    }

    /**
     * `get(name, detail)`: "" for an unknown name, the requested field for a
     * known one (KeyError when the record has no such key), the whole record
     * when no detail (or an empty one) is asked for.
     */
    function Get(name: string, detail: Option<string>): (r: Result<Answer, LookupError>)
      reads this
      ensures name !in providers ==> r == Success(Text(""))
      ensures name in providers && (detail.None? || detail.value == "") ==> r == Success(Whole(providers[name]))
      ensures name in providers && detail.Some? && detail.value != "" ==>
        (r.Success? <==> detail.value in RecordKeys)
      ensures name in providers && detail == Some("name") ==> r == Success(Text(providers[name].name))
      ensures name in providers && detail == Some("description") ==> r == Success(Text(providers[name].description))
      ensures name in providers && detail == Some("location") ==> r == Success(Text(providers[name].location))
      ensures name in providers && detail == Some("website") ==> r == Success(Text(providers[name].website))
      ensures name in providers && detail == Some("lastUpdate") ==> r == Success(Text(providers[name].lastUpdate))
      ensures name in providers && detail == Some("serviceURLs") ==> r == Success(Urls(providers[name].serviceURLs))
    {
      if name !in providers then Success(Text(""))
      else if detail.Some? && detail.value != "" then Field(providers[name], detail.value)
      else Success(Whole(providers[name]))
    }

    /** `pretty(name)`: "" for an unknown name, the one-line summary of the record otherwise. */
    function Pretty(name: string): (r: string)
      reads this
      ensures name !in providers ==> r == ""
      ensures name in providers ==> r == Format(providers[name])
    {
      if name !in providers then "" else Format(providers[name])
    }

    /** The remap loop of `refresh`: each present directory name of `Remaps` is copied to its alias. */
    method AddAliases()
      modifies this`providers
      ensures providers == Alias(old(providers), Remaps)
    {
      for i := 0 to |Remaps|
        invariant providers == Alias(old(providers), Remaps[..i])
      {
        var (irisName, obspyName) := Remaps[i];
        assert Remaps[..i + 1][..i] == Remaps[..i];
        if irisName in providers {
          providers := providers[obspyName := providers[irisName]];
        }
      }
      assert Remaps[..|Remaps|] == Remaps;
    }

    /**
     * `refresh(force)`: nothing happens when the registry is filled and
     * `force` is false, or when another caller holds the lock. Otherwise a
     * failed directory request keeps the registry and counts the failure; a
     * successful one replaces the registry, clears the count and adds the
     * aliases of `Remaps`. The lock is released on every path. After more than
     * three failures only a log message is added; the attempt still happens.
     */
    method Refresh(force: bool, directory: Option<seq<ProviderRecord>>)
      modifies this
      ensures locked == old(locked)
      ensures (old(providers) != map[] && !force) || old(locked) ==>
        providers == old(providers) && failedRefreshes == old(failedRefreshes)
      ensures !((old(providers) != map[] && !force) || old(locked)) && directory.None? ==>
        providers == old(providers) && failedRefreshes == old(failedRefreshes) + 1
      ensures !((old(providers) != map[] && !force) || old(locked)) && directory.Some? ==>
        providers == Alias(ByName(directory.value), Remaps) && failedRefreshes == 0
    {
      if providers != map[] && !force {
        return;
      }
      if locked {
        return;
      }
      locked := true;
      if directory.None? {
        failedRefreshes := failedRefreshes + 1;
        locked := false;
        return;
      }
      providers := ByName(directory.value);
      failedRefreshes := 0;
      AddAliases();
      locked := false;
    }
  }

  /**
   * After a successful refresh, every alias of `Remaps` whose directory name
   * the directory listed answers `pretty` and `get` exactly as that name does
   * (e.g. `pretty("IRIS") == pretty("IRISDMC")`).
   */
  lemma AliasesAnswerAlike(registry: FedcatalogProviders, records: seq<ProviderRecord>, i: nat, detail: Option<string>)
    requires registry.providers == Alias(ByName(records), Remaps)
    requires i < |Remaps| && Remaps[i].0 in ByName(records)
    ensures registry.Pretty(Remaps[i].1) == registry.Pretty(Remaps[i].0) != ""
    ensures registry.Get(Remaps[i].1, detail) == registry.Get(Remaps[i].0, detail)
  {
    RemapsWellFormed();
    AliasSpec(ByName(records), Remaps);
    AliasKeepsOthers(ByName(records), Remaps);
    var (irisName, obspyName) := Remaps[i];
    assert irisName !in Targets(Remaps);
    assert Format(registry.providers[irisName]) != "";
  }

  /** Every provider the directory listed is in the registry after a successful refresh. */
  lemma RefreshedRegistryListsDirectory(records: seq<ProviderRecord>, i: nat)
    requires i < |records|
    ensures records[i].name in Alias(ByName(records), Remaps)
  {
    RemapsWellFormed();
    AliasSpec(ByName(records), Remaps);
    AliasKeepsOthers(ByName(records), Remaps);
  }
}
