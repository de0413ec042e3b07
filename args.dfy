/**
 * Preparing a federated request: splitting the caller's keyword arguments
 * between the fedcatalog routing service and the providers' own services
 * (`distribute_args`), and turning a bulk request plus extra arguments into
 * one request text (`get_bulk_string`).
 */
module Args {
  import opened Wrappers
  import Strings

  /** Keys the fedcatalog service must not receive. */
  const FedcatalogProhibited: seq<string> := ["filename", "attach_response", "user", "password", "base_url"]

  /** Keys the provider's client receives, when the caller gave them. */
  const ServiceAllowed: seq<string> := ["user", "password", "attach_response", "filename"]

  /** The fedcatalog half of `distribute_args`. */
  function FedcatalogArgs<V>(argdict: map<string, V>): map<string, V>
  {
    map k | k in argdict && k !in FedcatalogProhibited :: argdict[k]
  }

  /** The provider-service half of `distribute_args`. */
  function ServiceArgs<V>(argdict: map<string, V>): map<string, V>
  {
    map k | k in argdict && k in ServiceAllowed :: argdict[k]
  }

  /**
   * `distribute_args`: copies the arguments and deletes the prohibited keys
   * from the copy, then collects the allowed keys that are present. The
   * caller's map is a value, so it cannot be changed.
   */
  method DistributeArgs<V>(argdict: map<string, V>) returns (fed: map<string, V>, service: map<string, V>)
    ensures fed == FedcatalogArgs(argdict) && service == ServiceArgs(argdict)
    ensures forall k :: k in fed <==> k in argdict && k !in FedcatalogProhibited
    ensures forall k :: k in service <==> k in argdict && k in ServiceAllowed
    ensures forall k :: k in fed ==> fed[k] == argdict[k]
    ensures forall k :: k in service ==> service[k] == argdict[k]
    ensures "base_url" !in fed && "base_url" !in service
  {
    fed := argdict;
    for i := 0 to |FedcatalogProhibited|
      invariant fed.Keys == argdict.Keys - set j | 0 <= j < i :: FedcatalogProhibited[j]
      invariant forall k :: k in fed ==> fed[k] == argdict[k]
    {
      var key := FedcatalogProhibited[i];
      if key in fed {
        fed := fed - {key};
      }
    }
    service := map[];
    for i := 0 to |ServiceAllowed|
      invariant service.Keys == argdict.Keys * set j | 0 <= j < i :: ServiceAllowed[j]
      invariant forall k :: k in service ==> service[k] == argdict[k]
    {
      var key := ServiceAllowed[i];
      if key in argdict {
        service := service[key := argdict[key]];
      }
    }
  }

  /**
   * Apart from `base_url`, which is dropped, every argument reaches exactly one
   * side, except that `user`, `password`, `attach_response` and `filename`
   * reach only the provider side.
   */
  lemma DistributionPartition<V>(argdict: map<string, V>)
    ensures FedcatalogArgs(argdict).Keys !! ServiceArgs(argdict).Keys
    ensures FedcatalogArgs(argdict).Keys + ServiceArgs(argdict).Keys == argdict.Keys - {"base_url"}
  {
  }

  /** What the caller passed as `bulk`. */
  datatype Bulk =
    | Text(text: string)              // any string: used verbatim
    | Readable(contents: string)      // an object with a `read` method; `contents` is what `read()` returns
    | Vector(items: seq<string>)      // an iterable without `read`, such as a tuple of strings
    | Unrecognized                    // anything else

  datatype BulkError = CannotHandleVectors | UnrecognizedInput

  /**
   * The `key=value` lines for the arguments whose value is not None, in the
   * arguments' order. Values are already in the text form that
   * `convert_to_string` gives them.
   */
  function ArgLines(arguments: seq<(string, Option<string>)>): seq<string>
  {
    if arguments == [] then []
    else
      var (key, value) := arguments[|arguments| - 1];
      var init := ArgLines(arguments[..|arguments| - 1]);
      if value.Some? then init + [key + "=" + value.value] else init
  }

  /** There are no argument lines exactly when every value is None. */
  lemma {:induction false} ArgLinesEmpty(arguments: seq<(string, Option<string>)>)
    ensures ArgLines(arguments) == [] <==> forall i :: 0 <= i < |arguments| ==> arguments[i].1.None?
  {
    if arguments != [] {
      var init := arguments[..|arguments| - 1];
      ArgLinesEmpty(init);
      assert forall i :: 0 <= i < |init| ==> init[i] == arguments[i];
    }
  }

  /** The request body before any argument lines are added. */
  function BulkBody(bulk: Bulk): Result<string, BulkError>
  {
    match bulk
    case Text(text) => Success(text)
    case Readable(contents) => Success(contents)
    case Vector(_) => Failure(CannotHandleVectors)
    case Unrecognized => Failure(UnrecognizedInput)
  }

  /**
   * `get_bulk_string`: the argument lines joined by newlines, one newline,
   * then the body; the body alone when there are no argument lines.
   */
  function GetBulkString(bulk: Bulk, arguments: Option<seq<(string, Option<string>)>>): (r: Result<string, BulkError>)
    ensures bulk.Vector? ==> r == Failure(CannotHandleVectors)
    ensures bulk.Unrecognized? ==> r == Failure(UnrecognizedInput)
    ensures bulk.Text? || bulk.Readable? <==> r.Success?
    ensures r.Success? ==> Strings.EndsWith(r.value, BulkBody(bulk).value)
  {
    var args := if arguments.None? then [] else ArgLines(arguments.value);
    match BulkBody(bulk)
    case Failure(e) => Failure(e)
    case Success(body) =>
      if |args| > 0 then Success(Strings.Join(args) + "\n" + body) else Success(body)
  }

  /** With no argument that has a value, the body is returned verbatim. */
  lemma BulkVerbatim(bulk: Bulk, arguments: Option<seq<(string, Option<string>)>>)
    requires bulk.Text? || bulk.Readable?
    requires arguments.Some? ==> forall i :: 0 <= i < |arguments.value| ==> arguments.value[i].1.None?
    ensures GetBulkString(bulk, arguments) == BulkBody(bulk)
  {
    if arguments.Some? {
      ArgLinesEmpty(arguments.value);
    }
  }

  /**
   * The request text splits back into the argument lines followed by the
   * lines of the body, provided no key or value contains a newline.
   */
  lemma BulkLines(bulk: Bulk, arguments: seq<(string, Option<string>)>)
    requires bulk.Text? || bulk.Readable?
    requires forall i :: 0 <= i < |arguments| ==> '\n' !in arguments[i].0
    requires forall i :: 0 <= i < |arguments| && arguments[i].1.Some? ==> '\n' !in arguments[i].1.value
    ensures Strings.Split(GetBulkString(bulk, Some(arguments)).value)
         == ArgLines(arguments) + Strings.Split(BulkBody(bulk).value)
  {
    var lines := ArgLines(arguments);
    var body := BulkBody(bulk).value;
    BulkText(bulk, arguments);
    if |lines| > 0 {
      ArgLinesNewlineFree(arguments);
      Strings.SplitJoin(lines);
      Strings.SplitAtNewline(Strings.Join(lines), body);
    } else {
      assert lines + Strings.Split(body) == Strings.Split(body);
    }
  }

  /** The request text with some argument line, and without. */
  lemma BulkText(bulk: Bulk, arguments: seq<(string, Option<string>)>)
    requires bulk.Text? || bulk.Readable?
    ensures |ArgLines(arguments)| > 0 ==>
      GetBulkString(bulk, Some(arguments)).value == Strings.Join(ArgLines(arguments)) + "\n" + BulkBody(bulk).value
    ensures |ArgLines(arguments)| == 0 ==> GetBulkString(bulk, Some(arguments)).value == BulkBody(bulk).value
  {
  }

  lemma {:induction false} ArgLinesNewlineFree(arguments: seq<(string, Option<string>)>)
    requires forall i :: 0 <= i < |arguments| ==> '\n' !in arguments[i].0
    requires forall i :: 0 <= i < |arguments| && arguments[i].1.Some? ==> '\n' !in arguments[i].1.value
    ensures forall i :: 0 <= i < |ArgLines(arguments)| ==> '\n' !in ArgLines(arguments)[i]
  {
    if arguments != [] {
      var init := arguments[..|arguments| - 1];
      assert forall i :: 0 <= i < |init| ==> init[i] == arguments[i];
      ArgLinesNewlineFree(init);
      var (key, value) := arguments[|arguments| - 1];
      if value.Some? {
        var line := key + "=" + value.value;
        assert forall c :: c in line ==> c in key || c == '=' || c in value.value;
      }
    }
  }

  /** A bulk line preceded by one extra argument. */
  lemma BulkExample()
    ensures GetBulkString(Text("NET STA -- CHA 2020-01-01 2020-01-02"), Some([("level", Some("channel"))]))
         == Success("level=channel\n" + "NET STA -- CHA 2020-01-01 2020-01-02")
  {
    var arguments := [("level", Some("channel"))];
    assert arguments[..0] == [];
    assert ArgLines(arguments[..0]) == [];
    assert "level" + "=" + "channel" == "level=channel";
    assert ArgLines(arguments) == ["level=channel"];
    assert Strings.Join(["level=channel"]) == "level=channel";
    assert "level=channel" + "\n" == "level=channel\n";
  }
}
