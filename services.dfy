/** Service aggregation and descriptor translation (routing/services.go):
    listing the functions of every provider and converting between create
    requests and function summaries. */
module Services {
  import opened Wrappers
  import opened Requests

  /** The path of a provider's function-listing endpoint. */
  const SystemFunctionsPath: string := "/system/functions"

  datatype ServiceError =
      /** A configured provider URL did not parse; the Go code then dereferences nil and panics. */
    | NilUrl(value: string)
      /** A result tagged with an index past the provider list; indexing panics in Go. */
    | IndexOutOfRange(index: nat)
    | ReadFailed(provider: string)
    | DecodeFailed(provider: string)

  /** One tagged outcome of the concurrent fetch: the index of the provider it
      belongs to, the transport error if any, the HTTP status code and the
      response body (None when reading the body fails). */
  datatype FetchResult = FetchResult(index: nat, err: Option<string>, statusCode: int, body: Option<seq<bv8>>)

  /** The function lists gathered per provider URL string. */
  datatype ReadServicesResult = ReadServicesResult(providers: map<string, seq<Function>>)

  // ---------------------------------------------------------------------
  // Function-listing URLs
  // ---------------------------------------------------------------------

  function FunctionListUrl(u: Url): Url
  {
    u.(path := SystemFunctionsPath)
  }

  /** The listing URL of every provider, in order; fails on the first provider
      whose URL does not parse. */
  function Endpoints(providers: seq<string>, parse: string -> Option<Url>): (r: Result<seq<Url>, ServiceError>)
    ensures r.Success? <==> forall i :: 0 <= i < |providers| ==> parse(providers[i]).Some?
    ensures r.Success? ==>
              && |r.value| == |providers|
              && forall i :: 0 <= i < |providers| ==>
                   && r.value[i] == FunctionListUrl(parse(providers[i]).value)
                   && r.value[i].path == SystemFunctionsPath
                   && r.value[i].host == parse(providers[i]).value.host
    ensures r.Failure? ==>
              exists i :: 0 <= i < |providers| && parse(providers[i]).None?
                && (forall j :: 0 <= j < i ==> parse(providers[j]).Some?)
                && r.error == NilUrl(providers[i])
  {
    if providers == [] then Success([])
    else match parse(providers[0])
      case None => Failure(NilUrl(providers[0]))
      case Some(u) =>
        match Endpoints(providers[1..], parse)
        case Failure(e) => Failure(e)
        case Success(us) => Success([FunctionListUrl(u)] + us)
  }

  /** The loop of ReadServices that builds one listing URL per provider. */
  method SystemFunctionUrls(providers: seq<string>, parse: string -> Option<Url>)
    returns (r: Result<seq<Url>, ServiceError>)
    ensures r == Endpoints(providers, parse)
  {
    var urls: seq<Url> := [];
    var i := 0;
    while i < |providers|
      invariant 0 <= i <= |providers|
      invariant |urls| == i
      invariant forall j :: 0 <= j < i ==> parse(providers[j]).Some? && urls[j] == FunctionListUrl(parse(providers[j]).value)
    {
      var u := parse(providers[i]);
      if u.None? {
        return Failure(NilUrl(providers[i]));
      }
      urls := urls + [FunctionListUrl(u.value)];
      i := i + 1;
    }
    r := Success(urls);
    assert Endpoints(providers, parse).Success?;
    assert Endpoints(providers, parse).value == urls;
  }

  // ---------------------------------------------------------------------
  // Processing the fetched results
  // ---------------------------------------------------------------------

  /** A transport error or a status code above 399. */
  predicate SoftFailure(v: FetchResult)
  {
    v.err.Some? || v.statusCode > 399
  }

  /** A result whose function list was received and decoded. */
  predicate Delivered(providers: seq<string>, v: FetchResult, decode: seq<bv8> -> Option<seq<Function>>)
  {
    v.index < |providers| && !SoftFailure(v) && v.body.Some? && decode(v.body.value).Some?
  }

  function Lookup(m: map<string, seq<Function>>, key: string): seq<Function>
  {
    if key in m then m[key] else []
  }

  /** Appends `fs` to the list under `key`, creating it if absent. */
  function Append(m: map<string, seq<Function>>, key: string, fs: seq<Function>): map<string, seq<Function>>
  {
    m[key := Lookup(m, key) + fs]
  }

  /** The results processed as ReadServices does, continuing from `acc`: the
      first soft failure ends processing with what was gathered so far, a body
      that cannot be read or decoded fails the whole call, and every other list
      is appended under its provider's URL string. */
  function Process(providers: seq<string>, acc: map<string, seq<Function>>, results: seq<FetchResult>,
                   decode: seq<bv8> -> Option<seq<Function>>): Result<map<string, seq<Function>>, ServiceError>
    decreases |results|
  {
    if results == [] then Success(acc)
    else
      var v := results[0];
      if v.index >= |providers| then Failure(IndexOutOfRange(v.index))
      else if SoftFailure(v) then Success(acc)
      else if v.body.None? then Failure(ReadFailed(providers[v.index]))
      else match decode(v.body.value)
        case None => Failure(DecodeFailed(providers[v.index]))
        case Some(fs) => Process(providers, Append(acc, providers[v.index], fs), results[1..], decode)
  }

  /** The variant that skips a provider on a soft failure and goes on with the
      rest, instead of stopping. */
  function ProcessSkipping(providers: seq<string>, acc: map<string, seq<Function>>, results: seq<FetchResult>,
                           decode: seq<bv8> -> Option<seq<Function>>): Result<map<string, seq<Function>>, ServiceError>
    decreases |results|
  {
    if results == [] then Success(acc)
    else
      var v := results[0];
      if v.index >= |providers| then Failure(IndexOutOfRange(v.index))
      else if SoftFailure(v) then ProcessSkipping(providers, acc, results[1..], decode)
      else if v.body.None? then Failure(ReadFailed(providers[v.index]))
      else match decode(v.body.value)
        case None => Failure(DecodeFailed(providers[v.index]))
        case Some(fs) => ProcessSkipping(providers, Append(acc, providers[v.index], fs), results[1..], decode)
  }

  // A reference definition of what the results deliver, independent of the
  // accumulation order of the loop.

  /** The provider URL strings of the delivered results. */
  function DeliveredKeys(providers: seq<string>, results: seq<FetchResult>, decode: seq<bv8> -> Option<seq<Function>>): set<string>
  {
    if results == [] then {}
    else (if Delivered(providers, results[0], decode) then {providers[results[0].index]} else {})
         + DeliveredKeys(providers, results[1..], decode)
  }

  /** The concatenation, in result order, of the delivered lists of `key`. */
  function Listed(providers: seq<string>, results: seq<FetchResult>, decode: seq<bv8> -> Option<seq<Function>>,
                  key: string): seq<Function>
  {
    if results == [] then []
    else (if Delivered(providers, results[0], decode) && providers[results[0].index] == key
          then decode(results[0].body.value).value else [])
         + Listed(providers, results[1..], decode, key)
  }

  /** `acc` extended by every delivered list, each appended under its
      provider's key, in result order. */
  function Gathered(providers: seq<string>, acc: map<string, seq<Function>>, results: seq<FetchResult>,
                    decode: seq<bv8> -> Option<seq<Function>>): map<string, seq<Function>>
    decreases |results|
  {
    if results == [] then acc
    else
      var v := results[0];
      var acc' := if Delivered(providers, v, decode)
                  then Append(acc, providers[v.index], decode(v.body.value).value) else acc;
      Gathered(providers, acc', results[1..], decode)
  }

  /** Per key, the gathered list is the key's earlier list followed by the
      concatenation of every delivered list for it; keys appear only if they
      were already there or something was delivered for them. */
  lemma {:induction false} GatheredPerKey(providers: seq<string>, acc: map<string, seq<Function>>, results: seq<FetchResult>,
                                          decode: seq<bv8> -> Option<seq<Function>>, key: string)
    ensures key in Gathered(providers, acc, results, decode) <==> key in acc || key in DeliveredKeys(providers, results, decode)
    ensures key in Gathered(providers, acc, results, decode) ==>
              Gathered(providers, acc, results, decode)[key] == Lookup(acc, key) + Listed(providers, results, decode, key)
    decreases |results|
  {
    if results != [] {
      var v, rest := results[0], results[1..];
      if Delivered(providers, v, decode) {
        var k, fs := providers[v.index], decode(v.body.value).value;
        GatheredPerKey(providers, Append(acc, k, fs), rest, decode, key);
        if key == k {
          assert Lookup(acc, key) + fs + Listed(providers, rest, decode, key)
              == Lookup(acc, key) + (fs + Listed(providers, rest, decode, key));
        }
      } else {
        GatheredPerKey(providers, acc, rest, decode, key);
      }
    }
  }

  /** When every result is delivered, processing appends every list under its
      provider's key, in result order. */
  lemma {:induction false} ProcessGathers(providers: seq<string>, acc: map<string, seq<Function>>,
                                          results: seq<FetchResult>, decode: seq<bv8> -> Option<seq<Function>>)
    requires forall j :: 0 <= j < |results| ==> Delivered(providers, results[j], decode)
    ensures Process(providers, acc, results, decode) == Success(Gathered(providers, acc, results, decode))
    decreases |results|
  {
    if results != [] {
      var v := results[0];
      assert Delivered(providers, v, decode);
      var acc' := Append(acc, providers[v.index], decode(v.body.value).value);
      ProcessGathers(providers, acc', results[1..], decode);
    }
  }

  /** Processing ends at a soft failure: what comes after it never counts. */
  lemma {:induction false} StopsAtSoftFailure(providers: seq<string>, acc: map<string, seq<Function>>,
                                              results: seq<FetchResult>, decode: seq<bv8> -> Option<seq<Function>>, k: nat)
    requires k < |results| && results[k].index < |providers| && SoftFailure(results[k])
    ensures Process(providers, acc, results, decode) == Process(providers, acc, results[..k], decode)
    decreases k
  {
    if k > 0 {
      var v := results[0];
      assert results[..k][0] == v && results[..k][1..] == results[1..][..k - 1];
      if v.index < |providers| && !SoftFailure(v) && v.body.Some? && decode(v.body.value).Some? {
        var acc' := Append(acc, providers[v.index], decode(v.body.value).value);
        StopsAtSoftFailure(providers, acc', results[1..], decode, k - 1);
      }
    }
  }

  /** When result k is the first soft failure and everything before it was
      delivered, the outcome is exactly what the results before k deliver,
      and no error. */
  lemma FirstSoftFailureKeepsPrefix(providers: seq<string>, results: seq<FetchResult>,
                                    decode: seq<bv8> -> Option<seq<Function>>, k: nat)
    requires k < |results| && results[k].index < |providers| && SoftFailure(results[k])
    requires forall j :: 0 <= j < k ==> Delivered(providers, results[j], decode)
    ensures Process(providers, map[], results, decode) == Success(Gathered(providers, map[], results[..k], decode))
  {
    StopsAtSoftFailure(providers, map[], results, decode, k);
    ProcessGathers(providers, map[], results[..k], decode);
  }

  /** A body that cannot be read or decoded, reached before any soft failure,
      fails the whole call and names its provider. */
  lemma {:induction false} ReadOrDecodeFailureIsFatal(providers: seq<string>, acc: map<string, seq<Function>>,
                                                      results: seq<FetchResult>, decode: seq<bv8> -> Option<seq<Function>>, k: nat)
    requires k < |results|
    requires forall j :: 0 <= j < k ==> Delivered(providers, results[j], decode)
    requires results[k].index < |providers| && !SoftFailure(results[k])
    requires results[k].body.None? || decode(results[k].body.value).None?
    ensures Process(providers, acc, results, decode) ==
              if results[k].body.None? then Failure(ReadFailed(providers[results[k].index]))
              else Failure(DecodeFailed(providers[results[k].index]))
    decreases k
  {
    if k > 0 {
      var v := results[0];
      assert Delivered(providers, v, decode);
      var acc' := Append(acc, providers[v.index], decode(v.body.value).value);
      ReadOrDecodeFailureIsFatal(providers, acc', results[1..], decode, k - 1);
    }
  }

  /** The skipping variant gathers every delivered list whatever soft failures
      occur among the results. */
  lemma {:induction false} SkippingGathers(providers: seq<string>, acc: map<string, seq<Function>>,
                                           results: seq<FetchResult>, decode: seq<bv8> -> Option<seq<Function>>)
    requires forall j :: 0 <= j < |results| ==>
               results[j].index < |providers| && (SoftFailure(results[j]) || Delivered(providers, results[j], decode))
    ensures ProcessSkipping(providers, acc, results, decode) == Success(Gathered(providers, acc, results, decode))
    decreases |results|
  {
    if results != [] {
      var v := results[0];
      if SoftFailure(v) {
        SkippingGathers(providers, acc, results[1..], decode);
      } else {
        var acc' := Append(acc, providers[v.index], decode(v.body.value).value);
        SkippingGathers(providers, acc', results[1..], decode);
      }
    }
  }

  /** With two providers where the first is unreachable and the second lists
      one function, the loop as written gathers nothing, while the second
      provider's list is delivered. */
  lemma BreakDropsLaterProviders(f: Function)
    ensures var providers := ["http://a:8080", "http://b:8080"];
            var results := [FetchResult(0, Some("connection refused"), 0, None), FetchResult(1, None, 200, Some([]))];
            var decode := (body: seq<bv8>) => Some([f]);
            && Process(providers, map[], results, decode) == Success(map[])
            && ProcessSkipping(providers, map[], results, decode) == Success(map["http://b:8080" := [f]])
            && "http://b:8080" in Gathered(providers, map[], results, decode)
  {
    var providers := ["http://a:8080", "http://b:8080"];
    var results := [FetchResult(0, Some("connection refused"), 0, None), FetchResult(1, None, 200, Some([]))];
    var decode := (body: seq<bv8>) => Some([f]);
    assert Delivered(providers, results[1], decode);
    assert [] + [f] == [f];
    assert results[1..][1..] == [];
    assert DeliveredKeys(providers, results[1..], decode) == {"http://b:8080"};
  }

  /** Queries every provider's listing endpoint and gathers the lists.
      `fetch` stands for the concurrent HTTP fetch and `decode` for reading and
      unmarshalling a body. */
  method ReadServices(providers: seq<string>, parse: string -> Option<Url>,
                      fetch: seq<Url> -> seq<FetchResult>, decode: seq<bv8> -> Option<seq<Function>>)
    returns (r: Result<ReadServicesResult, ServiceError>)
    ensures Endpoints(providers, parse).Failure? ==> r == Failure(Endpoints(providers, parse).error)
    ensures Endpoints(providers, parse).Success? ==>
              match Process(providers, map[], fetch(Endpoints(providers, parse).value), decode)
              case Success(m) => r == Success(ReadServicesResult(m))
              case Failure(e) => r == Failure(e)
  {
    var urls := SystemFunctionUrls(providers, parse);
    if urls.Failure? {
      return Failure(urls.error);
    }
    var results := fetch(urls.value);
    var serviceResult := ReadServicesResult(map[]);
    var i := 0;
    while i < |results|
      invariant 0 <= i <= |results|
      invariant Process(providers, serviceResult.providers, results[i..], decode) == Process(providers, map[], results, decode)
    {
      var v := results[i];
      assert results[i..][0] == v && results[i..][1..] == results[i + 1..];
      if v.index >= |providers| {
        return Failure(IndexOutOfRange(v.index));
      }
      if v.err.Some? {
        break;
      }
      if v.statusCode > 399 {
        break;
      }
      if v.body.None? {
        return Failure(ReadFailed(providers[v.index]));
      }
      var functions := decode(v.body.value);
      if functions.None? {
        return Failure(DecodeFailed(providers[v.index]));
      }
      var key := providers[v.index];
      serviceResult := serviceResult.(providers := serviceResult.providers[key := Lookup(serviceResult.providers, key) + functions.value]);
      i := i + 1;
    }
    return Success(serviceResult);
  }

  // ---------------------------------------------------------------------
  // Descriptor translation
  // ---------------------------------------------------------------------

  /** The function summary of a create request, with replica counts fixed at 1. */
  function CreateToRequest(request: CreateFunctionRequest): Function
  {
    Function(
      name := request.service,
      image := request.image,
      replicas := 1,
      envProcess := request.envProcess,
      availableReplicas := 1,
      labels := request.labels,
      annotations := request.annotations)
  }

  /** The create request of a function summary; fields a summary lacks take Go's zero values. */
  function RequestToCreate(f: Function): CreateFunctionRequest
  {
    CreateFunctionRequest(
      service := f.name,
      image := f.image,
      network := "",
      envProcess := f.envProcess,
      envVars := map[],
      constraints := [],
      secrets := [],
      labels := f.labels,
      annotations := f.annotations,
      readOnlyRootFilesystem := false)
  }

  /** A request and a summary that agree on every field the conversions carry. */
  predicate SameCarried(request: CreateFunctionRequest, f: Function)
  {
    && request.service == f.name
    && request.image == f.image
    && request.envProcess == f.envProcess
    && request.labels == f.labels
    && request.annotations == f.annotations
  }

  lemma CreateRoundTrip(request: CreateFunctionRequest)
    ensures SameCarried(request, CreateToRequest(request))
    ensures CreateToRequest(request).replicas == 1 && CreateToRequest(request).availableReplicas == 1
    ensures SameCarried(RequestToCreate(CreateToRequest(request)), CreateToRequest(request))
    ensures RequestToCreate(CreateToRequest(request)) == request
        <==> request.network == "" && request.envVars == map[] && request.constraints == []
             && request.secrets == [] && !request.readOnlyRootFilesystem
  {
  }

  lemma FunctionRoundTrip(f: Function)
    ensures SameCarried(RequestToCreate(f), f)
    ensures SameCarried(RequestToCreate(f), CreateToRequest(RequestToCreate(f)))
    ensures CreateToRequest(RequestToCreate(f)) == f <==> f.replicas == 1 && f.availableReplicas == 1
  {
  }
}
