# faas-federation routing engine in Dafny

This project models the routing engine of faas-federation, a gateway that
puts several OpenFaaS providers behind one endpoint. The model covers two
parts of the Go package `routing`.

- **Provider resolver and function cache** (`routing/provider.go`), module
  `Provider`. At startup the configured provider URLs become a directory. Each
  URL is filed under its hostname with the port stripped. There is also a
  default provider. The class `ProviderRouting` holds the directory and a
  mutable cache from function name to its last create request. `Resolve`
  picks the provider for a function. A name that is not cached is an error.
  A function without the `com.openfaas.federation.gatewayx` annotation goes
  to the default provider. Otherwise the annotation value is matched against
  the hostnames, ignoring case. A hit gives that provider and a miss gives the
  default.
- **Service aggregation and descriptor translation** (`routing/services.go`),
  module `Services`. `ReadServices` builds one `/system/functions` URL per
  provider. It then walks the tagged fetch results and appends each decoded
  function list under its provider's URL string. It stops at the first
  transport error or status above 399, and fails on a body that cannot be read
  or decoded. `CreateToRequest` and `RequestToCreate` convert between create
  requests and function summaries.

The model has four files. `wrappers.dfy` holds Option and Result.
`requests.dfy` holds the gateway's record types and a URL record.
`provider.dfy` and `services.dfy` hold one module per source file.

Parts of the system are not modelled directly. They are passed in as
function parameters instead:
- `parse` stands for `url.Parse`. It gives `None` where Go returns an error.
- `fetch` stands for the concurrent `Get`. It maps the URL list to a list of
  results. Each result carries a provider index, an optional transport
  error, a status code and an optional body. A `None` body means reading
  the body failed.
- `decode` stands for `json.Unmarshal` applied to a body.

Go panics are modelled as error values, so every operation stays total.
Dereferencing a nil annotations pointer gives `NilAnnotations`. Using the
nil URL that a failed parse leaves gives `NilUrl`. Indexing past the provider
list gives `IndexOutOfRange`.

Three behaviours of the code deserve mention:
- Since hostnames are directory keys, one might expect at most one provider
  to match an annotation value. But the keys are compared with case, while
  matching ignores case, so two hosts that differ only in case can both
  match (`CaseVariantsBothMatch`). The model therefore promises only *some*
  matching provider. It proves the match is unique when no two hostnames are
  equal up to case (`MatchIsUnique`).
- One might expect a failing provider to be dropped while aggregation goes on
  with the rest. The code leaves the loop at the first such failure (see
  Findings).
- The code dereferences the annotations pointer unconditionally, so a
  function registered without annotations panics in `Resolve`. Here that is
  the error `NilAnnotations`.

## Model

| member | source | states |
|---|---|---|
| Provider.BeforeColon | routing/provider.go:88-90 | the first piece of a string split at ':' is a prefix with no colon; it is the whole string when there is no colon, and otherwise it is followed by the first colon |
| Provider.HostName | routing/provider.go:88-90 | a URL's port-stripped hostname is the prefix of its host before the first ':', has no colon, and equals the host when the host has no colon |
| Provider.BeforeColonOfHostPort | routing/provider.go:88-90 | for a host without a colon, stripping ":port" from "host:port" gives back the host |
| Provider.EqualFoldIsEquivalence | routing/provider.go:80 | case-insensitive comparison is reflexive, symmetric and transitive |
| Provider.DirectoryFromFailure | routing/provider.go:36-40 | building the directory fails exactly when some configured URL does not parse, and the error names the first such URL |
| Provider.DirectoryFromShape | routing/provider.go:34-42 | a built directory files every configured URL under its hostname, keys every entry by its own hostname, and holds only configured URLs |
| Provider.DirectoryFromKeepsKeys | routing/provider.go:36-42 | filing further URLs never removes a hostname already in the directory |
| Provider.DirectoryFromLastWins | routing/provider.go:41 | one more configured URL is filed under its hostname and replaces any earlier URL with that hostname; a parse failure of it fails the build |
| Provider.BuildDirectory | routing/provider.go:34-42 | the constructor's loop yields exactly the specified directory, and every entry is keyed by its hostname |
| Provider.CaseVariantsBothMatch | routing/provider.go:78-86 | hosts "P2" and "p2" get distinct directory keys, yet both match the annotation value "p2" |
| Provider.MatchIsUnique | routing/provider.go:78-86 | when no two hostnames are equal up to case, at most one provider matches a value |
| Provider.ProviderRouting.constructor | routing/provider.go:49-53 | a new resolver has an empty cache, the given keyed directory and the given default provider |
| Provider.ProviderRouting.AddFunction | routing/provider.go:92-96 | the request is stored under its service name, replacing any earlier one without merging; every other entry is unchanged; the directory and default cannot change |
| Provider.ProviderRouting.GetFunction | routing/provider.go:98-104 | found exactly when the name is cached; the result is the cached request, whose service is the name; the cache is not modified |
| Provider.ProviderRouting.GetFunctions | routing/provider.go:106-115 | the snapshot holds every cached request exactly once: its length is the cache size, each element is the entry under its own name, and no name repeats |
| Provider.ProviderRouting.MatchBasedOnName | routing/provider.go:78-86 | returns some provider whose port-stripped hostname equals the value up to case, and nothing exactly when no provider matches |
| Provider.ProviderRouting.Resolve | routing/provider.go:56-76 | an uncached name fails with FunctionNotFound, never the default; nil annotations panic; no affinity annotation gives exactly the default; an annotation matching a hostname up to case gives a matching provider; an unmatched one gives the default; nothing is modified |
| Provider.NewDefaultProviderRouting | routing/provider.go:33-54 | fails with the first unparsable provider URL, then with an unparsable default URL; otherwise yields a fresh valid resolver with an empty cache, the built directory and the parsed default |
| Services.Endpoints | routing/services.go:20-26 | one URL per provider, in order, each the provider's URL with path /system/functions and its host kept; the first unparsable provider URL is the failure |
| Services.SystemFunctionUrls | routing/services.go:20-26 | the URL-building loop yields exactly the specified endpoint list |
| Services.GatheredPerKey | routing/services.go:53 | the list gathered under a key is its earlier list followed by every delivered list for that key, in result order; a key is present only if it was present before or something was delivered for it |
| Services.ProcessGathers | routing/services.go:30-56 | when every result is delivered, processing succeeds with every list appended under its provider's key |
| Services.StopsAtSoftFailure | routing/services.go:30-39 | a transport error or a status above 399 at position k makes the outcome equal to processing only the results before k |
| Services.FirstSoftFailureKeepsPrefix | routing/services.go:30-39 | if k is the first soft failure and all earlier results were delivered, the outcome is success with exactly the lists of the results before k |
| Services.ReadOrDecodeFailureIsFatal | routing/services.go:41-51 | a body that cannot be read or decoded, reached before any soft failure, fails the whole call and names its provider |
| Services.BreakDropsLaterProviders | routing/services.go:30-39 | with provider a unreachable and provider b listing a function, the code as written gathers nothing, while the skipping variant gathers b's list |
| Services.SkippingGathers | routing/services.go:30-39 | the skipping variant gathers every delivered list under its provider's key, whatever soft failures occur |
| Services.ReadServices | routing/services.go:19-56 | fails like the endpoint list when a provider URL does not parse; otherwise gives exactly the outcome of processing the fetched results, wrapped as a ReadServicesResult |
| Services.CreateRoundTrip | routing/services.go:59-79 | a summary carries the request's name, image, envProcess, labels and annotations with replica counts 1; converting back restores the request exactly when its other fields are zero values |
| Services.FunctionRoundTrip | routing/services.go:59-79 | a create request carries the summary's fields; converting back restores the summary exactly when both replica counts are 1 |

## Findings

| source | as written | input that shows it | evidently intended | confidence | as-written member | corrected member |
|---|---|---|---|---|---|---|
| routing/services.go:33 | `break` at the first transport error or status above 399 abandons every later provider | providers a and b; a's fetch fails with a transport error; b answers 200 with one function; the result has no entry for b | log the failing provider, skip it, and go on with the rest | medium, not executed | Services.BreakDropsLaterProviders | Services.SkippingGathers |

`ReadServices` keeps the code's behaviour and uses `Process`. The corrected
behaviour is `ProcessSkipping`. `SkippingGathers` proves that it gathers every
delivered list.

## Left out

- The `sync.RWMutex` locking around the cache. The model is sequential, and the lock discipline is about concurrency.
- The concurrent fetch `Get` and the HTTP exchange. They are the `fetch` parameter, so completion order and cancellation are not modelled.
- `url.Parse`, `ioutil.ReadAll`, `Body.Close` and `json.Unmarshal`. They are the `parse` and `decode` parameters and the optional body.
- Logging calls. They have no effect on results.
- main.go: logger setup and HTTP bootstrap wiring. There is no routing decision in them.
- Provider.EqualFold folds ASCII letters only. Go's `strings.EqualFold` also applies Unicode simple folding, for example the Kelvin sign and 'k'.
- Provider.ProviderRouting.MatchBasedOnName: which of several matching providers is returned depends on Go's map iteration order. The model promises only some matching provider.
- Pointer sharing: Go's conversions copy the labels and annotations pointers, so request and summary share one map. The model copies map values, so later aliasing writes are not captured.
- The `requests` package is not part of this model. Its types are rebuilt from the fields the routing code reads and writes. Registry auth, resource limits, namespace and invocation count are omitted. The `uint64` replica counts are `nat`.
- Provider.ProviderRouting.AddFunction, Provider.ProviderRouting.GetFunction, Provider.ProviderRouting.GetFunctions and Provider.ProviderRouting.Resolve: the Go cache stores and hands out `*CreateFunctionRequest` pointers, while the model's cache keeps a snapshot of each request. Writes a caller makes later through its pointer (to the request or its annotations map) are not captured, so neither is a stored `Service` that drifts from its cache key; the invariant that every entry is keyed by its own service rests on this. `AddFunction(nil)`, which panics on the nil dereference, has no counterpart.
- Function removal: the source has no delete operation on the cache, so none is modelled.
