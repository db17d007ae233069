/** The provider resolver of the federation gateway (routing/provider.go):
    a directory from port-stripped hostname to provider URL, a default
    provider, and a cache from function name to its last create request. */
module Provider {
  import opened Wrappers
  import opened Requests

  /** The annotation key whose value names the provider a function belongs to. */
  const FederationProviderNameConstraint: string := "com.openfaas.federation.gatewayx"

  datatype RoutingError =
    | InvalidProviderUrl(value: string)
    | InvalidDefaultUrl(value: string)
    | FunctionNotFound(name: string)
      /** The cached request has a nil annotations pointer: the Go code panics. */
    | NilAnnotations(name: string)

  // ---------------------------------------------------------------------
  // Hostnames and case-insensitive comparison
  // ---------------------------------------------------------------------

  /** The first piece of `s` split at ':', that is, everything before the first colon. */
  function BeforeColon(s: string): (r: string)
    ensures ':' !in r
    ensures r <= s
    ensures ':' !in s ==> r == s
    ensures ':' in s ==> |r| < |s| && s[|r|] == ':'
  {
    if s == [] then []
    else if s[0] == ':' then []
    else [s[0]] + BeforeColon(s[1..])
  }

  /** Splitting "host:port" at the first colon gives back the host. */
  lemma {:induction false} BeforeColonOfHostPort(host: string, port: string)
    requires ':' !in host
    ensures BeforeColon(host + ":" + port) == host
  {
    var s := host + ":" + port;
    assert s[|host|] == ':';
  }

  /** The hostname of a URL with any ":port" suffix removed. */
  function HostName(u: Url): (r: string)
    ensures ':' !in r && r <= u.host
    ensures ':' !in u.host ==> r == u.host
    ensures ':' in u.host ==> u.host[|r|] == ':'
  {
    BeforeColon(u.host)
  }

  /** ASCII lower-casing of one character. */
  function Lower(c: char): char
  {
    if 'A' <= c <= 'Z' then (c as int + 32) as char else c
  }

  /** Case-insensitive equality of two strings, folding ASCII letters only. */
  predicate EqualFold(a: string, b: string)
  {
    |a| == |b| && forall i :: 0 <= i < |a| ==> Lower(a[i]) == Lower(b[i])
  }

  lemma EqualFoldIsEquivalence(a: string, b: string, c: string)
    ensures EqualFold(a, a)
    ensures EqualFold(a, b) ==> EqualFold(b, a)
    ensures EqualFold(a, b) && EqualFold(b, c) ==> EqualFold(a, c)
  {
  }

  // ---------------------------------------------------------------------
  // The provider directory
  // ---------------------------------------------------------------------

  /** Every provider is filed under its own port-stripped hostname. */
  ghost predicate Keyed(d: map<string, Url>)
  {
    forall h :: h in d ==> HostName(d[h]) == h
  }

  /** No two hostnames of the directory are equal up to case. */
  ghost predicate FoldDistinct(d: map<string, Url>)
  {
    forall h1, h2 :: h1 in d && h2 in d && EqualFold(h1, h2) ==> h1 == h2
  }

  /** Some provider's port-stripped hostname equals `v` up to case. */
  ghost predicate Matches(d: map<string, Url>, v: string)
  {
    exists h :: h in d && EqualFold(HostName(d[h]), v)
  }

  /** The directory the configured URLs give, continuing from `acc`: each URL
      is parsed in order and filed under its hostname, a later URL replacing an
      earlier one with the same hostname; the first URL that does not parse
      fails the whole build. */
  function DirectoryFrom(acc: map<string, Url>, providers: seq<string>, parse: string -> Option<Url>)
    : Result<map<string, Url>, RoutingError>
    decreases |providers|
  {
    if providers == [] then Success(acc)
    else match parse(providers[0])
      case None => Failure(InvalidProviderUrl(providers[0]))
      case Some(u) => DirectoryFrom(acc[HostName(u) := u], providers[1..], parse)
  }

  function Directory(providers: seq<string>, parse: string -> Option<Url>): Result<map<string, Url>, RoutingError>
  {
    DirectoryFrom(map[], providers, parse)
  }

  /** The build fails exactly when some URL does not parse, and then it names the first such URL. */
  lemma {:induction false} DirectoryFromFailure(acc: map<string, Url>, providers: seq<string>, parse: string -> Option<Url>)
    ensures DirectoryFrom(acc, providers, parse).Failure?
        <==> exists i :: 0 <= i < |providers| && parse(providers[i]).None?
    ensures DirectoryFrom(acc, providers, parse).Failure? ==>
              exists i :: 0 <= i < |providers| && parse(providers[i]).None?
                && (forall j :: 0 <= j < i ==> parse(providers[j]).Some?)
                && DirectoryFrom(acc, providers, parse).error == InvalidProviderUrl(providers[i])
    decreases |providers|
  {
    if providers != [] {
      match parse(providers[0])
      case None =>
      case Some(u) =>
        var rest := providers[1..];
        DirectoryFromFailure(acc[HostName(u) := u], rest, parse);
        if exists i :: 0 <= i < |rest| && parse(rest[i]).None? {
          var i :| 0 <= i < |rest| && parse(rest[i]).None?;
          assert parse(providers[i + 1]).None?;
        }
        if exists i :: 0 <= i < |providers| && parse(providers[i]).None? {
          var i :| 0 <= i < |providers| && parse(providers[i]).None?;
          assert i > 0 && parse(rest[i - 1]).None?;
        }
        if DirectoryFrom(acc, providers, parse).Failure? {
          var i :| 0 <= i < |rest| && parse(rest[i]).None?
                && (forall j :: 0 <= j < i ==> parse(rest[j]).Some?)
                && DirectoryFrom(acc[HostName(u) := u], rest, parse).error == InvalidProviderUrl(rest[i]);
          assert forall j :: 0 <= j < i + 1 ==> parse(providers[j]).Some? by {
            forall j | 0 <= j < i + 1 ensures parse(providers[j]).Some? {
              if j > 0 { assert providers[j] == rest[j - 1]; }
            }
          }
        }
    }
  }

  /** A successful build files every configured URL under its hostname, keeps
      every entry keyed by its own hostname, and holds nothing but `acc`'s
      entries and configured URLs. */
  lemma {:induction false} DirectoryFromShape(acc: map<string, Url>, providers: seq<string>, parse: string -> Option<Url>)
    requires Keyed(acc)
    requires DirectoryFrom(acc, providers, parse).Success?
    ensures Keyed(DirectoryFrom(acc, providers, parse).value)
    ensures forall i :: 0 <= i < |providers| ==>
              parse(providers[i]).Some? && HostName(parse(providers[i]).value) in DirectoryFrom(acc, providers, parse).value
    ensures forall h :: h in DirectoryFrom(acc, providers, parse).value ==>
              (h in acc && DirectoryFrom(acc, providers, parse).value[h] == acc[h])
              || exists i :: 0 <= i < |providers| && parse(providers[i]) == Some(DirectoryFrom(acc, providers, parse).value[h])
    decreases |providers|
  {
    if providers != [] {
      var u := parse(providers[0]).value;
      var acc' := acc[HostName(u) := u];
      var rest := providers[1..];
      DirectoryFromShape(acc', rest, parse);
      var d := DirectoryFrom(acc, providers, parse).value;
      assert d == DirectoryFrom(acc', rest, parse).value;
      forall i | 0 <= i < |providers|
        ensures parse(providers[i]).Some? && HostName(parse(providers[i]).value) in d
      {
        if i > 0 {
          assert providers[i] == rest[i - 1];
        } else {
          DirectoryFromKeepsKeys(acc', rest, parse);
        }
      }
      forall h | h in d
        ensures (h in acc && d[h] == acc[h])
             || exists i :: 0 <= i < |providers| && parse(providers[i]) == Some(d[h])
      {
        if !(h in acc' && d[h] == acc'[h]) {
          var i :| 0 <= i < |rest| && parse(rest[i]) == Some(d[h]);
          assert parse(providers[i + 1]) == Some(d[h]);
        } else if h == HostName(u) {
          assert parse(providers[0]) == Some(d[h]);
        }
      }
    }
  }

  /** Building further never drops a hostname already in the directory. */
  lemma {:induction false} DirectoryFromKeepsKeys(acc: map<string, Url>, providers: seq<string>, parse: string -> Option<Url>)
    requires DirectoryFrom(acc, providers, parse).Success?
    ensures acc.Keys <= DirectoryFrom(acc, providers, parse).value.Keys
    decreases |providers|
  {
    if providers != [] {
      var u := parse(providers[0]).value;
      DirectoryFromKeepsKeys(acc[HostName(u) := u], providers[1..], parse);
    }
  }

  /** Last write wins: configuring one more URL files it under its hostname,
      over whatever an earlier URL put there. */
  lemma {:induction false} DirectoryFromLastWins(acc: map<string, Url>, providers: seq<string>, s: string, parse: string -> Option<Url>)
    ensures DirectoryFrom(acc, providers + [s], parse) ==
      match DirectoryFrom(acc, providers, parse)
      case Failure(e) => Failure(e)
      case Success(d) =>
        match parse(s)
        case None => Failure(InvalidProviderUrl(s))
        case Some(u) => Success(d[HostName(u) := u])
    decreases |providers|
  {
    if providers == [] {
      assert providers + [s] == [s];
    } else {
      assert (providers + [s])[1..] == providers[1..] + [s];
      match parse(providers[0])
      case None =>
      case Some(u) => DirectoryFromLastWins(acc[HostName(u) := u], providers[1..], s, parse);
    }
  }

  /** The loop of NewDefaultProviderRouting that fills the provider map. */
  method BuildDirectory(providers: seq<string>, parse: string -> Option<Url>)
    returns (r: Result<map<string, Url>, RoutingError>)
    ensures r == Directory(providers, parse)
    ensures r.Success? ==> Keyed(r.value)
  {
    var providerMap: map<string, Url> := map[];
    var i := 0;
    while i < |providers|
      invariant 0 <= i <= |providers|
      invariant DirectoryFrom(providerMap, providers[i..], parse) == Directory(providers, parse)
    {
      var v := providers[i];
      assert providers[i..][1..] == providers[i + 1..];
      match parse(v) {
        case None =>
          return Failure(InvalidProviderUrl(v));
        case Some(pUrl) =>
          providerMap := providerMap[HostName(pUrl) := pUrl];
      }
      i := i + 1;
    }
    r := Success(providerMap);
    assert Keyed(map[]);
    DirectoryFromShape(map[], providers, parse);
  }

  /** Two configured hosts that differ only in letter case get distinct
      directory keys, and both match the annotation value "p2": the directory
      alone does not make the match unique. */
  lemma CaseVariantsBothMatch()
    ensures HostName(Url("http", "P2", "")) != HostName(Url("http", "p2", ""))
    ensures EqualFold(HostName(Url("http", "P2", "")), "p2")
    ensures EqualFold(HostName(Url("http", "p2", "")), "p2")
  {
    assert ':' !in "P2" && ':' !in "p2";
    assert Lower('P') == 'p';
  }

  /** When hostnames are distinct up to case, at most one provider matches a value. */
  lemma MatchIsUnique(d: map<string, Url>, v: string, u1: Url, u2: Url)
    requires Keyed(d) && FoldDistinct(d)
    requires u1 in d.Values && u2 in d.Values
    requires EqualFold(HostName(u1), v) && EqualFold(HostName(u2), v)
    ensures u1 == u2
  {
  }

  // ---------------------------------------------------------------------
  // The resolver and its function cache
  // ---------------------------------------------------------------------

  class ProviderRouting {
    /** Function name to the last create request recorded for it. */
    var cache: map<string, CreateFunctionRequest>
    /** Port-stripped hostname to provider URL; fixed once built. */
    const providers: map<string, Url>
    const defaultProvider: Url

    ghost predicate Valid()
      reads this
    {
      && Keyed(providers)
      && forall n :: n in cache ==> cache[n].service == n
    }

    constructor (providers: map<string, Url>, defaultProvider: Url)
      requires Keyed(providers)
      ensures Valid()
      ensures cache == map[]
      ensures this.providers == providers && this.defaultProvider == defaultProvider
    {
      this.providers := providers;
      this.defaultProvider := defaultProvider;
      cache := map[];
    }

    /** Records a create request, replacing any earlier one with the same name. */
    method AddFunction(f: CreateFunctionRequest)
      requires Valid()
      modifies this`cache
      ensures Valid()
      ensures cache == old(cache)[f.service := f]
      ensures forall n :: n in old(cache) && n != f.service ==> n in cache && cache[n] == old(cache)[n]
    {
      cache := cache[f.service := f];
    }

    method GetFunction(name: string) returns (r: Option<CreateFunctionRequest>)
      requires Valid()
      ensures r.Some? <==> name in cache
      ensures r.Some? ==> r.value == cache[name] && r.value.service == name
    {
      if name in cache {
        r := Some(cache[name]);
      } else {
        r := None;
      }
    }

    /** A snapshot of the cache: each cached request once, in no particular order. */
    method GetFunctions() returns (result: seq<CreateFunctionRequest>)
      requires Valid()
      ensures |result| == |cache|
      ensures forall i :: 0 <= i < |result| ==>
                result[i].service in cache && cache[result[i].service] == result[i]
      ensures forall i, j :: 0 <= i < j < |result| ==> result[i].service != result[j].service
      ensures forall n :: n in cache ==> exists i :: 0 <= i < |result| && result[i].service == n
    {
      result := [];
      var remaining := cache.Keys;
      while remaining != {}
        invariant remaining <= cache.Keys
        invariant |result| + |remaining| == |cache.Keys|
        invariant forall i :: 0 <= i < |result| ==>
                    result[i].service in cache.Keys - remaining && cache[result[i].service] == result[i]
        invariant forall i, j :: 0 <= i < j < |result| ==> result[i].service != result[j].service
        invariant forall n :: n in cache.Keys - remaining ==> exists i :: 0 <= i < |result| && result[i].service == n
        decreases remaining
      {
        var n :| n in remaining;
        ghost var before, done := result, cache.Keys - remaining;
        result := result + [cache[n]];
        remaining := remaining - {n};
        forall m | m in cache.Keys - remaining
          ensures exists i :: 0 <= i < |result| && result[i].service == m
        {
          if m == n {
            assert result[|before|].service == m;
          } else {
            assert m in done;
            var i :| 0 <= i < |before| && before[i].service == m;
            assert result[i].service == m;
          }
        }
      }
      assert cache.Keys - remaining == cache.Keys;
    }

    /** Searches the directory, in an unspecified order, for a provider whose
        port-stripped hostname equals `v` up to case. */
    method MatchBasedOnName(v: string) returns (r: Option<Url>)
      ensures r.Some? ==> r.value in providers.Values && EqualFold(HostName(r.value), v)
      ensures r.None? <==> !Matches(providers, v)
    {
      var remaining := providers.Keys;
      while remaining != {}
        invariant remaining <= providers.Keys
        invariant forall h :: h in providers.Keys - remaining ==> !EqualFold(HostName(providers[h]), v)
        decreases remaining
      {
        var h :| h in remaining;
        var u := providers[h];
        if EqualFold(HostName(u), v) {
          return Some(u);
        }
        remaining := remaining - {h};
      }
      r := None;
    }

    /** The provider a function's requests go to. */
    method Resolve(functionName: string) returns (r: Result<Url, RoutingError>)
      requires Valid()
      ensures functionName !in cache ==> r == Failure(FunctionNotFound(functionName))
      ensures functionName in cache && cache[functionName].annotations.None? ==>
                r == Failure(NilAnnotations(functionName))
      ensures functionName in cache && cache[functionName].annotations.Some? ==>
                var ann := cache[functionName].annotations.value;
                if FederationProviderNameConstraint !in ann then
                  r == Success(defaultProvider)
                else if Matches(providers, ann[FederationProviderNameConstraint]) then
                  r.Success? && r.value in providers.Values
                  && EqualFold(HostName(r.value), ann[FederationProviderNameConstraint])
                else
                  r == Success(defaultProvider)
    {
      var f := GetFunction(functionName);
      if f.None? {
        return Failure(FunctionNotFound(functionName));
      }
      match f.value.annotations
      case None =>
        return Failure(NilAnnotations(functionName));
      case Some(ann) =>
        if FederationProviderNameConstraint !in ann {
          return Success(defaultProvider);
        }
        var c := ann[FederationProviderNameConstraint];
        var pUrl := MatchBasedOnName(c);
        if pUrl.None? {
          return Success(defaultProvider);
        }
        return Success(pUrl.value);
    }
  }

  /** Builds the directory from the configured URLs, parses the default
      provider's URL, and starts with an empty cache. */
  method NewDefaultProviderRouting(providers: seq<string>, defaultProvider: string, parse: string -> Option<Url>)
    returns (r: Result<ProviderRouting, RoutingError>)
    ensures Directory(providers, parse).Failure? ==> r == Failure(Directory(providers, parse).error)
    ensures Directory(providers, parse).Success? && parse(defaultProvider).None? ==>
              r == Failure(InvalidDefaultUrl(defaultProvider))
    ensures r.Success? <==> Directory(providers, parse).Success? && parse(defaultProvider).Some?
    ensures r.Success? ==>
              && fresh(r.value) && r.value.Valid() && r.value.cache == map[]
              && r.value.providers == Directory(providers, parse).value
              && r.value.defaultProvider == parse(defaultProvider).value
  {
    var providerMap := BuildDirectory(providers, parse);
    if providerMap.Failure? {
      return Failure(providerMap.error);
    }
    var d := parse(defaultProvider);
    if d.None? {
      return Failure(InvalidDefaultUrl(defaultProvider));
    }
    var routing := new ProviderRouting(providerMap.value, d.value);
    return Success(routing);
  }

  /** Two providers on the same port, the first of them the default: a
      function pinned to the second resolves there, once re-registered without
      the pin it resolves to the default, and an unknown name fails. */
  method FederationExample(h1: string, h2: string, port: string, echo: CreateFunctionRequest)
    requires ':' !in h1 && ':' !in h2 && !EqualFold(h1, h2)
  {
    var p1 := Url("http", h1 + ":" + port, "");
    var p2 := Url("http", h2 + ":" + port, "");
    BeforeColonOfHostPort(h1, port);
    BeforeColonOfHostPort(h2, port);
    EqualFoldIsEquivalence(h2, h2, h2);
    var routing := new ProviderRouting(map[h1 := p1, h2 := p2], p1);

    var pinned := echo.(annotations := Some(map[FederationProviderNameConstraint := h2]));
    routing.AddFunction(pinned);
    var r := routing.Resolve(echo.service);
    assert r == Success(p2) by {
      assert routing.cache[echo.service] == pinned;
      assert h2 in routing.providers && EqualFold(HostName(routing.providers[h2]), h2);
      assert r.Success? && r.value in {p1, p2};
    }

    routing.AddFunction(echo.(annotations := Some(map[])));
    r := routing.Resolve(echo.service);
    assert r == Success(p1);

    if "unknown" != echo.service {
      r := routing.Resolve("unknown");
      assert r == Failure(FunctionNotFound("unknown"));
    }
  }
}
