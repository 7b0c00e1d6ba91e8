/** The types of package `structs` that the discovery-chain cache type exchanges with its collaborators. */
module Structs {
  import opened Builtin
  import opened Time

  /** A configuration entry (`structs.ConfigEntry`); its kinds and contents are not part of this model. */
  type ConfigEntry(==)

  /** The compiled routing graph (`structs.CompiledDiscoveryChain`); built by the compiler only. */
  type CompiledDiscoveryChain(==)

  /** The blocking-query and staleness parameters of a read (`structs.QueryOptions`). */
  datatype QueryOptions = QueryOptions(
    Token: string,
    MinQueryIndex: uint64,
    MaxQueryTime: Duration,
    AllowStale: bool,
    RequireConsistent: bool,
    MaxAge: Duration,
    MustRevalidate: bool)

  /** What a read reports about itself (`structs.QueryMeta`). */
  datatype QueryMeta = QueryMeta(Index: uint64, LastContact: Duration, KnownLeader: bool)

  /** The argument of `ConfigEntry.ListRelated`. */
  datatype RelatedConfigEntryQuery = RelatedConfigEntryQuery(
    ServiceName: string,
    Datacenter: string,
    QueryOptions: QueryOptions)

  /** The reply of `ConfigEntry.ListRelated`. */
  datatype IndexedGenericConfigEntries = IndexedGenericConfigEntries(
    Entries: seq<ConfigEntry>,
    QueryMeta: QueryMeta)

  /** The entries container the compiler reads (`structs.DiscoveryChainConfigEntries`). */
  class DiscoveryChainConfigEntries {
    var Entries: seq<ConfigEntry>

    /** `structs.NewDiscoveryChainConfigEntries()`: a new, empty container. */
    constructor ()
      ensures Entries == []
    {
      Entries := [];
    }

    method AddEntries(entries: seq<ConfigEntry>)
      modifies this
      ensures Entries == old(Entries) + entries
    {
      Entries := Entries + entries;
    }
  }
}

/** The types of package `cache` through which the cache engine talks to a cache type. */
module Cache {
  import opened Wrappers
  import opened Builtin
  import opened Time

  /** Supplied by the cache engine on every fetch. */
  datatype FetchOptions = FetchOptions(MinIndex: uint64, Timeout: Duration)

  /** What a request tells the cache engine about itself; a blank `Key` means "do not cache". */
  datatype RequestInfo = RequestInfo(
    Key: string,
    Token: string,
    Datacenter: string,
    MinIndex: uint64,
    Timeout: Duration,
    MaxAge: Duration,
    MustRevalidate: bool)

  /** What a fetch hands back; the zero value (no value, index 0) goes with every error. */
  datatype FetchResult<V> = FetchResult(Value: Option<V>, Index: uint64)

  function EmptyResult<V>(): FetchResult<V> {
    FetchResult(None, 0)
  }
}

/**
 * The compiler of package `discoverychain`, seen at its interface only. It is
 * a pure function of its request; the object around it records each request
 * it receives so that callers can state which compilations took place.
 */
module Discoverychain {
  import opened Wrappers
  import opened Builtin
  import Structs

  datatype CompileRequest = CompileRequest(
    ServiceName: string,
    CurrentNamespace: string,
    CurrentDatacenter: string,
    InferDefaults: bool,
    Entries: seq<Structs.ConfigEntry>)

  /** `Success(None)` is "no chain for this service", distinct from a compile error. */
  type CompileFunction = CompileRequest -> Result<Option<Structs.CompiledDiscoveryChain>, Error>

  class Compiler {
    const Fn: CompileFunction
    var Requests: seq<CompileRequest>

    constructor (fn: CompileFunction)
      ensures Fn == fn && Requests == []
    {
      Fn := fn;
      Requests := [];
    }

    /** `discoverychain.Compile`. */
    method Compile(req: CompileRequest) returns (res: Result<Option<Structs.CompiledDiscoveryChain>, Error>)
      modifies this
      ensures Requests == old(Requests) + [req]
      ensures res == Fn(req)
    {
      Requests := Requests + [req];
      res := Fn(req);
    }
  }
}
