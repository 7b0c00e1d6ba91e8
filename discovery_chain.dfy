/**
 * The compiled-discovery-chain cache type: how a discovery-chain request is
 * keyed in the agent's cache, and how one fetch reads the related config
 * entries by a blocking query and compiles them into a chain.
 */
module CacheTypes {
  import opened Wrappers
  import opened Builtin
  import opened Time
  import Strconv
  import Structs
  import Cache
  import Discoverychain

  /** Recommended name for registration. */
  const CompiledDiscoveryChainName: string := "compiled-discovery-chain"

  /** The RPC endpoint a fetch reads from. */
  const ListRelatedMethod: string := "ConfigEntry.ListRelated"

  const WrongTypePrefix: string := "Internal cache failure: request wrong type: "

  /**
   * The error for a request of another cache type: the fixed internal-failure
   * text followed by `typeName`, which is what `%T` prints for the request.
   */
  function WrongTypeError(typeName: string): (e: Error)
    ensures |e.Message| == |WrongTypePrefix| + |typeName|
    ensures e.Message[..|WrongTypePrefix|] == WrongTypePrefix
    ensures e.Message[|WrongTypePrefix|..] == typeName
  {
    Error(WrongTypePrefix + typeName)
  }

  lemma WrongTypeErrorSaysWrongType(typeName: string)
    ensures Contains(WrongTypeError(typeName).Message, "wrong type")
  {
    var msg := WrongTypeError(typeName).Message;
    assert msg[32..42] == "wrong type";
    assert OccursAt(msg, "wrong type", 32);
  }

  // ---------------------------------------------------------------------------
  // The RPC collaborator

  datatype RpcCall = RpcCall(Method: string, Args: Structs.RelatedConfigEntryQuery)

  type RpcHandler = (string, Structs.RelatedConfigEntryQuery) -> Result<Structs.IndexedGenericConfigEntries, Error>

  /**
   * The agent's RPC interface, as a stand-in whose answers are given by
   * `Handler` and which records every call it receives, in order.
   */
  class RPC {
    const Handler: RpcHandler
    var Calls: seq<RpcCall>

    constructor (handler: RpcHandler)
      ensures Handler == handler && Calls == []
    {
      Handler := handler;
      Calls := [];
    }

    /** Performs the remote procedure `name` with `args`; a success is the reply that Go fills in through its out-pointer. */
    method Call(name: string, args: Structs.RelatedConfigEntryQuery)
      returns (reply: Result<Structs.IndexedGenericConfigEntries, Error>)
      modifies this
      ensures Calls == old(Calls) + [RpcCall(name, args)]
      ensures reply == Handler(name, args)
    {
      Calls := Calls + [RpcCall(name, args)];
      reply := Handler(name, args);
    }
  }

  // ---------------------------------------------------------------------------
  // The request and its cache key

  /** The fields the cache key is computed from, and nothing else. */
  datatype KeyFields = KeyFields(
    ServiceName: string,
    EvaluateInDatacenter: string,
    EvaluateInNamespace: string)

  /** `hashstructure.Hash` on a `KeyFields` value: a deterministic hash that may fail. */
  type KeyHasher = KeyFields -> Option<uint64>

  /** The request of this cache type; `Fetch` writes into it through the caller's pointer. */
  class DiscoveryChainRequest {
    var ServiceName: string
    var EvaluateInDatacenter: string
    var EvaluateInNamespace: string
    /** Where the read is serviced; not part of the key. */
    var Datacenter: string
    var QueryOptions: Structs.QueryOptions

    constructor (serviceName: string, evaluateInDatacenter: string, evaluateInNamespace: string,
                 datacenter: string, queryOptions: Structs.QueryOptions)
      ensures ServiceName == serviceName && EvaluateInDatacenter == evaluateInDatacenter
      ensures EvaluateInNamespace == evaluateInNamespace && Datacenter == datacenter
      ensures QueryOptions == queryOptions
    {
      ServiceName := serviceName;
      EvaluateInDatacenter := evaluateInDatacenter;
      EvaluateInNamespace := evaluateInNamespace;
      Datacenter := datacenter;
      QueryOptions := queryOptions;
    }

    /** The fields hashed for the key: the service and its evaluation context, and no others. */
    function KeyInput(): (k: KeyFields)
      reads this
      ensures k.ServiceName == ServiceName
      ensures k.EvaluateInDatacenter == EvaluateInDatacenter
      ensures k.EvaluateInNamespace == EvaluateInNamespace
    {
      KeyFields(ServiceName, EvaluateInDatacenter, EvaluateInNamespace)
    }

    /**
     * The blocking-query parameters pass through to the cache engine unchanged;
     * the key is the decimal text of the hash of the key fields, and blank
     * exactly when hashing fails (which makes the engine bypass its cache).
     */
    function CacheInfo(hash: KeyHasher): (info: Cache.RequestInfo)
      reads this
      ensures info.Token == QueryOptions.Token
      ensures info.Datacenter == Datacenter
      ensures info.MinIndex == QueryOptions.MinQueryIndex
      ensures info.Timeout == QueryOptions.MaxQueryTime
      ensures info.MaxAge == QueryOptions.MaxAge
      ensures info.MustRevalidate == QueryOptions.MustRevalidate
      ensures info.Key == "" <==> hash(KeyInput()).None?
      ensures hash(KeyInput()).Some? ==>
                Strconv.IsDecimal(info.Key) && Strconv.DecimalValue(info.Key) == hash(KeyInput()).value as nat
    {
      var info := Cache.RequestInfo(
        "", QueryOptions.Token, Datacenter, QueryOptions.MinQueryIndex,
        QueryOptions.MaxQueryTime, QueryOptions.MaxAge, QueryOptions.MustRevalidate);
      match hash(KeyFields(ServiceName, EvaluateInDatacenter, EvaluateInNamespace))
      case Some(v) => info.(Key := Strconv.FormatUint(v))
      case None => info
    }
  }

  /**
   * Two requests that agree on the service name and the evaluation datacenter
   * and namespace share a key, whatever their token, read datacenter and
   * query options.
   */
  lemma KeyDependsOnlyOnKeyFields(hash: KeyHasher, a: DiscoveryChainRequest, b: DiscoveryChainRequest)
    requires a.KeyInput() == b.KeyInput()
    ensures a.CacheInfo(hash).Key == b.CacheInfo(hash).Key
  {
  }

  /** When both hashes succeed, the keys are equal exactly when the hashes are. */
  lemma KeysEqualIffHashesEqual(hash: KeyHasher, a: DiscoveryChainRequest, b: DiscoveryChainRequest)
    requires hash(a.KeyInput()).Some? && hash(b.KeyInput()).Some?
    ensures a.CacheInfo(hash).Key == b.CacheInfo(hash).Key <==> hash(a.KeyInput()) == hash(b.KeyInput())
  {
  }

  // ---------------------------------------------------------------------------
  // Requests as the cache engine hands them over

  /** `cache.Request`: this cache type's own request, or a request of some other cache type. */
  datatype Request =
    | DiscoveryChain(Request: DiscoveryChainRequest)
    | Other(TypeName: string, Info: Cache.RequestInfo)

  function Footprint(req: Request): set<object> {
    if req.DiscoveryChain? then {req.Request} else {}
  }

  /** The envelope a successful fetch returns as its value. */
  datatype DiscoveryChainResponse = DiscoveryChainResponse(
    ConfigEntries: Structs.DiscoveryChainConfigEntries,
    Chain: Option<Structs.CompiledDiscoveryChain>,
    QueryMeta: Structs.QueryMeta)

  /**
   * The query options a fetch reads with: the engine's minimum index and
   * timeout, stale reads always allowed, and every other option the caller's.
   */
  function BlockingOptions(opts: Cache.FetchOptions, qo: Structs.QueryOptions): (r: Structs.QueryOptions)
    ensures r.MinQueryIndex == opts.MinIndex && r.MaxQueryTime == opts.Timeout
    ensures r.AllowStale
    ensures r.Token == qo.Token && r.RequireConsistent == qo.RequireConsistent
    ensures r.MaxAge == qo.MaxAge && r.MustRevalidate == qo.MustRevalidate
  {
    qo.(MinQueryIndex := opts.MinIndex, MaxQueryTime := opts.Timeout, AllowStale := true)
  }

  // ---------------------------------------------------------------------------
  // The cache type

  class CompiledDiscoveryChain {
    const RPC: RPC
    const Compiler: Discoverychain.Compiler

    constructor (rpc: RPC, compiler: Discoverychain.Compiler)
      ensures RPC == rpc && Compiler == compiler
    {
      RPC := rpc;
      Compiler := compiler;
    }

    /** Fetches block until the index passes the engine's minimum or the timeout ends. */
    function SupportsBlocking(): (b: bool)
      ensures b
    {
      true
    }

    method Fetch(opts: Cache.FetchOptions, req: Request)
      returns (result: Cache.FetchResult<DiscoveryChainResponse>, err: Option<Error>)
      modifies RPC, Compiler, Footprint(req)
      // A request of another type fails before anything is read, written or called.
      ensures req.Other? ==>
                && err == Some(WrongTypeError(req.TypeName))
                && result == Cache.EmptyResult()
                && RPC.Calls == old(RPC.Calls)
                && Compiler.Requests == old(Compiler.Requests)
      // The caller's request now carries the blocking options; its key is unchanged.
      ensures req.DiscoveryChain? ==>
                var r := req.Request;
                && r.QueryOptions == BlockingOptions(opts, old(r.QueryOptions))
                && r.KeyInput() == old(r.KeyInput())
                && r.Datacenter == old(r.Datacenter)
      // Exactly one read, of the related config entries, from the read datacenter.
      ensures req.DiscoveryChain? ==>
                var r := req.Request;
                RPC.Calls == old(RPC.Calls) + [RpcCall(ListRelatedMethod, old(ListRelatedQuery(opts, r)))]
      // A failed read is returned as it is, without compiling.
      ensures req.DiscoveryChain? && RPC.Handler(ListRelatedMethod, old(ListRelatedQuery(opts, req.Request))).Failure? ==>
                && err == Some(RPC.Handler(ListRelatedMethod, old(ListRelatedQuery(opts, req.Request))).error)
                && result == Cache.EmptyResult()
                && Compiler.Requests == old(Compiler.Requests)
      // A successful read is compiled as seen from the evaluation datacenter and namespace.
      ensures req.DiscoveryChain? && RPC.Handler(ListRelatedMethod, old(ListRelatedQuery(opts, req.Request))).Success? ==>
                var reply := RPC.Handler(ListRelatedMethod, old(ListRelatedQuery(opts, req.Request))).value;
                var creq := ChainCompileRequest(req.Request, reply);
                && Compiler.Requests == old(Compiler.Requests) + [creq]
                && (Compiler.Fn(creq).Failure? ==>
                      err == Some(Compiler.Fn(creq).error) && result == Cache.EmptyResult())
                && (Compiler.Fn(creq).Success? ==>
                      && err == None
                      && result.Index == reply.QueryMeta.Index
                      && result.Value.Some?
                      && result.Value.value.Chain == Compiler.Fn(creq).value
                      && result.Value.value.QueryMeta == reply.QueryMeta
                      && fresh(result.Value.value.ConfigEntries)
                      && result.Value.value.ConfigEntries.Entries == reply.Entries)
    {
      result := Cache.EmptyResult();

      if !req.DiscoveryChain? {
        return result, Some(WrongTypeError(req.TypeName));
      }
      var reqReal := req.Request;

      // Block until the index passes the one the engine already has.
      reqReal.QueryOptions := reqReal.QueryOptions.(MinQueryIndex := opts.MinIndex);
      reqReal.QueryOptions := reqReal.QueryOptions.(MaxQueryTime := opts.Timeout);
      // The result is cache-served and stale anyway: let any server answer.
      reqReal.QueryOptions := reqReal.QueryOptions.(AllowStale := true);

      var cfgReq := Structs.RelatedConfigEntryQuery(reqReal.ServiceName, reqReal.Datacenter, reqReal.QueryOptions);
      var cfgReply := RPC.Call(ListRelatedMethod, cfgReq);
      if cfgReply.Failure? {
        return result, Some(cfgReply.error);
      }

      var entries := new Structs.DiscoveryChainConfigEntries();
      if |cfgReply.value.Entries| > 0 {
        entries.AddEntries(cfgReply.value.Entries);
      }

      // Then compile it into something useful.
      var compileReq := Discoverychain.CompileRequest(
        reqReal.ServiceName, reqReal.EvaluateInNamespace, reqReal.EvaluateInDatacenter, true, entries.Entries);
      assert compileReq == ChainCompileRequest(reqReal, cfgReply.value);
      var chain := Compiler.Compile(compileReq);
      if chain.Failure? {
        return result, Some(chain.error);
      }

      var reply := DiscoveryChainResponse(entries, chain.value, cfgReply.value.QueryMeta);
      result := result.(Value := Some(reply));
      result := result.(Index := reply.QueryMeta.Index);
      return result, None;
    }
  }

  /**
   * The query a fetch sends, in terms of the request `r` as the fetch found it:
   * the service name, the read datacenter (not the evaluation datacenter) and
   * the blocking options.
   */
  function ListRelatedQuery(opts: Cache.FetchOptions, r: DiscoveryChainRequest): (q: Structs.RelatedConfigEntryQuery)
    reads r
    ensures q.ServiceName == r.ServiceName
    ensures q.Datacenter == r.Datacenter
    ensures q.QueryOptions == BlockingOptions(opts, r.QueryOptions)
  {
    Structs.RelatedConfigEntryQuery(r.ServiceName, r.Datacenter, BlockingOptions(opts, r.QueryOptions))
  }

  /** What the compiler is asked: the service, as seen from the evaluation context, with defaults inferred. */
  function ChainCompileRequest(r: DiscoveryChainRequest, reply: Structs.IndexedGenericConfigEntries): (c: Discoverychain.CompileRequest)
    reads r
    ensures c.ServiceName == r.ServiceName
    ensures c.CurrentNamespace == r.EvaluateInNamespace && c.CurrentDatacenter == r.EvaluateInDatacenter
    ensures c.InferDefaults
    ensures c.Entries == reply.Entries
  {
    Discoverychain.CompileRequest(r.ServiceName, r.EvaluateInNamespace, r.EvaluateInDatacenter, true, reply.Entries)
  }
}
