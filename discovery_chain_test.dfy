/** The two scenarios of the cache type's tests, as clients of its contracts. */
module CacheTypesTest {
  import opened Wrappers
  import opened Builtin
  import opened Time
  import Structs
  import Cache
  import Discoverychain
  import opened CacheTypes

  /**
   * Service "web" read in "dc1" and evaluated in "dc1"/"default" while the
   * engine waits past index 24 for up to a second; the read finds no entries
   * at index 48, and the compiler infers the default chain.
   */
  method TestCompiledDiscoveryChain(defaultChain: Structs.CompiledDiscoveryChain)
    returns (result: Cache.FetchResult<DiscoveryChainResponse>, err: Option<Error>, calls: seq<RpcCall>)
    ensures |calls| == 1 && calls[0].Method == "ConfigEntry.ListRelated"
    ensures calls[0].Args.ServiceName == "web" && calls[0].Args.Datacenter == "dc1"
    ensures calls[0].Args.QueryOptions.MinQueryIndex == 24
    ensures calls[0].Args.QueryOptions.MaxQueryTime == Second
    ensures calls[0].Args.QueryOptions.AllowStale
    ensures err == None
    ensures result.Index == 48
    ensures result.Value.Some?
    ensures result.Value.value.ConfigEntries.Entries == []
    ensures result.Value.value.Chain == Some(defaultChain)
    ensures result.Value.value.QueryMeta == Structs.QueryMeta(48, 0, false)
  {
    var reply := Structs.IndexedGenericConfigEntries([], Structs.QueryMeta(48, 0, false));
    var rpc := new RPC((name, args) => Success(reply));
    var expected := Discoverychain.CompileRequest("web", "default", "dc1", true, []);
    var compiler := new Discoverychain.Compiler(
      req => if req == expected then Success(Some(defaultChain)) else Failure(Error("unexpected compile request")));
    var typ := new CompiledDiscoveryChain(rpc, compiler);

    var req := new DiscoveryChainRequest("web", "dc1", "default", "dc1",
      Structs.QueryOptions("", 0, 0, false, false, 0, false));
    result, err := typ.Fetch(Cache.FetchOptions(24, Second), DiscoveryChain(req));
    calls := rpc.Calls;
  }

  /** A request of another cache type fails with a "wrong type" error and reads nothing. */
  method TestCompiledDiscoveryChainBadReqType() returns (err: Option<Error>, calls: seq<RpcCall>)
    ensures err.Some? && Contains(err.value.Message, "wrong type")
    ensures calls == []
  {
    var rpc := new RPC((name, args) => Failure(Error("unexpected call")));
    var compiler := new Discoverychain.Compiler(req => Failure(Error("unexpected compile request")));
    var typ := new CompiledDiscoveryChain(rpc, compiler);

    var other := Other("*cache.MockRequest", Cache.RequestInfo("foo", "", "", 64, 0, 0, false));
    var _, e := typ.Fetch(Cache.FetchOptions(0, 0), other);
    WrongTypeErrorSaysWrongType("*cache.MockRequest");
    err, calls := e, rpc.Calls;
  }
}
