# Compiled-discovery-chain cache type, modelled in Dafny

This project models the `compiled-discovery-chain` cache type of the Consul agent
(`agent/cache-types/discovery_chain.go`). It has two parts:

- **The key.** `DiscoveryChainRequest.CacheInfo` tells the agent cache how to key a request
  and how to block on it. The blocking-query parameters pass through unchanged. The key is
  the decimal text of a hash of the service name, the evaluation datacenter and the
  evaluation namespace. It is left blank when hashing fails, and a blank key makes the
  cache forward that request uncached.
- **The fetch.** `CompiledDiscoveryChain.Fetch` runs one step of the cache's watch loop:
  1. It rejects a request of another cache type.
  2. It writes the engine's minimum index and timeout into the caller's request and forces
     stale reads.
  3. It reads the related config entries through `ConfigEntry.ListRelated`.
  4. It puts them in an entries container and compiles them, with defaults inferred, as seen
     from the evaluation datacenter and namespace.
  5. It returns the chain, the container and the read's `QueryMeta`, with the read's index
     as the result index.

Layout, one module per Go package involved:

- `builtin.dfy`: `Builtin` (`uint64`, `int64`, `error`, `strings.Contains`) and `Time` (`time.Duration`).
- `wrappers.dfy`: `Option` and `Result`.
- `strconv.dfy`: `strconv.FormatUint(v, 10)`, written out as a decimal formatter.
- `structs.dfy`: the `structs` types, the `cache` types (`FetchOptions`, `RequestInfo`,
  `FetchResult`) and the compiler's interface (`Discoverychain`).
- `discovery_chain.dfy`: the cache type itself (`CacheTypes`).
- `discovery_chain_test.dfy`: the two scenarios from `discovery_chain_test.go`. Each is a
  client method whose postconditions are what that test asserts.

The three collaborators are inputs to the model:

- **RPC.** The `RPC` class is a stand-in. Its `Handler` function gives the answer (an error,
  or the entries and their `QueryMeta`), and it records every call in `Calls`. This lets
  `Fetch`'s contract state exactly which query went out, and that none went out on the
  wrong-type path.
- **Compiler.** `discoverychain.Compile` is a `Compiler` object. It wraps an arbitrary pure
  function `Fn` and records each request in `Requests`. This lets the contract state that a
  failed read leads to no compilation. `Success(None)` is "no chain", which is distinct from
  an error.
- **Hash.** `hashstructure.Hash` is a parameter of `CacheInfo`: an arbitrary total function
  from the three key fields to `Option<uint64>`. Nothing is assumed about collisions.

The request is a class because `Fetch` writes into the caller's request through its pointer.
`cache.Request` is a closed datatype with two variants: this cache type's request, or a
request of another type that carries the type name `%T` would print.

Points about the code that are easy to misread:

- The key covers only the service name, evaluation datacenter and evaluation namespace. The
  read `Datacenter` is not part of it. It reaches the engine separately, as
  `RequestInfo.Datacenter`.
- The hash may collide, so distinct key fields need not give distinct keys. What is proved
  is that the keys are equal exactly when the hashes are (`KeysEqualIffHashesEqual`).
- Besides making the read, `Fetch` updates the caller's request in place. The contract
  states the new request state, and that the update leaves the key fields untouched.
- Forcing `AllowStale` leaves the caller's `RequireConsistent` as it was. The outgoing query
  carries both, and the model keeps that.

## Model

| member | source | states |
|---|---|---|
| `Strconv.FormatUint` | agent/cache-types/discovery_chain.go:119-124 | The key text is a non-empty string of decimal digits with no leading zero, and it denotes exactly the hash value. |
| `Strconv.FormatUintInjective` | agent/cache-types/discovery_chain.go:123 | Two hash values have the same key text exactly when they are equal. |
| `CacheTypes.DiscoveryChainRequest.CacheInfo` | agent/cache-types/discovery_chain.go:100-127 | Token, Datacenter, MinQueryIndex→MinIndex, MaxQueryTime→Timeout, MaxAge and MustRevalidate pass through unchanged. The key is blank exactly when hashing the three key fields fails. Otherwise the key is the decimal text of the hash. |
| `CacheTypes.KeyDependsOnlyOnKeyFields` | agent/cache-types/discovery_chain.go:110-118 | Two requests that agree on ServiceName, EvaluateInDatacenter and EvaluateInNamespace get the same key, whatever their other fields. |
| `CacheTypes.KeysEqualIffHashesEqual` | agent/cache-types/discovery_chain.go:110-124 | When both hashes succeed, two requests' keys are equal exactly when their hashes are equal. |
| `CacheTypes.WrongTypeErrorSaysWrongType` | agent/cache-types/discovery_chain.go:26-30 | The error for a request of another type contains "wrong type", whatever the type name. |
| `CacheTypes.WrongTypeError` | agent/cache-types/discovery_chain.go:28-29 | The error message is the fixed internal-failure prefix followed by exactly the request's type name. |
| `CacheTypes.DiscoveryChainRequest.KeyInput` | agent/cache-types/discovery_chain.go:110-118 | The hashed value carries the request's ServiceName, EvaluateInDatacenter and EvaluateInNamespace, and no other field. |
| `CacheTypes.ListRelatedQuery` | agent/cache-types/discovery_chain.go:43-47 | The outgoing query carries the request's ServiceName, its read Datacenter (not EvaluateInDatacenter), and the blocking options built from the request's query options. |
| `CacheTypes.BlockingOptions` | agent/cache-types/discovery_chain.go:32-40 | The read's options take MinIndex and Timeout from the engine and always allow stale reads. Token, RequireConsistent, MaxAge and MustRevalidate stay the caller's. |
| `CacheTypes.ChainCompileRequest` | agent/cache-types/discovery_chain.go:60-67 | The compiler gets the request's ServiceName, EvaluateInNamespace as CurrentNamespace, EvaluateInDatacenter as CurrentDatacenter, InferDefaults set, and exactly the reply's entries. |
| `CacheTypes.CompiledDiscoveryChain.SupportsBlocking` | agent/cache-types/discovery_chain.go:83-85 | Always true. |
| `CacheTypes.CompiledDiscoveryChain.Fetch` | agent/cache-types/discovery_chain.go:22-81 | A request of another type gets the wrong-type error and an empty result, with no RPC, no compile and no write. Otherwise: the caller's request gets the blocking options and its other fields are unchanged. Exactly one ListRelated call is made, with the ServiceName, the read Datacenter and the blocking options. A read error comes back unchanged with an empty result and no compile. A compile error comes back unchanged with an empty result. On success: no error, Index equals the reply's QueryMeta.Index, and Value holds the compiled chain, the reply's QueryMeta and a new container holding exactly the reply's entries. |
| `CacheTypes.RPC.Call` | agent/cache-types/discovery_chain.go:49-53 | The call is appended to the record, and the answer is the handler's answer for that method and query. |
| `Discoverychain.Compiler.Compile` | agent/cache-types/discovery_chain.go:60-70 | The request is appended to the record, and the answer is the compile function's answer for it. |
| `Structs.DiscoveryChainConfigEntries.constructor` | agent/cache-types/discovery_chain.go:55 | A new container is empty. |
| `Structs.DiscoveryChainConfigEntries.AddEntries` | agent/cache-types/discovery_chain.go:56-58 | The container afterwards holds its old entries followed by the added ones. |
| `CacheTypesTest.TestCompiledDiscoveryChain` | agent/cache-types/discovery_chain_test.go:14-57 | For "web" read in dc1 and evaluated in dc1/default, with MinIndex 24, a 1s timeout and an empty reply at index 48: the one ListRelated call carries web, dc1, 24, 1s and AllowStale. The fetch succeeds with Index 48, an empty container, the default chain and the reply's whole QueryMeta (index 48). |
| `CacheTypesTest.TestCompiledDiscoveryChainBadReqType` | agent/cache-types/discovery_chain_test.go:59-69 | A request of another type gets an error containing "wrong type", and no RPC is made. |

## Left out

- The RPC transport, the blocking and stale-read behaviour of the server, and the network. The RPC is an arbitrary handler function.
- The internals of `discoverychain.Compile` and of the test helper `TestCompileConfigEntries`. The compiler is an arbitrary pure function, and the test takes the default chain as a parameter.
- `hashstructure.Hash`: an arbitrary function of the three key fields. Collision-freedom is not claimed.
- `strconv.FormatUint`: only base 10, the base the cache type uses.
- `structs.DiscoveryChainConfigEntries.AddEntries`: the container is an ordered sequence of entries. The real container sorts entries into maps by kind, which is not part of this model.
- `Discoverychain.Compiler.Compile`: the compiler receives the container's contents as a value, not the container's pointer. So a compiler that writes into the container is not modelled.
- The contents of config entries and compiled chains: both are abstract types.
- A nil `*DiscoveryChainRequest`, which passes the type assertion and then makes Go panic on the first field write. A request value here is never nil.
- `QueryOptions` fields the cache type never touches (`UseCache`, `MaxStaleDuration`, `StaleIfError`, `Filter`, `Connect`), and `QueryMeta` fields beyond `Index`, `LastContact` and `KnownLeader`.
- `agent/internal_endpoint.go`: it is the HTTP debug handler around the same read-and-compile path (URL trimming, status codes, response metadata). It is not part of this model.
- The cache engine itself (watch loop, deduplication, TTL, waking waiters), concurrency, and the meaning of `time.Duration`. Durations are copied, never computed with.
- The JSON field tags on `DiscoveryChainResponse`.
