# cache-engine: a Dafny model of `CacheEngineDB.cache`

`cache-engine` memoises function calls in a MongoDB collection. A caller
wraps a call as `cache({ id, fn, fetchPolicy }, ...args)`; the engine
derives the key `${id}_${JSON.stringify(args)}`, refuses to run before
`connect` has set its database handle, and then, according to the fetch
policy, looks the key up, calls `fn`, and appends `{ key, value:
JSON.stringify(result) }` to the collection. Every error met on the way is
rethrown.

The model:

- `Wrappers` (`wrappers.dfy`): `Option` and `Result` (returned or thrown).
- `Js` (`js.dfy`): thrown errors and the JSON implementation. `stringify`,
  `parse` and the packing of rest arguments into an array are function
  values handed to the engine and left uninterpreted. No round-trip law and
  no injectivity is assumed of them.
- `FetchPolicy` (`fetch_policy.dfy`): the string enum, the default for an
  omitted policy, and the two tests `cache` makes of the policy string.
- `Keys` (`keys.dfy`): key derivation.
- `Store` (`store.dfy`): the cache collection as a sequence of documents in
  insertion order. `findOne({ key })` answers the first document with that
  key. `insertOne` appends. The class `Collection` holds the documents and
  ghost counters of the requests sent to the server.
- `Engine` (`engine.dfy`): `Respond`, a function giving the outcome of one
  `cache` call (result or error, documents afterwards, number of lookups,
  calls and inserts), and the class `CacheEngineDB` whose `Cache` method
  runs the source's steps on the collection object and is proved to do
  what `Respond` says. A ghost counter `calls` counts wrapped-function calls.
- `EngineProperties` (`engine_properties.dfy`): the per-policy behaviour,
  error propagation and two-call behaviour, proved about `Respond`.

Behaviour the model follows because the code does it, where an idealised
memoiser would differ:

- A failed lookup, a stored value `JSON.parse` rejects, a result
  `JSON.stringify` rejects and a failed insert are all rethrown. None of
  them is treated as a miss or ignored (src/index.ts:98-101).
- A policy string outside the enum is not refused. It fails the
  `=== CacheAndNetwork` test and passes the `!== NetworkOnly` test, so it
  acts as NetworkAndCache (src/index.ts:84, 94).
- `insertOne` appends and never replaces. NetworkAndCache therefore adds a
  second document for a key that already has one, and later
  CacheAndNetwork lookups still return the first, older document
  (`EngineProperties.NetworkAndCacheLeavesServedDocument`).
- The key is computed before the connection check, so an argument list
  `JSON.stringify` rejects throws that error even before `connect`
  (src/index.ts:77 before 79).

## Model

| member | source | states |
|---|---|---|
| `FetchPolicy.FetchPolicy.Wire` | src/index.ts:8-12 | each enum member stands for its own string, `'cache-and-network'`, `'network-and-cache'`, `'network-only'`, and no two members share one |
| `FetchPolicy.ConsultsStore` | src/index.ts:84 | the store is read only for the string `'cache-and-network'`, and that policy also writes |
| `FetchPolicy.PersistsResult` | src/index.ts:94 | every policy string except `'network-only'` writes the result, both other enum strings included |
| `FetchPolicy.EffectivePolicy` | src/index.ts:76 | an omitted policy becomes `'cache-and-network'`; a given string is used as is, unchecked |
| `FetchPolicy.PolicyTable` | src/index.ts:8-12 | of the enum members, only CacheAndNetwork reads the store first and only NetworkOnly skips the write |
| `FetchPolicy.UnrecognisedPolicyActsAsNetworkAndCache` | src/index.ts:84-96 | a string outside the enum gets the same two decisions as NetworkAndCache |
| `Keys.CacheKey` | src/index.ts:77 | the key fails exactly when stringifying the argument array fails, with that error; otherwise it is the id, then `_`, then the JSON text of the argument array |
| `Keys.KeyDeterminesArguments` | src/index.ts:77 | for one id, equal keys mean equal JSON text of the arguments |
| `Keys.UnderscoreFreeIdsDoNotCollide` | src/index.ts:77 | two ids without `_` share a key only if the ids are equal and the argument texts are equal |
| `Store.FirstMatch` | src/index.ts:86 | the position returned holds the key and no earlier document does; the end when none does |
| `Store.FirstWithKey` | src/index.ts:86 | `findOne` answers a document of the collection with the key, and answers nothing exactly when no document has the key |
| `Store.AppendKeepsFirstWithKey` | src/index.ts:95 | appending a document never changes what `findOne` answers for a key already present |
| `Store.AppendToMissIsFound` | src/index.ts:95 | after appending the first document for a key, `findOne` answers that document |
| `Store.Collection.FindOne` | src/index.ts:86 | one lookup request; throws the server's error or answers the first document with the key; documents unchanged |
| `Store.Collection.InsertOne` | src/index.ts:95 | one insert request; throws the server's error with documents unchanged, or appends the document |
| `Engine.InvokeAndPersist` | src/index.ts:93-97 | one call of `fn`, whose error is rethrown with nothing written; under NetworkOnly its result is returned unwritten; under a writing policy a stringify error or a refused insert is rethrown with nothing written, and a served insert appends (key, JSON text of the result) and returns the result |
| `Engine.Respond` | src/index.ts:68-102 | at most one lookup, call and insert; nothing happens before the key exists and `db` is set; no write without a call; the collection only grows, by one document with this call's key |
| `Engine.CacheEngineDB.constructor` | src/index.ts:14-19 | a new engine has no database handle |
| `Engine.CacheEngineDB.Connect` | src/index.ts:21-38 | a successful connect sets the handle; a failed one is swallowed and leaves it as it was |
| `Engine.CacheEngineDB.Cache` | src/index.ts:68-102 | the result, the documents afterwards and the lookup, call and insert counters are those `Respond` gives for the state before the call; the handle is unchanged |
| `EngineProperties.KeyErrorPrecedesInitCheck` | src/index.ts:76-81 | an argument list that cannot be stringified throws that error whether or not connected, touching nothing |
| `EngineProperties.NotConnectedThrows` | src/index.ts:79-81 | without `db`, `cache` throws "Database is not initialized." with no lookup, call or write |
| `EngineProperties.OmittedPolicyIsCacheAndNetwork` | src/index.ts:76 | omitting the policy behaves exactly as passing CacheAndNetwork |
| `EngineProperties.UnrecognisedPolicyIsNetworkAndCache` | src/index.ts:84-97 | any policy string outside the enum behaves exactly as NetworkAndCache |
| `EngineProperties.CacheHitServesFirstDocument` | src/index.ts:84-89 | CacheAndNetwork with a stored document: the parse of the first one is returned or its error thrown; no call, no write |
| `EngineProperties.CacheMissCallsOnceAndAppends` | src/index.ts:84-97 | CacheAndNetwork with no document: one lookup, one call; on success one document (key, JSON text of result) appended and the result returned |
| `EngineProperties.NetworkAndCacheCallsOnceAndAppends` | src/index.ts:93-97 | NetworkAndCache: no lookup, one call; on success one document appended after all existing ones and the result returned |
| `EngineProperties.NetworkOnlyBypassesStore` | src/index.ts:84-97 | NetworkOnly: no lookup, no write, one call, and `fn`'s own outcome is the outcome |
| `EngineProperties.FunctionErrorIsRethrown` | src/index.ts:93-101 | a throwing `fn` has its error rethrown unchanged and nothing written |
| `EngineProperties.StoreAndJsonErrorsAreRethrown` | src/index.ts:84-101 | a failed lookup throws without calling `fn`; an unstringifiable result or a refused insert throws with the collection unchanged |
| `EngineProperties.WrittenResultIsServedNext` | src/index.ts:84-97 | after a call that wrote, a CacheAndNetwork call with the same id and arguments does not call `fn`; if the key was new it returns the parse of the text just written |
| `EngineProperties.NetworkAndCacheLeavesServedDocument` | src/index.ts:86-95 | a call never changes which document a lookup answers for a key that already had one |

## Left out

- `connect`'s work (src/index.ts:21-38): opening the MongoDB client and
  listing databases is network I/O. Only its effect on the handle is
  modelled, by `Connect`, whose argument says whether it succeeded.
- `ensureDatabaseAndCollection` and `ensureKeyIndex` (src/index.ts:40-66):
  administrative calls into the driver. Indexes do not change what
  `findOne` answers. The database is modelled as the one cache collection.
- The MongoDB driver and server: the `_id` field `insertOne` adds, and the
  order `findOne` scans in (taken to be insertion order). A failed
  `insertOne` is taken to leave the collection unchanged.
- The behaviour of `JSON.stringify` and `JSON.parse`: uninterpreted. The
  case where `JSON.stringify` returns `undefined` instead of a string (a
  result that is `undefined` or a function) is not distinguished from a
  string.
- `Store.FirstWithKey`: its contract says the document found is in the
  collection and has the key; that it is the first one is stated by
  `Store.FirstMatch`, which it uses.
- `async`/`await` and concurrent callers: each `cache` call is one atomic
  sequential method. Two concurrent calls with one key can both miss and
  both write; that is not modelled.
- `console.warn` and `console.error`: output only.
- Errors are compared by message only; JavaScript throws arbitrary values.
- `fn` is a pure function of the arguments here. A JavaScript `fn` may have
  side effects or answer differently each time; the ghost counter `calls`
  records how often it is called.
