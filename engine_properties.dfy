/** What `cache` promises, stated about `Engine.Respond` (and so, through
    the postcondition of `CacheEngineDB.Cache`, about the method itself). */
module EngineProperties {
  import opened Wrappers
  import opened Js
  import opened FetchPolicy
  import opened Keys
  import opened Store
  import opened Engine

  /** The key is derived before the connection is checked: an argument list
      that cannot be stringified throws that error, connected or not, and
      nothing else happens. */
  lemma KeyErrorPrecedesInitCheck<V>(json: Json<V>, connected: bool, documents: seq<Document>,
                                     options: Options<V>, args: seq<V>, faults: Faults)
    requires json.stringify(json.gather(args)).Failure?
    ensures Respond(json, connected, documents, options, args, faults)
         == Outcome(Failure(json.stringify(json.gather(args)).error), documents, 0, 0, 0)
  {
  }

  /** Before `connect` has set `db`, `cache` throws "Database is not
      initialized." without reading, calling or writing anything. */
  lemma NotConnectedThrows<V>(json: Json<V>, documents: seq<Document>, options: Options<V>,
                              args: seq<V>, faults: Faults)
    requires CacheKey(json, options.id, args).Success?
    ensures Respond(json, false, documents, options, args, faults)
         == Outcome(Failure(Error("Database is not initialized.")), documents, 0, 0, 0)
  {
  }

  /** Omitting `fetchPolicy` is the same as passing CacheAndNetwork. */
  lemma OmittedPolicyIsCacheAndNetwork<V>(json: Json<V>, connected: bool, documents: seq<Document>,
                                          options: Options<V>, args: seq<V>, faults: Faults)
    requires options.fetchPolicy.None?
    ensures Respond(json, connected, documents, options, args, faults)
         == Respond(json, connected, documents, options.(fetchPolicy := Some(CacheAndNetwork.Wire())), args, faults)
  {
  }

  /** A policy string outside the enum is not refused: the call behaves
      exactly as under NetworkAndCache. */
  lemma UnrecognisedPolicyIsNetworkAndCache<V>(json: Json<V>, connected: bool, documents: seq<Document>,
                                               options: Options<V>, args: seq<V>, faults: Faults)
    requires options.fetchPolicy.Some?
    requires forall p: FetchPolicy :: options.fetchPolicy.value != p.Wire()
    ensures Respond(json, connected, documents, options, args, faults)
         == Respond(json, connected, documents, options.(fetchPolicy := Some(NetworkAndCache.Wire())), args, faults)
  {
    UnrecognisedPolicyActsAsNetworkAndCache(options.fetchPolicy.value);
  }

  /** CacheAndNetwork with a document for the key: the first such document's
      value is parsed and returned (or its parse error thrown); the wrapped
      function is not called and the collection is unchanged. */
  lemma CacheHitServesFirstDocument<V>(json: Json<V>, documents: seq<Document>, options: Options<V>,
                                       args: seq<V>, faults: Faults)
    requires EffectivePolicy(options.fetchPolicy) == CacheAndNetwork.Wire()
    requires CacheKey(json, options.id, args).Success?
    requires faults.onFind.None?
    requires FirstWithKey(documents, CacheKey(json, options.id, args).value).Some?
    ensures var o := Respond(json, true, documents, options, args, faults);
            && o.result == json.parse(FirstWithKey(documents, CacheKey(json, options.id, args).value).value.value)
            && o.documents == documents && o.finds == 1 && o.calls == 0 && o.inserts == 0
  {
  }

  /** CacheAndNetwork with no document for the key: one lookup, then the
      function is called once; on success one document (key, JSON text of the
      result) is appended and the result returned. */
  lemma CacheMissCallsOnceAndAppends<V>(json: Json<V>, documents: seq<Document>, options: Options<V>,
                                        args: seq<V>, faults: Faults)
    requires EffectivePolicy(options.fetchPolicy) == CacheAndNetwork.Wire()
    requires CacheKey(json, options.id, args).Success?
    requires faults.onFind.None?
    requires FirstWithKey(documents, CacheKey(json, options.id, args).value).None?
    ensures var o := Respond(json, true, documents, options, args, faults);
            && o.finds == 1 && o.calls == 1
            && (options.fn(args).Success? && json.stringify(options.fn(args).value).Success? && faults.onInsert.None?
                ==> o.result == options.fn(args)
                    && o.documents == documents + [Document(CacheKey(json, options.id, args).value,
                                                            json.stringify(options.fn(args).value).value)])
  {
  }

  /** NetworkAndCache (and any policy string outside the enum): no lookup,
      one call, and on success one document appended after the existing
      ones, even those with the same key, which stay as they were. */
  lemma NetworkAndCacheCallsOnceAndAppends<V>(json: Json<V>, documents: seq<Document>, options: Options<V>,
                                              args: seq<V>, faults: Faults)
    requires !ConsultsStore(EffectivePolicy(options.fetchPolicy))
    requires PersistsResult(EffectivePolicy(options.fetchPolicy))
    requires CacheKey(json, options.id, args).Success?
    ensures var o := Respond(json, true, documents, options, args, faults);
            && o.finds == 0 && o.calls == 1
            && (options.fn(args).Success? && json.stringify(options.fn(args).value).Success? && faults.onInsert.None?
                ==> o.result == options.fn(args) && o.inserts == 1
                    && o.documents == documents + [Document(CacheKey(json, options.id, args).value,
                                                            json.stringify(options.fn(args).value).value)])
  {
  }

  /** NetworkOnly never touches the collection: the function is called once
      and what it returns or throws is the outcome. */
  lemma NetworkOnlyBypassesStore<V>(json: Json<V>, documents: seq<Document>, options: Options<V>,
                                    args: seq<V>, faults: Faults)
    requires EffectivePolicy(options.fetchPolicy) == NetworkOnly.Wire()
    requires CacheKey(json, options.id, args).Success?
    ensures Respond(json, true, documents, options, args, faults)
         == Outcome(options.fn(args), documents, 0, 1, 0)
  {
  }

  /** Whenever the wrapped function is called and throws, its error is
      rethrown unchanged and nothing is written. */
  lemma FunctionErrorIsRethrown<V>(json: Json<V>, connected: bool, documents: seq<Document>,
                                   options: Options<V>, args: seq<V>, faults: Faults)
    requires options.fn(args).Failure?
    ensures var o := Respond(json, connected, documents, options, args, faults);
            o.calls == 1 ==> o.result == options.fn(args) && o.documents == documents && o.inserts == 0
  {
  }

  /** Failures of the store and of JSON are rethrown, never taken for a
      miss: a failed lookup throws without calling the function, and a
      result that cannot be stringified or an insert the server refuses
      throws after the call, with the collection unchanged. */
  lemma StoreAndJsonErrorsAreRethrown<V>(json: Json<V>, documents: seq<Document>, options: Options<V>,
                                         args: seq<V>, faults: Faults)
    requires CacheKey(json, options.id, args).Success?
    ensures var o := Respond(json, true, documents, options, args, faults);
            && (ConsultsStore(EffectivePolicy(options.fetchPolicy)) && faults.onFind.Some?
                ==> o.result == Failure(faults.onFind.value) && o.calls == 0 && o.documents == documents)
            && (o.calls == 1 && PersistsResult(EffectivePolicy(options.fetchPolicy)) && options.fn(args).Success?
                ==> (json.stringify(options.fn(args).value).Failure?
                     ==> o.result == Failure(json.stringify(options.fn(args).value).error) && o.documents == documents)
                    && (json.stringify(options.fn(args).value).Success? && faults.onInsert.Some?
                        ==> o.result == Failure(faults.onInsert.value) && o.documents == documents))
  {
  }

  /** A call that wrote its result makes the next CacheAndNetwork call with
      the same id and arguments a hit: that call does not invoke the
      function and returns what parsing the first stored document for the
      key yields. When the first call found no document for the key, that
      is the parse of the text it wrote itself. */
  lemma WrittenResultIsServedNext<V>(json: Json<V>, documents: seq<Document>,
                                     first: Options<V>, second: Options<V>,
                                     args: seq<V>, faults: Faults, faults2: Faults)
    requires first.id == second.id
    requires Respond(json, true, documents, first, args, faults).inserts == 1
    requires Respond(json, true, documents, first, args, faults).result.Success?
    requires EffectivePolicy(second.fetchPolicy) == CacheAndNetwork.Wire()
    requires faults2.onFind.None?
    ensures var o1 := Respond(json, true, documents, first, args, faults);
            var o2 := Respond(json, true, o1.documents, second, args, faults2);
            var key := CacheKey(json, first.id, args).value;
            && o2.calls == 0 && o2.documents == o1.documents
            && (FirstWithKey(documents, key).None?
                ==> o2.result == json.parse(json.stringify(o1.result.value).value))
  {
    // The written document is the first for the key exactly when the key was
    // new; otherwise the earlier first document still shadows it.
  }

  /** NetworkAndCache does not refresh what CacheAndNetwork serves: after it
      appends a fresh result for a key that already had a document, the
      first document for the key, the one a lookup returns, is still the
      old one. */
  lemma NetworkAndCacheLeavesServedDocument<V>(json: Json<V>, documents: seq<Document>,
                                               options: Options<V>, args: seq<V>, faults: Faults)
    requires CacheKey(json, options.id, args).Success?
    requires FirstWithKey(documents, CacheKey(json, options.id, args).value).Some?
    ensures var key := CacheKey(json, options.id, args).value;
            FirstWithKey(Respond(json, true, documents, options, args, faults).documents, key)
            == FirstWithKey(documents, key)
  {
    // Whatever the call appends comes after the document a lookup finds.
  }
}
