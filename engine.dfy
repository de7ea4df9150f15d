/** `CacheEngineDB` and its `cache` method: derive the key, refuse to run
    before `connect`, then, as the fetch policy says, look the key up,
    call the wrapped function and write its result, rethrowing every
    error on the way. */
module Engine {
  import opened Wrappers
  import opened Js
  import opened FetchPolicy
  import opened Keys
  import opened Store

  /** The error `cache` throws when `connect` has not set `db`. */
  const NotInitialized := Error("Database is not initialized.")

  /** The `options` argument of `cache`. */
  datatype Options<!V> = Options(
    id: string,
    fn: seq<V> -> Result<V, Error>,
    fetchPolicy: Option<string>)

  /** How the database server answers this request's `findOne` and
      `insertOne`: None when it serves the request, otherwise the error the
      driver throws. */
  datatype Faults = Faults(onFind: Option<Error>, onInsert: Option<Error>)

  /** What one `cache` call does: what it returns or throws, the documents
      afterwards, and how many `findOne` requests, wrapped-function calls and
      `insertOne` requests it made. */
  datatype Outcome<V> = Outcome(
    result: Result<V, Error>,
    documents: seq<Document>,
    finds: nat,
    calls: nat,
    inserts: nat)

  /** The steps of `cache` from the call of the wrapped function on, after
      `finds` lookups that found nothing. */
  function InvokeAndPersist<V>(json: Json<V>, documents: seq<Document>, options: Options<V>, args: seq<V>,
                               faults: Faults, policy: string, key: string, finds: nat): (o: Outcome<V>)
    ensures o.calls == 1 && o.finds == finds && o.inserts <= 1
    ensures o.inserts == 1 <==> options.fn(args).Success? && PersistsResult(policy)
                                 && json.stringify(options.fn(args).value).Success?
    ensures options.fn(args).Failure? ==> o.result == options.fn(args)
    ensures o.result.Success? ==> o.result == options.fn(args)
    // a result that is not written is returned as it is
    ensures options.fn(args).Success? && !PersistsResult(policy)
            ==> o.result == options.fn(args) && o.documents == documents
    // a result that cannot be stringified: its error is rethrown, nothing written
    ensures options.fn(args).Success? && PersistsResult(policy) && json.stringify(options.fn(args).value).Failure?
            ==> o.result == Failure(json.stringify(options.fn(args).value).error) && o.documents == documents
    // an insert the server refuses: its error is rethrown, nothing written
    ensures options.fn(args).Success? && PersistsResult(policy) && json.stringify(options.fn(args).value).Success?
            && faults.onInsert.Some?
            ==> o.result == Failure(faults.onInsert.value) && o.documents == documents
    // a served insert: one document (key, JSON text of the result) appended, the result returned
    ensures options.fn(args).Success? && PersistsResult(policy) && json.stringify(options.fn(args).value).Success?
            && faults.onInsert.None?
            ==> o.result == options.fn(args)
                && o.documents == documents + [Document(key, json.stringify(options.fn(args).value).value)]
    ensures options.fn(args).Failure? ==> o.documents == documents
  {
    match options.fn(args)
    case Failure(e) => Outcome(Failure(e), documents, finds, 1, 0)
    case Success(v) =>
      if !PersistsResult(policy) then Outcome(Success(v), documents, finds, 1, 0)
      else
        match json.stringify(v)
        case Failure(e) => Outcome(Failure(e), documents, finds, 1, 0)
        case Success(text) =>
          if faults.onInsert.Some? then Outcome(Failure(faults.onInsert.value), documents, finds, 1, 1)
          else Outcome(Success(v), documents + [Document(key, text)], finds, 1, 1)
  }

  /** One `cache(options, ...args)` call against an engine that is connected
      or not and a collection holding `documents`. */
  function Respond<V>(json: Json<V>, connected: bool, documents: seq<Document>, options: Options<V>,
                      args: seq<V>, faults: Faults): (o: Outcome<V>)
    // at most one read, one call and one write per request
    ensures o.finds <= 1 && o.calls <= 1 && o.inserts <= 1
    // nothing is touched before the key exists and the engine is connected
    ensures (CacheKey(json, options.id, args).Failure? || !connected)
            ==> o.documents == documents && o.finds == 0 && o.calls == 0 && o.inserts == 0
    // nothing is written without a call to the wrapped function
    ensures o.calls == 0 ==> o.inserts == 0
    // a successful call's result is what is returned
    ensures o.calls == 1 && o.result.Success? ==> o.result == options.fn(args)
    // the store only grows, by at most one document for this call's key
    ensures o.documents == documents
         || (o.result.Success? && o.calls == 1 && o.inserts == 1
             && |o.documents| == |documents| + 1 && o.documents[..|documents|] == documents
             && CacheKey(json, options.id, args) == Success(o.documents[|documents|].key))
  {
    match CacheKey(json, options.id, args)
    case Failure(e) => Outcome(Failure(e), documents, 0, 0, 0)
    case Success(key) =>
      if !connected then Outcome(Failure(NotInitialized), documents, 0, 0, 0)
      else
        var policy := EffectivePolicy(options.fetchPolicy);
        if ConsultsStore(policy) then
          if faults.onFind.Some? then Outcome(Failure(faults.onFind.value), documents, 1, 0, 0)
          else
            match FirstWithKey(documents, key)
            case Some(cached) => Outcome(json.parse(cached.value), documents, 1, 0, 0)
            case None => InvokeAndPersist(json, documents, options, args, faults, policy, key, 1)
        else InvokeAndPersist(json, documents, options, args, faults, policy, key, 0)
  }

  /** The engine. `db` stands for `db.collection('CacheEngineCollection')`
      and is null until a `connect` succeeds; `calls` counts the calls of
      wrapped functions made so far. */
  class CacheEngineDB<!V> {
    const json: Json<V>
    var db: Collection?
    ghost var calls: nat

    constructor (json: Json<V>)
      ensures this.json == json && db == null && calls == 0
    {
      this.json := json;
      db := null;
      calls := 0;
    }

    /** `connect`: `reached` is the collection of the database the server
        lets the engine open, or null when connecting failed. A failure is
        swallowed and leaves `db` as it was. */
    method Connect(reached: Collection?)
      modifies this`db
      ensures db == (if reached == null then old(db) else reached)
    {
      if reached != null {
        db := reached;
      }
    }

    /** `cache(options, ...args)`: returns or throws (a Failure) exactly as
        `Respond` says, and leaves the collection and the counters as it
        says. */
    method Cache(options: Options<V>, args: seq<V>, faults: Faults) returns (r: Result<V, Error>)
      modifies this`calls, db
      ensures db == old(db)
      ensures var o := Respond(json, db != null, if db == null then [] else old(db.documents), options, args, faults);
              && r == o.result
              && calls == old(calls) + o.calls
              && (db != null ==> db.documents == o.documents
                                 && db.finds == old(db.finds) + o.finds
                                 && db.inserts == old(db.inserts) + o.inserts)
    {
      var policy := EffectivePolicy(options.fetchPolicy);
      var derived := CacheKey(json, options.id, args);
      if derived.Failure? {
        return Failure(derived.error);
      }
      var key := derived.value;

      if db == null {
        return Failure(NotInitialized);
      }

      if ConsultsStore(policy) {
        var cached := db.FindOne(key, faults.onFind);
        if cached.Failure? {
          return Failure(cached.error);
        }
        if cached.value.Some? {
          return json.parse(cached.value.value.value);
        }
      }

      var result := options.fn(args);
      calls := calls + 1;
      if result.Failure? {
        return result;
      }
      if PersistsResult(policy) {
        var text := json.stringify(result.value);
        if text.Failure? {
          return Failure(text.error);
        }
        var failed := db.InsertOne(Document(key, text.value), faults.onInsert);
        if failed.Some? {
          return Failure(failed.value);
        }
      }
      return result;
    }
  }
}
