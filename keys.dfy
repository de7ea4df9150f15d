/** How `cache` derives the key of a call: the id, an underscore, and the
    JSON text of the argument array. */
module Keys {
  import opened Wrappers
  import opened Js

  /** `${id}_${JSON.stringify(args)}`. When the arguments cannot be
      stringified, the error `JSON.stringify` throws is the outcome. */
  function CacheKey<V>(json: Json<V>, id: string, args: seq<V>): (key: Result<string, Error>)
    ensures key.Failure? <==> json.stringify(json.gather(args)).Failure?
    ensures key.Failure? ==> key.error == json.stringify(json.gather(args)).error
    ensures key.Success? ==> |id| < |key.value| && key.value[..|id|] == id && key.value[|id|] == '_'
    ensures key.Success? ==> key.value[|id| + 1..] == json.stringify(json.gather(args)).value
  {
    match json.stringify(json.gather(args))
    case Failure(e) => Failure(e)
    case Success(text) => Success(id + "_" + text)
  }

  /** The text after the separator is the JSON text of the arguments, so a
      key fixes what the arguments stringify to once the id is known. */
  lemma KeyDeterminesArguments<V>(json: Json<V>, id: string, args1: seq<V>, args2: seq<V>)
    requires CacheKey(json, id, args1).Success?
    requires CacheKey(json, id, args1) == CacheKey(json, id, args2)
    ensures json.stringify(json.gather(args1)) == json.stringify(json.gather(args2))
  {
    var k := CacheKey(json, id, args1).value;
    assert json.stringify(json.gather(args1)).value == k[|id| + 1..];
    assert json.stringify(json.gather(args2)).value == k[|id| + 1..];
  }

  /** Two ids that contain no underscore never share a key: the first
      underscore of a key ends its id. (An id containing `_` gives no such
      guarantee; the engine does not check ids.) */
  lemma {:induction false} UnderscoreFreeIdsDoNotCollide<V>(json: Json<V>, id1: string, args1: seq<V>, id2: string, args2: seq<V>)
    requires '_' !in id1 && '_' !in id2
    requires CacheKey(json, id1, args1).Success?
    requires CacheKey(json, id1, args1) == CacheKey(json, id2, args2)
    ensures id1 == id2
    ensures json.stringify(json.gather(args1)) == json.stringify(json.gather(args2))
  {
    var k := CacheKey(json, id1, args1).value;
    // k[|id1|] is the separator, which id2 cannot hold, and symmetrically.
    assert |id1| == |id2|;
    assert id1 == k[..|id1|] == id2;
    KeyDeterminesArguments(json, id1, args1, args2);
  }
}
