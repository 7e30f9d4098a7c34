/**
 * The plain JavaScript objects the filter handlers pass around: values,
 * truthiness, and the object spread `{ ...prev, ...next }` and computed-key
 * update `{ ...prev, [key]: value }` that build new objects from old ones.
 * An object is a map from its keys to their values; the order of the keys
 * is not modelled.
 */
module JsValues {

  datatype JsValue =
    | JNull
    | JBool(b: bool)
    | JNum(n: real)
    | JStr(s: string)
    | JArr(items: seq<JsValue>)
    | JObj(fields: map<string, JsValue>)

  type JsObject = map<string, JsValue>

  /** `!!v`: `null`, `false`, `0` and `""` are falsy; arrays and objects, even empty, are truthy. */
  predicate Truthy(v: JsValue) {
    match v
    case JNull => false
    case JBool(b) => b
    case JNum(n) => n != 0.0
    case JStr(s) => s != ""
    case JArr(_) => true
    case JObj(_) => true
  }

  /** `{ ...prev, ...next }`: the keys of `next` overwrite, every other key of `prev` stays. */
  function Spread(prev: JsObject, next: JsObject): (r: JsObject)
    ensures r.Keys == prev.Keys + next.Keys
    ensures forall k :: k in next ==> r[k] == next[k]
    ensures forall k :: k in prev && k !in next ==> r[k] == prev[k]
  {
    prev + next
  }

  /** `{ ...prev, [key]: value }`: `key` is set, every other key stays. */
  function With(prev: JsObject, key: string, value: JsValue): (r: JsObject)
    ensures r.Keys == prev.Keys + {key}
    ensures r[key] == value
    ensures forall k :: k in prev && k != key ==> r[k] == prev[k]
  {
    prev[key := value]
  }

  /** Spreading the same update a second time changes nothing more. */
  lemma SpreadIdempotent(prev: JsObject, next: JsObject)
    ensures Spread(Spread(prev, next), next) == Spread(prev, next)
  {
  }

  /** A computed-key update is a spread of the one-key object `{ [key]: value }`. */
  lemma WithIsSpread(prev: JsObject, key: string, value: JsValue)
    ensures With(prev, key, value) == Spread(prev, map[key := value])
  {
  }
}
