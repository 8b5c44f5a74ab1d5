/** Values the integration keeps in its config entries, receives from the host and
    exchanges with the TTS server as JSON, with the few Python operations on them
    that the integration relies on: truthiness, str(), dict.get and {**a, **b}. */
module Values {

  datatype Option<+T> = None | Some(value: T)

  newtype byte = x: int | 0 <= x < 256

  /** A scalar as Python holds it: None, a bool, a number or a str.
      A number carries the text that str() gives for it; how Python formats a
      float is not part of this model. */
  datatype Value = Null | Bool(b: bool) | Number(shown: string) | Text(s: string)

  /** A decoded JSON document, as resp.json() returns it. */
  datatype Json = Scalar(v: Value) | Array(elems: seq<Json>) | Object(fields: map<string, Json>)

  /** A Python dict with str keys and scalar values (config entry data and options,
      per-call options, the outbound payload). */
  type Dict = map<string, Value>

  /** The texts str() gives for a numeric zero (int 0, float 0.0 and -0.0). */
  const ZeroShown: set<string> := {"0", "0.0", "-0.0"}

  /** Python truthiness of a scalar: None, False, zero and "" are false. */
  predicate Truthy(v: Value)
  {
    match v
    case Null => false
    case Bool(b) => b
    case Number(shown) => shown !in ZeroShown
    case Text(s) => s != ""
  }

  /** str(v). */
  function Show(v: Value): (r: string)
    ensures v.Text? ==> r == v.s
    ensures v.Number? ==> r == v.shown
    ensures v.Null? ==> r == "None"
  {
    match v
    case Null => "None"
    case Bool(b) => if b then "True" else "False"
    case Number(shown) => shown
    case Text(s) => s
  }

  /** d.get(k, default). */
  function Get(d: Dict, k: string, default: Value): (r: Value)
    ensures k in d ==> r == d[k]
    ensures k !in d ==> r == default
  {
    if k in d then d[k] else default
  }

  /** {**lower, **higher}: every key of either dict, the later dict winning. */
  function Merge(lower: Dict, higher: Dict): (r: Dict)
    ensures r.Keys == lower.Keys + higher.Keys
    ensures forall k :: k in higher ==> r[k] == higher[k]
    ensures forall k :: k in lower && k !in higher ==> r[k] == lower[k]
  {
    lower + higher
  }
}
