/** The JSON-like values of scenarios and events: no floating point. */
module Values {
  import opened Text

  datatype Value =
    | Null | Bool(b: bool) | Int(i: int) | Str(s: string)
    | List(items: seq<Value>) | Dict(entries: seq<(string, Value)>)

  type Entries = seq<(string, Value)>

  function Lookup(es: Entries, key: string): Option<Value> {
    if es == [] then None else if es[0].0 == key then Some(es[0].1) else Lookup(es[1..], key)
  }

  /** `d.get(key)` */
  function Get(es: Entries, key: string): Value {
    match Lookup(es, key)
    case None => Null
    case Some(v) => v
  }

  predicate Truthy(v: Value) {
    match v
    case Null => false
    case Bool(b) => b
    case Int(i) => i != 0
    case Str(s) => s != ""
    case List(xs) => xs != []
    case Dict(es) => es != []
  }

  function AsInt(v: Value): Option<int> {
    match v
    case Int(i) => Some(i)
    case Bool(b) => Some(if b then 1 else 0)
    case _ => None
  }

  /** `a == b`: booleans equal 0 and 1, mappings compare without order. */
  predicate Same(a: Value, b: Value)
    decreases a
  {
    if AsInt(a).Some? && AsInt(b).Some? then AsInt(a) == AsInt(b)
    else
      match a
      case List(xs) => b.List? && |xs| == |b.items| && forall i :: 0 <= i < |xs| ==> Same(xs[i], b.items[i])
      case Dict(es) => b.Dict? && |es| == |b.entries|
                       && forall i :: 0 <= i < |es| ==>
                            Lookup(b.entries, es[i].0).Some? && Same(es[i].1, Lookup(b.entries, es[i].0).value)
      case _ => a == b
  }

  /** What the model leaves to the host: `re.search` over a value's text, and
      the text of a list or a mapping after its opening bracket. */
  datatype Host = Host(search: (string, Value) -> bool, inside: Value -> string)

  /** `str(v)` */
  function AsText(host: Host, v: Value): string {
    match v
    case Null => "None"
    case Bool(b) => if b then "True" else "False"
    case Int(i) => Numeral(i)
    case Str(s) => s
    case List(_) => "[" + host.inside(v)
    case Dict(_) => "{" + host.inside(v)
  }
}
