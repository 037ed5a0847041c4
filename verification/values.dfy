/** The dynamic values the hooks work on: stored records are Python dicts
    with string keys, and the per-request context is another such dict. */
module Values {

  /** A Python value as it can appear in a stored record. */
  datatype Value =
    | Null
    | Str(s: string)
    | Bool(b: bool)
    | Int(i: int)
    | List(elems: seq<Value>)
    | Dict(fields: map<string, Value>)

  /** A stored-model record being dumped or loaded. */
  type Record = map<string, Value>

  /** The per-request context of a schema (ancestor ids, `container_id`). */
  type Context = map<string, Value>

  /** The Python exceptions the hooks can raise on malformed records. */
  datatype Error =
    | KeyError(key: string)   // subscripting a dict with a missing key
    | TypeError               // subscripting a value that is not a dict
    | AttributeError          // calling `split` on a value that is not a string

  /** Python truthiness: `None`, `False`, `0` and empty containers are false. */
  predicate Truthy(v: Value) {
    match v
    case Null => false
    case Str(s) => s != ""
    case Bool(b) => b
    case Int(i) => i != 0
    case List(xs) => xs != []
    case Dict(m) => m != map[]
  }

  /** `d.get(k)`: the value under `k`, or `None` when the key is missing. */
  function Get(d: map<string, Value>, k: string): Value {
    if k in d then d[k] else Null
  }

  /** The relationship stub `{'id': id}`. */
  function Stub(id: Value): Value {
    Dict(map["id" := id])
  }

  /** Both maps hold the same value under `k`, or both lack `k`. */
  predicate SameOn(m: map<string, Value>, m': map<string, Value>, k: string) {
    (k in m <==> k in m') && (k in m ==> m[k] == m'[k])
  }

  /** `s.split('#')[0]`: the part of an identifier before its first `#`
      (the whole string when it has none). */
  function BaseId(s: string): (b: string)
    ensures b <= s
    ensures '#' !in b
    ensures |b| == |s| || s[|b|] == '#'
  {
    if s == [] || s[0] == '#' then "" else [s[0]] + BaseId(s[1..])
  }

  /** The three properties above pin `BaseId` down: it is the only prefix
      of `s` that stops at the first `#`. */
  lemma BaseIdUnique(s: string, b: string)
    requires b <= s && '#' !in b
    requires |b| == |s| || s[|b|] == '#'
    ensures BaseId(s) == b
  {
  }

  /** An identifier with a variant suffix has the unsuffixed identifier as
      its base, and an identifier without `#` is its own base. */
  lemma BaseIdOfVariant(base: string, variant: string)
    requires '#' !in base
    ensures BaseId(base + "#" + variant) == base
    ensures BaseId(base) == base
  {
    var s := base + "#" + variant;
    assert s[|base|] == '#';
    BaseIdUnique(s, base);
    BaseIdUnique(base, base);
  }
}
