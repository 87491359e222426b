/** A decoded JSON document, as Python's json module hands it to the parsers:
    objects are dicts with string keys, arrays are lists. */
module Json {
  import opened Py

  datatype Json =
    | Null
    | Bool(b: bool)
    | Int(i: int)
    | Str(s: string)
    | Arr(items: seq<Json>)
    | Obj(fields: map<string, Json>)

  /** A flat record produced by a parser, and query variables: both dicts. */
  type Record = map<string, Json>
  type Vars = map<string, Json>

  /** One subscript of a Python chain: `x['name']` or `x[n]`. */
  datatype Key = Field(name: string) | Index(n: nat)

  /** `j[k]`, or None where Python raises KeyError, IndexError or TypeError.
      Indexing a string yields its one-character substring. */
  function Sub(j: Json, k: Key): (r: Option<Json>)
    ensures r.Some? && k.Field? ==> j.Obj? && k.name in j.fields && r.value == j.fields[k.name]
    ensures k.Field? && j.Obj? && k.name in j.fields ==> r == Some(j.fields[k.name])
  {
    match (j, k)
    case (Obj(m), Field(name)) => if name in m then Some(m[name]) else None
    case (Arr(xs), Index(n)) => if n < |xs| then Some(xs[n]) else None
    case (Str(s), Index(n)) => if n < |s| then Some(Str([s[n]])) else None
    case _ => None
  }

  /** A subscript chain `j[k0][k1]...`; None as soon as one subscript raises. */
  function Lookup(j: Json, path: seq<Key>): Option<Json>
    decreases |path|
  {
    if path == [] then Some(j)
    else
      var next :- Sub(j, path[0]);
      Lookup(next, path[1..])
  }

  /** Python truthiness of a JSON value. */
  predicate Truthy(j: Json) {
    match j
    case Null => false
    case Bool(b) => b
    case Int(i) => i != 0
    case Str(s) => s != ""
    case Arr(xs) => xs != []
    case Obj(m) => m != map[]
  }

  /** Extending a subscript chain by one subscript. */
  lemma {:induction false} LookupThen(j: Json, path: seq<Key>, k: Key)
    ensures Lookup(j, path + [k]) == (var v :- Lookup(j, path); Sub(v, k))
    decreases |path|
  {
    if path == [] {
      assert [] + [k] == [k];
    } else {
      assert (path + [k])[0] == path[0];
      assert (path + [k])[1..] == path[1..] + [k];
      match Sub(j, path[0])
      case None =>
      case Some(next) => LookupThen(next, path[1..], k);
    }
  }
}
