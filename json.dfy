/** JavaScript values as the engine handles them: JSON-like data plus the
    non-JSON kinds the cloning utilities distinguish. Objects keep their own
    string-keyed properties and their symbol-keyed properties apart, each as an
    ordered sequence of pairs (the enumeration order of `Object.keys` and of
    `Object.getOwnPropertySymbols`). Numbers are integers. */
module JsonValue {
  import opened Wrappers

  /** One string-keyed own property of an object. */
  datatype Field = Field(key: string, value: Json)

  type Fields = seq<Field>

  datatype Json =
    | JUndef
    | JNull
    | JBool(b: bool)
    | JInt(n: int)
    | JStr(s: string)
    | JFunc(fn: nat)                    // a function value; `typeof` gives "function"
    | JArr(items: seq<Json>)
    | JObj(fields: Fields, symbols: seq<(nat, Json)>)
    | JDate(time: int)
    | JRegExp(source: string, flags: string)
    | JMap(entries: seq<(Json, Json)>)
    | JSet(elems: seq<Json>)

  /** A plain object with string keys only. */
  function Obj(fields: Fields): Json {
    JObj(fields, [])
  }

  /** `typeof v === "object" && v !== null`. */
  predicate IsObjectType(v: Json) {
    v.JArr? || v.JObj? || v.JDate? || v.JRegExp? || v.JMap? || v.JSet?
  }

  /** JavaScript truthiness. */
  predicate Truthy(v: Json) {
    match v
    case JUndef => false
    case JNull => false
    case JBool(b) => b
    case JInt(n) => n != 0
    case JStr(s) => s != ""
    case _ => true
  }

  /** The names of an object's string-keyed properties. */
  function KeySet(fields: Fields): set<string> {
    if fields == [] then {} else {fields[0].key} + KeySet(fields[1..])
  }

  /** The value of the first property named `k`. */
  function Get(fields: Fields, k: string): (r: Option<Json>)
    ensures r.Some? <==> k in KeySet(fields)
  {
    if fields == [] then None
    else if fields[0].key == k then Some(fields[0].value)
    else Get(fields[1..], k)
  }

  /** The first property named `k` is the one at position `j` when no earlier
      property has that name. */
  lemma {:induction false} GetAt(fields: Fields, k: string, j: nat)
    requires j < |fields| && fields[j].key == k
    requires forall i :: 0 <= i < j ==> fields[i].key != k
    ensures Get(fields, k) == Some(fields[j].value)
  {
    if j > 0 {
      GetAt(fields[1..], k, j - 1);
    }
  }

  /** `obj[k] = v`: replaces the value of an existing property in place, or
      appends a new property at the end. */
  function Put(fields: Fields, k: string, v: Json): (r: Fields)
    ensures Get(r, k) == Some(v)
    ensures forall k' :: k' != k ==> Get(r, k') == Get(fields, k')
    ensures KeySet(r) == KeySet(fields) + {k}
  {
    if fields == [] then [Field(k, v)]
    else if fields[0].key == k then [Field(k, v)] + fields[1..]
    else [fields[0]] + Put(fields[1..], k, v)
  }

  /** `Object.assign(target, source)` for a source with string keys: each source
      property is written onto the target in order. */
  function Assign(target: Fields, source: Fields): (r: Fields)
    ensures KeySet(r) == KeySet(target) + KeySet(source)
    decreases |source|
  {
    if source == [] then target
    else Assign(Put(target, source[0].key, source[0].value), source[1..])
  }

  /** The value a later write of `k` leaves behind: the last pair for `k`. */
  function LastGet(fields: Fields, k: string): (r: Option<Json>)
    ensures r.Some? <==> k in KeySet(fields)
  {
    if fields == [] then None
    else
      var later := LastGet(fields[1..], k);
      if later.Some? then later
      else if fields[0].key == k then Some(fields[0].value)
      else None
  }

  /** After `Object.assign`, a key of the source holds the source's last value
      for it, and every other key keeps the target's value. */
  lemma {:induction false} GetAssign(target: Fields, source: Fields, k: string)
    ensures Get(Assign(target, source), k) ==
      (if k in KeySet(source) then LastGet(source, k) else Get(target, k))
    decreases |source|
  {
    if source != [] {
      GetAssign(Put(target, source[0].key, source[0].value), source[1..], k);
    }
  }

  /** Property read `v[k]` on any value: `undefined` where there is none. */
  function Prop(v: Json, k: string): (r: Json)
    ensures v.JObj? && k in KeySet(v.fields) ==> Get(v.fields, k) == Some(r)
    ensures !(v.JObj? && k in KeySet(v.fields)) ==> r == JUndef
  {
    if v.JObj? then Get(v.fields, k).GetOr(JUndef) else JUndef
  }
}
