/** The cloning utilities: `deepClone`, `simpleDeepClone` (a JSON round trip),
    `isSimpleSerializable` and `smartDeepClone`. Values have no identity here, so
    a clone is compared with its source by value. */
module DeepClone {
  import opened JsonValue
  import Decimal

  /** `isSimpleSerializable` as written: strings, numbers, booleans and null are
      simple; arrays and objects are simple when every value reached through
      `Object.keys` is; everything else is not. A Date, RegExp, Map or Set is an
      object without own enumerable string keys, so the `every` over its keys is
      vacuously true. Symbol-keyed properties are not among `Object.keys`.
      It accepts every value built only from JSON's own kinds, and never
      `undefined` or a function. */
  predicate IsSimpleSerializable(v: Json)
    ensures IsPlainJson(v) ==> IsSimpleSerializable(v)
    ensures Unserialisable(v) ==> !IsSimpleSerializable(v)
  {
    match v
    case JStr(_) => true
    case JInt(_) => true
    case JBool(_) => true
    case JNull => true
    case JArr(items) => forall i | 0 <= i < |items| :: IsSimpleSerializable(items[i])
    case JObj(fields, _) => forall i | 0 <= i < |fields| :: IsSimpleSerializable(fields[i].value)
    case JDate(_) => true
    case JRegExp(_, _) => true
    case JMap(_) => true
    case JSet(_) => true
    case JUndef => false
    case JFunc(_) => false
  }

  /** What `isSimpleSerializable` is meant to recognise: values built only from
      JSON's own kinds, which a JSON round trip gives back unchanged. */
  predicate IsPlainJson(v: Json) {
    match v
    case JStr(_) => true
    case JInt(_) => true
    case JBool(_) => true
    case JNull => true
    case JArr(items) => forall i | 0 <= i < |items| :: IsPlainJson(items[i])
    case JObj(fields, symbols) =>
      symbols == [] && forall i | 0 <= i < |fields| :: IsPlainJson(fields[i].value)
    case _ => false
  }

  /** `JSON.stringify` drops these inside objects and writes `null` for them
      inside arrays. */
  predicate Unserialisable(v: Json) {
    v.JUndef? || v.JFunc?
  }

  /** The text a serialised Date becomes. The model stands for its ISO-8601 text
      with the decimal millisecond count; only that it is a string matters. */
  function DateText(time: int): string {
    Decimal.IntText(time)
  }

  /** `simpleDeepClone`: `JSON.parse(JSON.stringify(v))`, for a value that
      `JSON.stringify` turns into text (at the top level `undefined` and
      functions give no text, and parsing that throws). */
  function SimpleDeepClone(v: Json): (r: Json)
    requires !Unserialisable(v)
    ensures IsPlainJson(r)
    ensures IsPlainJson(v) ==> r == v
  {
    match v
    case JNull => JNull
    case JBool(b) => JBool(b)
    case JInt(n) => JInt(n)
    case JStr(s) => JStr(s)
    case JArr(items) => JArr(RoundTripItems(items))
    case JObj(fields, _) => JObj(RoundTripFields(fields), [])
    case JDate(t) => JStr(DateText(t))
    case JRegExp(_, _) => JObj([], [])
    case JMap(_) => JObj([], [])
    case JSet(_) => JObj([], [])
  }

  function RoundTripItems(items: seq<Json>): (r: seq<Json>)
    ensures |r| == |items|
    ensures forall i | 0 <= i < |r| :: IsPlainJson(r[i])
    ensures (forall i | 0 <= i < |items| :: IsPlainJson(items[i])) ==> r == items
  {
    if items == [] then []
    else
      assert forall i | 0 <= i < |items[1..]| :: items[1..][i] == items[i + 1];
      [if Unserialisable(items[0]) then JNull else SimpleDeepClone(items[0])]
      + RoundTripItems(items[1..])
  }

  function RoundTripFields(fields: Fields): (r: Fields)
    ensures |r| <= |fields|
    ensures forall i | 0 <= i < |r| :: IsPlainJson(r[i].value)
    ensures (forall i | 0 <= i < |fields| :: IsPlainJson(fields[i].value)) ==> r == fields
  {
    if fields == [] then []
    else if Unserialisable(fields[0].value) then RoundTripFields(fields[1..])
    else [Field(fields[0].key, SimpleDeepClone(fields[0].value))] + RoundTripFields(fields[1..])
  }

  /** `deepClone`: primitives are returned as they are; a Date or RegExp is
      rebuilt from its time or its source and flags; a Map, Set, array or plain
      object is a fresh container filled in order with clones of the source's
      members (for an object: its string keys, then its symbol keys). The clone
      equals its source. */
  method DeepCloneValue(source: Json) returns (r: Json)
    ensures r == source
    decreases source
  {
    match source {
      case JDate(t) =>
        r := JDate(t);
      case JRegExp(src, flags) =>
        r := JRegExp(src, flags);
      case JMap(entries) =>
        var clone: seq<(Json, Json)> := [];
        var i := 0;
        while i < |entries|
          invariant 0 <= i <= |entries|
          invariant clone == entries[..i]
        {
          var k := DeepCloneValue(entries[i].0);
          var v := DeepCloneValue(entries[i].1);
          clone := clone + [(k, v)];
          i := i + 1;
        }
        r := JMap(clone);
      case JSet(elems) =>
        var clone: seq<Json> := [];
        var i := 0;
        while i < |elems|
          invariant 0 <= i <= |elems|
          invariant clone == elems[..i]
        {
          var v := DeepCloneValue(elems[i]);
          clone := clone + [v];
          i := i + 1;
        }
        r := JSet(clone);
      case JArr(items) =>
        var clone: seq<Json> := [];
        var i := 0;
        while i < |items|
          invariant 0 <= i <= |items|
          invariant clone == items[..i]
        {
          var v := DeepCloneValue(items[i]);
          clone := clone + [v];
          i := i + 1;
        }
        r := JArr(clone);
      case JObj(fields, symbols) =>
        // The keys of a JavaScript object are distinct, so each assignment to
        // the fresh clone adds a new property at the end.
        var cloneFields: Fields := [];
        var i := 0;
        while i < |fields|
          invariant 0 <= i <= |fields|
          invariant cloneFields == fields[..i]
        {
          var v := DeepCloneValue(fields[i].value);
          cloneFields := cloneFields + [Field(fields[i].key, v)];
          i := i + 1;
        }
        var cloneSymbols: seq<(nat, Json)> := [];
        var j := 0;
        while j < |symbols|
          invariant 0 <= j <= |symbols|
          invariant cloneSymbols == symbols[..j]
        {
          var v := DeepCloneValue(symbols[j].1);
          cloneSymbols := cloneSymbols + [(symbols[j].0, v)];
          j := j + 1;
        }
        r := JObj(cloneFields, cloneSymbols);
      case _ =>
        r := source;
    }
  }

  /** `smartDeepClone` as written: the JSON round trip when
      `isSimpleSerializable` holds, `deepClone` otherwise. */
  method SmartDeepClone(source: Json) returns (r: Json)
    ensures IsSimpleSerializable(source) ==> r == SimpleDeepClone(source)
    ensures !IsSimpleSerializable(source) ==> r == source
  {
    if IsSimpleSerializable(source) {
      r := SimpleDeepClone(source);
    } else {
      r := DeepCloneValue(source);
    }
  }

  /** A Map passes `isSimpleSerializable`, and the JSON round trip turns it into
      an empty object: `smartDeepClone` loses its entries. */
  lemma MapLosesEntries()
    ensures var m := JMap([(JStr("a"), JInt(1))]);
      IsSimpleSerializable(m) && SimpleDeepClone(m) == JObj([], []) && SimpleDeepClone(m) != m
  {
  }

  /** A Date passes `isSimpleSerializable`, and the round trip turns it into a
      string. */
  lemma DateBecomesString(t: int)
    ensures IsSimpleSerializable(JDate(t)) && SimpleDeepClone(JDate(t)).JStr?
  {
  }

  /** `smartDeepClone` with the evidently intended test: the round trip only for
      plain JSON. Its result always equals its source. */
  method SmartDeepCloneFixed(source: Json) returns (r: Json)
    ensures r == source
    ensures IsPlainJson(source) ==> IsSimpleSerializable(source) && r == SimpleDeepClone(source)
  {
    if IsPlainJson(source) {
      r := SimpleDeepClone(source);
    } else {
      r := DeepCloneValue(source);
    }
  }
}
