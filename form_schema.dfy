/** `getComponentPropsSchema`: the post-processing that turns the JSON Schema
    inferred from a component's default props into the schema the property
    form draws. The inferred schema is an input here. When it is an object
    schema with properties and the component type has field metadata, every
    property named in the root `required` list is marked required and each
    property with metadata receives its title, description, enum, bounds,
    widget and placeholder, then the metadata's own schema fragment; in every
    case a missing `displayType` defaults to "column". */
module FormSchema {
  import opened Wrappers
  import opened JsonValue
  import opened Schema

  /** `FieldMeta`: the UI and validation metadata of one property. */
  datatype FieldMeta = FieldMeta(
    title: Option<string>,
    description: Option<string>,
    enumValues: Option<seq<Json>>,
    widget: Option<string>,
    placeholder: Option<string>,
    minimum: Option<Json>,
    maximum: Option<Json>,
    schema: Option<Fields>)

  /** A truthy optional string: present and not empty. */
  predicate Filled(s: Option<string>) {
    s.Some? && s.value != ""
  }

  /** `typeof v === "number"`. */
  predicate IsNumber(v: Option<Json>) {
    v.Some? && v.value.JInt?
  }

  /** `if (cond) { obj[key] = v }`. */
  function PutIf(cond: bool, c: Fields, key: string, v: Json): (r: Fields)
    ensures KeySet(c) <= KeySet(r)
  {
    if cond then Put(c, key, v) else c
  }

  /** A conditional write sets its key when the condition holds and leaves
      every other property alone. */
  lemma PutIfGet(cond: bool, c: Fields, key: string, v: Json, k: string)
    ensures Get(PutIf(cond, c, key, v), k) == if cond && k == key then Some(v) else Get(c, k)
  {
  }

  /** The values the metadata writes before its schema fragment is merged. */
  function Copy(c: Fields, m: FieldMeta): Fields {
    var c1 := PutIf(Filled(m.title), c, "title", JStr(m.title.GetOr("")));
    var c2 := PutIf(Filled(m.description), c1, "description", JStr(m.description.GetOr("")));
    var c3 := PutIf(m.enumValues.Some?, c2, "enum", JArr(m.enumValues.GetOr([])));
    var c4 := PutIf(IsNumber(m.minimum), c3, "min", m.minimum.GetOr(JUndef));
    var c5 := PutIf(IsNumber(m.maximum), c4, "max", m.maximum.GetOr(JUndef));
    var c6 := PutIf(Filled(m.widget), c5, "widget", JStr(m.widget.GetOr("")));
    PutIf(Filled(m.placeholder), c6, "placeholder", JStr(m.placeholder.GetOr("")))
  }

  /** The metadata of one property written onto its schema object, in the
      order the source writes it. */
  function Enrich(c: Fields, m: FieldMeta): (r: Fields)
    ensures KeySet(c) <= KeySet(r)
  {
    if m.schema.Some? then Assign(Copy(c, m), m.schema.value) else Copy(c, m)
  }

  /** The value a property of the enriched schema object holds, before the
      metadata's schema fragment is merged. */
  function Copied(c: Fields, m: FieldMeta, k: string): Option<Json> {
    if k == "placeholder" && Filled(m.placeholder) then Some(JStr(m.placeholder.value))
    else if k == "widget" && Filled(m.widget) then Some(JStr(m.widget.value))
    else if k == "max" && IsNumber(m.maximum) then m.maximum
    else if k == "min" && IsNumber(m.minimum) then m.minimum
    else if k == "enum" && m.enumValues.Some? then Some(JArr(m.enumValues.value))
    else if k == "description" && Filled(m.description) then Some(JStr(m.description.value))
    else if k == "title" && Filled(m.title) then Some(JStr(m.title.value))
    else Get(c, k)
  }

  lemma CopyGet(c: Fields, m: FieldMeta, k: string)
    ensures Get(Copy(c, m), k) == Copied(c, m, k)
  {
    var c1 := PutIf(Filled(m.title), c, "title", JStr(m.title.GetOr("")));
    var c2 := PutIf(Filled(m.description), c1, "description", JStr(m.description.GetOr("")));
    var c3 := PutIf(m.enumValues.Some?, c2, "enum", JArr(m.enumValues.GetOr([])));
    var c4 := PutIf(IsNumber(m.minimum), c3, "min", m.minimum.GetOr(JUndef));
    var c5 := PutIf(IsNumber(m.maximum), c4, "max", m.maximum.GetOr(JUndef));
    var c6 := PutIf(Filled(m.widget), c5, "widget", JStr(m.widget.GetOr("")));
    PutIfGet(Filled(m.title), c, "title", JStr(m.title.GetOr("")), k);
    PutIfGet(Filled(m.description), c1, "description", JStr(m.description.GetOr("")), k);
    PutIfGet(m.enumValues.Some?, c2, "enum", JArr(m.enumValues.GetOr([])), k);
    PutIfGet(IsNumber(m.minimum), c3, "min", m.minimum.GetOr(JUndef), k);
    PutIfGet(IsNumber(m.maximum), c4, "max", m.maximum.GetOr(JUndef), k);
    PutIfGet(Filled(m.widget), c5, "widget", JStr(m.widget.GetOr("")), k);
    PutIfGet(Filled(m.placeholder), c6, "placeholder", JStr(m.placeholder.GetOr("")), k);
  }

  /** Title, description, widget and placeholder are copied only when truthy,
      `enum` when present, numeric `minimum`/`maximum` as `min`/`max`; every
      other property keeps its value; the schema fragment is merged last and
      wins over all of them. */
  lemma EnrichGet(c: Fields, m: FieldMeta, k: string)
    ensures Get(Enrich(c, m), k) ==
      if m.schema.Some? && k in KeySet(m.schema.value) then LastGet(m.schema.value, k)
      else Copied(c, m, k)
  {
    CopyGet(c, m, k);
    if m.schema.Some? {
      GetAssign(Copy(c, m), m.schema.value, k);
    }
  }

  /** One property of the inferred schema after the entries loop: enriched when
      its name has metadata, untouched otherwise. */
  function EnrichEntry(f: Field, meta: map<string, FieldMeta>): (r: Field)
    ensures r.key == f.key
    ensures f.key !in meta ==> r == f
  {
    if f.key in meta && f.value.JObj? then
      Field(f.key, JObj(Enrich(f.value.fields, meta[f.key]), f.value.symbols))
    else f
  }

  function EnrichAll(props: Fields, meta: map<string, FieldMeta>): (r: Fields)
    ensures |r| == |props|
    ensures forall i :: 0 <= i < |props| ==> r[i] == EnrichEntry(props[i], meta)
  {
    if props == [] then [] else [EnrichEntry(props[0], meta)] + EnrichAll(props[1..], meta)
  }

  /** `field.required = true` for one name of the root `required` list, when
      that property is an object. */
  function MarkOne(props: Fields, name: Json): Fields {
    if name.JStr? && Get(props, name.s).Some? && Get(props, name.s).value.JObj? then
      var field := Get(props, name.s).value;
      Put(props, name.s, JObj(Put(field.fields, "required", JBool(true)), field.symbols))
    else props
  }

  /** The `forEach` over the root `required` list. */
  function MarkRequired(props: Fields, names: seq<Json>): Fields
    decreases |names|
  {
    if names == [] then props
    else MarkOne(MarkRequired(props, names[..|names| - 1]), names[|names| - 1])
  }

  /** A property holds its inferred schema with `required: true` added. */
  ghost predicate RequiredVersionOf(v: Option<Json>, orig: Json) {
    orig.JObj? && v.Some? && v.value.JObj? && v.value.symbols == orig.symbols &&
    Get(v.value.fields, "required") == Some(JBool(true)) &&
    forall k :: k != "required" ==> Get(v.value.fields, k) == Get(orig.fields, k)
  }

  /** Every listed name whose property is an object ends up with
      `required: true` and its other settings intact; the properties of names
      not listed are unchanged; no property is added. */
  lemma {:induction false} MarkRequiredGet(props: Fields, names: seq<Json>, k: string)
    ensures KeySet(MarkRequired(props, names)) == KeySet(props)
    ensures JStr(k) !in names ==> Get(MarkRequired(props, names), k) == Get(props, k)
    ensures JStr(k) in names && Get(props, k).Some? && Get(props, k).value.JObj? ==>
      RequiredVersionOf(Get(MarkRequired(props, names), k), Get(props, k).value)
    decreases |names|
  {
    if names != [] {
      var init := names[..|names| - 1];
      var last := names[|names| - 1];
      MarkRequiredGet(props, init, k);
      assert names == init + [last];
      var before := MarkRequired(props, init);
      if last.JStr? && Get(before, last.s).Some? && Get(before, last.s).value.JObj? {
        MarkRequiredGet(props, init, last.s);
      }
    }
  }

  /** Enrichment applies to an object schema with properties when the type
      has metadata. */
  predicate Enriches(base: Json, fieldMeta: Option<map<string, FieldMeta>>) {
    Prop(base, "type") == JStr("object") && Truthy(Prop(base, "properties")) && fieldMeta.Some?
  }

  /** The shape the inferred schema has: an object whose properties, when
      present, form an object of object schemas, and whose `required` list,
      when it is an array, names properties by string. */
  predicate WellShaped(base: Json) {
    base.JObj? &&
    (Truthy(Prop(base, "properties")) ==>
      Prop(base, "properties").JObj? &&
      forall i :: 0 <= i < |Prop(base, "properties").fields| ==>
        Prop(base, "properties").fields[i].value.JObj?) &&
    (Prop(base, "required").JArr? ==>
      forall i :: 0 <= i < |Prop(base, "required").items| ==> Prop(base, "required").items[i].JStr?)
  }

  /** The properties after the `required` loop and the entries loop. */
  function ProcessedProperties(base: Json, meta: map<string, FieldMeta>): Fields
    requires base.JObj? && Prop(base, "properties").JObj?
  {
    var props := Prop(base, "properties").fields;
    var req := Prop(base, "required");
    EnrichAll(if req.JArr? then MarkRequired(props, req.items) else props, meta)
  }

  /** `!schema.displayType` → `displayType = "column"`. */
  function WithDisplayType(v: Json): (r: Json)
    requires v.JObj?
    ensures r.JObj? && r.symbols == v.symbols
    ensures Truthy(Prop(v, "displayType")) ==> r == v
    ensures !Truthy(Prop(v, "displayType")) ==> Prop(r, "displayType") == JStr("column")
    ensures forall k :: k != "displayType" ==> Prop(r, k) == Prop(v, k)
  {
    if Truthy(Prop(v, "displayType")) then v
    else JObj(Put(v.fields, "displayType", JStr("column")), v.symbols)
  }

  /** The schema `getComponentPropsSchema` returns. */
  function PropsSchema(base: Json, fieldMeta: Option<map<string, FieldMeta>>): Json
    requires WellShaped(base)
  {
    var enriched :=
      if Enriches(base, fieldMeta) then
        var p := Prop(base, "properties");
        JObj(Put(base.fields, "properties", JObj(ProcessedProperties(base, fieldMeta.value), p.symbols)),
             base.symbols)
      else base;
    WithDisplayType(enriched)
  }

  /** Without an object schema with properties, or without metadata for the
      type, only the `displayType` default applies. */
  lemma NoEnrichment(base: Json, fieldMeta: Option<map<string, FieldMeta>>, k: string)
    requires WellShaped(base) && !Enriches(base, fieldMeta)
    ensures k != "displayType" ==> Prop(PropsSchema(base, fieldMeta), k) == Prop(base, k)
  {
  }

  /** `displayType` defaults to "column", and a truthy one is kept. */
  lemma DisplayTypeDefault(base: Json, fieldMeta: Option<map<string, FieldMeta>>)
    requires WellShaped(base)
    ensures Prop(PropsSchema(base, fieldMeta), "displayType") ==
      if Truthy(Prop(base, "displayType")) then Prop(base, "displayType") else JStr("column")
  {
  }

  /** With enrichment, the only root property that changes besides
      `displayType` is `properties`, which then holds the processed entries in
      their original order. */
  lemma EnrichedShape(base: Json, meta: map<string, FieldMeta>, k: string)
    requires WellShaped(base) && Enriches(base, Some(meta))
    ensures Prop(PropsSchema(base, Some(meta)), "properties") ==
      JObj(ProcessedProperties(base, meta), Prop(base, "properties").symbols)
    ensures k != "displayType" && k != "properties" ==>
      Prop(PropsSchema(base, Some(meta)), k) == Prop(base, k)
  {
  }

  /** The `required` loop: `field.required = true` for each listed name whose
      property is an object. */
  method MarkRequiredFields(props: Fields, names: seq<Json>) returns (r: Fields)
    ensures r == MarkRequired(props, names)
  {
    r := props;
    var i := 0;
    while i < |names|
      invariant 0 <= i <= |names|
      invariant r == MarkRequired(props, names[..i])
    {
      assert names[..i + 1][..i] == names[..i];
      var name := names[i];
      if name.JStr? {
        var field := Get(r, name.s);
        if field.Some? && field.value.JObj? {
          r := Put(r, name.s, JObj(Put(field.value.fields, "required", JBool(true)), field.value.symbols));
        }
      }
      i := i + 1;
    }
    assert names[..i] == names;
  }

  /** The body of the entries loop for a property that has metadata. */
  method EnrichProperty(current: Fields, m: FieldMeta) returns (fields: Fields)
    ensures fields == Enrich(current, m)
  {
    fields := CopyMetadata(current, m);
    if m.schema.Some? {
      fields := Assign(fields, m.schema.value);
    }
  }

  /** The seven metadata copies of the entries loop, in source order. */
  method CopyMetadata(current: Fields, m: FieldMeta) returns (fields: Fields)
    ensures fields == Copy(current, m)
  {
    fields := current;
    if Filled(m.title) {
      fields := Put(fields, "title", JStr(m.title.value));
    }
    ghost var c1 := fields;
    assert c1 == PutIf(Filled(m.title), current, "title", JStr(m.title.GetOr("")));
    if Filled(m.description) {
      fields := Put(fields, "description", JStr(m.description.value));
    }
    ghost var c2 := fields;
    assert c2 == PutIf(Filled(m.description), c1, "description", JStr(m.description.GetOr("")));
    if m.enumValues.Some? {
      fields := Put(fields, "enum", JArr(m.enumValues.value));
    }
    ghost var c3 := fields;
    assert c3 == PutIf(m.enumValues.Some?, c2, "enum", JArr(m.enumValues.GetOr([])));
    if IsNumber(m.minimum) {
      fields := Put(fields, "min", m.minimum.value);
    }
    ghost var c4 := fields;
    assert c4 == PutIf(IsNumber(m.minimum), c3, "min", m.minimum.GetOr(JUndef));
    if IsNumber(m.maximum) {
      fields := Put(fields, "max", m.maximum.value);
    }
    ghost var c5 := fields;
    assert c5 == PutIf(IsNumber(m.maximum), c4, "max", m.maximum.GetOr(JUndef));
    if Filled(m.widget) {
      fields := Put(fields, "widget", JStr(m.widget.value));
    }
    ghost var c6 := fields;
    assert c6 == PutIf(Filled(m.widget), c5, "widget", JStr(m.widget.GetOr("")));
    if Filled(m.placeholder) {
      fields := Put(fields, "placeholder", JStr(m.placeholder.value));
    }
  }

  /** The entries loop over the properties, in order. */
  method EnrichProperties(props: Fields, meta: map<string, FieldMeta>) returns (r: Fields)
    ensures r == EnrichAll(props, meta)
  {
    r := props;
    var j := 0;
    while j < |r|
      invariant 0 <= j <= |r| == |props|
      invariant forall q :: 0 <= q < j ==> r[q] == EnrichEntry(props[q], meta)
      invariant forall q :: j <= q < |r| ==> r[q] == props[q]
    {
      var key := r[j].key;
      if key in meta && r[j].value.JObj? {
        var current := r[j].value;
        var fields := EnrichProperty(current.fields, meta[key]);
        r := r[j := Field(key, JObj(fields, current.symbols))];
      }
      assert r[j] == EnrichEntry(props[j], meta);
      j := j + 1;
    }
    assert forall q :: 0 <= q < |r| ==> r[q] == EnrichAll(props, meta)[q];
  }

  /** `getComponentPropsSchema(type, propsTemplate)`, given the inferred schema
      and the metadata registry entry for the type. */
  method GetComponentPropsSchema(base: Json, fieldMeta: Option<map<string, FieldMeta>>) returns (r: Json)
    requires WellShaped(base)
    ensures r == PropsSchema(base, fieldMeta)
  {
    r := base;
    if Enriches(base, fieldMeta) {
      var p := Prop(base, "properties");
      var props := p.fields;
      var req := Prop(base, "required");
      if req.JArr? {
        props := MarkRequiredFields(props, req.items);
      }
      props := EnrichProperties(props, fieldMeta.value);
      r := JObj(Put(base.fields, "properties", JObj(props, p.symbols)), base.symbols);
    }
    if !Truthy(Prop(r, "displayType")) {
      r := JObj(Put(r.fields, "displayType", JStr("column")), r.symbols);
    }
  }

  // ---- fixture: the Clock component's metadata ----

  function Meta(title: string): FieldMeta {
    FieldMeta(Some(title), None, None, None, None, None, None, None)
  }

  const ClockFieldMeta: map<string, FieldMeta> := map[
    "format" := Meta("时间格式").(placeholder := Some("例如：HH:mm:ss")),
    "fontSize" := Meta("字体大小").(minimum := Some(JInt(12)), maximum := Some(JInt(72)),
                                   widget := Some("inputNumber")),
    "fontWeight" := Meta("字体粗细").(enumValues := Some([JInt(300), JInt(400), JInt(500), JInt(600), JInt(700)])),
    "color" := Meta("文字颜色").(placeholder := Some("例如：#000000")),
    "textAlign" := Meta("对齐方式").(enumValues := Some([JStr("left"), JStr("center"), JStr("right")]),
                                    widget := Some("radio")),
    "showSeconds" := Meta("显示秒").(widget := Some("switch"))]

  /** The Clock's font size field gets its bounds as `min` 12 and `max` 72 and
      the number widget. */
  lemma ClockFontSizeBounds(c: Fields)
    ensures Get(Enrich(c, ClockFieldMeta["fontSize"]), "min") == Some(JInt(12))
    ensures Get(Enrich(c, ClockFieldMeta["fontSize"]), "max") == Some(JInt(72))
    ensures Get(Enrich(c, ClockFieldMeta["fontSize"]), "widget") == Some(JStr("inputNumber"))
  {
    EnrichGet(c, ClockFieldMeta["fontSize"], "min");
    EnrichGet(c, ClockFieldMeta["fontSize"], "max");
    EnrichGet(c, ClockFieldMeta["fontSize"], "widget");
  }
}
