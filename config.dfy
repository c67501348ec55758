/** The default component templates and `getNewComponentConfig`, which hands
    out a deep clone of the template for a type. */
module Config {
  import opened Wrappers
  import opened JsonValue
  import opened Schema
  import opened DeepClone

  function I(n: int): Json { JInt(n) }
  function S(s: string): Json { JStr(s) }

  /** A template: placeholder id "", no settings, unlocked. */
  function Template(t: Tag, name: string, props: Fields, children: Children, style: Style): (n: Node)
    ensures n.id == "" && n.tag == Some(t)
  {
    Node("", Some(t), name, Obj(props), None, children, Some(style), false)
  }

  const TextDefault: Node := Template(Text, "文本",
    [Field("content", S("示例文本")), Field("fontSize", I(16)), Field("fontWeight", I(400)),
     Field("color", S("#000000")), Field("textAlign", S("left"))],
    NoChildren,
    [Field("x", I(0)), Field("y", I(0)), Field("width", I(200)), Field("height", I(30)),
     Field("zIndex", I(1))])

  const ImageDefault: Node := Template(Image, "图片",
    [Field("src", S("https://via.placeholder.com/300x200.png")), Field("alt", S("示例图片")),
     Field("fit", S("contain")), Field("preview", JBool(true))],
    NoChildren,
    [Field("top", I(0)), Field("left", I(0)), Field("width", I(300)), Field("height", I(200)),
     Field("zIndex", I(1)), Field("backgroundColor", S("#f5f5f5")),
     Field("border", S("1px solid #e0e0e0")), Field("borderRadius", I(4))])

  const ButtonDefault: Node := Template(Button, "按钮",
    [Field("text", S("主按钮")), Field("type", S("primary")), Field("size", S("middle")),
     Field("danger", JBool(false)), Field("block", JBool(false)), Field("disabled", JBool(false))],
    NoChildren,
    [Field("top", I(0)), Field("left", I(0)), Field("width", I(140)), Field("height", I(40)),
     Field("zIndex", I(1)), Field("borderRadius", I(6))])

  const ContainerDefault: Node := Template(Container, "容器",
    [Field("layoutMode", S("absolute")), Field("gap", I(0))],
    Kids([]),
    [Field("x", I(0)), Field("y", I(0)), Field("width", I(300)), Field("height", I(300)),
     Field("zIndex", I(1)), Field("backgroundColor", S("#ffffff")),
     Field("border", S("1px solid #e0e0e0")), Field("borderRadius", I(4))])

  const ClockDefault: Node := Template(Clock, "时钟",
    [Field("format", S("HH:mm:ss")), Field("fontSize", I(24)), Field("fontWeight", I(500)),
     Field("color", S("#000000")), Field("textAlign", S("center")), Field("showSeconds", JBool(true))],
    NoChildren,
    [Field("top", I(0)), Field("left", I(0)), Field("width", I(200)), Field("height", I(60)),
     Field("zIndex", I(1))])

  function Row(name: string, value: int): Json {
    Obj([Field("name", S(name)), Field("value", I(value))])
  }

  const BarChartDefault: Node := Template(BarChart, "柱状图",
    [Field("title", S("示例柱状图")), Field("xAxisField", S("name")), Field("yAxisField", S("value")),
     Field("showGrid", JBool(true)), Field("showLegend", JBool(false)),
     Field("tooltipEnabled", JBool(true)), Field("barColor", S("#5470c6")),
     Field("dataSource", Obj([Field("sourceType", S("static")),
                              Field("data", JArr([Row("A", 120), Row("B", 200), Row("C", 150)]))]))],
    NoChildren,
    [Field("top", I(0)), Field("left", I(0)), Field("width", I(400)), Field("height", I(300)),
     Field("zIndex", I(1))])

  /** `componentDefaultConfigs`: component type name to template. */
  const ComponentDefaultConfigs: map<string, Node> := map[
    "Text" := TextDefault,
    "Image" := ImageDefault,
    "Button" := ButtonDefault,
    "Container" := ContainerDefault,
    "Clock" := ClockDefault,
    "BarChart" := BarChartDefault]

  /** The table covers exactly the six palette types; each entry is tagged with
      its own key and carries the placeholder id "". */
  lemma TableShape(key: string)
    ensures ComponentDefaultConfigs.Keys == {"Text", "Image", "Button", "Container", "Clock", "BarChart"}
    ensures key in ComponentDefaultConfigs ==>
      var t := ComponentDefaultConfigs[key];
      t.id == "" && t.tag.Some? && TagName(t.tag.value) == key && TagOfName(key) == t.tag
  {
  }

  /** A node built from JSON data alone, all the way down. */
  predicate PlainNode(n: Node)
    decreases n
  {
    (n.props == JUndef || IsPlainJson(n.props)) &&
    (n.settings.Some? ==> IsPlainJson(n.settings.value)) &&
    (n.style.Some? ==> IsPlainJson(Obj(n.style.value))) &&
    (n.children.Kids? ==>
      forall i :: 0 <= i < |n.children.nodes| ==> PlainNode(n.children.nodes[i]))
  }

  lemma {:induction false} PlainNodeJson(n: Node)
    requires PlainNode(n)
    ensures IsPlainJson(NodeToJson(n))
    decreases n, 1
  {
    if n.children.Kids? {
      PlainNodesJson(n.children.nodes);
    }
    var fs := NodeFields(n);
    forall i | 0 <= i < |fs|
      ensures IsPlainJson(fs[i].value)
    {
      FieldsPlain(n, i);
    }
  }

  lemma FieldsPlain(n: Node, i: nat)
    requires PlainNode(n)
    requires n.children.Kids? ==>
      forall j :: 0 <= j < |n.children.nodes| ==> IsPlainJson(NodesToJson(n.children.nodes)[j])
    requires i < |NodeFields(n)|
    ensures IsPlainJson(NodeFields(n)[i].value)
  {
    LayoutFieldsPlain(n);
    var withProps := With(n.props != JUndef, "props", n.props, NodeLayoutFields(n));
    WithPlain(n.props != JUndef, "props", n.props, NodeLayoutFields(n));
    var withName := With(true, "name", JStr(n.name), withProps);
    WithPlain(true, "name", JStr(n.name), withProps);
    var ty := if n.tag.Some? then JStr(TagName(n.tag.value)) else JNull;
    WithPlain(n.tag.Some?, "type", ty, withName);
    WithPlain(true, "id", JStr(n.id), With(n.tag.Some?, "type", ty, withName));
  }

  /** Prepending a plain property keeps every property plain. */
  lemma WithPlain(present: bool, key: string, v: Json, rest: Fields)
    requires present ==> IsPlainJson(v)
    requires forall j :: 0 <= j < |rest| ==> IsPlainJson(rest[j].value)
    ensures forall j :: 0 <= j < |With(present, key, v, rest)| ==> IsPlainJson(With(present, key, v, rest)[j].value)
  {
  }

  lemma LayoutFieldsPlain(n: Node)
    requires PlainNode(n)
    requires n.children.Kids? ==>
      forall j :: 0 <= j < |n.children.nodes| ==> IsPlainJson(NodesToJson(n.children.nodes)[j])
    ensures forall j :: 0 <= j < |NodeLayoutFields(n)| ==> IsPlainJson(NodeLayoutFields(n)[j].value)
  {
  }

  lemma {:induction false} PlainNodesJson(ns: seq<Node>)
    requires forall i :: 0 <= i < |ns| ==> PlainNode(ns[i])
    ensures forall i :: 0 <= i < |ns| ==> IsPlainJson(NodesToJson(ns)[i])
    decreases ns, 0
  {
    if ns != [] {
      PlainNodeJson(ns[0]);
      PlainNodesJson(ns[1..]);
      assert NodesToJson(ns) == [NodeToJson(ns[0])] + NodesToJson(ns[1..]);
    }
  }

  /** Each template is built from JSON data alone. */
  lemma TemplatePlain(key: string)
    requires key in ComponentDefaultConfigs
    ensures PlainNode(ComponentDefaultConfigs[key])
  {
    if key == "Text" {
      assert ComponentDefaultConfigs[key] == TextDefault;
      TextPlain();
    } else if key == "Image" {
      assert ComponentDefaultConfigs[key] == ImageDefault;
      ImagePlain();
    } else if key == "Button" {
      assert ComponentDefaultConfigs[key] == ButtonDefault;
      ButtonPlain();
    } else if key == "Container" {
      assert ComponentDefaultConfigs[key] == ContainerDefault;
      ContainerPlain();
    } else if key == "Clock" {
      assert ComponentDefaultConfigs[key] == ClockDefault;
      ClockPlain();
    } else {
      assert ComponentDefaultConfigs[key] == BarChartDefault;
      BarChartPlain();
    }
  }

  lemma TextPlain()
    ensures PlainNode(TextDefault)
  {
  }

  lemma ImagePlain()
    ensures PlainNode(ImageDefault)
  {
  }

  lemma ButtonPlain()
    ensures PlainNode(ButtonDefault)
  {
  }

  lemma ContainerPlain()
    ensures PlainNode(ContainerDefault)
  {
  }

  lemma ClockPlain()
    ensures PlainNode(ClockDefault)
  {
  }

  lemma BarChartPlain()
    ensures PlainNode(BarChartDefault)
  {
    var rows := [Row("A", 120), Row("B", 200), Row("C", 150)];
    assert forall i :: 0 <= i < |rows| ==> IsPlainJson(rows[i]);
    assert IsPlainJson(JArr(rows));
  }

  /** Every template is plain JSON data: `isSimpleSerializable` accepts it and
      the JSON round trip gives it back, so the clone `smartDeepClone` makes of
      it, as written or corrected, equals the template. */
  lemma TemplatesArePlain(key: string)
    requires key in ComponentDefaultConfigs
    ensures IsPlainJson(NodeToJson(ComponentDefaultConfigs[key]))
    ensures IsSimpleSerializable(NodeToJson(ComponentDefaultConfigs[key]))
    ensures SimpleDeepClone(NodeToJson(ComponentDefaultConfigs[key])) == NodeToJson(ComponentDefaultConfigs[key])
  {
    var t := ComponentDefaultConfigs[key];
    TemplatePlain(key);
    PlainNodeJson(t);
  }

  /** `getNewComponentConfig(type)`: a deep clone of the type's template, read
      back as a node; `None` for a name the table does not have (the clone of
      `undefined` is `undefined`). */
  method GetNewComponentConfig(key: string) returns (r: Option<Node>)
    ensures key in ComponentDefaultConfigs ==> r == Some(ComponentDefaultConfigs[key])
    ensures key !in ComponentDefaultConfigs ==> r.None?
  {
    var source := if key in ComponentDefaultConfigs then NodeToJson(ComponentDefaultConfigs[key]) else JUndef;
    if key in ComponentDefaultConfigs {
      TemplatesArePlain(key);
      NodeJsonRoundTrip(ComponentDefaultConfigs[key]);
    }
    var clone := SmartDeepClone(source);
    r := NodeFromJson(clone);
  }
}
