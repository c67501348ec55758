/** The page tree's node shape, as the runtime code builds it (the store's root
    and the default templates), and its JSON form. */
module Schema {
  import opened Wrappers
  import opened JsonValue

  /** The `type` tags of the engine, together with the registry's fallback key. */
  datatype Tag =
    | Text | Image | Button | Clock | Container | BarChart | RootContainer | ErrorCallback

  function TagName(t: Tag): string {
    match t
    case Text => "Text"
    case Image => "Image"
    case Button => "Button"
    case Clock => "Clock"
    case Container => "Container"
    case BarChart => "BarChart"
    case RootContainer => "RootContainer"
    case ErrorCallback => "error-callback"
  }

  function TagOfName(s: string): (r: Option<Tag>)
    ensures r.Some? ==> TagName(r.value) == s
  {
    if s == "Text" then Some(Text)
    else if s == "Image" then Some(Image)
    else if s == "Button" then Some(Button)
    else if s == "Clock" then Some(Clock)
    else if s == "Container" then Some(Container)
    else if s == "BarChart" then Some(BarChart)
    else if s == "RootContainer" then Some(RootContainer)
    else if s == "error-callback" then Some(ErrorCallback)
    else None
  }

  lemma TagNameRoundTrip(t: Tag)
    ensures TagOfName(TagName(t)) == Some(t)
  {
  }

  /** A node's style object: `top`, `left`, `width`, `height`, `zIndex` and any
      other visual property, in property order. */
  type Style = Fields

  /** The `children` slot: absent, or an ordered list of child nodes. */
  datatype Children = NoChildren | Kids(nodes: seq<Node>)

  /** A node of the page tree. `tag` is `None` when `type` is missing or empty;
      `props` is `JUndef` when absent; an absent `isLocked` reads as false;
      `settings` is carried by the page root only. */
  datatype Node = Node(
    id: string,
    tag: Option<Tag>,
    name: string,
    props: Json,
    settings: Option<Json>,
    children: Children,
    style: Option<Style>,
    isLocked: bool)

  /** A `Partial<ComponentNode>`: the fields an update writes. */
  datatype NodePatch = NodePatch(
    id: Option<string>,
    tag: Option<Tag>,
    name: Option<string>,
    props: Option<Json>,
    children: Option<Children>,
    style: Option<Style>,
    isLocked: Option<bool>)

  /** The partial `{ style }` that geometry sync sends. */
  function StylePatch(s: Style): (p: NodePatch)
    ensures p.style == Some(s)
    ensures p.id.None? && p.tag.None? && p.name.None? && p.props.None?
    ensures p.children.None? && p.isLocked.None?
  {
    NodePatch(None, None, None, None, None, Some(s), None)
  }

  /** `style` with `left` and then `top` written, as `obj.left = …; obj.top = …`
      or `{ ...style, left, top }` do: an existing property keeps its place,
      a new one goes at the end. */
  function Positioned(style: Style, left: int, top: int): (s: Style)
    ensures Get(s, "left") == Some(JInt(left))
    ensures Get(s, "top") == Some(JInt(top))
    ensures forall k :: k != "left" && k != "top" ==> Get(s, k) == Get(style, k)
    ensures KeySet(s) == KeySet(style) + {"left", "top"}
  {
    Put(Put(style, "left", JInt(left)), "top", JInt(top))
  }

  // ---- JSON form ----

  /** `rest` with the property `key: v` in front of it when `present`. */
  function With(present: bool, key: string, v: Json, rest: Fields): Fields {
    if present then [Field(key, v)] + rest else rest
  }

  lemma GetWith(present: bool, key: string, v: Json, rest: Fields, k: string)
    ensures Get(With(present, key, v, rest), k) ==
      if present && key == k then Some(v) else Get(rest, k)
  {
    if present {
      assert With(present, key, v, rest)[1..] == rest;
    }
  }

  /** The properties of a node's JSON object, in the templates' order. */
  function NodeFields(n: Node): Fields
    decreases n, 3
  {
    With(true, "id", JStr(n.id),
    With(n.tag.Some?, "type", if n.tag.Some? then JStr(TagName(n.tag.value)) else JNull,
    With(true, "name", JStr(n.name),
    With(n.props != JUndef, "props", n.props,
    NodeLayoutFields(n)))))
  }

  /** The trailing properties: settings, children, style and the lock flag. */
  function NodeLayoutFields(n: Node): Fields
    decreases n, 2
  {
    With(n.settings.Some?, "settings", n.settings.GetOr(JNull),
    With(n.children.Kids?, "children",
         if n.children.Kids? then JArr(NodesToJson(n.children.nodes)) else JNull,
    With(n.style.Some?, "style", Obj(n.style.GetOr([])),
    With(n.isLocked, "isLocked", JBool(true), []))))
  }

  function NodeToJson(n: Node): Json
    decreases n, 4
  {
    Obj(NodeFields(n))
  }

  function NodesToJson(ns: seq<Node>): (r: seq<Json>)
    ensures |r| == |ns|
    decreases ns, 0
  {
    if ns == [] then [] else [NodeToJson(ns[0])] + NodesToJson(ns[1..])
  }

  /** Index of the first property named `k`, or -1. */
  function IndexOf(fields: Fields, k: string): (i: int)
    ensures -1 <= i < |fields|
    ensures i >= 0 ==> fields[i].key == k && Get(fields, k) == Some(fields[i].value)
    ensures i < 0 ==> Get(fields, k).None?
  {
    if fields == [] then -1
    else if fields[0].key == k then 0
    else var j := IndexOf(fields[1..], k); if j < 0 then -1 else j + 1
  }

  /** Builds a node from the properties read off its JSON object, checking each one's type. */
  function Assemble(idv: Option<Json>, tyv: Option<Json>, namev: Option<Json>, props: Json,
                    settings: Option<Json>, kids: Option<Children>, stylev: Option<Json>,
                    lockv: Option<Json>): Option<Node>
  {
    if !(idv.Some? && idv.value.JStr?) then None
    else if !(tyv.None? || (tyv.value.JStr? && TagOfName(tyv.value.s).Some?)) then None
    else if !(namev.Some? && namev.value.JStr?) then None
    else if !(stylev.None? || (stylev.value.JObj? && stylev.value.symbols == [])) then None
    else if !(lockv.None? || lockv.value.JBool?) then None
    else if kids.None? then None
    else Some(Node(
      idv.value.s,
      if tyv.None? then None else TagOfName(tyv.value.s),
      namev.value.s,
      props,
      settings,
      kids.value,
      if stylev.None? then None else Some(stylev.value.fields),
      lockv.Some? && lockv.value.b))
  }

  /** Reads a node back from its JSON form; `None` for anything that is not one. */
  function NodeFromJson(j: Json): Option<Node>
    decreases j, 1
  {
    match j
    case JObj(fields, _) =>
      var ci := IndexOf(fields, "children");
      var kids: Option<Children> :=
        if ci < 0 then Some(NoChildren)
        else match fields[ci].value
          case JArr(items) =>
            (match NodesFromJson(items)
             case Some(ns) => Some(Kids(ns))
             case None => None)
          case _ => None;
      Assemble(Get(fields, "id"), Get(fields, "type"), Get(fields, "name"),
               Get(fields, "props").GetOr(JUndef), Get(fields, "settings"), kids,
               Get(fields, "style"), Get(fields, "isLocked"))
    case _ => None
  }

  function NodesFromJson(items: seq<Json>): (r: Option<seq<Node>>)
    ensures r.Some? ==> |r.value| == |items|
    decreases items, 0
  {
    if items == [] then Some([])
    else match (NodeFromJson(items[0]), NodesFromJson(items[1..]))
      case (Some(n), Some(ns)) => Some([n] + ns)
      case _ => None
  }

  lemma NodeLayoutFieldsGet(n: Node, k: string)
    ensures Get(NodeLayoutFields(n), k) ==
      if k == "settings" && n.settings.Some? then n.settings
      else if k == "children" && n.children.Kids? then Some(JArr(NodesToJson(n.children.nodes)))
      else if k == "style" && n.style.Some? then Some(Obj(n.style.value))
      else if k == "isLocked" && n.isLocked then Some(JBool(true))
      else None
  {
    var t3 := With(n.isLocked, "isLocked", JBool(true), []);
    var t2 := With(n.style.Some?, "style", Obj(n.style.GetOr([])), t3);
    var t1 := With(n.children.Kids?, "children",
                   if n.children.Kids? then JArr(NodesToJson(n.children.nodes)) else JNull, t2);
    GetWith(n.isLocked, "isLocked", JBool(true), [], k);
    GetWith(n.style.Some?, "style", Obj(n.style.GetOr([])), t3, k);
    GetWith(n.children.Kids?, "children",
            if n.children.Kids? then JArr(NodesToJson(n.children.nodes)) else JNull, t2, k);
    GetWith(n.settings.Some?, "settings", n.settings.GetOr(JNull), t1, k);
  }

  /** Each property of a node's JSON object holds the node field it encodes. */
  lemma NodeFieldsGet(n: Node, k: string)
    ensures Get(NodeFields(n), k) ==
      if k == "id" then Some(JStr(n.id))
      else if k == "type" && n.tag.Some? then Some(JStr(TagName(n.tag.value)))
      else if k == "name" then Some(JStr(n.name))
      else if k == "props" && n.props != JUndef then Some(n.props)
      else Get(NodeLayoutFields(n), k)
  {
    var t3 := With(n.props != JUndef, "props", n.props, NodeLayoutFields(n));
    var t2 := With(true, "name", JStr(n.name), t3);
    var t1 := With(n.tag.Some?, "type", if n.tag.Some? then JStr(TagName(n.tag.value)) else JNull, t2);
    GetWith(n.props != JUndef, "props", n.props, NodeLayoutFields(n), k);
    GetWith(true, "name", JStr(n.name), t3, k);
    GetWith(n.tag.Some?, "type", if n.tag.Some? then JStr(TagName(n.tag.value)) else JNull, t2, k);
    GetWith(true, "id", JStr(n.id), t1, k);
  }

  /** Reading a node back from its JSON form gives the node. */
  lemma {:induction false} NodeJsonRoundTrip(n: Node)
    ensures NodeFromJson(NodeToJson(n)) == Some(n)
    decreases n, 1
  {
    var fields := NodeFields(n);
    NodeFieldsGet(n, "id");
    NodeFieldsGet(n, "name");
    TypeFieldGet(n);
    LayoutFieldsGet(n);
    if n.children.Kids? {
      NodesJsonRoundTrip(n.children.nodes);
    }
    DecodeFields(fields, n);
  }

  lemma TypeFieldGet(n: Node)
    ensures Get(NodeFields(n), "type") == if n.tag.Some? then Some(JStr(TagName(n.tag.value))) else None
    ensures Get(NodeFields(n), "props").GetOr(JUndef) == n.props
  {
    NodeFieldsGet(n, "type");
    NodeLayoutFieldsGet(n, "type");
    NodeFieldsGet(n, "props");
    NodeLayoutFieldsGet(n, "props");
  }

  lemma LayoutFieldsGet(n: Node)
    ensures Get(NodeFields(n), "settings") == n.settings
    ensures Get(NodeFields(n), "style") == if n.style.Some? then Some(Obj(n.style.value)) else None
    ensures Get(NodeFields(n), "isLocked") == if n.isLocked then Some(JBool(true)) else None
    ensures Get(NodeFields(n), "children") ==
      if n.children.Kids? then Some(JArr(NodesToJson(n.children.nodes))) else None
  {
    NodeFieldsGet(n, "settings");
    NodeLayoutFieldsGet(n, "settings");
    NodeFieldsGet(n, "style");
    NodeLayoutFieldsGet(n, "style");
    NodeFieldsGet(n, "isLocked");
    NodeLayoutFieldsGet(n, "isLocked");
    NodeFieldsGet(n, "children");
    NodeLayoutFieldsGet(n, "children");
  }

  /** Any object whose properties read as `n`'s encoding decodes to `n`. */
  lemma DecodeFields(fields: Fields, n: Node)
    requires Get(fields, "id") == Some(JStr(n.id))
    requires Get(fields, "type") == if n.tag.Some? then Some(JStr(TagName(n.tag.value))) else None
    requires Get(fields, "name") == Some(JStr(n.name))
    requires Get(fields, "props").GetOr(JUndef) == n.props
    requires Get(fields, "settings") == n.settings
    requires Get(fields, "style") == if n.style.Some? then Some(Obj(n.style.value)) else None
    requires Get(fields, "isLocked") == if n.isLocked then Some(JBool(true)) else None
    requires Get(fields, "children") ==
      if n.children.Kids? then Some(JArr(NodesToJson(n.children.nodes))) else None
    requires n.children.Kids? ==> NodesFromJson(NodesToJson(n.children.nodes)) == Some(n.children.nodes)
    ensures NodeFromJson(Obj(fields)) == Some(n)
  {
    var ci := IndexOf(fields, "children");
    assert n.children.Kids? ==> fields[ci].value == JArr(NodesToJson(n.children.nodes));
    AssembleRoundTrip(n);
  }

  /** The assembly step inverts the encoding of each property. */
  lemma AssembleRoundTrip(n: Node)
    ensures Assemble(Some(JStr(n.id)),
                     if n.tag.Some? then Some(JStr(TagName(n.tag.value))) else None,
                     Some(JStr(n.name)), n.props, n.settings, Some(n.children),
                     if n.style.Some? then Some(Obj(n.style.value)) else None,
                     if n.isLocked then Some(JBool(true)) else None) == Some(n)
  {
    if n.tag.Some? {
      TagNameRoundTrip(n.tag.value);
    }
  }

  lemma {:induction false} NodesJsonRoundTrip(ns: seq<Node>)
    ensures NodesFromJson(NodesToJson(ns)) == Some(ns)
    decreases ns, 0
  {
    if ns != [] {
      NodeJsonRoundTrip(ns[0]);
      NodesJsonRoundTrip(ns[1..]);
      var js := NodesToJson(ns);
      assert js == [NodeToJson(ns[0])] + NodesToJson(ns[1..]);
      assert js[0] == NodeToJson(ns[0]);
      assert js[1..] == NodesToJson(ns[1..]);
      assert js != [];
      assert NodesFromJson(js) == Some([ns[0]] + ns[1..]);
      assert [ns[0]] + ns[1..] == ns;
    }
  }
}
