/** The recursive renderer. Given a node it looks the node's type up in the
    registry, falls back to the "error-callback" entry, and invokes the
    component with the node and with `renderChildren`, which renders a list of
    children by calling the renderer again; given a list it renders each node,
    keyed by its id. The output is an abstract tree recording which component
    was applied to which node. */
module Renderer {
  import opened Wrappers
  import opened JsonValue
  import opened Schema
  import opened Registry
  import Store

  /** Why rendering throws: no component and no fallback to call, or a
      component rendering `children!` of a node that has none. */
  datatype Failure = UndefinedComponent | UndefinedSchema

  datatype View =
    | Nothing                                        // `null`
    | Many(items: seq<Keyed>)                        // the `map` over a list
    | Invoked(impl: Impl, node: Node, body: Body)    // `renderComponent({ node, renderChildren })`
    | Thrown(failure: Failure)

  /** What the component drew inside itself: nothing the renderer sees, or the
      output of `renderChildren`. */
  datatype Body = Leaf | Children(view: View)

  datatype Keyed = Keyed(key: string, view: View)

  /** The `schema` prop: one node or a list of nodes. */
  datatype Input = One(node: Node) | List(nodes: seq<Node>)

  /** The component for a type: its own entry, else the "error-callback" entry. */
  function Resolve(reg: map<Tag, Impl>, t: Tag): (r: Option<Impl>)
    ensures t in reg ==> r == Some(reg[t])
    ensures t !in reg && ErrorCallback in reg ==> r == Some(reg[ErrorCallback])
    ensures r.None? <==> t !in reg && ErrorCallback !in reg
  {
    if t in reg then Some(reg[t])
    else if ErrorCallback in reg then Some(reg[ErrorCallback])
    else None
  }

  function RenderNode(reg: map<Tag, Impl>, n: Node): (v: View)
    ensures n.tag.None? ==> v == Nothing
    ensures n.tag.Some? && Resolve(reg, n.tag.value).Some? ==>
      v.Invoked? && v.impl == Resolve(reg, n.tag.value).value && v.node == n
    ensures n.tag.Some? && Resolve(reg, n.tag.value).None? ==> v == Thrown(UndefinedComponent)
    decreases n, 1
  {
    if n.tag.None? then Nothing
    else
      match Resolve(reg, n.tag.value)
      case None => Thrown(UndefinedComponent)
      case Some(impl) =>
        if !impl.rendersChildren then Invoked(impl, n, Leaf)
        else if n.children.NoChildren? then Invoked(impl, n, Children(Thrown(UndefinedSchema)))
        else Invoked(impl, n, Children(Many(RenderList(reg, n.children.nodes))))
  }

  function RenderList(reg: map<Tag, Impl>, ns: seq<Node>): (r: seq<Keyed>)
    ensures |r| == |ns|
    ensures forall i :: 0 <= i < |ns| ==> r[i].key == ns[i].id
    decreases ns, 0
  {
    if ns == [] then [] else [Keyed(ns[0].id, RenderNode(reg, ns[0]))] + RenderList(reg, ns[1..])
  }

  /** `Renderer({ schema })`: a list gives one keyed output per node, in
      order, each that node's rendering; a node without a type gives `null`. */
  function Render(reg: map<Tag, Impl>, s: Input): (v: View)
    ensures s.List? ==> v.Many? && |v.items| == |s.nodes|
    ensures s.List? ==> forall i :: 0 <= i < |s.nodes| ==>
      v.items[i] == Keyed(s.nodes[i].id, RenderNode(reg, s.nodes[i]))
    ensures s.One? && s.node.tag.None? ==> v == Nothing
  {
    if s.List? then
      assert forall i :: 0 <= i < |s.nodes| ==>
        RenderList(reg, s.nodes)[i] == Keyed(s.nodes[i].id, RenderNode(reg, s.nodes[i])) by {
        forall i | 0 <= i < |s.nodes| {
          RenderListPointwise(reg, s.nodes, i);
        }
      }
      Many(RenderList(reg, s.nodes))
    else
    match s
    case One(n) => RenderNode(reg, n)
    case List(ns) => Many(RenderList(reg, ns))
  }

  /** A list renders to one output per node, in order, keyed by the node's id,
      each the rendering of that node. */
  lemma {:induction false} RenderListPointwise(reg: map<Tag, Impl>, ns: seq<Node>, i: nat)
    requires i < |ns|
    ensures RenderList(reg, ns)[i] == Keyed(ns[i].id, RenderNode(reg, ns[i]))
  {
    if i > 0 {
      RenderListPointwise(reg, ns[1..], i - 1);
    }
  }

  /** `renderChildren(cs)` is the renderer applied to the list `cs`. */
  lemma RenderChildrenIsRenderer(reg: map<Tag, Impl>, n: Node)
    requires n.tag.Some? && Resolve(reg, n.tag.value).Some?
    requires Resolve(reg, n.tag.value).value.rendersChildren && n.children.Kids?
    ensures RenderNode(reg, n).body == Children(Render(reg, List(n.children.nodes)))
  {
  }

  // ---- totality ----

  /** The output contains no call of an undefined component. */
  predicate NoUndefinedComponent(v: View)
    decreases v
  {
    match v
    case Nothing => true
    case Many(items) => forall i :: 0 <= i < |items| ==> NoUndefinedComponent(items[i].view)
    case Invoked(_, _, body) => body.Leaf? || NoUndefinedComponent(body.view)
    case Thrown(f) => f != UndefinedComponent
  }

  /** With an "error-callback" entry, every typed node finds a component. */
  lemma {:induction false} FallbackMakesTotal(reg: map<Tag, Impl>, n: Node)
    requires ErrorCallback in reg
    ensures NoUndefinedComponent(RenderNode(reg, n))
    decreases n, 1
  {
    if n.tag.Some? && n.children.Kids? {
      FallbackMakesTotalList(reg, n.children.nodes);
    }
  }

  lemma {:induction false} FallbackMakesTotalList(reg: map<Tag, Impl>, ns: seq<Node>)
    requires ErrorCallback in reg
    ensures forall i :: 0 <= i < |ns| ==> NoUndefinedComponent(RenderList(reg, ns)[i].view)
    decreases ns, 0
  {
    forall i | 0 <= i < |ns|
      ensures NoUndefinedComponent(RenderList(reg, ns)[i].view)
    {
      RenderListPointwise(reg, ns, i);
      FallbackMakesTotal(reg, ns[i]);
    }
  }

  /** The page root as the store installs it, rendered with the registry as
      the module load leaves it: RootContainer has no entry and there is no
      "error-callback" entry, so the renderer calls `undefined`. */
  lemma DefaultRootThrows(rootId: string)
    ensures Render(RegisterAll(map[], InitialEntries()), One(Store.DefaultSchema(rootId)))
      == Thrown(UndefinedComponent)
  {
    InitialRegistryKeys();
  }

  /** A fallback component for unknown types. */
  const ErrorCallbackImpl: Impl := Impl("error-callback", false)

  /** The page root's component: a drop zone rendering
      `renderChildren(node.children!)`. */
  const RootContainerImpl: Impl := Impl("RootContainer", true)

  /** The module-load entries with the two the renderer relies on: the page
      root's RootContainer and the "error-callback" fallback. */
  function CorrectedEntries(): (es: seq<(Tag, Impl)>)
    ensures RegisterAll(map[], es) ==
      map[Container := ContainerImpl, Text := TextImpl,
          RootContainer := RootContainerImpl, ErrorCallback := ErrorCallbackImpl]
  {
    var es := InitialEntries() + [(RootContainer, RootContainerImpl), (ErrorCallback, ErrorCallbackImpl)];
    assert es[..3][..2] == InitialEntries();
    InitialRegistryKeys();
    es
  }

  /** With the corrected entries, no page tree makes the renderer call
      `undefined`. */
  lemma FallbackRegistryTotal(n: Node)
    ensures NoUndefinedComponent(Render(RegisterAll(map[], CorrectedEntries()), One(n)))
  {
    FallbackMakesTotal(RegisterAll(map[], CorrectedEntries()), n);
  }

  /** With the corrected entries, the page root as the store builds it, holding
      any children, is drawn by RootContainer, which renders those children
      as a list. */
  lemma CorrectedRootRendersChildren(rootId: string, kids: seq<Node>)
    ensures var root := Store.DefaultSchema(rootId).(children := Kids(kids));
      var reg := RegisterAll(map[], CorrectedEntries());
      Render(reg, One(root)) == Invoked(RootContainerImpl, root, Children(Render(reg, List(kids))))
  {
  }
}
