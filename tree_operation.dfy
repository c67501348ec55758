/** Lookup of a node by id in the page tree (`findItem` of `useTreeOperation`).
    The search is pre-order and depth-first, and it descends only into nodes
    whose type is exactly "Container": the children of any other node, the
    page root (a "RootContainer") included, are never examined. */
module TreeOperation {
  import opened Wrappers
  import opened Schema
  import opened JsonValue

  predicate IsContainer(n: Node) {
    n.tag == Some(Container)
  }

  /** The shape the search relies on: every Container it can reach carries a
      children list (the search iterates over `children!`). */
  predicate Searchable(n: Node)
    decreases n
  {
    IsContainer(n) ==>
      n.children.Kids? &&
      forall i :: 0 <= i < |n.children.nodes| ==> Searchable(n.children.nodes[i])
  }

  predicate AllSearchable(ns: seq<Node>) {
    forall i :: 0 <= i < |ns| ==> Searchable(ns[i])
  }

  // ---- the search ----

  /** `findItem(id, node)`: `None` stands for a null node and for a null result. */
  function FindItem(id: string, node: Option<Node>): (r: Option<Node>)
    requires node.Some? ==> Searchable(node.value)
    ensures node.None? ==> r.None?
  {
    match node
    case None => None
    case Some(n) => Find(id, n)
  }

  function Find(id: string, n: Node): (r: Option<Node>)
    requires Searchable(n)
    ensures id == n.id ==> r == Some(n)
    decreases n, 1
  {
    if id == n.id then Some(n)
    else if IsContainer(n) then FindIn(id, n.children.nodes)
    else None
  }

  /** The `for … of` loop over the children: the first non-null hit wins. */
  function FindIn(id: string, ns: seq<Node>): (r: Option<Node>)
    requires AllSearchable(ns)
    decreases ns, 0
  {
    if ns == [] then None
    else
      var found := Find(id, ns[0]);
      if found.Some? then found else FindIn(id, ns[1..])
  }

  // ---- reference definition: the nodes the search can visit ----

  /** The nodes reached from `n` through Container ancestors only, in pre-order. */
  function Visit(n: Node): seq<Node>
    decreases n, 1
  {
    [n] + (if IsContainer(n) && n.children.Kids? then VisitAll(n.children.nodes) else [])
  }

  function VisitAll(ns: seq<Node>): seq<Node>
    decreases ns, 0
  {
    if ns == [] then [] else Visit(ns[0]) + VisitAll(ns[1..])
  }

  /** The first node of `xs` whose id is `id`. */
  function FirstWithId(id: string, xs: seq<Node>): (r: Option<Node>)
    ensures r.Some? ==> r.value.id == id && r.value in xs
    ensures r.None? <==> forall i :: 0 <= i < |xs| ==> xs[i].id != id
  {
    if xs == [] then None
    else if xs[0].id == id then Some(xs[0])
    else FirstWithId(id, xs[1..])
  }

  lemma {:induction false} FirstWithIdConcat(id: string, a: seq<Node>, b: seq<Node>)
    ensures FirstWithId(id, a + b) ==
      if FirstWithId(id, a).Some? then FirstWithId(id, a) else FirstWithId(id, b)
  {
    if a != [] {
      assert (a + b)[0] == a[0];
      assert (a + b)[1..] == a[1..] + b;
      FirstWithIdConcat(id, a[1..], b);
    } else {
      assert a + b == b;
    }
  }

  /** The search returns the first node, in pre-order over the nodes reached
      through Container ancestors, that carries the id. */
  lemma {:induction false} FindIsFirstVisited(id: string, n: Node)
    requires Searchable(n)
    ensures Find(id, n) == FirstWithId(id, Visit(n))
    decreases n, 1
  {
    var rest := if IsContainer(n) && n.children.Kids? then VisitAll(n.children.nodes) else [];
    FirstWithIdConcat(id, [n], rest);
    if id != n.id && IsContainer(n) {
      FindInIsFirstVisited(id, n.children.nodes);
    }
  }

  lemma {:induction false} FindInIsFirstVisited(id: string, ns: seq<Node>)
    requires AllSearchable(ns)
    ensures FindIn(id, ns) == FirstWithId(id, VisitAll(ns))
    decreases ns, 0
  {
    if ns != [] {
      FindIsFirstVisited(id, ns[0]);
      FindInIsFirstVisited(id, ns[1..]);
      FirstWithIdConcat(id, Visit(ns[0]), VisitAll(ns[1..]));
    }
  }

  /** A hit carries the queried id and is a node reached through Container
      ancestors; a miss means no such node carries the id. */
  lemma FindItemSpec(id: string, n: Node)
    requires Searchable(n)
    ensures var r := FindItem(id, Some(n));
      (r.Some? ==> r.value.id == id && r.value in Visit(n)) &&
      (r.None? <==> forall i :: 0 <= i < |Visit(n)| ==> Visit(n)[i].id != id)
  {
    FindIsFirstVisited(id, n);
  }

  /** The children of a node that is not exactly a Container are never searched. */
  lemma NonContainerIsLeaf(id: string, n: Node)
    requires !IsContainer(n)
    ensures Searchable(n)
    ensures FindItem(id, Some(n)) == if id == n.id then Some(n) else None
  {
  }

  /** A node of tag `t` whose only child is `child`. */
  function Parent(id: string, t: Tag, child: Node): (p: Node)
    ensures p.children.Kids? && p.children.nodes == [child]
  {
    Node(id, Some(t), "", JUndef, None, Kids([child]), None, false)
  }

  /** A node placed under the page root is not found by its id ... */
  lemma RootChildNotFound(rootId: string, child: Node)
    requires child.id != rootId
    ensures FindItem(child.id, Some(Parent(rootId, RootContainer, child))).None?
  {
  }

  /** ... while the same node under a Container is. */
  lemma ContainerChildFound(boxId: string, child: Node)
    requires Searchable(child)
    requires child.id != boxId
    ensures Searchable(Parent(boxId, Container, child))
    ensures FindItem(child.id, Some(Parent(boxId, Container, child))) == Some(child)
  {
    assert FindIn(child.id, [child]) == Some(child);
  }
}
