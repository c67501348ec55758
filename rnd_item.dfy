/** The movable, resizable frame around a node on the canvas (`RndItem`): the
    style it falls back to, what the lock flag disables, the style it writes
    back when a drag or a resize ends, and the selection handlers. The store's
    `selectedId` is passed in as the value read when the frame was drawn. */
module RndItem {
  import opened Wrappers
  import opened JsonValue
  import opened Schema
  import Store

  /** The style used for a node that has none. */
  const FallbackStyle: Style :=
    [Field("top", JInt(0)), Field("left", JInt(0)), Field("width", JInt(200)),
     Field("height", JInt(50)), Field("zIndex", JInt(1))]

  /** `node.style ?? fallback`. */
  function EffectiveStyle(n: Node): (s: Style)
    ensures n.style.Some? ==> s == n.style.value
    ensures n.style.None? ==>
      KeySet(s) == {"top", "left", "width", "height", "zIndex"} &&
      Get(s, "top") == Some(JInt(0)) && Get(s, "left") == Some(JInt(0)) &&
      Get(s, "width") == Some(JInt(200)) && Get(s, "height") == Some(JInt(50)) &&
      Get(s, "zIndex") == Some(JInt(1))
  {
    if n.style.Some? then n.style.value
    else
      assert FallbackStyle[1..][1..][1..][1..][1..] == [];
      FallbackStyle
  }

  /** `selectedId === node.id`. */
  predicate IsSelected(selectedId: Option<string>, n: Node) {
    selectedId == Some(n.id)
  }

  /** `disableDragging={Boolean(node.isLocked)}`. */
  predicate DraggingDisabled(n: Node) {
    n.isLocked
  }

  /** `enableResizing={!node.isLocked}`. */
  predicate ResizingEnabled(n: Node) {
    !n.isLocked
  }

  /** A locked node can be neither dragged nor resized; an unlocked one can be both. */
  lemma LockFlags(n: Node)
    ensures n.isLocked ==> DraggingDisabled(n) && !ResizingEnabled(n)
    ensures !n.isLocked ==> !DraggingDisabled(n) && ResizingEnabled(n)
  {
  }

  /** The style written back when a drag ends at (x, y). */
  function DragStopStyle(style: Style, x: int, y: int): (s: Style)
    ensures Get(s, "left") == Some(JInt(x)) && Get(s, "top") == Some(JInt(y))
    ensures forall k :: k != "left" && k != "top" ==> Get(s, k) == Get(style, k)
    ensures KeySet(s) == KeySet(style) + {"left", "top"}
  {
    Positioned(style, x, y)
  }

  /** The style written back when a resize ends: the measured size and the
      new position. */
  function ResizeStopStyle(style: Style, width: int, height: int, x: int, y: int): (s: Style)
    ensures Get(s, "width") == Some(JInt(width)) && Get(s, "height") == Some(JInt(height))
    ensures Get(s, "left") == Some(JInt(x)) && Get(s, "top") == Some(JInt(y))
    ensures forall k :: k !in {"width", "height", "left", "top"} ==> Get(s, k) == Get(style, k)
    ensures KeySet(s) == KeySet(style) + {"width", "height", "left", "top"}
  {
    Positioned(Put(Put(style, "width", JInt(width)), "height", JInt(height)), x, y)
  }

  /** Dragging a node that already sits at (x, y) writes back the style it had. */
  lemma {:induction false} DragStopInPlace(style: Style, x: int, y: int)
    requires Get(style, "left") == Some(JInt(x)) && Get(style, "top") == Some(JInt(y))
    ensures DragStopStyle(style, x, y) == style
  {
    PutExisting(style, "left", JInt(x));
    PutExisting(style, "top", JInt(y));
  }

  /** Writing the value a property already has changes nothing. */
  lemma {:induction false} PutExisting(fields: Fields, k: string, v: Json)
    requires Get(fields, k) == Some(v)
    ensures Put(fields, k, v) == fields
  {
    if fields[0].key != k {
      PutExisting(fields[1..], k, v);
      assert [fields[0]] + fields[1..] == fields;
    } else {
      assert [Field(k, v)] + fields[1..] == fields;
    }
  }

  /** `onDragStop`: one `updateItem(node.id, { style })`. */
  method OnDragStop(store: Store.SchemaStore, n: Node, x: int, y: int)
    modifies store
    ensures store.calls ==
      old(store.calls) + [Store.UpdateItem(n.id, StylePatch(DragStopStyle(EffectiveStyle(n), x, y)))]
    ensures store.schema == old(store.schema)
  {
    store.UpdateItem(n.id, StylePatch(DragStopStyle(EffectiveStyle(n), x, y)));
  }

  /** `onResizeStop`: one `updateItem(node.id, { style })`. */
  method OnResizeStop(store: Store.SchemaStore, n: Node, width: int, height: int, x: int, y: int)
    modifies store
    ensures store.calls ==
      old(store.calls) + [Store.UpdateItem(n.id, StylePatch(ResizeStopStyle(EffectiveStyle(n), width, height, x, y)))]
    ensures store.schema == old(store.schema)
  {
    store.UpdateItem(n.id, StylePatch(ResizeStopStyle(EffectiveStyle(n), width, height, x, y)));
  }

  /** A drag gesture: the frame reports its end only when dragging is enabled. */
  method DragGesture(store: Store.SchemaStore, n: Node, x: int, y: int)
    modifies store
    ensures DraggingDisabled(n) ==> store.calls == old(store.calls)
    ensures !DraggingDisabled(n) ==>
      store.calls == old(store.calls) + [Store.UpdateItem(n.id, StylePatch(DragStopStyle(EffectiveStyle(n), x, y)))]
    ensures store.schema == old(store.schema)
  {
    if !DraggingDisabled(n) {
      OnDragStop(store, n, x, y);
    }
  }

  /** A resize gesture: reported only when resizing is enabled. */
  method ResizeGesture(store: Store.SchemaStore, n: Node, width: int, height: int, x: int, y: int)
    modifies store
    ensures !ResizingEnabled(n) ==> store.calls == old(store.calls)
    ensures ResizingEnabled(n) ==>
      store.calls == old(store.calls) +
        [Store.UpdateItem(n.id, StylePatch(ResizeStopStyle(EffectiveStyle(n), width, height, x, y)))]
    ensures store.schema == old(store.schema)
  {
    if ResizingEnabled(n) {
      OnResizeStop(store, n, width, height, x, y);
    }
  }

  /** A click on the body selects the node. */
  method OnSelect(store: Store.SchemaStore, n: Node)
    modifies store
    ensures store.calls == old(store.calls) + [Store.SetSelectedId(Some(n.id))]
    ensures store.schema == old(store.schema)
  {
    store.SetSelectedId(Some(n.id));
  }

  /** Delete: remove the node, then clear the selection if it was this node. */
  method OnDelete(store: Store.SchemaStore, n: Node, selectedId: Option<string>)
    modifies store
    ensures IsSelected(selectedId, n) ==>
      store.calls == old(store.calls) + [Store.RemoveItem(n.id), Store.SetSelectedId(None)]
    ensures !IsSelected(selectedId, n) ==>
      store.calls == old(store.calls) + [Store.RemoveItem(n.id)]
    ensures store.schema == old(store.schema)
  {
    store.RemoveItem(n.id);
    if IsSelected(selectedId, n) {
      store.SetSelectedId(None);
    }
  }

  /** Cancel: clear the selection. */
  method OnCancel(store: Store.SchemaStore)
    modifies store
    ensures store.calls == old(store.calls) + [Store.SetSelectedId(None)]
    ensures store.schema == old(store.schema)
  {
    store.SetSelectedId(None);
  }
}
