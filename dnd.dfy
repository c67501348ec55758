/** The drag-and-drop controller (`DndWrapper`). It tracks the id of the palette
    item being dragged, and on a drop over a target it clones the item's
    template, places it at the drop offset, gives it a fresh id and adds it to
    the store under the target. */
module Dnd {
  import opened Wrappers
  import opened JsonValue
  import opened Schema
  import Store
  import Ids
  import Config

  /** The part of a measured rectangle the controller reads. */
  datatype Rect = Rect(left: int, top: int)

  /** The dragged item: its id (a type name from the palette) and where it
      ended up (`active.rect.current?.translated`), if known. */
  datatype ActiveInfo = ActiveInfo(id: string, translated: Option<Rect>)

  /** The drop target under the pointer. */
  datatype OverInfo = OverInfo(id: string, rect: Option<Rect>)

  datatype DragEndEvent = DragEndEvent(active: ActiveInfo, over: Option<OverInfo>)

  /** What a drag end did. */
  datatype DropOutcome =
    | NoTarget                    // no drop target, or one with an empty id
    | Threw                       // the dragged id names no template: property access on `undefined`
    | Dropped(node: Node)         // one `addItem(over.id, node)`

  /** The style of the placed node: the template's style, or a new empty
      object, with `left` and then `top` written as the offset of the dragged
      item's rectangle from the target's. */
  function DropStyle(style: Option<Style>, active: Rect, over: Rect): (s: Style)
    ensures Get(s, "left") == Some(JInt(active.left - over.left))
    ensures Get(s, "top") == Some(JInt(active.top - over.top))
    ensures forall k :: k != "left" && k != "top" ==> Get(s, k) == Get(style.GetOr([]), k)
    ensures KeySet(s) == KeySet(style.GetOr([])) + {"left", "top"}
  {
    Positioned(style.GetOr([]), active.left - over.left, active.top - over.top)
  }

  /** The node `handleDragEnd` adds: the template with its style placed when
      both rectangles are known, and the minted id. */
  function DroppedNode(template: Node, event: DragEndEvent, id: string): (n: Node)
    requires event.over.Some?
    ensures n.id == id
    ensures n.tag == template.tag && n.name == template.name && n.props == template.props
    ensures n.settings == template.settings
    ensures n.children == template.children && n.isLocked == template.isLocked
    ensures event.active.translated.Some? && event.over.value.rect.Some? ==>
      n.style == Some(DropStyle(template.style, event.active.translated.value, event.over.value.rect.value))
    ensures event.active.translated.None? || event.over.value.rect.None? ==> n.style == template.style
  {
    var style :=
      if event.active.translated.Some? && event.over.value.rect.Some?
      then Some(DropStyle(template.style, event.active.translated.value, event.over.value.rect.value))
      else template.style;
    template.(style := style, id := id)
  }

  /** A drop from (150, 220) onto a target at (100, 100) lands at left 50, top 120. */
  lemma DropOffsetExample(style: Option<Style>)
    ensures Get(DropStyle(style, Rect(150, 220), Rect(100, 100)), "left") == Some(JInt(50))
    ensures Get(DropStyle(style, Rect(150, 220), Rect(100, 100)), "top") == Some(JInt(120))
  {
  }

  /** A template without a style ends up with a style of exactly `left` and `top`. */
  lemma DropStyleWithoutTemplateStyle(active: Rect, over: Rect)
    ensures DropStyle(None, active, over) ==
      [Field("left", JInt(active.left - over.left)), Field("top", JInt(active.top - over.top))]
  {
    var first := [Field("left", JInt(active.left - over.left))];
    assert Put([], "left", JInt(active.left - over.left)) == first;
    assert first[0].key != "top";
    assert first[1..] == [];
    assert Put(first, "top", JInt(active.top - over.top)) ==
      [first[0]] + [Field("top", JInt(active.top - over.top))];
  }

  /** The ids of the nodes added to the store, in call order. */
  function AddedIds(calls: seq<Store.StoreCall>): (ids: seq<string>)
    ensures |ids| <= |calls|
  {
    if calls == [] then []
    else
      var last := calls[|calls| - 1];
      AddedIds(calls[..|calls| - 1]) + (if last.AddItem? then [last.node.id] else [])
  }

  lemma AddedIdsAppend(calls: seq<Store.StoreCall>, c: Store.StoreCall)
    ensures AddedIds(calls + [c]) == AddedIds(calls) + (if c.AddItem? then [c.node.id] else [])
  {
    assert (calls + [c])[..|calls|] == calls;
  }

  predicate Distinct(xs: seq<string>) {
    forall i, j :: 0 <= i < j < |xs| ==> xs[i] != xs[j]
  }

  class DndWrapper {
    /** The id of the item being dragged, or null when idle. */
    var activeId: Option<string>
    const store: Store.SchemaStore
    const ids: Ids.IdSupply

    /** Every node added by a drop carries a minted id, no two the same, and
        none equal to the page root's. */
    ghost predicate Valid()
      reads this, store, ids
    {
      ids.Valid() &&
      store.defaultSchema.id in ids.issued &&
      store.defaultSchema.id !in AddedIds(store.calls) &&
      (forall i :: 0 <= i < |AddedIds(store.calls)| ==> AddedIds(store.calls)[i] in ids.issued) &&
      Distinct(AddedIds(store.calls))
    }

    constructor(store: Store.SchemaStore, ids: Ids.IdSupply)
      requires ids.Valid()
      requires store.defaultSchema.id in ids.issued
      requires AddedIds(store.calls) == []
      ensures this.store == store && this.ids == ids
      ensures activeId.None?
      ensures Valid()
    {
      this.store := store;
      this.ids := ids;
      activeId := None;
    }

    /** `handleDragStart`: remember the dragged item. */
    method HandleDragStart(active: ActiveInfo)
      modifies this
      ensures activeId == Some(active.id)
    {
      activeId := Some(active.id);
    }

    /** `handleDragCancel`: back to idle. */
    method HandleDragCancel()
      modifies this
      ensures activeId.None?
    {
      activeId := None;
    }

    /** `handleDragEnd`. */
    method HandleDragEnd(event: DragEndEvent) returns (outcome: DropOutcome)
      requires Valid()
      modifies this, store, ids
      ensures Valid()
      ensures activeId.None?
      ensures store.schema == old(store.schema)
      ensures event.over.None? || event.over.value.id == "" ==>
        outcome == NoTarget && store.calls == old(store.calls) && ids.issued == old(ids.issued)
      ensures event.over.Some? && event.over.value.id != "" &&
              event.active.id !in Config.ComponentDefaultConfigs ==>
        outcome == Threw && store.calls == old(store.calls)
      ensures event.over.Some? && event.over.value.id != "" &&
              event.active.id in Config.ComponentDefaultConfigs ==>
        outcome.Dropped? &&
        outcome.node == DroppedNode(Config.ComponentDefaultConfigs[event.active.id], event, outcome.node.id) &&
        outcome.node.id !in old(ids.issued) &&
        store.calls == old(store.calls) + [Store.AddItem(event.over.value.id, outcome.node)]
    {
      activeId := None;
      if event.over.None? || event.over.value.id == "" {
        return NoTarget;
      }
      var over := event.over.value;
      var config := Config.GetNewComponentConfig(event.active.id);
      if config.None? {
        // `newConfig` is undefined. Reading its style throws at once; without
        // both rectangles, `nanoid()` runs before the assignment of the id throws.
        if !(event.active.translated.Some? && over.rect.Some?) {
          var _ := ids.Mint();
        }
        return Threw;
      }
      var id := ids.Mint();
      var node := DroppedNode(config.value, event, id);
      AddedIdsAppend(store.calls, Store.AddItem(over.id, node));
      store.AddItem(over.id, node);
      outcome := Dropped(node);
    }
  }
}
