/** The document store (`useSchemaStore`). The store defines only the `schema`
    field, initially null, and `setSchema`, which installs the default page
    root. The editing operations the other modules call on it (`addItem`,
    `updateItem`, `removeItem`, `setSelectedId`) have no definition in the
    store, so the model records each such call, with its arguments, in a log
    and gives it no further effect. */
module Store {
  import opened Wrappers
  import opened JsonValue
  import opened Schema
  import opened TreeOperation
  import Ids

  /** One call made on the store by an editing operation. */
  datatype StoreCall =
    | AddItem(parentId: string, node: Node)
    | UpdateItem(id: string, patch: NodePatch)
    | RemoveItem(id: string)
    | SetSelectedId(selected: Option<string>)

  /** The page root the store installs, given the id minted for it. */
  function DefaultSchema(rootId: string): (root: Node)
    ensures root.id == rootId && root.tag == Some(RootContainer) && root.name == ""
    ensures root.children == Kids([])
  {
    Node(rootId, Some(RootContainer), "",
         Obj([Field("title", JStr("")), Field("description", JStr(""))]),
         Some(Obj([Field("width", JStr("100%")), Field("height", JStr("100%"))])),
         Kids([]), None, false)
  }

  /** The default root's props hold an empty title and description, and its
      settings a full-size canvas. */
  lemma DefaultSchemaContents(rootId: string)
    ensures Prop(DefaultSchema(rootId).props, "title") == JStr("")
    ensures Prop(DefaultSchema(rootId).props, "description") == JStr("")
    ensures KeySet(DefaultSchema(rootId).props.fields) == {"title", "description"}
    ensures DefaultSchema(rootId).settings.Some?
    ensures Prop(DefaultSchema(rootId).settings.value, "width") == JStr("100%")
    ensures Prop(DefaultSchema(rootId).settings.value, "height") == JStr("100%")
  {
    var props := DefaultSchema(rootId).props.fields;
    assert props[1..] == [Field("description", JStr(""))];
    var settings := DefaultSchema(rootId).settings.value.fields;
    assert settings[1..] == [Field("height", JStr("100%"))];
  }

  /** A search of the default root finds the root itself and nothing else. */
  lemma DefaultSchemaSearch(rootId: string, id: string)
    ensures Searchable(DefaultSchema(rootId))
    ensures FindItem(id, Some(DefaultSchema(rootId))) ==
      if id == rootId then Some(DefaultSchema(rootId)) else None
  {
  }

  class SchemaStore {
    /** `defaultSchema`, built once when the module loads. */
    const defaultSchema: Node
    var schema: Option<Node>
    /** The editing calls made on the store, oldest first. */
    var calls: seq<StoreCall>

    /** Module load: the root id is minted once, and `schema` starts as null. */
    constructor(ids: Ids.IdSupply)
      requires ids.Valid()
      modifies ids
      ensures ids.Valid()
      ensures |ids.issued| == |old(ids.issued)| + 1
      ensures defaultSchema == DefaultSchema(ids.issued[|ids.issued| - 1])
      ensures defaultSchema.id !in old(ids.issued)
      ensures schema.None?
      ensures calls == []
    {
      var rootId := ids.Mint();
      defaultSchema := DefaultSchema(rootId);
      schema := None;
      calls := [];
    }

    /** `setSchema`: installs the default root; a second call changes nothing. */
    method SetSchema()
      modifies this
      ensures schema == Some(defaultSchema)
      ensures calls == old(calls)
    {
      schema := Some(defaultSchema);
    }

    method AddItem(parentId: string, node: Node)
      modifies this
      ensures calls == old(calls) + [StoreCall.AddItem(parentId, node)]
      ensures schema == old(schema)
    {
      calls := calls + [StoreCall.AddItem(parentId, node)];
    }

    method UpdateItem(id: string, patch: NodePatch)
      modifies this
      ensures calls == old(calls) + [StoreCall.UpdateItem(id, patch)]
      ensures schema == old(schema)
    {
      calls := calls + [StoreCall.UpdateItem(id, patch)];
    }

    method RemoveItem(id: string)
      modifies this
      ensures calls == old(calls) + [StoreCall.RemoveItem(id)]
      ensures schema == old(schema)
    {
      calls := calls + [StoreCall.RemoveItem(id)];
    }

    method SetSelectedId(selected: Option<string>)
      modifies this
      ensures calls == old(calls) + [StoreCall.SetSelectedId(selected)]
      ensures schema == old(schema)
    {
      calls := calls + [StoreCall.SetSelectedId(selected)];
    }
  }
}
