# vision-craft page-builder engine, in Dafny

This project models the engine of the vision-craft page builder. The engine keeps the page tree and turns the editor's gestures into edits of it. It covers:

- **Page tree and lookup.** A node has an id, a type tag, a name, props, optional settings, children, style and a lock flag. `findItem` looks nodes up by id.
- **Document store.** The store holds `schema` and `setSchema`. Modules built on it call `addItem`, `updateItem`, `removeItem` and `setSelectedId`. The store does not define these, so each call is recorded in a log with its arguments.
- **Drag-and-drop controller** (`DndWrapper`). It tracks the dragged palette item. On a drop it clones the item's template, places the clone at the drop offset, mints a fresh id for it and adds it under the target.
- **Canvas frame** (`RndItem`). It supplies a fallback style and writes the style back when a drag or resize ends. It also applies the lock flag and handles selection, delete and cancel.
- **Default templates** (`componentDefaultConfigs`, `getNewComponentConfig`) and the cloning utilities `deepClone`, `isSimpleSerializable`, `simpleDeepClone` and `smartDeepClone`. These are modelled on a JavaScript value datatype that has JSON's kinds plus `undefined`, functions, Date, RegExp, Map and Set.
- **Component registry** (`ComponentRegistryManager`). It maps a type to a component, and a later registration of the same type overwrites the earlier one.
- **Renderer.** A recursive dispatch through the registry with an "error-callback" fallback. Container components render their children by calling back into the renderer. The output is an abstract tree that records which component was applied to which node.
- **Form-schema post-processing** (`getComponentPropsSchema`). It marks required fields, copies field metadata onto the inferred JSON Schema and defaults `displayType`.
- **Bar chart option builder.** It turns a chart node's props into the option record the chart library draws.

Modules follow the source files:

| module | file |
|---|---|
| `JsonValue` | json.dfy |
| `Schema` | schema.dfy |
| `TreeOperation` | tree_operation.dfy |
| `Store` | store.dfy |
| `Ids` | ids.dfy |
| `DeepClone` | deep_clone.dfy |
| `Config` | config.dfy |
| `Dnd` | dnd.dfy |
| `RndItem` | rnd_item.dfy |
| `Registry` | registry.dfy |
| `Renderer` | renderer.dfy |
| `FormSchema` | form_schema.dfy |
| `BarChart` | bar_chart.dfy |
| `Decimal`, `Wrappers` | decimal.dfy, wrappers.dfy (helpers) |

### Form of the model

- **State that changes is modelled as classes with fields.**
  - The store (`Store.SchemaStore`) has `schema` and the call log.
  - The controller (`Dnd.DndWrapper`) has `activeId`.
  - The registry (`Registry.ComponentRegistryManager`) has its map.
  - The id supply (`Ids.IdSupply`) stands in for `nanoid`.
- **Loops are methods proved against specification functions.**
  - `deepClone`'s `forEach` loops.
  - `registerBatch`.
  - The `required` and `Object.entries` loops of `getComponentPropsSchema`.
- **Pure code is modelled as functions and lemmas:** `findItem`, the renderer, the config table and the chart option.

### Where the type declarations and the runtime code disagree

- **The page root has the runtime shape.** frontend/src/core/schema/page.ts declares a page with `components` and no `type`. The store builds the root with `type: "RootContainer"`, `props`, `settings` and `children`. The model uses the shape the store builds.
- **`registry.get` can return `undefined`.** registry.ts declares that `get` always returns a component. It actually returns whatever the `Map` holds. The model returns `None` for a missing key.
- **`findItem` only searches Container children.** It descends only into nodes whose type is exactly "Container". The model keeps this, so the page root's children are never searched (`TreeOperation.RootChildNotFound`).

## Model

| member | source | states |
|---|---|---|
| JsonValue.Get | frontend/src/utils/formSchema.ts:29 | a property read finds a value exactly when the key is among the object's keys |
| JsonValue.GetAt | frontend/src/utils/formSchema.ts:29 | the value read for a key is that of the first property with that name |
| JsonValue.Put | frontend/src/core/dnd/DndWrapper.tsx:52-53 | a property write sets the key, leaves every other key's value alone and adds the key to the key set |
| JsonValue.Assign | frontend/src/utils/formSchema.ts:70-72 | `Object.assign` leaves the union of both key sets |
| JsonValue.GetAssign | frontend/src/utils/formSchema.ts:70-72 | after `Object.assign` a key of the source holds the source's last value for it, and any other key keeps the target's value |
| JsonValue.Prop | frontend/src/components/materials/chart/BarChart.tsx:17 | `v[k]` is the property's value when `v` is an object that has `k`, and `undefined` otherwise |
| Schema.TagNameRoundTrip | frontend/src/config/index.ts:15-22 | the type string of every tag reads back as the same tag |
| Schema.TagOfName | frontend/src/core/renderer/Renderer.tsx:19 | a recognised type string names a tag whose type string it is |
| Schema.Positioned | frontend/src/core/dnd/DndWrapper.tsx:51-54 | writing `left` then `top` sets both, keeps every other style key, and the key set gains exactly those two |
| Schema.StylePatch | frontend/src/core/dnd/RndItem.tsx:62 | the partial update `{ style }` carries the style and no other field |
| Schema.NodeJsonRoundTrip | frontend/src/config/index.ts:26 | a node written as a JSON object reads back as the same node, so a template survives serialisation |
| Schema.NodesJsonRoundTrip | frontend/src/config/index.ts:26 | a list of nodes survives serialisation element by element |
| Schema.NodeFieldsGet | frontend/src/config/text.config.ts:6-24 | the JSON object of a node holds `id`, `type`, `name` and `props` as the node does |
| Schema.NodeLayoutFieldsGet | frontend/src/config/text.config.ts:6-24 | the JSON object of a node holds `settings`, `children`, `style` and `isLocked` exactly when the node has them |
| Schema.DecodeFields | frontend/src/config/index.ts:26 | an object whose properties hold a node's fields decodes to that node |
| Schema.AssembleRoundTrip | frontend/src/config/index.ts:26 | the type checks of decoding accept every field of an encoded node |
| TreeOperation.FindItem | frontend/src/hooks/useTreeOperation.ts:18-20 | a null node gives null |
| TreeOperation.Find | frontend/src/hooks/useTreeOperation.ts:22-24 | a node with the queried id is returned before its children are examined |
| TreeOperation.FirstWithId | frontend/src/hooks/useTreeOperation.ts:28-35 | the reference result is a member with the id, and there is none exactly when no member has the id |
| TreeOperation.FirstWithIdConcat | frontend/src/hooks/useTreeOperation.ts:28-33 | the first hit in a concatenation is the first hit of the first part, or else of the second |
| TreeOperation.FindIsFirstVisited | frontend/src/hooks/useTreeOperation.ts:16-36 | the search returns the first node, in pre-order over the nodes reached through Container ancestors only, that has the id |
| TreeOperation.FindInIsFirstVisited | frontend/src/hooks/useTreeOperation.ts:28-33 | children are searched in order and the first non-null hit wins |
| TreeOperation.FindItemSpec | frontend/src/hooks/useTreeOperation.ts:22-35 | a hit has the queried id and is reachable through Container ancestors; null means no such node has the id |
| TreeOperation.NonContainerIsLeaf | frontend/src/hooks/useTreeOperation.ts:27 | the children of a node that is not exactly a Container are never searched |
| TreeOperation.RootChildNotFound | frontend/src/hooks/useTreeOperation.ts:27 | a node placed directly under the RootContainer page root is not found |
| TreeOperation.ContainerChildFound | frontend/src/hooks/useTreeOperation.ts:27-33 | the same node under a Container is found |
| Store.DefaultSchema | frontend/src/store/schema-store.ts:13-26 | the default root has the minted id, type RootContainer, an empty name and an empty children list |
| Store.DefaultSchemaContents | frontend/src/store/schema-store.ts:17-25 | its props are exactly an empty title and description, and its settings a 100% by 100% canvas |
| Store.DefaultSchemaSearch | frontend/src/store/schema-store.ts:13-26 | a search of the default root finds the root itself and nothing else |
| Store.SchemaStore.constructor | frontend/src/store/schema-store.ts:13-31 | module load mints one fresh root id and starts with a null schema and no calls |
| Store.SchemaStore.SetSchema | frontend/src/store/schema-store.ts:34-38 | `setSchema` installs the default root, so calling it twice leaves the same state as calling it once |
| Store.SchemaStore.AddItem | frontend/src/core/dnd/DndWrapper.tsx:60 | an `addItem` call is logged with its arguments and the schema is untouched |
| Store.SchemaStore.UpdateItem | frontend/src/core/dnd/RndItem.tsx:62 | an `updateItem` call is logged with its arguments |
| Store.SchemaStore.RemoveItem | frontend/src/core/dnd/RndItem.tsx:152 | a `removeItem` call is logged with its argument |
| Store.SchemaStore.SetSelectedId | frontend/src/core/dnd/RndItem.tsx:88 | a `setSelectedId` call is logged with its argument |
| Ids.IdTextInjective | frontend/src/core/dnd/DndWrapper.tsx:59 | distinct counter values give distinct id texts |
| Ids.IdSupply.Mint | frontend/src/core/dnd/DndWrapper.tsx:59 | `nanoid()` returns an id that was never handed out before, and records it |
| Ids.IdSupply.constructor | frontend/src/core/dnd/DndWrapper.tsx:59 | the supply starts with nothing handed out |
| DeepClone.DeepCloneValue | frontend/src/utils/deepClone.ts:9-78 | `deepClone` returns a value equal to its source for every kind: primitives, Date, RegExp, Map, Set, arrays and objects with string and symbol keys |
| DeepClone.SimpleDeepClone | frontend/src/utils/deepClone.ts:86-88 | `JSON.parse(JSON.stringify(v))` always yields plain JSON, and a value made only of JSON's kinds comes back unchanged |
| DeepClone.RoundTripFields | frontend/src/utils/deepClone.ts:86-88 | serialising an object keeps only plain values, and an object of plain values round-trips property by property |
| DeepClone.IsSimpleSerializable | frontend/src/utils/deepClone.ts:95-107 | `isSimpleSerializable` accepts every value made only of JSON's kinds and rejects `undefined` and functions |
| DeepClone.SmartDeepClone | frontend/src/utils/deepClone.ts:114-119 | as written: the JSON round trip for what `isSimpleSerializable` accepts, `deepClone` otherwise |
| DeepClone.MapLosesEntries | frontend/src/utils/deepClone.ts:95-107 | a non-empty Map is accepted as simple and its round trip is an empty object |
| DeepClone.DateBecomesString | frontend/src/utils/deepClone.ts:95-107 | a Date is accepted as simple and its round trip is a string |
| DeepClone.SmartDeepCloneFixed | frontend/src/utils/deepClone.ts:114-119 | the clone equals the source for every value, and plain JSON still takes the JSON round trip |
| DeepClone.RoundTripItems | frontend/src/utils/deepClone.ts:86-88 | serialising an array keeps its length and yields only plain values, and an array of plain values round-trips element by element |
| Config.Template | frontend/src/config/text.config.ts:6-9 | a template carries the placeholder id "" and its own type |
| Config.TableShape | frontend/src/config/index.ts:15-22 | the table maps exactly Text, Image, Button, Container, Clock and BarChart, each to a template of that type with id "" |
| Config.TemplatePlain | frontend/src/config/index.ts:15-22 | every template is built only from JSON's kinds |
| Config.PlainNodeJson | frontend/src/config/index.ts:26 | a node built from JSON's kinds serialises to plain JSON |
| Config.PlainNodesJson | frontend/src/config/index.ts:26 | so does every node of a list of them |
| Config.FieldsPlain | frontend/src/config/index.ts:26 | every property of such a node's JSON object is plain |
| Config.LayoutFieldsPlain | frontend/src/config/index.ts:26 | so are its settings, children, style and lock properties |
| Config.TextPlain | frontend/src/config/text.config.ts:6-24 | the Text template is plain JSON |
| Config.ImagePlain | frontend/src/config/image.config.ts:1-29 | the Image template is plain JSON |
| Config.ButtonPlain | frontend/src/config/button.config.ts:1-29 | the Button template is plain JSON |
| Config.ContainerPlain | frontend/src/config/container.config.ts:1-25 | the Container template is plain JSON |
| Config.ClockPlain | frontend/src/config/clock.config.ts:1-28 | the Clock template is plain JSON |
| Config.BarChartPlain | frontend/src/config/bar-chart.config.ts:7-44 | the BarChart template is plain JSON |
| Config.TemplatesArePlain | frontend/src/config/index.ts:24-27 | every template is accepted by `isSimpleSerializable` and survives the JSON round trip unchanged |
| Config.GetNewComponentConfig | frontend/src/config/index.ts:24-27 | through the as-written `smartDeepClone`, for a key of the table the result equals the template (the Map/Date loss cannot reach a template), for any other key there is none |
| Dnd.DropStyle | frontend/src/core/dnd/DndWrapper.tsx:46-55 | the placed style has `left`/`top` equal to the dragged rectangle minus the target's, and otherwise the template's style, or nothing when the template has none |
| Dnd.DroppedNode | frontend/src/core/dnd/DndWrapper.tsx:46-59 | the dropped node is the template with the minted id and the same settings; when both rectangles are known its style is the template style with `left`/`top` set to the rectangle offset, otherwise the template style |
| Dnd.DropOffsetExample | frontend/src/core/dnd/DndWrapper.tsx:47-48 | a drop from (150, 220) onto a target at (100, 100) lands at (50, 120) |
| Dnd.DropStyleWithoutTemplateStyle | frontend/src/core/dnd/DndWrapper.tsx:51 | a template without a style gets a new style of exactly `left` and `top` |
| Dnd.AddedIds | frontend/src/core/dnd/DndWrapper.tsx:60 | the ids of added nodes are at most one per logged call |
| Dnd.AddedIdsAppend | frontend/src/core/dnd/DndWrapper.tsx:60 | logging one more call adds its node's id exactly when it is an `addItem` |
| Dnd.DndWrapper.constructor | frontend/src/core/dnd/DndWrapper.tsx:19 | the controller starts idle |
| Dnd.DndWrapper.HandleDragStart | frontend/src/core/dnd/DndWrapper.tsx:22-26 | a drag start records the dragged id |
| Dnd.DndWrapper.HandleDragCancel | frontend/src/core/dnd/DndWrapper.tsx:64-66 | a cancel returns to idle |
| Dnd.DndWrapper.HandleDragEnd | frontend/src/core/dnd/DndWrapper.tsx:29-61 | returns to idle; with no target or an empty target id nothing is called; an unknown palette id throws before any store call; otherwise exactly one `addItem(over.id, node)` with the placed template and an id never issued before; the ids of added nodes stay distinct and never equal the page root's |
| RndItem.EffectiveStyle | frontend/src/core/dnd/RndItem.tsx:31-37 | a node's own style is used, and without one the fallback top 0, left 0, width 200, height 50, zIndex 1 |
| RndItem.LockFlags | frontend/src/core/dnd/RndItem.tsx:49-50 | a locked node can be neither dragged nor resized, an unlocked one both |
| RndItem.DragStopStyle | frontend/src/core/dnd/RndItem.tsx:55-60 | the new style has the drop position as `left`/`top` and every other key of the old style |
| RndItem.ResizeStopStyle | frontend/src/core/dnd/RndItem.tsx:65-72 | the new style has the measured size and the new position, and every other key of the old style |
| RndItem.DragStopInPlace | frontend/src/core/dnd/RndItem.tsx:55-60 | a drag that ends where the node already sits writes back the style it had |
| RndItem.PutExisting | frontend/src/core/dnd/RndItem.tsx:56-60 | writing the value a key already holds changes nothing |
| RndItem.OnDragStop | frontend/src/core/dnd/RndItem.tsx:55-63 | a drag stop makes one `updateItem(node.id, { style })` with the new style |
| RndItem.OnResizeStop | frontend/src/core/dnd/RndItem.tsx:65-75 | a resize stop makes one `updateItem(node.id, { style })` with the new style |
| RndItem.DragGesture | frontend/src/core/dnd/RndItem.tsx:49 | a locked node's drag makes no call, an unlocked one makes one `updateItem` with the dropped style; the schema is unchanged |
| RndItem.ResizeGesture | frontend/src/core/dnd/RndItem.tsx:50 | a locked node's resize makes no call, an unlocked one makes one `updateItem` with the resized style; the schema is unchanged |
| RndItem.OnSelect | frontend/src/core/dnd/RndItem.tsx:85-89 | a click selects the node |
| RndItem.OnDelete | frontend/src/core/dnd/RndItem.tsx:149-157 | delete removes the node and clears the selection exactly when this node was the selected one |
| RndItem.OnCancel | frontend/src/core/dnd/RndItem.tsx:174-179 | cancel clears the selection |
| Registry.LastFor | frontend/src/components/materials/registry.ts:69-73 | the last entry for a key is an entry of the batch, and there is none exactly when the batch does not mention the key |
| Registry.RegisterAllGet | frontend/src/components/materials/registry.ts:69-73 | after a batch a key holds the value of its last entry, or its earlier value when the batch does not mention it |
| Registry.SizeAfterRegister | frontend/src/components/materials/registry.ts:61-63 | registering grows the size by one exactly when the key is new |
| Registry.InitialRegistryKeys | frontend/src/components/materials/registry.ts:78-79 | after module load only Container and Text are registered: neither "error-callback" nor RootContainer |
| Registry.ComponentRegistryManager.constructor | frontend/src/components/materials/registry.ts:78-79 | module load registers Container, then Text |
| Registry.ComponentRegistryManager.Get | frontend/src/components/materials/registry.ts:45-47 | `get` finds a component exactly for a registered key |
| Registry.ComponentRegistryManager.GetAllComponents | frontend/src/components/materials/registry.ts:53-55 | the map returned holds exactly the keys `get` finds, each with the component `get` returns |
| Registry.ComponentRegistryManager.Size | frontend/src/components/materials/registry.ts:61-63 | the size is zero exactly when `get` finds nothing for every key |
| Registry.ComponentRegistryManager.Register | frontend/src/components/materials/registry.ts:36-38 | `register` overwrites: the key now maps to the new component, other keys are unchanged, and the size grows only for a new key |
| Registry.ComponentRegistryManager.RegisterBatch | frontend/src/components/materials/registry.ts:69-73 | `registerBatch` equals registering the entries one by one in order |
| Renderer.Render | frontend/src/core/renderer/Renderer.tsx:8-30 | a list renders to one output per node, in order, keyed by the node's id and equal to that node's rendering; a node without a type renders `null` |
| Renderer.Resolve | frontend/src/core/renderer/Renderer.tsx:19 | a registered type gets its component, an unregistered one the "error-callback" entry, and there is none exactly when both are missing |
| Renderer.RenderNode | frontend/src/core/renderer/Renderer.tsx:14-29 | a node without a type renders nothing; a resolved component is invoked on the node itself; an unresolved one throws |
| Renderer.RenderList | frontend/src/core/renderer/Renderer.tsx:10-12 | a list renders to one output per node, keyed by the node's id |
| Renderer.RenderListPointwise | frontend/src/core/renderer/Renderer.tsx:10-12 | element i of a rendered list is the rendering of node i |
| Renderer.RenderChildrenIsRenderer | frontend/src/core/renderer/Renderer.tsx:23 | `renderChildren(cs)` is the renderer applied to the list `cs`, as the Container draws it (frontend/src/components/materials/basic/container.tsx:12) |
| Renderer.FallbackMakesTotal | frontend/src/core/renderer/Renderer.tsx:19 | with an "error-callback" entry no node makes the renderer call an undefined component |
| Renderer.FallbackMakesTotalList | frontend/src/core/renderer/Renderer.tsx:10-12 | the same holds for every node of a list |
| Renderer.DefaultRootThrows | frontend/src/core/renderer/Renderer.tsx:19 | the default page root, rendered with the registry as loaded, calls `undefined` |
| Renderer.CorrectedEntries | frontend/src/components/materials/registry.ts:78-79 | the load-time entries plus RootContainer and the "error-callback" fallback register exactly Container, Text, RootContainer and "error-callback" |
| Renderer.FallbackRegistryTotal | frontend/src/core/renderer/Renderer.tsx:19 | with the corrected entries, no page tree makes the renderer call `undefined` |
| Renderer.CorrectedRootRendersChildren | frontend/src/components/materials/basic/RootContainer.tsx:12-20 | with the corrected entries, the page root from `setSchema`, holding any children, is drawn by RootContainer, which renders exactly those children as a list |
| FormSchema.PutIfGet | frontend/src/utils/formSchema.ts:43-45 | a conditional write sets its key only when the condition holds |
| FormSchema.CopyGet | frontend/src/utils/formSchema.ts:43-67 | title, description, widget and placeholder are copied when truthy, `enum` when present, numeric `minimum`/`maximum` as `min`/`max`, and other keys keep their values |
| FormSchema.EnrichGet | frontend/src/utils/formSchema.ts:43-72 | the same, with the metadata's schema fragment merged last and winning |
| FormSchema.Enrich | frontend/src/utils/formSchema.ts:43-72 | enrichment never removes a key |
| FormSchema.EnrichEntry | frontend/src/utils/formSchema.ts:36-38 | a property without metadata is left as it is, and the key is kept |
| FormSchema.EnrichAll | frontend/src/utils/formSchema.ts:36-73 | the entries loop keeps the order and processes each property on its own |
| FormSchema.MarkRequiredGet | frontend/src/utils/formSchema.ts:27-34 | every listed name whose property is an object gets `required: true` and keeps its other settings; unlisted properties are unchanged; no property is added |
| FormSchema.WithDisplayType | frontend/src/utils/formSchema.ts:77-79 | a truthy `displayType` is kept, a missing one becomes "column", and nothing else changes |
| FormSchema.NoEnrichment | frontend/src/utils/formSchema.ts:24 | without an object schema with properties, or without metadata, only `displayType` can change |
| FormSchema.DisplayTypeDefault | frontend/src/utils/formSchema.ts:77-79 | the result's `displayType` is the truthy original or "column" |
| FormSchema.EnrichedShape | frontend/src/utils/formSchema.ts:24-81 | with enrichment, only `properties` and `displayType` change at the root, and `properties` holds the processed entries |
| FormSchema.MarkRequiredFields | frontend/src/utils/formSchema.ts:27-34 | the `required` loop computes the specified marking |
| FormSchema.CopyMetadata | frontend/src/utils/formSchema.ts:43-67 | the seven copies, in source order, give the specified copy |
| FormSchema.EnrichProperty | frontend/src/utils/formSchema.ts:43-72 | the body of the entries loop gives the specified enrichment |
| FormSchema.EnrichProperties | frontend/src/utils/formSchema.ts:36-73 | the entries loop computes the specified processing of every property |
| FormSchema.GetComponentPropsSchema | frontend/src/utils/formSchema.ts:11-82 | the whole post-processing equals the specified schema |
| FormSchema.ClockFontSizeBounds | frontend/src/config/meta/clock.meta.ts:10-15 | the Clock's font size field gets `min` 12, `max` 72 and the number widget |
| BarChart.Read | frontend/src/components/materials/chart/BarChart.tsx:16 | a property read (here `props.dataSource`, `dataSource.data`) throws exactly on null and undefined |
| BarChart.KeyText | frontend/src/components/materials/chart/BarChart.tsx:21-22 | a string field name is used as is, and the other primitives convert to their text |
| BarChart.ChartData | frontend/src/components/materials/chart/BarChart.tsx:17 | data is `dataSource.data`, or the empty array when the source or its data is missing |
| BarChart.Cell | frontend/src/components/materials/chart/BarChart.tsx:21-22 | `item[field]` is the row's value for a field it has, and `undefined` when the row is not an object or the name does not convert |
| BarChart.Column | frontend/src/components/materials/chart/BarChart.tsx:21-22 | the `map` succeeds exactly when no row is nullish, and then has one cell per row in order, cell i being `row[i][field]` |
| BarChart.BarColor | frontend/src/components/materials/chart/BarChart.tsx:62 | the colour is `barColor` when truthy, else "#5470c6" |
| BarChart.ChartOption | frontend/src/components/materials/chart/BarChart.tsx:17-67 | the option is built exactly when the data is an array with no nullish row |
| BarChart.Rows | frontend/src/components/materials/chart/BarChart.tsx:17 | the rows of a drawable chart are the data array's elements, none nullish |
| BarChart.AxisColumn | frontend/src/components/materials/chart/BarChart.tsx:21-22 | `xData` and `yData` have one entry per row, entry i being `data[i][xAxisField]` and `data[i][yAxisField]` |
| BarChart.BuiltFromColumns | frontend/src/components/materials/chart/BarChart.tsx:20-67 | a drawable chart's option is the record built from its two columns |
| BarChart.RecordHeader | frontend/src/components/materials/chart/BarChart.tsx:26-42 | the record's title, tooltip and grid parts |
| BarChart.RecordAxes | frontend/src/components/materials/chart/BarChart.tsx:43-56 | the record's axes and legend |
| BarChart.RecordSeries | frontend/src/components/materials/chart/BarChart.tsx:57-65 | the record's one series is a bar series over `yData` with the bar colour |
| BarChart.ColumnsFollowRows | frontend/src/components/materials/chart/BarChart.tsx:43-61 | `xAxis.data` is `xData` and the only series lists `yData` |
| BarChart.TitleTooltipGrid | frontend/src/components/materials/chart/BarChart.tsx:26-42 | `title.text` is the title prop at top 0; `tooltip.show` is the tooltip flag with the axis trigger; the grid margins are top 40 and right/bottom/left 10 with labels contained |
| BarChart.GridLinesAndLegend | frontend/src/components/materials/chart/BarChart.tsx:49-56 | `yAxis.splitLine.show` is `showGrid` and `legend.show` is `showLegend` |
| BarChart.SeriesColor | frontend/src/components/materials/chart/BarChart.tsx:57-65 | the one series is coloured `barColor`, or "#5470c6" when it is empty |
| BarChart.MissingSourceMeansNoRows | frontend/src/components/materials/chart/BarChart.tsx:17 | without a data source the chart draws empty axes |
| BarChart.NullRowThrows | frontend/src/components/materials/chart/BarChart.tsx:21 | a nullish row makes the builder throw |
| BarChart.DefaultChartSource | frontend/src/config/bar-chart.config.ts:27-34 | the template's data source is static rows A, B, C |
| BarChart.StaticSourceRows | frontend/src/components/materials/chart/BarChart.tsx:17 | a static source supplies its rows |
| BarChart.DefaultChartData | frontend/src/config/bar-chart.config.ts:27-34 | the template chart's data is its three rows |
| BarChart.DefaultChartFieldNames | frontend/src/config/bar-chart.config.ts:15-17 | the template reads the "name" and "value" fields |
| BarChart.DefaultRowsColumns | frontend/src/config/bar-chart.config.ts:29-33 | reading "name" and "value" off the template's rows gives A, B, C and 120, 200, 150 |
| BarChart.RowCells | frontend/src/config/bar-chart.config.ts:30-32 | a row's "name" and "value" cells are its name and value |
| BarChart.DefaultChartColumns | frontend/src/config/bar-chart.config.ts:13-34 | the template chart draws categories A, B, C with values 120, 200, 150 |

## Left out

- **React rendering, styling and markup.** This includes the selection highlight, the DragOverlay preview and the leaf components' output. A registered component is known only by its name and by whether it renders its children.
- **Library internals.** How dnd-kit measures rectangles and tracks the pointer, and how react-rnd clamps with `bounds="parent"`, are not modelled. Measured rectangles and positions are inputs.
- **Randomness of `nanoid`.** It is replaced by a counter-based supply. The model keeps only the property the code relies on: an id is never handed out twice.
- **`to-json-schema`.** The schema it infers is an input to `FormSchema.GetComponentPropsSchema`.
- **The metadata registry.** Its Clock entry is written out as a fixture. The text, image, button and bar-chart metadata files are not part of this model.
- **Undefined store operations.** The store defines no `addItem`, `updateItem`, `removeItem` or `selectedId`, so their effect on the tree is not modelled. Their calls are logged, and `selectedId` is passed to the frame's handlers as the value read when the frame was drawn.
- **Identity-based behaviour.**
  - `deepClone`'s WeakMap keeps shared sub-objects shared and handles cycles. Values here have no identity, so the model has neither sharing nor cycles.
  - Whether a copy is fresh cannot be observed under value semantics. For `getNewComponentConfig` the model states only deep equality to the template.
  - The registry's `getAllComponents` returns the map itself, aliased, and the model does not capture the aliasing.
- Numbers are integers. Floating point and `NaN` are not modelled.
- **JSON.stringify details.**
  - A Date becomes a string whose exact ISO text is not modelled.
  - Symbol-keyed properties are dropped and non-serialisable values skipped, as `JSON.stringify` does.
  - Property order follows insertion.
- **Unknown type names.** A node's type is one of the eight known names (Text, Image, Button, Clock, Container, BarChart, RootContainer, "error-callback") or absent. Any other type string is not representable.
- **Lazy rendering.** React's deferred evaluation of `renderChildren` is not modelled. The renderer's output is computed eagerly.
- TreeOperation.FindItem: a Container without a `children` list makes the source throw at `children!`. The model requires a list on every Container reachable through Container ancestors, including ones after the node found, and does not model the throw.
- DeepClone.SimpleDeepClone: requires a value other than `undefined` or a function, for which `JSON.parse(JSON.stringify(v))` throws. `smartDeepClone` never passes one, because `isSimpleSerializable` rejects both, but `simpleDeepClone` is exported and the throw is not modelled.
- FormSchema.GetComponentPropsSchema: requires the inferred schema to be an object whose property schemas are objects and whose `required` entries are strings, as `to-json-schema` produces. Other shapes are not modelled.
- JsonValue.Prop: reading a property of an array, a string, a Map or a Set gives `undefined` in the model. Indices, `length` and prototype members are not modelled.
- BarChart.Cell: a field name that is not a primitive reads `undefined`. In the source it would be converted to a string key.
- Config.GetNewComponentConfig, Dnd.DndWrapper.HandleDragEnd, DeepClone.DeepCloneValue: names inherited from `Object.prototype` are not modelled. A plain object's properties are only its own. In the source, `componentDefaultConfigs["toString"]`, `["constructor"]` or `["__proto__"]` is a function or `Object.prototype`, so `getNewComponentConfig` returns a value for it and `handleDragEnd` goes on to `addItem`, where the model gives none and throws. Assigning an own `"__proto__"` key in `deepClone` sets the clone's prototype instead of adding the key. The palette ids never use these names.
- BarChart.ChartOption: a data value that is not an array makes the builder throw. An object that happens to carry its own `map` function is not modelled.

## Findings

| source | as written | input that shows it | evidently intended | confidence | as-written member | corrected member |
|---|---|---|---|---|---|---|
| frontend/src/utils/deepClone.ts:95-107, 114-119 | `isSimpleSerializable` answers true for any object-typed value whose own enumerable keys are simple, which includes Map, Set, RegExp and Date, so `smartDeepClone` sends them through `JSON.parse(JSON.stringify(…))` | `new Map([["a", 1]])` is cloned to `{}`; a Date is cloned to a string | only JSON's own kinds take the JSON round trip; everything else goes through `deepClone`, so every clone equals its source | high; not executed | DeepClone.MapLosesEntries | DeepClone.SmartDeepCloneFixed |
| frontend/src/core/renderer/Renderer.tsx:19, frontend/src/components/materials/registry.ts:78-79 | the renderer falls back to the "error-callback" entry, but the registry registers only Container and Text, and the page root rendered by frontend/src/components/editor/Index.tsx:25 has type RootContainer | rendering the default root from `setSchema` calls `undefined` as a component | RootContainer and an "error-callback" component are registered, so no node makes the renderer call `undefined` and the page root renders its children | high; not executed | Renderer.DefaultRootThrows | Renderer.FallbackRegistryTotal |
