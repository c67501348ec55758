/** The bar chart material's option builder: the chart node's props turned
    into the option record handed to the chart library. The data rows come
    from `props.dataSource.data`; the category axis and the single bar series
    read one field of every row each. */
module BarChart {
  import opened Wrappers
  import opened JsonValue
  import opened Decimal
  import Config

  /** `null` or `undefined`. */
  predicate Nullish(v: Json) {
    v == JUndef || v == JNull
  }

  /** `v.k`: throws on `null` and `undefined`, else the property or `undefined`. */
  function Read(v: Json, k: string): (r: Option<Json>)
    ensures r.None? <==> Nullish(v)
    ensures r.Some? ==> r.value == Prop(v, k)
  {
    if Nullish(v) then None else Some(Prop(v, k))
  }

  /** The property key a primitive converts to; `None` for other values. */
  function KeyText(v: Json): (r: Option<string>)
    ensures v.JStr? ==> r == Some(v.s)
    ensures v == JUndef ==> r == Some("undefined")
    ensures r.Some? <==> v.JUndef? || v.JNull? || v.JBool? || v.JInt? || v.JStr?
  {
    match v
    case JUndef => Some("undefined")
    case JNull => Some("null")
    case JBool(b) => Some(if b then "true" else "false")
    case JInt(n) => Some(IntText(n))
    case JStr(s) => Some(s)
    case _ => None
  }

  /** `props.dataSource?.data ?? []`; `None` when `props` itself is nullish. */
  function ChartData(props: Json): (r: Option<Json>)
    ensures r.None? <==> Nullish(props)
    ensures !Nullish(props) && Nullish(Prop(props, "dataSource")) ==> r == Some(JArr([]))
    ensures !Nullish(props) && !Nullish(Prop(props, "dataSource")) ==>
      r == Some(if Nullish(Prop(Prop(props, "dataSource"), "data")) then JArr([])
                else Prop(Prop(props, "dataSource"), "data"))
  {
    match Read(props, "dataSource")
    case None => None
    case Some(source) =>
      var data := if Nullish(source) then JUndef else Read(source, "data").value;
      Some(if Nullish(data) then JArr([]) else data)
  }

  /** `item[field]` for a field name that converts to a key; other names are
      not modelled and read `undefined`. */
  function Cell(item: Json, field: Option<string>): (r: Json)
    ensures field.Some? && item.JObj? && field.value in KeySet(item.fields) ==>
      r == Get(item.fields, field.value).value
    ensures field.None? || !item.JObj? ==> r == JUndef
  {
    if field.Some? then Prop(item, field.value) else JUndef
  }

  /** `items.map((item) => item[field])`: one cell per row, in order; throws
      when a row is nullish. */
  function Column(items: seq<Json>, field: Option<string>): (r: Option<seq<Json>>)
    ensures r.Some? <==> forall i :: 0 <= i < |items| ==> !Nullish(items[i])
    ensures r.Some? ==> |r.value| == |items|
    ensures r.Some? ==> forall i :: 0 <= i < |items| ==> r.value[i] == Cell(items[i], field)
  {
    if items == [] then Some([])
    else if Nullish(items[0]) then None
    else
      match Column(items[1..], field)
      case None => None
      case Some(rest) => Some([Cell(items[0], field)] + rest)
  }

  /** What the builder produces: the option record, or a thrown TypeError. */
  datatype Outcome = Built(option: Json) | Throws

  const DefaultBarColor: string := "#5470c6"

  /** `barColor || "#5470c6"`. */
  function BarColor(props: Json): (c: Json)
    ensures Truthy(Prop(props, "barColor")) ==> c == Prop(props, "barColor")
    ensures !Truthy(Prop(props, "barColor")) ==> c == JStr(DefaultBarColor)
  {
    if Truthy(Prop(props, "barColor")) then Prop(props, "barColor") else JStr(DefaultBarColor)
  }

  function TitlePart(props: Json): Json {
    Obj([Field("text", Prop(props, "title")), Field("top", JInt(0))])
  }

  function TooltipPart(props: Json): Json {
    Obj([Field("show", Prop(props, "tooltipEnabled")), Field("trigger", JStr("axis"))])
  }

  const GridPart: Json :=
    Obj([Field("top", JInt(40)), Field("right", JInt(10)), Field("bottom", JInt(10)),
         Field("left", JInt(10)), Field("containLabel", JBool(true))])

  function XAxisPart(xs: seq<Json>): Json {
    Obj([Field("type", JStr("category")), Field("data", JArr(xs))])
  }

  function YAxisPart(props: Json): Json {
    Obj([Field("type", JStr("value")), Field("splitLine", Obj([Field("show", Prop(props, "showGrid"))]))])
  }

  function LegendPart(props: Json): Json {
    Obj([Field("show", Prop(props, "showLegend"))])
  }

  function BarSeries(props: Json, ys: seq<Json>): Json {
    Obj([Field("type", JStr("bar")), Field("data", JArr(ys)),
         Field("itemStyle", Obj([Field("color", BarColor(props))]))])
  }

  /** The option record, given the two columns. */
  function OptionRecord(props: Json, xs: seq<Json>, ys: seq<Json>): Json {
    Obj([Field("title", TitlePart(props)), Field("tooltip", TooltipPart(props)),
         Field("grid", GridPart), Field("xAxis", XAxisPart(xs)), Field("yAxis", YAxisPart(props)),
         Field("legend", LegendPart(props)), Field("series", JArr([BarSeries(props, ys)]))])
  }

  /** The rows a chart reads and whether building its option throws: the rows
      must be an array of non-nullish values. */
  predicate Renderable(props: Json) {
    ChartData(props).Some? && ChartData(props).value.JArr? &&
    forall i :: 0 <= i < |ChartData(props).value.items| ==> !Nullish(ChartData(props).value.items[i])
  }

  /** The `option` computed in the chart's `useMemo`. */
  function ChartOption(props: Json): (r: Outcome)
    ensures r.Built? <==> Renderable(props)
  {
    match ChartData(props)
    case None => Throws
    case Some(data) =>
      if !data.JArr? then Throws
      else
        match (Column(data.items, KeyText(Prop(props, "xAxisField"))),
               Column(data.items, KeyText(Prop(props, "yAxisField"))))
        case (Some(xs), Some(ys)) => Built(OptionRecord(props, xs, ys))
        case _ => Throws
  }

  /** The rows of a renderable chart. */
  function Rows(props: Json): (rows: seq<Json>)
    requires Renderable(props)
    ensures ChartData(props) == Some(JArr(rows))
    ensures forall i :: 0 <= i < |rows| ==> !Nullish(rows[i])
  {
    ChartData(props).value.items
  }

  /** `xData` and `yData`: the cell of every row under the field name that
      the prop `axisField` holds, in row order. */
  function AxisColumn(props: Json, axisField: string): (cells: seq<Json>)
    requires Renderable(props)
    ensures |cells| == |Rows(props)|
    ensures forall i :: 0 <= i < |cells| ==> cells[i] == Cell(Rows(props)[i], KeyText(Prop(props, axisField)))
  {
    Column(Rows(props), KeyText(Prop(props, axisField))).value
  }

  /** A renderable chart's option is the record built from its two columns. */
  lemma BuiltFromColumns(props: Json)
    requires Renderable(props)
    ensures ChartOption(props) == Built(OptionRecord(props, AxisColumn(props, "xAxisField"), AxisColumn(props, "yAxisField")))
  {
  }

  /** The record's title, tooltip and grid parts. */
  lemma RecordHeader(props: Json, xs: seq<Json>, ys: seq<Json>)
    ensures Prop(OptionRecord(props, xs, ys), "title") ==
      Obj([Field("text", Prop(props, "title")), Field("top", JInt(0))])
    ensures Prop(OptionRecord(props, xs, ys), "tooltip") ==
      Obj([Field("show", Prop(props, "tooltipEnabled")), Field("trigger", JStr("axis"))])
    ensures Prop(OptionRecord(props, xs, ys), "grid") ==
      Obj([Field("top", JInt(40)), Field("right", JInt(10)), Field("bottom", JInt(10)),
           Field("left", JInt(10)), Field("containLabel", JBool(true))])
  {
    var o := OptionRecord(props, xs, ys);
    GetAt(o.fields, "title", 0);
    GetAt(o.fields, "tooltip", 1);
    GetAt(o.fields, "grid", 2);
  }

  /** The record's axes and legend. */
  lemma RecordAxes(props: Json, xs: seq<Json>, ys: seq<Json>)
    ensures Prop(OptionRecord(props, xs, ys), "xAxis") ==
      Obj([Field("type", JStr("category")), Field("data", JArr(xs))])
    ensures Prop(OptionRecord(props, xs, ys), "yAxis") ==
      Obj([Field("type", JStr("value")), Field("splitLine", Obj([Field("show", Prop(props, "showGrid"))]))])
    ensures Prop(OptionRecord(props, xs, ys), "legend") == Obj([Field("show", Prop(props, "showLegend"))])
  {
    var o := OptionRecord(props, xs, ys);
    GetAt(o.fields, "xAxis", 3);
    GetAt(o.fields, "yAxis", 4);
    GetAt(o.fields, "legend", 5);
  }

  /** The record's series: one bar series over `ys`. */
  lemma RecordSeries(props: Json, xs: seq<Json>, ys: seq<Json>)
    ensures Prop(OptionRecord(props, xs, ys), "series") == JArr([BarSeries(props, ys)])
    ensures Prop(BarSeries(props, ys), "type") == JStr("bar")
    ensures Prop(BarSeries(props, ys), "data") == JArr(ys)
    ensures Prop(BarSeries(props, ys), "itemStyle") == Obj([Field("color", BarColor(props))])
  {
    GetAt(OptionRecord(props, xs, ys).fields, "series", 6);
    var s := BarSeries(props, ys);
    GetAt(s.fields, "type", 0);
    GetAt(s.fields, "data", 1);
    GetAt(s.fields, "itemStyle", 2);
  }

  /** `xAxis.data` is `xData`, and the single series is a bar series over
      `yData`. */
  lemma ColumnsFollowRows(props: Json)
    requires Renderable(props)
    ensures Prop(Prop(ChartOption(props).option, "xAxis"), "data") == JArr(AxisColumn(props, "xAxisField"))
    ensures Prop(ChartOption(props).option, "series") == JArr([BarSeries(props, AxisColumn(props, "yAxisField"))])
    ensures Prop(BarSeries(props, AxisColumn(props, "yAxisField")), "data") == JArr(AxisColumn(props, "yAxisField"))
  {
    BuiltFromColumns(props);
    RecordAxes(props, AxisColumn(props, "xAxisField"), AxisColumn(props, "yAxisField"));
    RecordSeries(props, AxisColumn(props, "xAxisField"), AxisColumn(props, "yAxisField"));
    GetAt(XAxisPart(AxisColumn(props, "xAxisField")).fields, "data", 1);
  }

  /** `title.text` is the title prop, shown at the top; `tooltip.show` is the
      tooltip flag with the axis trigger; the grid margins are fixed, with
      labels contained. */
  lemma TitleTooltipGrid(props: Json)
    requires Renderable(props)
    ensures Prop(ChartOption(props).option, "title") ==
      Obj([Field("text", Prop(props, "title")), Field("top", JInt(0))])
    ensures Prop(ChartOption(props).option, "tooltip") ==
      Obj([Field("show", Prop(props, "tooltipEnabled")), Field("trigger", JStr("axis"))])
    ensures Prop(ChartOption(props).option, "grid") ==
      Obj([Field("top", JInt(40)), Field("right", JInt(10)), Field("bottom", JInt(10)),
           Field("left", JInt(10)), Field("containLabel", JBool(true))])
  {
    BuiltFromColumns(props);
    RecordHeader(props, AxisColumn(props, "xAxisField"), AxisColumn(props, "yAxisField"));
  }

  /** `yAxis.splitLine.show` is the grid flag and `legend.show` the legend flag. */
  lemma GridLinesAndLegend(props: Json)
    requires Renderable(props)
    ensures Prop(Prop(Prop(ChartOption(props).option, "yAxis"), "splitLine"), "show") == Prop(props, "showGrid")
    ensures Prop(Prop(ChartOption(props).option, "legend"), "show") == Prop(props, "showLegend")
  {
    BuiltFromColumns(props);
    RecordAxes(props, AxisColumn(props, "xAxisField"), AxisColumn(props, "yAxisField"));
    GetAt(YAxisPart(props).fields, "splitLine", 1);
  }

  /** The color of the one series is `barColor`, or the default blue when
      `barColor` is empty. */
  lemma SeriesColor(props: Json)
    requires Renderable(props)
    ensures Prop(Prop(BarSeries(props, AxisColumn(props, "yAxisField")), "itemStyle"), "color") ==
      if Truthy(Prop(props, "barColor")) then Prop(props, "barColor") else JStr("#5470c6")
  {
    RecordSeries(props, AxisColumn(props, "xAxisField"), AxisColumn(props, "yAxisField"));
  }

  /** Without a data source the chart draws empty axes rather than failing. */
  lemma MissingSourceMeansNoRows(props: Json)
    requires !Nullish(props) && Nullish(Prop(props, "dataSource"))
    ensures Renderable(props) && Rows(props) == [] && AxisColumn(props, "xAxisField") == [] && AxisColumn(props, "yAxisField") == []
  {
  }

  /** A nullish row makes the builder throw. */
  lemma NullRowThrows(props: Json, i: nat)
    requires ChartData(props).Some? && ChartData(props).value.JArr?
    requires i < |ChartData(props).value.items| && Nullish(ChartData(props).value.items[i])
    ensures ChartOption(props) == Throws
  {
  }

  /** The template's data source: static rows A, B and C. */
  lemma DefaultChartSource()
    ensures Prop(Config.BarChartDefault.props, "dataSource") ==
      Obj([Field("sourceType", JStr("static")), Field("data", JArr(DefaultRows))])
  {
    GetAt(Config.BarChartDefault.props.fields, "dataSource", 7);
  }

  /** A static data source supplies its rows. */
  lemma StaticSourceRows(props: Json, rows: seq<Json>)
    requires !Nullish(props)
    requires Prop(props, "dataSource") == Obj([Field("sourceType", JStr("static")), Field("data", JArr(rows))])
    ensures ChartData(props) == Some(JArr(rows))
  {
    GetAt(Prop(props, "dataSource").fields, "data", 1);
  }

  /** The template's rows. */
  lemma DefaultChartData()
    ensures ChartData(Config.BarChartDefault.props) == Some(JArr(DefaultRows))
  {
    DefaultChartSource();
    StaticSourceRows(Config.BarChartDefault.props, DefaultRows);
  }

  /** The template reads the "name" and "value" fields of its rows. */
  lemma DefaultChartFieldNames()
    ensures Prop(Config.BarChartDefault.props, "xAxisField") == JStr("name")
    ensures Prop(Config.BarChartDefault.props, "yAxisField") == JStr("value")
  {
    GetAt(Config.BarChartDefault.props.fields, "xAxisField", 1);
    GetAt(Config.BarChartDefault.props.fields, "yAxisField", 2);
  }

  const DefaultRows: seq<Json> := [Config.Row("A", 120), Config.Row("B", 200), Config.Row("C", 150)]

  /** Reading "name" and "value" off the template's rows. */
  lemma DefaultRowsColumns()
    ensures Column(DefaultRows, Some("name")) == Some([JStr("A"), JStr("B"), JStr("C")])
    ensures Column(DefaultRows, Some("value")) == Some([JInt(120), JInt(200), JInt(150)])
  {
    RowCells("A", 120);
    RowCells("B", 200);
    RowCells("C", 150);
    assert forall i :: 0 <= i < |DefaultRows| ==> DefaultRows[i].JObj?;
    var names := Column(DefaultRows, Some("name")).value;
    assert names[0] == JStr("A") && names[1] == JStr("B") && names[2] == JStr("C");
    assert |names| == 3 && names == [JStr("A"), JStr("B"), JStr("C")];
    var values := Column(DefaultRows, Some("value")).value;
    assert values[0] == JInt(120) && values[1] == JInt(200) && values[2] == JInt(150);
    assert |values| == 3 && values == [JInt(120), JInt(200), JInt(150)];
  }

  lemma RowCells(name: string, value: int)
    ensures Cell(Config.Row(name, value), Some("name")) == JStr(name)
    ensures Cell(Config.Row(name, value), Some("value")) == JInt(value)
  {
    GetAt(Config.Row(name, value).fields, "name", 0);
    GetAt(Config.Row(name, value).fields, "value", 1);
  }

  /** The template's chart: categories A, B, C with values 120, 200, 150. */
  lemma DefaultChartColumns()
    ensures Renderable(Config.BarChartDefault.props)
    ensures AxisColumn(Config.BarChartDefault.props, "xAxisField") == [JStr("A"), JStr("B"), JStr("C")]
    ensures AxisColumn(Config.BarChartDefault.props, "yAxisField") == [JInt(120), JInt(200), JInt(150)]
  {
    DefaultChartData();
    DefaultChartFieldNames();
    DefaultRowsColumns();
  }
}
