/** `Layout` builders: breakpoints, containers and grids. */
module Layouts {

  import opened Wrappers
  import opened JsonValue
  import opened UiComponent

  const Category := "Layout"

  /** The six responsive screen widths every `Breakpoints` starts from. */
  const DefaultBreakpoints: map<string, string> :=
    map["xs" := "0px", "sm" := "576px", "md" := "768px", "lg" := "992px", "xl" := "1200px", "xxl" := "1400px"]

  function StrMap(m: map<string, string>): (r: map<string, Value>)
    ensures r.Keys == m.Keys && forall k :: k in m ==> r[k] == Str(m[k])
  {
    map k | k in m :: Str(m[k])
  }

  /** The breakpoint definitions a `Breakpoints` description carries. */
  function Definitions(v: Value): map<string, Value>
    requires Parse(v).Some?
  {
    var p := Props(v);
    if "definitions" in p && p["definitions"].Obj? then p["definitions"].fields else map[]
  }

  /** The extra breakpoints, `{}` when none are given. */
  function Extras(extra: Option<map<string, string>>): map<string, string> {
    if extra.Some? then extra.value else map[]
  }

  /** The `defaults` dict of `Layout.Breakpoints`, updated by the extras
      only when they are truthy (a non-empty dict). */
  function BreakpointDefinitions(extra: Option<map<string, string>>): (r: map<string, string>)
    ensures r == DefaultBreakpoints + Extras(extra)
  {
    if extra.Some? && extra.value != map[] then DefaultBreakpoints + extra.value else DefaultBreakpoints
  }

  /** `Layout.Breakpoints(extra_breakpoints)`: the defaults, updated by the
      extras; an empty or missing map of extras leaves the defaults. */
  function Breakpoints(extra: Option<map<string, string>> := None): (r: Value)
    ensures IsComponent(r, Category, "Breakpoints") && Props(r).Keys == {"definitions"}
    ensures Definitions(r) == StrMap(DefaultBreakpoints + Extras(extra))
  {
    var props := map["definitions" := Obj(StrMap(BreakpointDefinitions(extra)))];
    var r := ComponentDefinition(Category, "Breakpoints", props);
    assert Props(r) == props;
    r
  }

  /** An extra breakpoint wins on a shared key; every other default stays. */
  lemma BreakpointsOverride(extra: Option<map<string, string>>)
    ensures var d := Definitions(Breakpoints(extra));
      && d.Keys == DefaultBreakpoints.Keys + Extras(extra).Keys
      && (forall k :: k in Extras(extra) ==> d[k] == Str(Extras(extra)[k]))
      && (forall k :: k in DefaultBreakpoints && k !in Extras(extra) ==> d[k] == Str(DefaultBreakpoints[k]))
  {
    var m := DefaultBreakpoints + Extras(extra);
    assert m.Keys == DefaultBreakpoints.Keys + Extras(extra).Keys;
  }

  /** Without extras, exactly the six defaults. */
  lemma BreakpointsDefaults()
    ensures Definitions(Breakpoints()) == StrMap(DefaultBreakpoints)
    ensures Definitions(Breakpoints(Some(map[]))) == StrMap(DefaultBreakpoints)
    ensures Definitions(Breakpoints())["md"] == Str("768px")
  {
  }

  /** `Layout.Container(fluid, max_width)`: `max_width` is sent as `maxWidth`. */
  function Container(fluid: bool := false, maxWidth: Option<string> := None): (r: Value)
    ensures IsComponent(r, Category, "Container")
    ensures Props(r).Keys == {"fluid", "maxWidth", "description"}
    ensures Props(r)["fluid"] == Bool(fluid) && Props(r)["maxWidth"] == OptStr(maxWidth)
    ensures Props(r)["description"] == Str("Wraps content with responsive padding and centering.")
  {
    ComponentDefinition(Category, "Container", map[
      "fluid" := Bool(fluid),
      "maxWidth" := OptStr(maxWidth),
      "description" := Str("Wraps content with responsive padding and centering.")])
  }

  /** `Layout.Grid(columns, direction)`: always a flexbox grid. */
  function Grid(columns: int := 12, direction: string := "row"): (r: Value)
    ensures IsComponent(r, Category, "Grid")
    ensures Props(r).Keys == {"columns", "direction", "behavior"}
    ensures Props(r)["columns"] == Int(columns) && Props(r)["direction"] == Str(direction)
    ensures Props(r)["behavior"] == Str("flexbox")
  {
    ComponentDefinition(Category, "Grid", map[
      "columns" := Int(columns), "direction" := Str(direction), "behavior" := Str("flexbox")])
  }

  /** `Layout.Column(size, breakpoint, content)`: no content means an empty list. */
  function Column(size: Value, breakpoint: string := "default", content: Option<seq<Value>> := None): (r: Value)
    ensures IsComponent(r, Category, "Column")
    ensures Props(r).Keys == {"size", "breakpoint", "content"}
    ensures Props(r)["size"] == size && Props(r)["breakpoint"] == Str(breakpoint)
    ensures content.None? ==> Props(r)["content"] == Arr([])
    ensures content.Some? ==> Props(r)["content"] == Arr(content.value)
  {
    ComponentDefinition(Category, "Column", map[
      "size" := size,
      "breakpoint" := Str(breakpoint),
      "content" := Arr(if content.Some? then content.value else [])])
  }

  /** The spacing scale used when `Gutters` is given no map (0, 1 and 3 are
      Python ints, the others floats). */
  const DefaultSpacing: map<string, Value> :=
    map["0" := Int(0), "1" := Float(0.25), "2" := Float(0.5), "3" := Int(1), "4" := Float(1.5), "5" := Int(3)]

  /** `Layout.Gutters(spacing_unit, spacing_map)`: only a missing map (not an
      empty one) is replaced by the default scale. */
  function Gutters(spacingUnit: string := "rem", spacingMap: Option<map<string, Value>> := None): (r: Value)
    ensures IsComponent(r, Category, "Gutters")
    ensures Props(r).Keys == {"unit", "map"}
    ensures Props(r)["unit"] == Str(spacingUnit)
    ensures Props(r)["map"] == Obj(if spacingMap.None? then DefaultSpacing else spacingMap.value)
  {
    var m := if spacingMap.None? then DefaultSpacing else spacingMap.value;
    ComponentDefinition(Category, "Gutters", map["unit" := Str(spacingUnit), "map" := Obj(m)])
  }

  /** `Layout.ZIndex(layers)`, of component type "Z-index". */
  function ZIndex(layers: map<string, int>): (r: Value)
    ensures IsComponent(r, Category, "Z-index")
    ensures Props(r).Keys == {"layers"} && Props(r)["layers"].Obj?
    ensures Props(r)["layers"].fields.Keys == layers.Keys
    ensures forall k :: k in layers ==> Props(r)["layers"].fields[k] == Int(layers[k])
  {
    ComponentDefinition(Category, "Z-index", map["layers" := Obj(map k | k in layers :: Int(layers[k]))])
  }

  /** `Layout.CSSGrid(template_columns, template_rows)`, of component type "CSS Grid". */
  function CssGrid(templateColumns: string := "repeat(12, 1fr)", templateRows: string := "auto"): (r: Value)
    ensures IsComponent(r, Category, "CSS Grid")
    ensures Props(r).Keys == {"template_columns", "template_rows", "description"}
    ensures Props(r)["template_columns"] == Str(templateColumns) && Props(r)["template_rows"] == Str(templateRows)
    ensures Props(r)["description"] == Str("Explicit CSS Grid layout properties.")
  {
    ComponentDefinition(Category, "CSS Grid", map[
      "template_columns" := Str(templateColumns),
      "template_rows" := Str(templateRows),
      "description" := Str("Explicit CSS Grid layout properties.")])
  }

  /** The defaults of the Layout builders. */
  lemma LayoutDefaults()
    ensures Props(Grid())["columns"] == Int(12) && Props(Grid())["direction"] == Str("row")
    ensures Props(Container())["fluid"] == Bool(false) && Props(Container())["maxWidth"] == Null
    ensures Props(Column(Int(6)))["breakpoint"] == Str("default") && Props(Column(Int(6)))["content"] == Arr([])
    ensures Props(Gutters())["unit"] == Str("rem") && Props(Gutters())["map"] == Obj(DefaultSpacing)
    ensures Props(Gutters(spacingMap := Some(map[])))["map"] == Obj(map[])
    ensures Props(CssGrid())["template_columns"] == Str("repeat(12, 1fr)")
    ensures Props(CssGrid())["template_rows"] == Str("auto")
  {
  }
}
