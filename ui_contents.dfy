/** `Content` builders: styles for basic HTML content. */
module Contents {

  import opened JsonValue
  import opened UiComponent

  const Category := "Content"

  /** `Content.Reboot()`: a fixed CSS reset. */
  function Reboot(): (r: Value)
    ensures IsComponent(r, Category, "Reboot")
    ensures Props(r).Keys == {"normalize_css", "box_sizing", "font_family"}
    ensures Props(r)["normalize_css"] == Bool(true)
    ensures Props(r)["box_sizing"] == Str("border-box") && Props(r)["font_family"] == Str("system-ui")
  {
    ComponentDefinition(Category, "Reboot", map[
      "normalize_css" := Bool(true), "box_sizing" := Str("border-box"), "font_family" := Str("system-ui")])
  }

  /** `Content.Typography(tag, style, text)`. */
  function Typography(tag: string := "p", style: string := "body", text: string := "Default text content"): (r: Value)
    ensures IsComponent(r, Category, "Typography")
    ensures Props(r) == map["tag" := Str(tag), "style" := Str(style), "text" := Str(text)]
  {
    ComponentDefinition(Category, "Typography", map["tag" := Str(tag), "style" := Str(style), "text" := Str(text)])
  }

  /** `Content.Images(src, alt, responsive, rounded)`. */
  function Images(src: string, alt: string := "", responsive: bool := true, rounded: bool := false): (r: Value)
    ensures IsComponent(r, Category, "Images")
    ensures Props(r) == map["src" := Str(src), "alt" := Str(alt), "responsive" := Bool(responsive), "rounded" := Bool(rounded)]
  {
    ComponentDefinition(Category, "Images", map[
      "src" := Str(src), "alt" := Str(alt), "responsive" := Bool(responsive), "rounded" := Bool(rounded)])
  }

  /** `Content.Tables(data, striped, hover)`: the row count and the first
      row as a preview of the schema (an empty list for no rows). */
  function Tables(data: seq<seq<Value>>, striped: bool := false, hover: bool := true): (r: Value)
    ensures IsComponent(r, Category, "Tables")
    ensures Props(r).Keys == {"data_rows", "striped", "hover", "data_preview_schema"}
    ensures Props(r)["data_rows"] == Int(|data|)
    ensures Props(r)["striped"] == Bool(striped) && Props(r)["hover"] == Bool(hover)
    ensures data == [] ==> Props(r)["data_preview_schema"] == Arr([])
    ensures data != [] ==> Props(r)["data_preview_schema"] == Arr(data[0])
  {
    ComponentDefinition(Category, "Tables", map[
      "data_rows" := Int(|data|),
      "striped" := Bool(striped),
      "hover" := Bool(hover),
      "data_preview_schema" := Arr(if data != [] then data[0] else [])])
  }

  /** `Content.Figures(img_src, caption)`: `img_src` is sent as `image_src`. */
  function Figures(imgSrc: string, caption: string): (r: Value)
    ensures IsComponent(r, Category, "Figures")
    ensures Props(r).Keys == {"image_src", "caption"}
    ensures Props(r)["image_src"] == Str(imgSrc) && Props(r)["caption"] == Str(caption)
  {
    ComponentDefinition(Category, "Figures", map["image_src" := Str(imgSrc), "caption" := Str(caption)])
  }

  /** The defaults of the Content builders. */
  lemma ContentDefaults()
    ensures Props(Typography())["tag"] == Str("p") && Props(Typography())["style"] == Str("body")
    ensures Props(Typography())["text"] == Str("Default text content")
    ensures Props(Images("a.png"))["alt"] == Str("") && Props(Images("a.png"))["responsive"] == Bool(true)
    ensures Props(Images("a.png"))["rounded"] == Bool(false)
    ensures Props(Tables([]))["striped"] == Bool(false) && Props(Tables([]))["hover"] == Bool(true)
  {
  }
}
