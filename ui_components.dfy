/** `Components` builders: interactive, reusable UI components. */
module Components {

  import opened Wrappers
  import opened JsonValue
  import opened UiComponent

  const Category := "Components"

  /** `Components.Accordion(items, always_open)`. */
  function Accordion(items: seq<Value>, alwaysOpen: bool := false): (r: Value)
    ensures IsComponent(r, Category, "Accordion")
    ensures Props(r) == map["items" := Arr(items), "always_open" := Bool(alwaysOpen)]
  {
    ComponentDefinition(Category, "Accordion", map["items" := Arr(items), "always_open" := Bool(alwaysOpen)])
  }

  /** `Components.Alerts(message, type, dismissible)`. */
  function Alerts(message: string, alertType: string := "info", dismissible: bool := false): (r: Value)
    ensures IsComponent(r, Category, "Alerts")
    ensures Props(r) == map["message" := Str(message), "type" := Str(alertType), "dismissible" := Bool(dismissible)]
  {
    ComponentDefinition(Category, "Alerts", map[
      "message" := Str(message), "type" := Str(alertType), "dismissible" := Bool(dismissible)])
  }

  /** `Components.Badge(content, color, pill)`. */
  function Badge(content: string, color: string := "primary", pill: bool := false): (r: Value)
    ensures IsComponent(r, Category, "Badge")
    ensures Props(r) == map["content" := Str(content), "color" := Str(color), "pill" := Bool(pill)]
  {
    ComponentDefinition(Category, "Badge", map["content" := Str(content), "color" := Str(color), "pill" := Bool(pill)])
  }

  /** `Components.Breadcrumb(links)`. */
  function Breadcrumb(links: seq<Value>): (r: Value)
    ensures IsComponent(r, Category, "Breadcrumb")
    ensures Props(r) == map["links" := Arr(links)]
  {
    ComponentDefinition(Category, "Breadcrumb", map["links" := Arr(links)])
  }

  /** `Components.Buttons(label, variant, size, disabled)`. */
  function Buttons(labelText: string, variant: string := "primary", size: string := "medium", disabled: bool := false): (r: Value)
    ensures IsComponent(r, Category, "Buttons")
    ensures Props(r) == map["label" := Str(labelText), "variant" := Str(variant), "size" := Str(size), "disabled" := Bool(disabled)]
  {
    ComponentDefinition(Category, "Buttons", map[
      "label" := Str(labelText), "variant" := Str(variant), "size" := Str(size), "disabled" := Bool(disabled)])
  }

  /** `Components.ButtonGroup(buttons, vertical)`, of component type "Button group". */
  function ButtonGroup(buttons: seq<Value>, vertical: bool := false): (r: Value)
    ensures IsComponent(r, Category, "Button group")
    ensures Props(r) == map["buttons" := Arr(buttons), "vertical" := Bool(vertical)]
  {
    ComponentDefinition(Category, "Button group", map["buttons" := Arr(buttons), "vertical" := Bool(vertical)])
  }

  /** `Components.Card(header, body, footer)`. */
  function Card(header: Option<string> := None, body: string := "", footer: Option<string> := None): (r: Value)
    ensures IsComponent(r, Category, "Card")
    ensures Props(r) == map["header" := OptStr(header), "body" := Str(body), "footer" := OptStr(footer)]
  {
    ComponentDefinition(Category, "Card", map["header" := OptStr(header), "body" := Str(body), "footer" := OptStr(footer)])
  }

  /** `Components.Carousel(items, indicators, controls)`. */
  function Carousel(items: seq<Value>, indicators: bool := true, controls: bool := true): (r: Value)
    ensures IsComponent(r, Category, "Carousel")
    ensures Props(r) == map["items" := Arr(items), "indicators" := Bool(indicators), "controls" := Bool(controls)]
  {
    ComponentDefinition(Category, "Carousel", map[
      "items" := Arr(items), "indicators" := Bool(indicators), "controls" := Bool(controls)])
  }

  /** `Components.CloseButton(label)`, of component type "Close button": its
      only prop is `aria_label`. */
  function CloseButton(labelText: string := "Close"): (r: Value)
    ensures IsComponent(r, Category, "Close button")
    ensures Props(r).Keys == {"aria_label"} && Props(r)["aria_label"] == Str(labelText)
  {
    ComponentDefinition(Category, "Close button", map["aria_label" := Str(labelText)])
  }

  /** `Components.Collapse(target_id, show)`. */
  function Collapse(targetId: string, show: bool := false): (r: Value)
    ensures IsComponent(r, Category, "Collapse")
    ensures Props(r) == map["target_id" := Str(targetId), "show" := Bool(show)]
  {
    ComponentDefinition(Category, "Collapse", map["target_id" := Str(targetId), "show" := Bool(show)])
  }

  /** `Components.Dropdowns(label, items)`. */
  function Dropdowns(labelText: string, items: seq<Value>): (r: Value)
    ensures IsComponent(r, Category, "Dropdowns")
    ensures Props(r) == map["label" := Str(labelText), "items" := Arr(items)]
  {
    ComponentDefinition(Category, "Dropdowns", map["label" := Str(labelText), "items" := Arr(items)])
  }

  /** `Components.ListGroup(items, numbered, flush)`, of component type "List group". */
  function ListGroup(items: seq<string>, numbered: bool := false, flush: bool := false): (r: Value)
    ensures IsComponent(r, Category, "List group")
    ensures Props(r) == map["items" := StrList(items), "numbered" := Bool(numbered), "flush" := Bool(flush)]
  {
    ComponentDefinition(Category, "List group", map[
      "items" := StrList(items), "numbered" := Bool(numbered), "flush" := Bool(flush)])
  }

  /** `Components.Modal(title, body, size, backdrop_static)`. */
  function Modal(title: string, body: string, size: string := "medium", backdropStatic: bool := false): (r: Value)
    ensures IsComponent(r, Category, "Modal")
    ensures Props(r) == map["title" := Str(title), "body" := Str(body), "size" := Str(size), "backdrop_static" := Bool(backdropStatic)]
  {
    ComponentDefinition(Category, "Modal", map[
      "title" := Str(title), "body" := Str(body), "size" := Str(size), "backdrop_static" := Bool(backdropStatic)])
  }

  /** `Components.Navbar(brand_name, links, fixed)`: `brand_name` is sent as `brand`. */
  function Navbar(brandName: string, links: seq<Value>, fixed: string := "none"): (r: Value)
    ensures IsComponent(r, Category, "Navbar")
    ensures Props(r).Keys == {"brand", "links", "fixed"}
    ensures Props(r)["brand"] == Str(brandName) && Props(r)["links"] == Arr(links)
    ensures Props(r)["fixed"] == Str(fixed)
  {
    ComponentDefinition(Category, "Navbar", map["brand" := Str(brandName), "links" := Arr(links), "fixed" := Str(fixed)])
  }

  /** `Components.NavsTabs(items, type)`, of component type "Navs & tabs". */
  function NavsTabs(items: seq<string>, navType: string := "nav"): (r: Value)
    ensures IsComponent(r, Category, "Navs & tabs")
    ensures Props(r) == map["items" := StrList(items), "type" := Str(navType)]
  {
    ComponentDefinition(Category, "Navs & tabs", map["items" := StrList(items), "type" := Str(navType)])
  }

  /** `Components.Offcanvas(title, body, placement)`. */
  function Offcanvas(title: string, body: string, placement: string := "start"): (r: Value)
    ensures IsComponent(r, Category, "Offcanvas")
    ensures Props(r) == map["title" := Str(title), "body" := Str(body), "placement" := Str(placement)]
  {
    ComponentDefinition(Category, "Offcanvas", map["title" := Str(title), "body" := Str(body), "placement" := Str(placement)])
  }

  /** `Components.Pagination(current_page, total_pages)`: sent as `current` and `total`. */
  function Pagination(currentPage: int, totalPages: int): (r: Value)
    ensures IsComponent(r, Category, "Pagination")
    ensures Props(r).Keys == {"current", "total"}
    ensures Props(r)["current"] == Int(currentPage) && Props(r)["total"] == Int(totalPages)
  {
    ComponentDefinition(Category, "Pagination", map["current" := Int(currentPage), "total" := Int(totalPages)])
  }

  /** `Components.Placeholders(lines, size)`. */
  function Placeholders(lines: int := 3, size: string := "default"): (r: Value)
    ensures IsComponent(r, Category, "Placeholders")
    ensures Props(r) == map["lines" := Int(lines), "size" := Str(size)]
  {
    ComponentDefinition(Category, "Placeholders", map["lines" := Int(lines), "size" := Str(size)])
  }

  /** `Components.Popovers(trigger, content)`. */
  function Popovers(trigger: string := "hover", content: string := "This is a popover message."): (r: Value)
    ensures IsComponent(r, Category, "Popovers")
    ensures Props(r) == map["trigger" := Str(trigger), "content" := Str(content)]
  {
    ComponentDefinition(Category, "Popovers", map["trigger" := Str(trigger), "content" := Str(content)])
  }

  /** `Components.Progress(value, max_val, label)`: `max_val` is sent as `max`. */
  function Progress(value: int, maxVal: int := 100, labelText: Option<string> := None): (r: Value)
    ensures IsComponent(r, Category, "Progress")
    ensures Props(r).Keys == {"value", "max", "label"}
    ensures Props(r)["value"] == Int(value) && Props(r)["max"] == Int(maxVal)
    ensures Props(r)["label"] == OptStr(labelText)
  {
    ComponentDefinition(Category, "Progress", map["value" := Int(value), "max" := Int(maxVal), "label" := OptStr(labelText)])
  }

  /** `Components.Scrollspy(target_id, nav_items)`. */
  function Scrollspy(targetId: string, navItems: seq<string>): (r: Value)
    ensures IsComponent(r, Category, "Scrollspy")
    ensures Props(r) == map["target_id" := Str(targetId), "nav_items" := StrList(navItems)]
  {
    ComponentDefinition(Category, "Scrollspy", map["target_id" := Str(targetId), "nav_items" := StrList(navItems)])
  }

  /** `Components.Spinners(style, color, size)`. */
  function Spinners(style: string := "border", color: string := "primary", size: string := "default"): (r: Value)
    ensures IsComponent(r, Category, "Spinners")
    ensures Props(r) == map["style" := Str(style), "color" := Str(color), "size" := Str(size)]
  {
    ComponentDefinition(Category, "Spinners", map["style" := Str(style), "color" := Str(color), "size" := Str(size)])
  }

  /** `Components.Toasts(title, message, delay_ms)`. */
  function Toasts(title: string, message: string, delayMs: int := 5000): (r: Value)
    ensures IsComponent(r, Category, "Toasts")
    ensures Props(r) == map["title" := Str(title), "message" := Str(message), "delay_ms" := Int(delayMs)]
  {
    ComponentDefinition(Category, "Toasts", map["title" := Str(title), "message" := Str(message), "delay_ms" := Int(delayMs)])
  }

  /** `Components.Tooltips(placement, content)`. */
  function Tooltips(placement: string := "top", content: string := "Hint message"): (r: Value)
    ensures IsComponent(r, Category, "Tooltips")
    ensures Props(r) == map["placement" := Str(placement), "content" := Str(content)]
  {
    ComponentDefinition(Category, "Tooltips", map["placement" := Str(placement), "content" := Str(content)])
  }

  /** The defaults of the Components builders. */
  lemma ComponentsDefaults()
    ensures Props(CloseButton())["aria_label"] == Str("Close")
    ensures Props(Progress(40))["max"] == Int(100) && Props(Progress(40))["label"] == Null
    ensures Props(Navbar("ATP", []))["fixed"] == Str("none")
    ensures Props(Alerts("m"))["type"] == Str("info") && Props(Toasts("t", "m"))["delay_ms"] == Int(5000)
  {
  }

  /** The defaults of the placeholder, hint and card builders. */
  lemma ComponentsContentDefaults()
    ensures Props(Placeholders())["lines"] == Int(3) && Props(Tooltips())["placement"] == Str("top")
    ensures Props(Popovers())["content"] == Str("This is a popover message.")
    ensures Props(Card())["header"] == Null && Props(Card())["body"] == Str("")
  {
  }
}
