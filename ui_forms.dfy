/** `Forms` builders: user input and form controls. */
module Forms {

  import opened Wrappers
  import opened JsonValue
  import opened UiComponent

  const Category := "Forms"

  /** `Forms.FormControl(type, label, placeholder)`: never marked required. */
  function FormControl(inputType: string := "text", labelText: string := "Input Field", placeholder: string := ""): (r: Value)
    ensures IsComponent(r, Category, "Form control")
    ensures Props(r).Keys == {"type", "label", "placeholder", "required"}
    ensures Props(r)["type"] == Str(inputType) && Props(r)["label"] == Str(labelText)
    ensures Props(r)["placeholder"] == Str(placeholder)
    ensures Props(r)["required"] == Bool(false)
  {
    ComponentDefinition(Category, "Form control", map[
      "type" := Str(inputType), "label" := Str(labelText), "placeholder" := Str(placeholder), "required" := Bool(false)])
  }

  /** `Forms.Select(label, options, multiple)`. */
  function Select(labelText: string, options: seq<string>, multiple: bool := false): (r: Value)
    ensures IsComponent(r, Category, "Select")
    ensures Props(r) == map["label" := Str(labelText), "options" := StrList(options), "multiple" := Bool(multiple)]
  {
    ComponentDefinition(Category, "Select", map[
      "label" := Str(labelText), "options" := StrList(options), "multiple" := Bool(multiple)])
  }

  /** `Forms.ChecksRadios(type, label, checked)`: `type` is sent as `input_type`. */
  function ChecksRadios(inputType: string := "checkbox", labelText: string := "Option", checked: bool := false): (r: Value)
    ensures IsComponent(r, Category, "Checks & radios")
    ensures Props(r).Keys == {"input_type", "label", "checked"}
    ensures Props(r)["input_type"] == Str(inputType)
    ensures Props(r)["label"] == Str(labelText) && Props(r)["checked"] == Bool(checked)
  {
    ComponentDefinition(Category, "Checks & radios", map[
      "input_type" := Str(inputType), "label" := Str(labelText), "checked" := Bool(checked)])
  }

  /** `Forms.Range(label, min_val, max_val, step)`: sent as `min`, `max`, `step`. */
  function Range(labelText: string, minVal: int := 0, maxVal: int := 100, step: int := 1): (r: Value)
    ensures IsComponent(r, Category, "Range")
    ensures Props(r).Keys == {"label", "min", "max", "step"}
    ensures Props(r)["label"] == Str(labelText)
    ensures Props(r)["min"] == Int(minVal) && Props(r)["max"] == Int(maxVal) && Props(r)["step"] == Int(step)
  {
    ComponentDefinition(Category, "Range", map[
      "label" := Str(labelText), "min" := Int(minVal), "max" := Int(maxVal), "step" := Int(step)])
  }

  /** `Forms.InputGroup(prepend_text, append_text, input_type)`. */
  function InputGroup(prependText: Option<string> := None, appendText: Option<string> := None, inputType: string := "text"): (r: Value)
    ensures IsComponent(r, Category, "Input group")
    ensures Props(r).Keys == {"prepend", "append", "input_type"}
    ensures Props(r)["prepend"] == OptStr(prependText) && Props(r)["append"] == OptStr(appendText)
    ensures Props(r)["input_type"] == Str(inputType)
  {
    ComponentDefinition(Category, "Input group", map[
      "prepend" := OptStr(prependText), "append" := OptStr(appendText), "input_type" := Str(inputType)])
  }

  /** `Forms.FloatingLabels(label, input_type)`. */
  function FloatingLabels(labelText: string, inputType: string := "text"): (r: Value)
    ensures IsComponent(r, Category, "Floating labels")
    ensures Props(r) == map["label" := Str(labelText), "input_type" := Str(inputType)]
  {
    ComponentDefinition(Category, "Floating labels", map["label" := Str(labelText), "input_type" := Str(inputType)])
  }

  /** `Forms.Layout(direction, alignment)`. */
  function Layout(direction: string := "vertical", alignment: string := "start"): (r: Value)
    ensures IsComponent(r, Category, "Layout")
    ensures Props(r) == map["direction" := Str(direction), "alignment" := Str(alignment)]
  {
    ComponentDefinition(Category, "Layout", map["direction" := Str(direction), "alignment" := Str(alignment)])
  }

  /** `Forms.Validation(state, message)`: `message` is sent as `feedback_message`. */
  function Validation(state: string := "invalid", message: string := "Field is required."): (r: Value)
    ensures IsComponent(r, Category, "Validation")
    ensures Props(r).Keys == {"state", "feedback_message"}
    ensures Props(r)["state"] == Str(state) && Props(r)["feedback_message"] == Str(message)
  {
    ComponentDefinition(Category, "Validation", map["state" := Str(state), "feedback_message" := Str(message)])
  }

  /** The defaults of the Forms builders. */
  lemma FormsDefaults()
    ensures Props(FormControl())["type"] == Str("text") && Props(FormControl())["label"] == Str("Input Field")
    ensures Props(ChecksRadios())["input_type"] == Str("checkbox") && Props(ChecksRadios())["label"] == Str("Option")
    ensures Props(ChecksRadios())["checked"] == Bool(false)
    ensures Props(Range("r"))["min"] == Int(0) && Props(Range("r"))["max"] == Int(100) && Props(Range("r"))["step"] == Int(1)
    ensures Props(InputGroup())["prepend"] == Null && Props(InputGroup())["input_type"] == Str("text")
    ensures Props(Layout())["direction"] == Str("vertical") && Props(Layout())["alignment"] == Str("start")
    ensures Props(Validation())["state"] == Str("invalid")
    ensures Props(Validation())["feedback_message"] == Str("Field is required.")
  {
  }
}
