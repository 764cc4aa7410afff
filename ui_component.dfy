/** The common shape of every UI description: a dict with a category, a
    component type and the props the front end applies. */
module UiComponent {

  import opened Wrappers
  import opened JsonValue

  datatype Definition = Definition(category: string, componentType: string, props: map<string, Value>)

  const Keys: set<string> := {"category", "component_type", "props"}

  /** Reads a UI description back; `None` for a value not of that shape. */
  function Parse(v: Value): Option<Definition> {
    if v.Obj? && v.fields.Keys == Keys
       && v.fields["category"].Str? && v.fields["component_type"].Str? && v.fields["props"].Obj?
    then Some(Definition(v.fields["category"].s, v.fields["component_type"].s, v.fields["props"].fields))
    else None
  }

  /** `component_definition(category, component_type, props)`. */
  function ComponentDefinition(category: string, componentType: string, props: map<string, Value>): (r: Value)
    ensures r.Obj? && r.fields.Keys == Keys
    ensures Parse(r) == Some(Definition(category, componentType, props))
  {
    var r := Obj(map["category" := Str(category), "component_type" := Str(componentType), "props" := Obj(props)]);
    assert r.fields.Keys == Keys;
    r
  }

  /** Every value `Parse` accepts is a `ComponentDefinition` result. */
  lemma ParseInverse(v: Value)
    requires Parse(v).Some?
    ensures ComponentDefinition(Parse(v).value.category, Parse(v).value.componentType, Parse(v).value.props) == v
  {
    var d := Parse(v).value;
    var r := ComponentDefinition(d.category, d.componentType, d.props);
    assert r.fields.Keys == v.fields.Keys;
    assert forall k :: k in Keys ==> r.fields[k] == v.fields[k];
  }

  /** `v` is a UI description of the given category and component type. */
  predicate IsComponent(v: Value, category: string, componentType: string) {
    Parse(v).Some? && Parse(v).value.category == category && Parse(v).value.componentType == componentType
  }

  function Props(v: Value): map<string, Value>
    requires Parse(v).Some?
  {
    Parse(v).value.props
  }
}
