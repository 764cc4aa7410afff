/** `_format_tool_calls`: the normaliser that turns the tool calls of an LLM
    provider's response into the entries the agent server expects. */
module ToolCallFormat {

  import opened Wrappers
  import opened JsonValue
  import opened Text

  /** A Python value as the normaliser meets it: plain JSON data (dicts,
      lists, strings, ...) or an SDK object with named attributes. */
  datatype PyVal = Data(v: Value) | Object(attrs: map<string, PyVal>)

  /** A formatted call: a dict from key to value. */
  type Entry = map<string, PyVal>

  /** `hasattr(x, 'get')`: only dicts have a `get` method. */
  predicate HasGet(p: PyVal) {
    p.Data? && p.v.Obj?
  }

  predicate HasAttr(p: PyVal, name: string) {
    p.Object? && name in p.attrs
  }

  /** `getattr(x, name, default)` */
  function GetAttr(p: PyVal, name: string, default: PyVal): (r: PyVal)
    ensures HasAttr(p, name) ==> r == p.attrs[name]
    ensures !HasAttr(p, name) ==> r == default
  {
    if p.Object? && name in p.attrs then p.attrs[name] else default
  }

  /** `d.get(key, default)` on a JSON dict. */
  function DictGet(d: map<string, Value>, key: string, default: PyVal): (r: PyVal)
    ensures key in d ==> r == Data(d[key])
    ensures key !in d ==> r == default
  {
    if key in d then Data(d[key]) else default
  }

  const EmptyStr := Data(Str(""))
  const EmptyDict := Data(Obj(map[]))

  function MakeEntry(id: PyVal, name: PyVal, arguments: PyVal): Entry {
    map["id" := id, "function" := name, "arguments" := arguments, "type" := Data(Str("function"))]
  }

  /** The entry appended for a call whose formatting raised. */
  function Fallback(index: nat, message: string): Entry {
    map["id" := Data(Str("error_" + NatToString(index))), "function" := Data(Str("unknown")),
        "arguments" := EmptyDict, "type" := Data(Str("function")), "error" := Data(Str(message))]
  }

  /** Mistral object form: string arguments are JSON-decoded (`{}` when
      they do not decode); anything else is passed through. */
  function MistralArguments(argsStr: PyVal, parseJson: string -> Option<Value>): PyVal {
    if argsStr.Data? && argsStr.v.Str? then
      match parseJson(argsStr.v.s)
      case Some(v) => Data(v)
      case None => EmptyDict
    else argsStr
  }

  /** One iteration of the loop's `try` block: the entry, or the text of the
      exception it raises. */
  function FormatItem(provider: string, call: PyVal, parseJson: string -> Option<Value>): Result<Entry, string> {
    if provider == "openai" then
      if HasGet(call) then
        var d := call.v.fields;
        var f := DictGet(d, "function", EmptyDict);
        if !f.v.Obj? then Failure("'" + TypeName(f.v) + "' object has no attribute 'get'")
        else Success(MakeEntry(DictGet(d, "id", EmptyStr), DictGet(f.v.fields, "name", EmptyStr),
                               DictGet(f.v.fields, "arguments", EmptyDict)))
      else
        Success(MakeEntry(GetAttr(call, "id", EmptyStr),
                          if HasAttr(call, "function") then GetAttr(call.attrs["function"], "name", EmptyStr) else EmptyStr,
                          if HasAttr(call, "function") then GetAttr(call.attrs["function"], "arguments", EmptyDict) else EmptyDict))
    else if provider == "anthropic" then
      if HasGet(call) then
        var d := call.v.fields;
        Success(MakeEntry(DictGet(d, "id", EmptyStr), DictGet(d, "name", EmptyStr), DictGet(d, "input", EmptyDict)))
      else
        Success(MakeEntry(GetAttr(call, "id", EmptyStr), GetAttr(call, "name", EmptyStr), GetAttr(call, "input", EmptyDict)))
    else if provider == "mistralai" || provider == "mistral" then
      if HasGet(call) then
        var d := call.v.fields;
        Success(MakeEntry(DictGet(d, "id", EmptyStr), DictGet(d, "name", EmptyStr), DictGet(d, "arguments", EmptyDict)))
      else if HasAttr(call, "function") then
        var fn := call.attrs["function"];
        Success(MakeEntry(GetAttr(call, "id", EmptyStr), GetAttr(fn, "name", EmptyStr),
                          MistralArguments(GetAttr(fn, "arguments", Data(Str("{}"))), parseJson)))
      else
        Success(MakeEntry(GetAttr(call, "id", EmptyStr), EmptyStr, EmptyDict))
    else
      if HasGet(call) then
        var d := call.v.fields;
        Success(MakeEntry(DictGet(d, "id", EmptyStr), DictGet(d, "function", DictGet(d, "name", EmptyStr)),
                          DictGet(d, "arguments", DictGet(d, "input", EmptyDict))))
      else
        Success(MakeEntry(GetAttr(call, "id", EmptyStr), GetAttr(call, "function", GetAttr(call, "name", EmptyStr)),
                          GetAttr(call, "arguments", GetAttr(call, "input", EmptyDict))))
  }

  /** The entry the loop appends for the call at `index`. */
  function FormatAt(provider: string, call: PyVal, parseJson: string -> Option<Value>, index: nat): Entry {
    match FormatItem(provider, call, parseJson)
    case Success(e) => e
    case Failure(m) => Fallback(index, m)
  }

  /** `_format_tool_calls(tool_calls, provider)`: one entry per call, in
      order; a call that raises becomes a fallback entry numbered by its
      position, and the calls after it are formatted as usual. */
  method FormatToolCalls(calls: seq<PyVal>, provider: string, parseJson: string -> Option<Value>)
    returns (formatted: seq<Entry>)
    ensures |formatted| == |calls|
    ensures forall i :: 0 <= i < |calls| ==> formatted[i] == FormatAt(provider, calls[i], parseJson, i)
  {
    formatted := [];
    for i := 0 to |calls|
      invariant |formatted| == i
      invariant forall j :: 0 <= j < i ==> formatted[j] == FormatAt(provider, calls[j], parseJson, j)
    {
      var item := FormatItem(provider, calls[i], parseJson);
      match item {
        case Success(e) =>
          formatted := formatted + [e];
        case Failure(m) =>
          formatted := formatted + [Fallback(|formatted|, m)];
      }
    }
  }

  /** Formatting fails only for an `openai` dict whose `function` value is
      not a dict; every other provider name, known or not, never fails. */
  lemma FormatFailsOnlyOnOpenAiFunction(provider: string, call: PyVal, parseJson: string -> Option<Value>)
    ensures FormatItem(provider, call, parseJson).Failure?
        <==> provider == "openai" && HasGet(call) && !DictGet(call.v.fields, "function", EmptyDict).v.Obj?
  {
  }

  /** Every entry has `type` = "function" and the keys `id`, `function` and
      `arguments`; only a fallback entry carries `error`. */
  lemma EntryShape(provider: string, call: PyVal, parseJson: string -> Option<Value>, index: nat)
    ensures var e := FormatAt(provider, call, parseJson, index);
      && "type" in e && e["type"] == Data(Str("function"))
      && {"id", "function", "arguments"} <= e.Keys
      && ("error" in e <==> FormatItem(provider, call, parseJson).Failure?)
  {
  }

  /** A failing call yields `{"id": "error_<i>", "function": "unknown",
      "arguments": {}, "type": "function", "error": msg}`. */
  lemma FallbackEntry(provider: string, call: PyVal, parseJson: string -> Option<Value>, index: nat)
    requires FormatItem(provider, call, parseJson).Failure?
    ensures var e := FormatAt(provider, call, parseJson, index);
      && e.Keys == {"id", "function", "arguments", "type", "error"}
      && e["id"] == Data(Str("error_" + NatToString(index)))
      && e["function"] == Data(Str("unknown")) && e["arguments"] == EmptyDict
      && e["error"] == Data(Str(FormatItem(provider, call, parseJson).error))
  {
  }

  /** Fallback ids tell the failing calls of one batch apart. */
  lemma FallbackIdsDistinct(i: nat, j: nat, m1: string, m2: string)
    requires i != j
    ensures Fallback(i, m1)["id"] != Fallback(j, m2)["id"]
  {
    if Fallback(i, m1)["id"] == Fallback(j, m2)["id"] {
      var a := "error_" + NatToString(i);
      var b := "error_" + NatToString(j);
      assert a[6..] == NatToString(i) && b[6..] == NatToString(j);
      NatToStringRoundTrip(i);
      NatToStringRoundTrip(j);
      assert false;
    }
  }

  /** `openai`: `function.name` and `function.arguments`, dict or object. */
  lemma OpenAiMapping(call: PyVal, parseJson: string -> Option<Value>)
    ensures HasGet(call) && "function" in call.v.fields && call.v.fields["function"].Obj? ==>
      var f := call.v.fields["function"].fields;
      FormatItem("openai", call, parseJson)
        == Success(MakeEntry(DictGet(call.v.fields, "id", EmptyStr), DictGet(f, "name", EmptyStr), DictGet(f, "arguments", EmptyDict)))
    ensures HasAttr(call, "function") ==>
      var f := call.attrs["function"];
      FormatItem("openai", call, parseJson)
        == Success(MakeEntry(GetAttr(call, "id", EmptyStr), GetAttr(f, "name", EmptyStr), GetAttr(f, "arguments", EmptyDict)))
  {
  }

  /** `anthropic`: `name` and `input`, dict or object; never fails. */
  lemma AnthropicMapping(call: PyVal, parseJson: string -> Option<Value>)
    ensures FormatItem("anthropic", call, parseJson).Success?
    ensures HasGet(call) ==>
      (var e := FormatItem("anthropic", call, parseJson).value;
       e["function"] == DictGet(call.v.fields, "name", EmptyStr) && e["arguments"] == DictGet(call.v.fields, "input", EmptyDict))
    ensures !HasGet(call) ==>
      (var e := FormatItem("anthropic", call, parseJson).value;
       e["function"] == GetAttr(call, "name", EmptyStr) && e["arguments"] == GetAttr(call, "input", EmptyDict))
  {
  }

  /** `mistral`/`mistralai`: a dict gives `name` and `arguments`; an object's
      string arguments are decoded, invalid JSON gives `{}`, and a missing
      `arguments` attribute decodes the default `"{}"` to `{}`. */
  lemma MistralMapping(provider: string, call: PyVal, parseJson: string -> Option<Value>, s: string)
    requires provider == "mistral" || provider == "mistralai"
    ensures FormatItem(provider, call, parseJson).Success?
    ensures HasGet(call) ==>
      (var e := FormatItem(provider, call, parseJson).value;
       e["function"] == DictGet(call.v.fields, "name", EmptyStr) && e["arguments"] == DictGet(call.v.fields, "arguments", EmptyDict))
    ensures HasAttr(call, "function") && HasAttr(call.attrs["function"], "arguments")
            && call.attrs["function"].attrs["arguments"] == Data(Str(s)) ==>
      (var e := FormatItem(provider, call, parseJson).value;
       e["arguments"] == (if parseJson(s).Some? then Data(parseJson(s).value) else EmptyDict))
    ensures !HasGet(call) && HasAttr(call, "function") && !HasAttr(call.attrs["function"], "arguments")
            && parseJson("{}") == Some(Obj(map[])) ==>
      FormatItem(provider, call, parseJson).value["arguments"] == EmptyDict
  {
  }

  /** Any other provider name: `function` else `name`, `arguments` else
      `input`, and never an error. */
  lemma GenericMapping(provider: string, call: PyVal, parseJson: string -> Option<Value>)
    requires provider !in {"openai", "anthropic", "mistral", "mistralai"}
    ensures FormatItem(provider, call, parseJson).Success?
    ensures HasGet(call) ==>
      (var e := FormatItem(provider, call, parseJson).value;
       && e["function"] == DictGet(call.v.fields, "function", DictGet(call.v.fields, "name", EmptyStr))
       && e["arguments"] == DictGet(call.v.fields, "arguments", DictGet(call.v.fields, "input", EmptyDict)))
    ensures !HasGet(call) ==>
      (var e := FormatItem(provider, call, parseJson).value;
       && e["function"] == GetAttr(call, "function", GetAttr(call, "name", EmptyStr))
       && e["arguments"] == GetAttr(call, "arguments", GetAttr(call, "input", EmptyDict)))
  {
  }

  /** `json.dumps` of an entry: it fails on an SDK object anywhere in it. */
  function EntryJson(e: Entry): (r: Option<Value>)
    ensures r.Some? <==> forall k :: k in e ==> e[k].Data?
  {
    if forall k :: k in e ==> e[k].Data? then Some(Obj(map k | k in e :: e[k].v)) else None
  }

  /** A dict of JSON data always formats to a JSON-serialisable entry. */
  lemma DictCallsSerialise(provider: string, call: PyVal, parseJson: string -> Option<Value>, index: nat)
    requires HasGet(call)
    ensures EntryJson(FormatAt(provider, call, parseJson, index)).Some?
  {
  }
}
