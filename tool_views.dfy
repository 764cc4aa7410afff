/** The Django integration's views: tool metadata lookup, tool invocation
    and the toolkit listing, as functions of the client the registry
    returned for the toolkit name. */
module ToolViews {

  import opened Wrappers
  import opened JsonValue
  import OrderedDict
  import opened ToolkitClient

  /** What the views read of a `ToolKitClient`: its tools, in registration
      order, and its `app_name` attribute if it has one. */
  datatype ClientView = ClientView(registeredTools: Registry, appName: Option<string>)

  datatype JsonResponse = JsonResponse(status: int, body: Value)

  const ContextKeys := {"function", "params", "required_params", "description", "auth_provider", "auth_type", "auth_with"}

  /** The public metadata of a tool. */
  function ToolContext(name: string, t: Tool): (r: Value)
    ensures r.Obj? && r.fields.Keys == ContextKeys
    ensures r.fields["function"] == Str(name)
  {
    Obj(map[
      "function" := Str(name),
      "params" := StrList(t.params),
      "required_params" := StrList(t.requiredParams),
      "description" := Str(t.description),
      "auth_provider" := OptStr(t.authProvider),
      "auth_type" := OptStr(t.authType),
      "auth_with" := OptStr(t.authWith)])
  }

  /** `get_tool_context(client, tool_name)`: `None` for an unknown tool
      (a registered tool's metadata dict is never empty). */
  function GetToolContext(client: ClientView, toolName: string): (r: Option<Value>)
    ensures r.None? <==> toolName !in client.registeredTools.entries
    ensures r.Some? ==> r.value.Obj? && r.value.fields.Keys == ContextKeys && r.value.fields["function"] == Str(toolName)
  {
    if toolName in client.registeredTools.entries
    then Some(ToolContext(toolName, client.registeredTools.entries[toolName]))
    else None
  }

  /** The context exposes what was registered and nothing of the function
      object or its source. */
  lemma ContextShowsRegisteredMetadata(client: ClientView, toolName: string)
    requires toolName in client.registeredTools.entries
    ensures var t := client.registeredTools.entries[toolName];
      var c := GetToolContext(client, toolName).value.fields;
      && c["params"] == StrList(t.params) && c["required_params"] == StrList(t.requiredParams)
      && c["description"] == Str(t.description) && c["auth_provider"] == OptStr(t.authProvider)
      && c["auth_type"] == OptStr(t.authType) && c["auth_with"] == OptStr(t.authWith)
      && "source_code" !in c && "code_hash" !in c
  {
  }

  function NotFound(what: string): JsonResponse {
    JsonResponse(404, ErrorObj(what + " not found"))
  }

  /** `ToolView.get`: the toolkit is checked before the tool. */
  function ToolViewGet(client: Option<ClientView>, toolName: string): (r: JsonResponse)
    ensures client.None? ==> r == NotFound("Toolkit")
    ensures client.Some? && toolName !in client.value.registeredTools.entries ==> r == NotFound("Tool")
    ensures client.Some? && toolName in client.value.registeredTools.entries ==>
      r == JsonResponse(200, GetToolContext(client.value, toolName).value)
  {
    match client
    case None => NotFound("Toolkit")
    case Some(c) =>
      match GetToolContext(c, toolName)
      case None => NotFound("Tool")
      case Some(ctx) => JsonResponse(200, ctx)
  }

  /** `ToolView.post`; `body` is the decoded request parameters, or the
      text of the error decoding them raised. */
  function ToolViewPost(client: Option<ClientView>, toolName: string, body: Result<Value, string>): (r: JsonResponse)
    ensures client.None? ==> r == NotFound("Toolkit")
    ensures client.Some? && toolName !in client.value.registeredTools.entries ==> r == NotFound("Tool")
    ensures client.Some? && toolName in client.value.registeredTools.entries && body.Failure? ==>
      r == JsonResponse(400, ErrorObj(body.error))
    ensures client.Some? && toolName in client.value.registeredTools.entries && body.Success? && !body.value.Obj? ==>
      r == JsonResponse(400, ErrorObj(NotMappingMessage(body.value)))
    ensures r.status == 200 || r.status == 400 || r.status == 404
  {
    match client
    case None => NotFound("Toolkit")
    case Some(c) =>
      if toolName !in c.registeredTools.entries then NotFound("Tool")
      else match body
        case Failure(m) => JsonResponse(400, ErrorObj(m))
        case Success(params) =>
          if !params.Obj? then JsonResponse(400, ErrorObj(NotMappingMessage(params)))
          else match Call(c.registeredTools.entries[toolName].func, params.fields)
            case Returned(v) => JsonResponse(200, Obj(map["result" := v]))
            case Raised(m) => JsonResponse(400, ErrorObj(m))
  }

  /** A tool that returns gives 200 `{"result": r}`; one that raises gives
      400 `{"error": str(e)}`. */
  lemma PostOutcome(c: ClientView, toolName: string, params: Params)
    requires toolName in c.registeredTools.entries
    ensures var o := Call(c.registeredTools.entries[toolName].func, params);
      && (o.Returned? ==> ToolViewPost(Some(c), toolName, Success(Obj(params))) == JsonResponse(200, Obj(map["result" := o.value])))
      && (o.Raised? ==> ToolViewPost(Some(c), toolName, Success(Obj(params))) == JsonResponse(400, ErrorObj(o.message)))
  {
  }

  /** The `tools` list: one context per registered tool, in order. */
  function ToolList(tools: Registry): (r: seq<Value>)
    requires tools.Valid()
    ensures |r| == |tools.keys|
  {
    seq(|tools.keys|, i requires 0 <= i < |tools.keys| && tools.Valid() => ToolContext(tools.keys[i], tools.entries[tools.keys[i]]))
  }

  /** `ToolkitView.get`; `app_name` falls back to the toolkit name when the
      client has no such attribute. */
  function ToolkitViewGet(client: Option<ClientView>, toolkitName: string): (r: JsonResponse)
    requires client.Some? ==> client.value.registeredTools.Valid()
    ensures client.None? <==> r == NotFound("Toolkit")
    ensures client.Some? ==> r.status == 200 && r.body.Obj? && r.body.fields.Keys == {"toolkit", "app_name", "tools"}
    ensures client.Some? ==> r.body.fields["toolkit"] == Str(toolkitName)
    ensures client.Some? ==>
      r.body.fields["app_name"] == Str(if client.value.appName.Some? then client.value.appName.value else toolkitName)
  {
    match client
    case None => NotFound("Toolkit")
    case Some(c) =>
      JsonResponse(200, Obj(map[
        "toolkit" := Str(toolkitName),
        "app_name" := Str(if c.appName.Some? then c.appName.value else toolkitName),
        "tools" := Arr(ToolList(c.registeredTools))]))
  }

  /** The listing holds exactly one entry per registered tool, in
      registration order, each the same as that tool's context. */
  lemma ListingMatchesContexts(c: ClientView, toolkitName: string)
    requires c.registeredTools.Valid()
    ensures var body := ToolkitViewGet(Some(c), toolkitName).body.fields;
      && body["tools"].Arr? && |body["tools"].items| == |c.registeredTools.entries|
      && (forall i :: 0 <= i < |c.registeredTools.keys| ==>
            Some(body["tools"].items[i]) == GetToolContext(c, c.registeredTools.keys[i]))
      && (c.appName.None? ==> body["app_name"] == Str(toolkitName))
  {
    OrderedDict.KeysCount(c.registeredTools);
  }
}
