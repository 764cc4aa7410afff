/** The tool-hosting side: `ToolKitClient` keeps the tools a process exposes,
    the single-use exchange tokens the server hands out at registration, and
    answers tool requests that arrive over the socket or from the inbox. */
module ToolkitClient {

  import opened Wrappers
  import opened JsonValue
  import opened Text
  import OrderedDict

  type Params = map<string, Value>

  /** What calling a Python function produced: a value or an exception text. */
  datatype ToolOutcome = Returned(value: Value) | Raised(message: string)

  /** A user tool function, as far as calling it by keyword goes: the names it
      declares, those of them without a default, whether it takes `**kwargs`,
      and what its body does with the arguments it is bound to. */
  datatype ToolFunction = ToolFunction(
    parameters: set<string>,
    required: set<string>,
    hasVarKeywords: bool,
    body: Params -> ToolOutcome)

  predicate DeclaresAuthToken(f: ToolFunction) {
    "auth_token" in f.parameters
  }

  /** `f(**kwargs)`: binding rejects an unexpected keyword, then a missing
      required parameter, with a TypeError; otherwise the body runs. */
  function Call(f: ToolFunction, kwargs: Params): (r: ToolOutcome)
    ensures !f.hasVarKeywords && !(kwargs.Keys <= f.parameters) ==> r.Raised?
    ensures !(f.required <= kwargs.Keys) ==> r.Raised?
  {
    if !f.hasVarKeywords && !(kwargs.Keys <= f.parameters) then Raised("got an unexpected keyword argument")
    else if !(f.required <= kwargs.Keys) then Raised("missing a required argument")
    else f.body(kwargs)
  }

  /** The value sent back for an outcome: the result, or `{"error": str(e)}`. */
  function ResultValue(o: ToolOutcome): Value {
    match o
    case Returned(v) => v
    case Raised(m) => ErrorObj(m)
  }

  /** A `registered_tools` entry. */
  datatype Tool = Tool(
    func: ToolFunction,
    params: seq<string>,
    requiredParams: seq<string>,
    description: string,
    authProvider: Option<string>,
    authType: Option<string>,
    authWith: Option<string>,
    sourceCode: string,
    codeHash: string,
    functionId: string)

  type Registry = OrderedDict.Dict<Tool>

  // ---------------------------------------------------------------- sample

  /** The sample keyword arguments used to invoke a tool at registration. */
  function SampleParams(paramDefs: seq<string>): Params {
    map k | k in {"auth_token"} + (set p | p in paramDefs) ::
      if k in paramDefs then Str("sample_value") else Str("sample_token")
  }

  /** `_generate_sample_params`: a dummy `auth_token`, then every declared
      parameter set to "sample_value" (a parameter named `auth_token`
      overwrites the dummy). */
  method GenerateSampleParams(paramDefs: seq<string>) returns (sample: Params)
    ensures sample == SampleParams(paramDefs)
  {
    sample := map["auth_token" := Str("sample_token")];
    var i := 0;
    while i < |paramDefs|
      invariant 0 <= i <= |paramDefs|
      invariant sample.Keys == {"auth_token"} + (set p | p in paramDefs[..i])
      invariant forall k :: k in sample ==> sample[k] == (if k in paramDefs[..i] then Str("sample_value") else Str("sample_token"))
    {
      assert paramDefs[..i + 1] == paramDefs[..i] + [paramDefs[i]];
      sample := sample[paramDefs[i] := Str("sample_value")];
      i := i + 1;
    }
    assert paramDefs[..i] == paramDefs;
  }

  /** Every declared parameter gets a sample value, and an `auth_token` is
      always present. */
  lemma SampleParamsShape(paramDefs: seq<string>)
    ensures SampleParams(paramDefs).Keys == {"auth_token"} + (set p | p in paramDefs)
    ensures forall p :: p in paramDefs ==> SampleParams(paramDefs)[p] == Str("sample_value")
    ensures "auth_token" !in paramDefs ==> SampleParams(paramDefs)["auth_token"] == Str("sample_token")
  {
  }

  /** The arguments of the sample invocation in `_register_with_server`: a
      function declaring `auth_token` gets the dummy token back. */
  function SampleCallParams(t: Tool): Params {
    var s := SampleParams(t.params);
    if DeclaresAuthToken(t.func) then s["auth_token" := Str("sample_token")] else s
  }

  /** The `sample_response` sent at registration. */
  function SampleResponse(t: Tool): Value {
    match Call(t.func, SampleCallParams(t))
    case Returned(v) => v
    case Raised(_) => ErrorObj("Sample response unavailable")
  }

  /** Because the dummy `auth_token` is always passed, a tool that declares
      neither `auth_token` nor `**kwargs` never produces a real sample. */
  lemma SampleUnavailableWithoutAuthParameter(t: Tool)
    requires !DeclaresAuthToken(t.func) && !t.func.hasVarKeywords
    ensures SampleResponse(t) == ErrorObj("Sample response unavailable")
  {
    assert "auth_token" in SampleCallParams(t).Keys;
  }

  // ---------------------------------------------------------- registration

  function RegisterUrl(baseUrl: string): string {
    baseUrl + "/api/v1/register_tool"
  }

  /** The body posted to the registration endpoint. */
  function RegistrationPayload(apiKey: string, appName: string, name: string, t: Tool): (r: Value)
    ensures r.Obj? && "function_id" in r.fields && "code_hash" in r.fields
    ensures r.fields["function_id"] == Str(name) && r.fields["code_hash"] == Str(t.codeHash)
  {
    Obj(map[
      "function_id" := Str(name),
      "api_key" := Str(apiKey),
      "app_name" := Str(appName),
      "programming_language" := Str("Python"),
      "code_hash" := Str(t.codeHash),
      "metadata" := Obj(map[
        "params" := StrList(t.params),
        "required_params" := StrList(t.requiredParams),
        "description" := Str(t.description),
        "auth_provider" := OptStr(t.authProvider),
        "auth_type" := OptStr(t.authType),
        "auth_with" := OptStr(t.authWith),
        "sample_response" := SampleResponse(t),
        "source_code" := Str(t.sourceCode)])])
  }

  /** The server's answer to a registration post: a status with the decoded
      JSON body (`None` when it is not JSON), or a connection failure. */
  datatype HttpReply = Reply(status: int, json: Option<Value>) | ConnectionError(message: string)

  /** A 200 reply whose body is a dict: the registration was accepted. */
  predicate Accepted(reply: HttpReply) {
    reply.Reply? && reply.status == 200 && reply.json.Some? && reply.json.value.Obj?
  }

  /** The exception `_register_with_server` lets escape, if any: the post
      itself failing, or a 200 reply whose body is not a JSON dict. */
  function RegistrationError(reply: HttpReply): (r: Option<string>)
    ensures r.Some? ==> !Accepted(reply)
    ensures reply.Reply? && reply.status != 200 ==> r.None?
  {
    match reply
    case ConnectionError(m) => Some(m)
    case Reply(status, json) =>
      if status != 200 then None
      else if json.None? then Some("Expecting value")
      else if !json.value.Obj? then Some("'" + TypeName(json.value) + "' object has no attribute 'get'")
      else None
  }

  /** The token map after one registration reply: only an accepted reply
      stores `exchange_token` (None when the body has none). */
  function StoreToken(tokens: map<string, Value>, name: string, reply: HttpReply): (r: map<string, Value>)
    ensures Accepted(reply) ==> r == tokens[name := GetOr(reply.json.value.fields, "exchange_token", Null)]
    ensures !Accepted(reply) ==> r == tokens
  {
    if Accepted(reply) then tokens[name := GetOr(reply.json.value.fields, "exchange_token", Null)] else tokens
  }

  /** Registering the tools named by `names` one after another, as
      `_re_register_tools` does, stopping at the first escaping exception. */
  function RegisterAll(tokens: map<string, Value>, names: seq<string>, replies: seq<HttpReply>): (map<string, Value>, Option<string>)
    requires |names| == |replies|
    decreases |names|
  {
    if names == [] then (tokens, None)
    else
      var t := StoreToken(tokens, names[0], replies[0]);
      if RegistrationError(replies[0]).Some? then (t, RegistrationError(replies[0]))
      else RegisterAll(t, names[1..], replies[1..])
  }

  /** One step of `RegisterAll` over the suffix starting at `i`. */
  lemma RegisterAllStep(tokens: map<string, Value>, names: seq<string>, replies: seq<HttpReply>, i: nat)
    requires |names| == |replies| && i < |names|
    ensures var t := StoreToken(tokens, names[i], replies[i]);
      RegisterAll(tokens, names[i..], replies[i..])
        == if RegistrationError(replies[i]).Some? then (t, RegistrationError(replies[i]))
           else RegisterAll(t, names[i + 1..], replies[i + 1..])
  {
    assert names[i..][0] == names[i] && replies[i..][0] == replies[i];
    assert names[i..][1..] == names[i + 1..] && replies[i..][1..] == replies[i + 1..];
  }

  /** After re-registration every token comes from the tokens it started
      with or from an accepted reply for that name. */
  lemma {:induction false} RegisterAllTokensFromAccepted(tokens: map<string, Value>, names: seq<string>, replies: seq<HttpReply>, k: string)
    requires |names| == |replies|
    requires k in RegisterAll(tokens, names, replies).0
    ensures k in tokens || exists j :: 0 <= j < |names| && names[j] == k && Accepted(replies[j])
    decreases |names|
  {
    if names != [] {
      var t := StoreToken(tokens, names[0], replies[0]);
      if RegistrationError(replies[0]).None? {
        RegisterAllTokensFromAccepted(t, names[1..], replies[1..], k);
        if !(k in t) {
          var j :| 0 <= j < |names[1..]| && names[1..][j] == k && Accepted(replies[1..][j]);
          assert names[j + 1] == k && Accepted(replies[j + 1]);
        }
      }
      if k in t && k !in tokens {
        assert names[0] == k && Accepted(replies[0]);
      }
    }
  }

  /** When nothing escapes, every name whose reply was accepted holds a token. */
  lemma {:induction false} RegisterAllStoresAccepted(tokens: map<string, Value>, names: seq<string>, replies: seq<HttpReply>, j: int)
    requires |names| == |replies| && 0 <= j < |names| && Accepted(replies[j])
    requires RegisterAll(tokens, names, replies).1.None?
    ensures names[j] in RegisterAll(tokens, names, replies).0
    decreases |names|
  {
    var t := StoreToken(tokens, names[0], replies[0]);
    if j == 0 {
      RegisterAllKeepsKeys(t, names[1..], replies[1..], names[0]);
    } else {
      RegisterAllStoresAccepted(t, names[1..], replies[1..], j - 1);
    }
  }

  /** Registration never removes a token. */
  lemma {:induction false} RegisterAllKeepsKeys(tokens: map<string, Value>, names: seq<string>, replies: seq<HttpReply>, k: string)
    requires |names| == |replies| && k in tokens
    ensures k in RegisterAll(tokens, names, replies).0
    decreases |names|
  {
    if names != [] {
      RegisterAllKeepsKeys(StoreToken(tokens, names[0], replies[0]), names[1..], replies[1..], k);
    }
  }

  /** How many registrations `_re_register_tools` attempts: every one, or
      up to and including the first whose error escapes. */
  function PostsSent(replies: seq<HttpReply>): (n: nat)
    ensures n <= |replies|
    decreases |replies|
  {
    if replies == [] then 0
    else if RegistrationError(replies[0]).Some? then 1
    else 1 + PostsSent(replies[1..])
  }

  /** The registration posts for `names`, one per name, in order. */
  function RegistrationPosts(url: string, apiKey: string, appName: string, tools: Registry, names: seq<string>): (r: seq<Outgoing>)
    requires forall j :: 0 <= j < |names| ==> names[j] in tools.entries
    ensures |r| == |names|
  {
    seq(|names|, j requires 0 <= j < |names| =>
      HttpPost(url, RegistrationPayload(apiKey, appName, names[j], tools.entries[names[j]])))
  }

  /** Post `j` of the registration posts is the registration payload of
      `names[j]`, sent to `url`. */
  lemma RegistrationPostsAt(url: string, apiKey: string, appName: string, tools: Registry, names: seq<string>, j: nat)
    requires j < |names| && forall k :: 0 <= k < |names| ==> names[k] in tools.entries
    ensures RegistrationPosts(url, apiKey, appName, tools, names)[j]
      == HttpPost(url, RegistrationPayload(apiKey, appName, names[j], tools.entries[names[j]]))
  {
  }

  /** The loop ends early exactly when some registration's error escapes:
      then the last attempted one raised it and every earlier one passed. */
  lemma {:induction false} PostsSentStopsAtError(tokens: map<string, Value>, names: seq<string>, replies: seq<HttpReply>)
    requires |names| == |replies|
    ensures RegisterAll(tokens, names, replies).1.None? <==> forall j :: 0 <= j < |replies| ==> RegistrationError(replies[j]).None?
    ensures RegisterAll(tokens, names, replies).1.None? ==> PostsSent(replies) == |replies|
    ensures forall j :: 0 <= j < PostsSent(replies) - 1 ==> RegistrationError(replies[j]).None?
    ensures RegisterAll(tokens, names, replies).1.Some? ==>
      PostsSent(replies) > 0 && RegistrationError(replies[PostsSent(replies) - 1]) == RegisterAll(tokens, names, replies).1
    decreases |names|
  {
    if names != [] && RegistrationError(replies[0]).None? {
      var t := StoreToken(tokens, names[0], replies[0]);
      var rest := replies[1..];
      PostsSentStopsAtError(t, names[1..], rest);
      assert RegisterAll(tokens, names, replies) == RegisterAll(t, names[1..], rest);
      assert PostsSent(replies) == 1 + PostsSent(rest);
      forall j | 1 <= j < |replies| ensures replies[j] == rest[j - 1] { }
      if RegisterAll(tokens, names, replies).1.Some? {
        assert replies[PostsSent(replies) - 1] == rest[PostsSent(rest) - 1];
      }
    }
  }

  /** While every reply passes, each one adds one post. */
  lemma {:induction false} PostsSentPrefix(replies: seq<HttpReply>, i: nat)
    requires i <= |replies| && forall j :: 0 <= j < i ==> RegistrationError(replies[j]).None?
    ensures PostsSent(replies) == i + PostsSent(replies[i..])
  {
    if i > 0 {
      PostsSentPrefix(replies, i - 1);
      PostsSentStep(replies, i - 1);
    }
  }

  /** `PostsSent` of the suffix starting at `i`, one reply at a time. */
  lemma PostsSentStep(replies: seq<HttpReply>, i: nat)
    requires i < |replies|
    ensures PostsSent(replies[i..])
      == if RegistrationError(replies[i]).Some? then 1 else 1 + PostsSent(replies[i + 1..])
  {
    assert replies[i..][0] == replies[i] && replies[i..][1..] == replies[i + 1..];
  }

  /** The posts for one more name are the earlier posts plus that name's,
      after whatever was sent before them. */
  lemma RegistrationPostsSnoc(sent: seq<Outgoing>, url: string, apiKey: string, appName: string, tools: Registry, names: seq<string>, i: nat)
    requires i < |names| && forall j :: 0 <= j < |names| ==> names[j] in tools.entries
    ensures sent + RegistrationPosts(url, apiKey, appName, tools, names[..i + 1])
      == sent + RegistrationPosts(url, apiKey, appName, tools, names[..i]) + RegistrationPosts(url, apiKey, appName, tools, [names[i]])
  {
    assert names[..i + 1][..i] == names[..i];
    var front := RegistrationPosts(url, apiKey, appName, tools, names[..i]);
    assert RegistrationPosts(url, apiKey, appName, tools, names[..i + 1]) == front + RegistrationPosts(url, apiKey, appName, tools, [names[i]]);
  }

  // ------------------------------------------------------------- dispatch

  /** `auth_token and ("auth_token" in sig.parameters or any VAR_KEYWORD)`. */
  predicate InjectsAuth(authToken: Value, f: ToolFunction) {
    Truthy(authToken) && (DeclaresAuthToken(f) || f.hasVarKeywords)
  }

  /** The keyword arguments a tool is called with (inbox loop). */
  function CallParams(params: Params, authToken: Value, f: ToolFunction): Params {
    if InjectsAuth(authToken, f) then params["auth_token" := authToken] else params
  }

  /** The request's parameters pass through unchanged, except that an
      injected token adds exactly the key `auth_token`. */
  lemma CallParamsAddsOnlyAuthToken(params: Params, authToken: Value, f: ToolFunction)
    ensures CallParams(params, authToken, f).Keys
         == params.Keys + (if InjectsAuth(authToken, f) then {"auth_token"} else {})
    ensures forall k :: k in params && k != "auth_token" ==> CallParams(params, authToken, f)[k] == params[k]
    ensures InjectsAuth(authToken, f) ==> CallParams(params, authToken, f)["auth_token"] == authToken
    ensures !InjectsAuth(authToken, f) ==> CallParams(params, authToken, f) == params
  {
  }

  /** Injection never makes the call fail on an unexpected keyword: the token
      goes only to a function that can take it. */
  lemma InjectionIsAccepted(params: Params, authToken: Value, f: ToolFunction)
    requires f.hasVarKeywords || params.Keys <= f.parameters
    ensures f.hasVarKeywords || CallParams(params, authToken, f).Keys <= f.parameters
  {
  }

  /** Text of the error a non-dict `params` raises (`.copy()`, item
      assignment or `**` unpacking). */
  function NotMappingMessage(params: Value): string {
    "argument after ** must be a mapping, not " + TypeName(params)
  }

  /** `{"type": "tool_response", "request_id": ..., "result": ...}` */
  function ToolResponse(requestId: Value, result: Value): Value {
    Obj(map["type" := Str("tool_response"), "request_id" := requestId, "result" := result])
  }

  /** The messages `on_message` sends for a request to a registered tool,
      following its branches: with a token, the copied params get the token
      if the function declares `auth_token`, else if it takes `**kwargs`;
      the third branch (declares `auth_token` but no token) sits inside
      `if auth_token:` and so never fires. */
  function SocketToolReplies(toolName: string, requestId: Value, params: Value, authToken: Value, f: ToolFunction): seq<Value> {
    if !params.Obj? then [ToolResponse(requestId, ErrorObj(NotMappingMessage(params)))]
    else if Truthy(authToken) then
      var p := params.fields;
      var (callParams, early) :=
        if DeclaresAuthToken(f) && Truthy(authToken) then (p["auth_token" := authToken], [])
        else if f.hasVarKeywords && Truthy(authToken) then (p["auth_token" := authToken], [])
        else if DeclaresAuthToken(f) && !Truthy(authToken) then
          (p, [ToolResponse(requestId, ErrorObj("Function '" + toolName + "' requires 'auth_token', but none was provided."))])
        else (p, []);
      early + [ToolResponse(requestId, ResultValue(Call(f, callParams)))]
    else [ToolResponse(requestId, ResultValue(Call(f, params.fields)))]
  }

  /** An inbound socket message, classified as `on_message` does. */
  datatype Inbound =
    | Malformed          // not JSON, not a dict, no message_type, or a bad payload
    | ClientConnected
    | ToolRequest(requestId: Value, toolName: Value, params: Value, authToken: Value)
    | UnknownType(messageType: Value)

  function ClassifyMessage(message: Option<Value>): (r: Inbound)
    ensures r.ToolRequest? ==>
      (message.Some? && message.value.Obj?
       && GetOr(message.value.fields, "message_type", Null) == Str("atp_tool_request"))
  {
    if message.None? || !message.value.Obj? || "message_type" !in message.value.fields then Malformed
    else
      var data := message.value.fields;
      var kind := data["message_type"];
      if kind == Str("atp_client_connected") then ClientConnected
      else if kind != Str("atp_tool_request") then UnknownType(kind)
      else if "payload" !in data || !data["payload"].Obj? then Malformed
      else
        var p := data["payload"].fields;
        ToolRequest(GetOr(p, "request_id", Null), GetOr(p, "tool_name", Null),
                    GetOr(p, "params", Obj(map[])), GetOr(p, "auth_token", Null))
  }

  /** A request names a registered tool. */
  predicate Registered(tools: Registry, toolName: Value) {
    toolName.Str? && toolName.s in tools.entries
  }

  /** Everything `on_message` sends back for one inbound message. */
  function SocketReplies(tools: Registry, message: Option<Value>): seq<Value> {
    match ClassifyMessage(message)
    case ToolRequest(requestId, toolName, params, authToken) =>
      if Registered(tools, toolName)
      then SocketToolReplies(toolName.s, requestId, params, authToken, tools.entries[toolName.s].func)
      else []
    case _ => []
  }

  /** Only a request for a registered tool is answered, and with exactly one
      reply, tagged with the request's id. */
  lemma SocketRepliesShape(tools: Registry, message: Option<Value>)
    ensures |SocketReplies(tools, message)| <= 1
    ensures SocketReplies(tools, message) != []
        <==> ClassifyMessage(message).ToolRequest? && Registered(tools, ClassifyMessage(message).toolName)
    ensures SocketReplies(tools, message) != [] ==>
      SocketReplies(tools, message)[0].Obj?
      && SocketReplies(tools, message)[0].fields.Keys == {"type", "request_id", "result"}
      && SocketReplies(tools, message)[0].fields["request_id"] == ClassifyMessage(message).requestId
  {
  }

  /** The socket path calls the tool with the same arguments as the inbox
      path, and a tool that raises is answered with `{"error": str(e)}`. */
  lemma SocketReplyResult(tools: Registry, message: Option<Value>)
    requires ClassifyMessage(message).ToolRequest?
    requires Registered(tools, ClassifyMessage(message).toolName)
    requires ClassifyMessage(message).params.Obj?
    ensures var m := ClassifyMessage(message);
      var f := tools.entries[m.toolName.s].func;
      var o := Call(f, CallParams(m.params.fields, m.authToken, f));
      && SocketReplies(tools, message) == [ToolResponse(m.requestId, ResultValue(o))]
      && (o.Raised? ==> SocketReplies(tools, message)[0].fields["result"] == ErrorObj(o.message))
  {
  }

  /** Messages of any type other than a tool request produce nothing. */
  lemma OtherMessagesIgnored(tools: Registry, message: Option<Value>)
    requires !ClassifyMessage(message).ToolRequest?
    ensures SocketReplies(tools, message) == []
  {
  }

  // ---------------------------------------------------------------- inbox

  /** `poll_inbox_for_requests`: the request, if the poll returned 200 with a
      truthy JSON body; `None` on any other status, bad JSON or an error. */
  function PolledRequest(reply: HttpReply): (r: Option<Value>)
    ensures r.Some? ==> Truthy(r.value)
  {
    if reply.Reply? && reply.status == 200 && reply.json.Some? && Truthy(reply.json.value)
    then Some(reply.json.value) else None
  }

  /** `{"request_id": ..., "response": ...}`, the inbox reply body. */
  function InboxResponse(requestId: Value, result: Value): Value {
    Obj(map["request_id" := requestId, "response" := result])
  }

  /** What the inbox loop posts for one polled request. `postFailure` is
      the error the first post to the inbox raises, if it does: when the
      tool had returned, that error is caught by the same handler as a
      tool's exception and posted in its place; a failing post of an error
      escapes to the loop, which posts nothing more. */
  function InboxResponses(tools: Registry, req: Option<Value>, postFailure: Option<string>): (r: seq<Value>)
    ensures |r| <= 2
  {
    if req.None? || !Truthy(req.value) || !req.value.Obj? then []
    else
      var q := req.value.fields;
      var toolName := GetOr(q, "tool_name", Null);
      var requestId := GetOr(q, "request_id", Null);
      var params := GetOr(q, "params", Obj(map[]));
      var authToken := GetOr(q, "auth_token", Null);
      if !Registered(tools, toolName) then []
      else if !params.Obj? then [InboxResponse(requestId, ErrorObj(NotMappingMessage(params)))]
      else
        var f := tools.entries[toolName.s].func;
        match Call(f, CallParams(params.fields, authToken, f))
        case Raised(m) => [InboxResponse(requestId, ErrorObj(m))]
        case Returned(v) =>
          [InboxResponse(requestId, v)]
            + (if postFailure.Some? then [InboxResponse(requestId, ErrorObj(postFailure.value))] else [])
  }

  /** A polled request for `toolName`. */
  function InboxRequest(requestId: Value, toolName: string, params: Params, authToken: Value): Value {
    Obj(map["request_id" := requestId, "tool_name" := Str(toolName), "params" := Obj(params), "auth_token" := authToken])
  }

  /** A result whose post fails is followed by one post of the failure,
      under the same request id; a tool that raised is posted once. */
  lemma InboxPostFailure(tools: Registry, requestId: Value, toolName: string, params: Params, authToken: Value, m: string)
    requires toolName in tools.entries
    ensures var f := tools.entries[toolName].func;
      var req := Some(InboxRequest(requestId, toolName, params, authToken));
      match Call(f, CallParams(params, authToken, f))
      case Returned(v) =>
        InboxResponses(tools, req, Some(m)) == [InboxResponse(requestId, v), InboxResponse(requestId, ErrorObj(m))]
      case Raised(e) =>
        InboxResponses(tools, req, Some(m)) == [InboxResponse(requestId, ErrorObj(e))]
  {
    assert "tool_name" in InboxRequest(requestId, toolName, params, authToken).fields;
  }

  /** The socket message carrying a polled-style request. */
  function SocketRequest(payload: Value): Option<Value> {
    Some(Obj(map["message_type" := Str("atp_tool_request"), "payload" := payload]))
  }

  /** A socket request for a registered tool is answered once, with the
      outcome of calling the tool on the request's params plus the token. */
  lemma SocketRequestAnswer(tools: Registry, requestId: Value, toolName: string, params: Params, authToken: Value)
    requires toolName in tools.entries
    ensures var f := tools.entries[toolName].func;
      SocketReplies(tools, SocketRequest(InboxRequest(requestId, toolName, params, authToken)))
        == [ToolResponse(requestId, ResultValue(Call(f, CallParams(params, authToken, f))))]
  {
    var payload := InboxRequest(requestId, toolName, params, authToken);
    assert GetOr(payload.fields, "tool_name", Null) == Str(toolName);
    assert GetOr(payload.fields, "request_id", Null) == requestId;
    assert GetOr(payload.fields, "params", Obj(map[])) == Obj(params);
    assert GetOr(payload.fields, "auth_token", Null) == authToken;
    assert ClassifyMessage(SocketRequest(payload)) == ToolRequest(requestId, Str(toolName), Obj(params), authToken);
    SocketReplyResult(tools, SocketRequest(payload));
  }

  /** The same request polled from the inbox is answered once, with the
      same outcome, when the post succeeds. */
  lemma InboxRequestAnswer(tools: Registry, requestId: Value, toolName: string, params: Params, authToken: Value)
    requires toolName in tools.entries
    ensures var f := tools.entries[toolName].func;
      InboxResponses(tools, Some(InboxRequest(requestId, toolName, params, authToken)), None)
        == [InboxResponse(requestId, ResultValue(Call(f, CallParams(params, authToken, f))))]
  {
    var payload := InboxRequest(requestId, toolName, params, authToken);
    assert GetOr(payload.fields, "tool_name", Null) == Str(toolName);
    assert GetOr(payload.fields, "request_id", Null) == requestId;
    assert GetOr(payload.fields, "params", Obj(map[])) == Obj(params);
    assert GetOr(payload.fields, "auth_token", Null) == authToken;
  }

  /** Both transports answer a request with the same result; only the
      envelope differs. */
  lemma InboxAgreesWithSocket(tools: Registry, requestId: Value, toolName: string, params: Params, authToken: Value)
    requires toolName in tools.entries
    ensures var payload := InboxRequest(requestId, toolName, params, authToken);
      && |SocketReplies(tools, SocketRequest(payload))| == 1 && |InboxResponses(tools, Some(payload), None)| == 1
      && SocketReplies(tools, SocketRequest(payload))[0].fields["result"] == InboxResponses(tools, Some(payload), None)[0].fields["response"]
      && SocketReplies(tools, SocketRequest(payload))[0].fields["request_id"] == InboxResponses(tools, Some(payload), None)[0].fields["request_id"]
  {
    SocketRequestAnswer(tools, requestId, toolName, params, authToken);
    InboxRequestAnswer(tools, requestId, toolName, params, authToken);
  }

  /** An unregistered tool name is never answered, on either transport. */
  lemma UnregisteredNotAnswered(tools: Registry, message: Option<Value>, req: Option<Value>)
    requires ClassifyMessage(message).ToolRequest? ==> !Registered(tools, ClassifyMessage(message).toolName)
    requires req.Some? && req.value.Obj? ==> !Registered(tools, GetOr(req.value.fields, "tool_name", Null))
    ensures SocketReplies(tools, message) == [] && InboxResponses(tools, req, None) == [] && InboxResponses(tools, req, Some("")) == []
  {
  }

  // ----------------------------------------------------------------- idle

  /** `time.time() - self.last_activity_time > self.idle_timeout`: strictly more. */
  predicate Idle(now: int, lastActivity: int, idleTimeout: int) {
    now - lastActivity > idleTimeout
  }

  /** Once idle, the client stays idle while no message arrives; exactly
      `idle_timeout` of silence is not yet idle. */
  lemma IdleProperties(now: int, later: int, lastActivity: int, idleTimeout: int)
    requires now <= later
    ensures Idle(now, lastActivity, idleTimeout) ==> Idle(later, lastActivity, idleTimeout)
    ensures !Idle(lastActivity + idleTimeout, lastActivity, idleTimeout)
    ensures Idle(lastActivity + 2, lastActivity, 1)
  {
  }

  /** Which loop `start` runs: the inbox poller when `protocol` starts with
      "http" (case-sensitive), the socket loop otherwise. */
  function UsesInbox(protocol: string): (r: bool)
    ensures r <==> StartsWith(protocol, "http")
  {
    StartsWith(protocol, "http")
  }

  /** The socket URL of `_run_ws_loop`; `None` where the source leaves
      `ws_url` unbound (a base URL with neither http scheme). */
  function ToolkitSocketUrl(baseUrl: string, apiKey: string): (r: Option<string>)
    ensures r.Some? <==> StartsWith(baseUrl, "https://") || StartsWith(baseUrl, "http://")
    ensures r.Some? ==> StartsWith(r.value, "wss://") || StartsWith(r.value, "ws://")
  {
    match SocketBase(baseUrl)
    case None => None
    case Some(u) => Some(u + "/ws/v1/atp/toolkit-client/" + apiKey + "/")
  }

  // ---------------------------------------------------------------- client

  /** Something the client sent: a socket message or an HTTP post. */
  datatype Outgoing = SocketSend(body: Value) | HttpPost(url: string, body: Value)

  function SocketSends(bodies: seq<Value>): (r: seq<Outgoing>)
    ensures |r| == |bodies| && forall i :: 0 <= i < |bodies| ==> r[i] == SocketSend(bodies[i])
  {
    seq(|bodies|, i requires 0 <= i < |bodies| => SocketSend(bodies[i]))
  }

  function InboxPosts(url: string, bodies: seq<Value>): (r: seq<Outgoing>)
    ensures |r| == |bodies| && forall i :: 0 <= i < |bodies| ==> r[i] == HttpPost(url, bodies[i])
  {
    seq(|bodies|, i requires 0 <= i < |bodies| => HttpPost(url, bodies[i]))
  }

  function ReportPayload(token: Value, result: Value, functionId: string): Value {
    Obj(map["exchange_token" := token, "result" := result, "function_id" := Str(functionId)])
  }

  class ToolKitClient {
    const apiKey: string
    const appName: string
    const baseUrl: string
    const protocol: string
    const idleTimeout: int
    var lastActivityTime: int
    var registeredTools: Registry
    var exchangeTokens: map<string, Value>
    /** Every message sent and every request posted, oldest first. */
    var outbox: seq<Outgoing>

    ghost predicate Valid()
      reads this`registeredTools
    {
      registeredTools.Valid()
    }

    /** `ToolKitClient(api_key, app_name, base_url, protocol, idle_timeout)`;
        the current time is passed in. */
    constructor(apiKey: string, appName: string, baseUrl: string, protocol: string, idleTimeout: int, now: int)
      ensures Valid()
      ensures this.apiKey == apiKey && this.appName == appName && this.baseUrl == RStripSlash(baseUrl)
      ensures this.protocol == protocol && this.idleTimeout == idleTimeout && lastActivityTime == now
      ensures registeredTools == OrderedDict.Empty() && exchangeTokens == map[] && outbox == []
    {
      this.apiKey := apiKey;
      this.appName := appName;
      this.baseUrl := RStripSlash(baseUrl);
      this.protocol := protocol;
      this.idleTimeout := idleTimeout;
      lastActivityTime := now;
      registeredTools := OrderedDict.Empty();
      exchangeTokens := map[];
      outbox := [];
    }

    /** `register_tool(...)(func)`: store the metadata (replacing any tool of
        that name), then register it with the server. */
    method RegisterTool(name: string, func: ToolFunction, params: seq<string>, requiredParams: seq<string>,
                        description: string, authProvider: Option<string>, authType: Option<string>,
                        authWith: Option<string>, sourceCode: string, codeHash: string, reply: HttpReply)
      returns (error: Option<string>)
      requires Valid()
      modifies this`registeredTools, this`exchangeTokens, this`outbox
      ensures Valid()
      ensures var t := Tool(func, params, requiredParams, description, authProvider, authType, authWith, sourceCode, codeHash, name);
        && registeredTools == OrderedDict.Put(old(registeredTools), name, t)
        && exchangeTokens == StoreToken(old(exchangeTokens), name, reply)
        && outbox == old(outbox) + [HttpPost(RegisterUrl(baseUrl), RegistrationPayload(apiKey, appName, name, t))]
      ensures error == RegistrationError(reply)
    {
      var t := Tool(func, params, requiredParams, description, authProvider, authType, authWith, sourceCode, codeHash, name);
      registeredTools := OrderedDict.Put(registeredTools, name, t);
      error := RegisterWithServer(name, reply);
    }

    /** `_register_with_server(function_name)`: post the metadata with a
        sample response (the one registration post of `name`, see
        `RegistrationPostsAt`); an accepted reply stores the exchange token. */
    method RegisterWithServer(name: string, reply: HttpReply) returns (error: Option<string>)
      requires name in registeredTools.entries
      modifies this`exchangeTokens, this`outbox
      ensures exchangeTokens == StoreToken(old(exchangeTokens), name, reply)
      ensures outbox == old(outbox) + RegistrationPosts(RegisterUrl(baseUrl), apiKey, appName, registeredTools, [name])
      ensures error == RegistrationError(reply)
    {
      var t := registeredTools.entries[name];
      var sample := GenerateSampleParams(t.params);
      if DeclaresAuthToken(t.func) {
        sample := sample["auth_token" := Str("sample_token")];
      }
      assert sample == SampleCallParams(t);
      outbox := outbox + [HttpPost(RegisterUrl(baseUrl), RegistrationPayload(apiKey, appName, name, t))];
      assert [HttpPost(RegisterUrl(baseUrl), RegistrationPayload(apiKey, appName, name, t))]
        == RegistrationPosts(RegisterUrl(baseUrl), apiKey, appName, registeredTools, [name]);
      error := RegistrationError(reply);
      if error.None? && reply.status == 200 {
        exchangeTokens := exchangeTokens[name := GetOr(reply.json.value.fields, "exchange_token", Null)];
      }
    }

    /** `_re_register_tools`: drop every token, then register each tool in
        registration order; an escaping exception ends the loop. */
    method ReRegisterTools(replies: seq<HttpReply>) returns (error: Option<string>)
      requires |replies| == |registeredTools.keys|
      requires forall j :: 0 <= j < |registeredTools.keys| ==> registeredTools.keys[j] in registeredTools.entries
      modifies this`exchangeTokens, this`outbox
      ensures (exchangeTokens, error) == RegisterAll(map[], registeredTools.keys, replies)
      ensures outbox == old(outbox)
        + RegistrationPosts(RegisterUrl(baseUrl), apiKey, appName, registeredTools, registeredTools.keys[..PostsSent(replies)])
    {
      exchangeTokens := map[];
      var tools, url := registeredTools, RegisterUrl(baseUrl);
      var names := tools.keys;
      assert forall j :: 0 <= j < |names| ==> names[j] in tools.entries;
      var i := 0;
      error := None;
      while i < |names|
        invariant 0 <= i <= |names| && registeredTools == tools
        invariant RegisterAll(map[], names, replies) == RegisterAll(exchangeTokens, names[i..], replies[i..])
        invariant forall j :: 0 <= j < i ==> RegistrationError(replies[j]).None?
        invariant outbox == old(outbox) + RegistrationPosts(url, apiKey, appName, tools, names[..i])
        invariant error.None?
      {
        ghost var tokens := exchangeTokens;
        error := RegisterWithServer(names[i], replies[i]);
        RegisterAllStep(tokens, names, replies, i);
        RegistrationPostsSnoc(old(outbox), url, apiKey, appName, tools, names, i);
        if error.Some? {
          PostsSentPrefix(replies, i);
          PostsSentStep(replies, i);
          return;
        }
        i := i + 1;
      }
      assert names[i..] == [] && replies[i..] == [] && names[..i] == names;
      PostsSentPrefix(replies, i);
    }

    /** `_report_execution(function_id, result)`: the tool's token is popped,
        and the result is reported only if the token was there and truthy. */
    method ReportExecution(functionId: string, result: Value) returns (reported: bool)
      modifies this`exchangeTokens, this`outbox
      ensures exchangeTokens == old(exchangeTokens) - {functionId}
      ensures reported <==> functionId in old(exchangeTokens) && Truthy(old(exchangeTokens)[functionId])
      ensures reported ==> outbox == old(outbox) + [HttpPost(baseUrl + "/api/v1/execute_function",
                                                              ReportPayload(old(exchangeTokens)[functionId], result, functionId))]
      ensures !reported ==> outbox == old(outbox)
    {
      var token := GetOr(exchangeTokens, functionId, Null);
      exchangeTokens := exchangeTokens - {functionId};
      if !Truthy(token) {
        return false;
      }
      outbox := outbox + [HttpPost(baseUrl + "/api/v1/execute_function", ReportPayload(token, result, functionId))];
      reported := true;
    }

    /** `on_message(ws, message)` with the message already JSON-decoded
        (`None` when it was not JSON). */
    method OnMessage(now: int, message: Option<Value>)
      modifies this`lastActivityTime, this`outbox
      ensures lastActivityTime == now
      ensures outbox == old(outbox) + SocketSends(SocketReplies(registeredTools, message))
    {
      lastActivityTime := now;
      outbox := outbox + SocketSends(SocketReplies(registeredTools, message));
    }

    /** One round of `_poll_inbox_loop` on what the poll returned. */
    method ProcessInboxRequest(polled: HttpReply, postFailure: Option<string>)
      modifies this`outbox
      ensures outbox == old(outbox)
        + InboxPosts(baseUrl + "/api/v1/toolkit/" + apiKey + "/inbox/respond", InboxResponses(registeredTools, PolledRequest(polled), postFailure))
    {
      var req := PolledRequest(polled);
      outbox := outbox + InboxPosts(baseUrl + "/api/v1/toolkit/" + apiKey + "/inbox/respond", InboxResponses(registeredTools, req, postFailure));
    }

    /** The idle watcher's test. */
    predicate IsIdle(now: int)
      reads this
    {
      Idle(now, lastActivityTime, idleTimeout)
    }
  }

  /** A report consumes the token: a second report of the same tool, with no
      registration in between, sends nothing. */
  method ReportTwice(c: ToolKitClient, functionId: string, r1: Value, r2: Value) returns (first: bool, second: bool)
    modifies c
    ensures !second && functionId !in c.exchangeTokens
    ensures |c.outbox| <= |old(c.outbox)| + 1
  {
    first := c.ReportExecution(functionId, r1);
    second := c.ReportExecution(functionId, r2);
  }
}
