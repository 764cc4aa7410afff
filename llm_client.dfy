/** The agent side: `LLMClient` fetches toolkit context from the agent
    server and has it execute the tool calls an LLM produced, over a socket
    (matching replies to requests through `response_data`) or over HTTP. */
module LlmClient {

  import opened Wrappers
  import opened JsonValue
  import opened Text
  import opened ToolCallFormat

  // -------------------------------------------------------- configuration

  predicate IsSocketProtocol(p: string) { p == "ws" || p == "wss" }
  predicate IsHttpProtocol(p: string) { p == "http" || p == "https" }

  /** What `__init__` settles on: the normalised protocol and base URL and
      the endpoint of the chosen transport. */
  datatype Settings = Settings(
    apiKey: string,
    protocol: string,
    baseUrl: string,
    wsUrl: Option<string>,
    httpUrl: Option<string>)

  const UnsupportedProtocol := "Unsupported protocol. Use 'ws', 'wss', 'http', or 'https'."
  const InvalidSocketUrl := "Invalid base URL for WebSocket."

  /** `LLMClient.__init__` up to the connection: lower-case the protocol,
      strip trailing slashes from the base URL, then build the socket URL
      (`https://` → `wss://`, `http://` → `ws://`, with `str.replace`
      rewriting every occurrence) or the HTTP endpoint; anything else is a
      ValueError. */
  function Configure(apiKey: string, protocol: string, baseUrl: string): (r: Result<Settings, string>)
    ensures var p := AsciiLower(protocol);
      r.Success? <==> (IsSocketProtocol(p) && SocketBase(RStripSlash(baseUrl)).Some?) || IsHttpProtocol(p)
    ensures var p := AsciiLower(protocol);
      !IsSocketProtocol(p) && !IsHttpProtocol(p) ==> r == Failure(UnsupportedProtocol)
    ensures var p := AsciiLower(protocol);
      IsSocketProtocol(p) && SocketBase(RStripSlash(baseUrl)).None? ==> r == Failure(InvalidSocketUrl)
    ensures r.Success? ==>
      (r.value.apiKey == apiKey && r.value.protocol == AsciiLower(protocol) && r.value.baseUrl == RStripSlash(baseUrl))
    ensures r.Success? && IsSocketProtocol(r.value.protocol) ==>
      r.value.wsUrl == Some(SocketBase(RStripSlash(baseUrl)).value + "/" + apiKey + "/") && r.value.httpUrl.None?
    ensures r.Success? && IsHttpProtocol(r.value.protocol) ==>
      r.value.httpUrl == Some(RStripSlash(baseUrl) + "/api/v1/atp/llm-client/") && r.value.wsUrl.None?
  {
    var p := AsciiLower(protocol);
    var base := RStripSlash(baseUrl);
    if IsSocketProtocol(p) then
      match SocketBase(base)
      case None => Failure(InvalidSocketUrl)
      case Some(u) => Success(Settings(apiKey, p, base, Some(u + "/" + apiKey + "/"), None))
    else if IsHttpProtocol(p) then Success(Settings(apiKey, p, base, None, Some(base + "/api/v1/atp/llm-client/")))
    else Failure(UnsupportedProtocol)
  }

  lemma {:induction false} RStripSlashIdempotent(s: string)
    ensures RStripSlash(RStripSlash(s)) == RStripSlash(s)
    decreases |s|
  {
    if s != [] && s[|s| - 1] == '/' {
      RStripSlashIdempotent(s[..|s| - 1]);
    }
  }

  /** Configuring is insensitive to the protocol's case and to trailing
      slashes on the base URL, and configuring again from the settings it
      produced gives the same settings. */
  lemma ConfigureNormalises(apiKey: string, protocol: string, baseUrl: string)
    ensures Configure(apiKey, AsciiLower(protocol), baseUrl) == Configure(apiKey, protocol, baseUrl)
    ensures Configure(apiKey, protocol, RStripSlash(baseUrl)) == Configure(apiKey, protocol, baseUrl)
    ensures Configure(apiKey, protocol, baseUrl).Success? ==>
      var s := Configure(apiKey, protocol, baseUrl).value;
      Configure(apiKey, s.protocol, s.baseUrl) == Configure(apiKey, protocol, baseUrl)
  {
    AsciiLowerIdempotent(protocol);
    RStripSlashIdempotent(baseUrl);
  }

  // ------------------------------------------------ socket session state

  /** What the receive thread delivers: a message (JSON-decoded, `None`
      when it is not JSON) with its arrival time, an error or a close. */
  datatype Event = Message(at: int, data: Option<Value>) | SocketError | SocketClosed

  /** The mutable part of an `LLMClient` on a socket: whether `ws` is set
      with a connected socket, the `authenticated` flag, the
      `response_data` table, the last activity time and what was sent. */
  datatype Session = Session(
    connected: bool,
    authenticated: bool,
    responseData: map<Value, Value>,
    lastActivity: int,
    sent: seq<Value>)

  /** Python refuses lists and dicts as dict keys. */
  predicate Hashable(v: Value) {
    !v.Arr? && !v.Obj?
  }

  function MessageType(e: Event): Value
    requires e.Message? && e.data.Some? && e.data.value.Obj?
  {
    GetOr(e.data.value.fields, "type", Null)
  }

  predicate IsDictMessage(e: Event) {
    e.Message? && e.data.Some? && e.data.value.Obj?
  }

  /** An `auth_response` whose `success` is truthy. */
  predicate AuthSuccess(e: Event) {
    IsDictMessage(e) && MessageType(e) == Str("auth_response") && Truthy(GetOr(e.data.value.fields, "success", Null))
  }

  /** An event that ends the connection: an error, a close, or a failed
      `auth_response` (the client closes the socket). */
  predicate Closes(e: Event) {
    e.SocketError? || e.SocketClosed?
    || (IsDictMessage(e) && MessageType(e) == Str("auth_response") && !Truthy(GetOr(e.data.value.fields, "success", Null)))
  }

  /** The `response_data` key a reply is stored under, if it is one. */
  function StoredKey(e: Event): Option<Value> {
    if IsDictMessage(e) && (MessageType(e) == Str("toolkit_context") || MessageType(e) == Str("task_response"))
       && Hashable(GetOr(e.data.value.fields, "request_id", Null))
    then Some(GetOr(e.data.value.fields, "request_id", Null))
    else None
  }

  /** What a stored reply carries: its `payload`, or `{}`. */
  function Payload(e: Event): Value
    requires IsDictMessage(e)
  {
    GetOr(e.data.value.fields, "payload", Obj(map[]))
  }

  /** `_on_message`, `_on_error` and `_on_close` on the session. */
  function Receive(s: Session, e: Event): Session {
    match e
    case SocketError => s.(connected := false, authenticated := false)
    case SocketClosed => s.(connected := false, authenticated := false)
    case Message(at, data) =>
      var s1 := s.(lastActivity := at);
      if !IsDictMessage(e) then s1
      else if MessageType(e) == Str("auth_response") then
        if Truthy(GetOr(data.value.fields, "success", Null)) then s1.(authenticated := true)
        else s1.(connected := false, authenticated := false)
      else if StoredKey(e).Some? then s1.(responseData := s1.responseData[StoredKey(e).value := Payload(e)])
      else s1
  }

  /** Only `toolkit_context` and `task_response` replies write the table,
      and they store their payload (or `{}`) under their `request_id`. */
  lemma ReceiveTable(s: Session, e: Event)
    ensures StoredKey(e).Some? ==> Receive(s, e).responseData == s.responseData[StoredKey(e).value := Payload(e)]
    ensures StoredKey(e).None? ==> Receive(s, e).responseData == s.responseData
    ensures Receive(s, e).sent == s.sent
  {
  }

  /** A successful `auth_response` sets `authenticated`; an error, a close or
      a failed `auth_response` clears it and the connection; nothing else
      touches either. */
  lemma ReceiveAuthentication(s: Session, e: Event)
    ensures Receive(s, e).authenticated <==> AuthSuccess(e) || (s.authenticated && !Closes(e))
    ensures Receive(s, e).connected <==> s.connected && !Closes(e)
  {
  }

  function ReceiveAll(s: Session, es: seq<Event>): Session
    decreases |es|
  {
    if es == [] then s else ReceiveAll(Receive(s, es[0]), es[1..])
  }

  /** A key no delivered reply names stays out of the table. */
  lemma {:induction false} ReceiveAllKeepsAbsent(s: Session, es: seq<Event>, id: Value)
    requires id !in s.responseData
    requires forall j :: 0 <= j < |es| ==> StoredKey(es[j]) != Some(id)
    ensures id !in ReceiveAll(s, es).responseData
    decreases |es|
  {
    if es != [] {
      assert StoredKey(es[0]) != Some(id);
      forall j | 0 <= j < |es[1..]| ensures StoredKey(es[1..][j]) != Some(id) {
        assert es[1..][j] == es[j + 1];
      }
      ReceiveAllKeepsAbsent(Receive(s, es[0]), es[1..], id);
    }
  }

  /** Delivering events never removes a stored reply. */
  lemma {:induction false} ReceiveAllKeepsPresent(s: Session, es: seq<Event>, id: Value)
    requires id in s.responseData
    ensures id in ReceiveAll(s, es).responseData
    decreases |es|
  {
    if es != [] {
      ReceiveAllKeepsPresent(Receive(s, es[0]), es[1..], id);
    }
  }

  /** A waiter: the events that arrive while it waits are delivered; then
      the reply under `id` is popped, or, if none is there, the wait times
      out. */
  function Await(s: Session, id: Value, es: seq<Event>): (Session, Option<Value>) {
    var s1 := ReceiveAll(s, es);
    if id in s1.responseData then (s1.(responseData := s1.responseData - {id}), Some(s1.responseData[id]))
    else (s1, None)
  }

  /** A waiter takes its reply out of the table: a later wait on the same id,
      with nothing new arriving, times out. */
  lemma AwaitConsumes(s: Session, id: Value, es: seq<Event>)
    requires Await(s, id, es).1.Some?
    ensures id !in Await(s, id, es).0.responseData
    ensures Await(Await(s, id, es).0, id, []).1.None?
  {
  }

  /** A wait with no reply for its id, already stored or arriving, times out. */
  lemma AwaitTimesOut(s: Session, id: Value, es: seq<Event>)
    requires id !in s.responseData
    requires forall j :: 0 <= j < |es| ==> StoredKey(es[j]) != Some(id)
    ensures Await(s, id, es).1.None?
  {
    ReceiveAllKeepsAbsent(s, es, id);
  }

  /** A reply that arrives during the wait is returned, whatever else arrives. */
  lemma AwaitFindsArrival(s: Session, id: Value, es: seq<Event>, j: int)
    requires 0 <= j < |es| && StoredKey(es[j]) == Some(id)
    ensures Await(s, id, es).1.Some?
  {
    ReceiveAllSplit(s, es[..j], es[j..]);
    assert es[..j] + es[j..] == es;
    assert es[j..][0] == es[j];
    ReceiveAllKeepsPresent(Receive(ReceiveAll(s, es[..j]), es[j]), es[j + 1..], id);
    assert es[j..][1..] == es[j + 1..];
  }

  lemma {:induction false} ReceiveAllSplit(s: Session, a: seq<Event>, b: seq<Event>)
    ensures ReceiveAll(s, a + b) == ReceiveAll(ReceiveAll(s, a), b)
    decreases |a|
  {
    if a == [] {
      assert a + b == b;
    } else {
      assert (a + b)[0] == a[0] && (a + b)[1..] == a[1..] + b;
      ReceiveAllSplit(Receive(s, a[0]), a[1..], b);
    }
  }

  function AuthMessage(apiKey: string): Value {
    Obj(map["type" := Str("auth"), "api_key" := Str(apiKey)])
  }

  const AuthTimedOut := "Failed to initiate WebSocket connection: Authentication timed out."
  const NotAuthenticated := "WebSocket not authenticated."
  const SendClosed := "Failed to send request: WebSocket connection is closed."

  /** How many events of a handshake are delivered while `_connect` still
      holds the lock: `_on_error` and `_on_close` wait for the lock, so the
      receive thread stops at the first error or close (a failed
      `auth_response` closes the socket) until `_connect` is done. */
  function HeldUntil(es: seq<Event>): (k: nat)
    ensures k <= |es|
    ensures forall j :: 0 <= j < k ==> !Closes(es[j])
    ensures k < |es| ==> Closes(es[k])
    decreases |es|
  {
    if es == [] || Closes(es[0]) then 0 else 1 + HeldUntil(es[1..])
  }

  /** A new socket replaces the old one; only if it opens does `_on_open`
      send the auth message. */
  function Opening(s: Session, apiKey: string, opens: bool): Session {
    s.(connected := opens, sent := s.sent + if opens then [AuthMessage(apiKey)] else [])
  }

  /** `_connect`: nothing to do on a connected, authenticated socket;
      otherwise a new socket is made and `authenticated`, after the events
      delivered while the lock is held, decides; the events held back by
      the lock are delivered once `_connect` is done. */
  function ConnectSession(s: Session, apiKey: string, opens: bool, handshake: seq<Event>): (r: (Session, Option<string>))
    ensures s.connected && s.authenticated ==> r == (s, None)
    ensures !(s.connected && s.authenticated) ==> r.0 == ReceiveAll(Opening(s, apiKey, opens), handshake)
    ensures r.1.Some? ==> r.1 == Some(AuthTimedOut)
    ensures r.1.None? && (forall j :: 0 <= j < |handshake| ==> !Closes(handshake[j])) ==> r.0.authenticated
  {
    if s.connected && s.authenticated then (s, None)
    else
      var s0 := Opening(s, apiKey, opens);
      var k := HeldUntil(handshake);
      assert k == |handshake| ==> handshake[..k] == handshake;
      var held := ReceiveAll(s0, handshake[..k]);
      (ReceiveAll(s0, handshake), if held.authenticated then None else Some(AuthTimedOut))
  }

  /** Without an error or a close, `authenticated` ends up set exactly when
      it was set already or a successful `auth_response` arrives. */
  lemma {:induction false} AuthenticatedWithoutClose(s: Session, es: seq<Event>)
    requires forall j :: 0 <= j < |es| ==> !Closes(es[j])
    ensures ReceiveAll(s, es).authenticated <==> s.authenticated || exists j :: 0 <= j < |es| && AuthSuccess(es[j])
    decreases |es|
  {
    if es != [] {
      ReceiveAuthentication(s, es[0]);
      forall j | 0 <= j < |es[1..]| ensures !Closes(es[1..][j]) {
        assert es[1..][j] == es[j + 1];
      }
      AuthenticatedWithoutClose(Receive(s, es[0]), es[1..]);
      if exists j :: 0 <= j < |es[1..]| && AuthSuccess(es[1..][j]) {
        var j :| 0 <= j < |es[1..]| && AuthSuccess(es[1..][j]);
        assert es[1..][j] == es[j + 1];
      }
      if exists j :: 0 <= j < |es| && AuthSuccess(es[j]) {
        var j :| 0 <= j < |es| && AuthSuccess(es[j]);
        if j > 0 {
          assert es[1..][j - 1] == es[j];
        }
      }
    }
  }

  /** `_connect` on a socket that is not ready returns normally exactly when
      `authenticated` was already set or a successful `auth_response`
      arrives before the first error or close. */
  lemma ConnectDecision(s: Session, apiKey: string, opens: bool, handshake: seq<Event>)
    requires !(s.connected && s.authenticated)
    ensures ConnectSession(s, apiKey, opens, handshake).1.None?
        <==> s.authenticated || exists j :: 0 <= j < HeldUntil(handshake) && AuthSuccess(handshake[j])
  {
    var k := HeldUntil(handshake);
    var pre := handshake[..k];
    forall j | 0 <= j < |pre| ensures !Closes(pre[j]) {
    }
    AuthenticatedWithoutClose(Opening(s, apiKey, opens), pre);
    if exists j :: 0 <= j < k && AuthSuccess(handshake[j]) {
      var j :| 0 <= j < k && AuthSuccess(handshake[j]);
      assert pre[j] == handshake[j];
    }
  }

  /** A socket that never opens sends nothing and stays disconnected. */
  lemma ConnectUnopened(s: Session, apiKey: string, handshake: seq<Event>)
    requires !(s.connected && s.authenticated)
    ensures var (s1, _) := ConnectSession(s, apiKey, false, handshake);
      s1.sent == s.sent && !s1.connected
  {
    ReceiveAllKeepsSent(Opening(s, apiKey, false), handshake);
    ReceiveAllStaysDisconnected(Opening(s, apiKey, false), handshake);
  }

  lemma {:induction false} ReceiveAllStaysDisconnected(s: Session, es: seq<Event>)
    requires !s.connected
    ensures !ReceiveAll(s, es).connected
    decreases |es|
  {
    if es != [] {
      ReceiveAuthentication(s, es[0]);
      ReceiveAllStaysDisconnected(Receive(s, es[0]), es[1..]);
    }
  }

  /** A fresh connection whose handshake is a successful `auth_response`
      is ready after sending exactly the auth message. */
  lemma ConnectHandshake(s: Session, apiKey: string, at: int, reply: map<string, Value>)
    requires !s.authenticated
    requires GetOr(reply, "type", Null) == Str("auth_response") && Truthy(GetOr(reply, "success", Null))
    ensures var (s1, err) := ConnectSession(s, apiKey, true, [Message(at, Some(Obj(reply)))]);
      err.None? && s1.connected && s1.authenticated && s1.sent == s.sent + [AuthMessage(apiKey)] && s1.responseData == s.responseData
  {
    var e := Message(at, Some(Obj(reply)));
    var s0 := Opening(s, apiKey, true);
    assert [e][..HeldUntil([e])] == [e];
    assert ReceiveAll(s0, [e]) == ReceiveAll(Receive(s0, e), []);
  }

  /** A close that follows a successful `auth_response` waits for the lock:
      `_connect` returns normally, and the session it leaves is no longer
      authenticated. */
  lemma ConnectAuthThenClose(s: Session, apiKey: string, at: int, reply: map<string, Value>)
    requires !s.authenticated
    requires GetOr(reply, "type", Null) == Str("auth_response") && Truthy(GetOr(reply, "success", Null))
    ensures var (s1, err) := ConnectSession(s, apiKey, true, [Message(at, Some(Obj(reply))), SocketClosed]);
      err.None? && !s1.authenticated && !s1.connected && s1.sent == s.sent + [AuthMessage(apiKey)]
  {
    var e := Message(at, Some(Obj(reply)));
    var hs := [e, SocketClosed];
    var s0 := Opening(s, apiKey, true);
    assert HeldUntil(hs[1..]) == 0;
    assert hs[..HeldUntil(hs)] == [e];
    assert ReceiveAll(s0, [e]) == ReceiveAll(Receive(s0, e), []);
    assert hs[1..] == [SocketClosed] && hs[1..][1..] == [];
    assert ReceiveAll(s0, hs) == ReceiveAll(Receive(s0, e), [SocketClosed]);
    assert ReceiveAll(Receive(s0, e), [SocketClosed]) == ReceiveAll(Receive(Receive(s0, e), SocketClosed), []);
  }

  // ----------------------------------------------------- requests on a socket

  /** The fixed parts of a `call_tool` request. */
  datatype Task = Task(toolkitId: string, provider: string, authToken: Option<string>, userPrompt: Option<string>)

  /** `task_<toolkit>_<i>_<uuid>`; the uuid is passed in. */
  function TaskRequestId(toolkitId: string, i: nat, suffix: string): string {
    "task_" + toolkitId + "_" + NatToString(i) + "_" + suffix
  }

  /** The `task_request` body; `None` where `json.dumps` of the call fails. */
  function TaskRequest(t: Task, requestId: string, call: Entry): Option<Value> {
    match EntryJson(call)
    case None => None
    case Some(c) =>
      Some(Obj(map["type" := Str("task_request"), "toolkit_id" := Str(t.toolkitId), "request_id" := Str(requestId),
                   "payload" := c, "provider" := Str(t.provider), "auth_token" := OptStr(t.authToken),
                   "user_prompt" := OptStr(t.userPrompt)]))
  }

  const NotSerializable := "Object is not JSON serializable"

  /** One `{"tool_call_id": ..., "result": ...}` item. */
  datatype CallResult = CallResult(toolCallId: PyVal, result: Value)

  /** `tool_call.get("id", f"call_{i}")` */
  function CallId(call: Entry, i: nat): PyVal {
    if "id" in call then call["id"] else Data(Str("call_" + NatToString(i)))
  }

  function TimedOutMessage(i: nat): string {
    "Timed out waiting for task response " + NatToString(i + 1) + "."
  }

  /** The loop of `_call_tool_ws` from call `i` on, with the results so far:
      each call is sent and waited for before the next; a call that cannot
      be encoded, a closed socket or a timeout ends the whole batch. */
  function SocketCalls(s: Session, t: Task, calls: seq<Entry>, suffixes: seq<string>, arrivals: seq<seq<Event>>,
                       i: nat, acc: seq<CallResult>): (Session, Result<seq<CallResult>, string>)
    requires |suffixes| == |calls| && |arrivals| == |calls| && i <= |calls|
    decreases |calls| - i
  {
    if i == |calls| then (s, Success(acc))
    else
      var id := TaskRequestId(t.toolkitId, i, suffixes[i]);
      match TaskRequest(t, id, calls[i])
      case None => (s, Failure(NotSerializable))
      case Some(msg) =>
        if !s.connected then (s, Failure(SendClosed))
        else
          var (s1, got) := Await(s.(sent := s.sent + [msg]), Str(id), arrivals[i]);
          if got.None? then (s1, Failure(TimedOutMessage(i)))
          else SocketCalls(s1, t, calls, suffixes, arrivals, i + 1, acc + [CallResult(CallId(calls[i], i), got.value)])
  }

  /** `_call_tool_ws`: connect, check `authenticated` again, then run the
      calls. */
  function SocketBatch(s: Session, apiKey: string, t: Task, calls: seq<Entry>, suffixes: seq<string>,
                       opens: bool, handshake: seq<Event>, arrivals: seq<seq<Event>>): (Session, Result<seq<CallResult>, string>)
    requires |suffixes| == |calls| && |arrivals| == |calls|
  {
    var (s1, err) := ConnectSession(s, apiKey, opens, handshake);
    if err.Some? then (s1, Failure(err.value))
    else if !s1.authenticated then (s1, Failure(NotAuthenticated))
    else SocketCalls(s1, t, calls, suffixes, arrivals, 0, [])
  }

  /** A batch that completes has one result per call, in order, each under
      its call's id. */
  lemma {:induction false} SocketCallsComplete(s: Session, t: Task, calls: seq<Entry>, suffixes: seq<string>,
                                               arrivals: seq<seq<Event>>, i: nat, acc: seq<CallResult>)
    requires |suffixes| == |calls| && |arrivals| == |calls| && i <= |calls|
    requires SocketCalls(s, t, calls, suffixes, arrivals, i, acc).1.Success?
    ensures var rs := SocketCalls(s, t, calls, suffixes, arrivals, i, acc).1.value;
      && |rs| == |acc| + |calls| - i && rs[..|acc|] == acc
      && forall j :: i <= j < |calls| ==> rs[|acc| + j - i].toolCallId == CallId(calls[j], j)
    decreases |calls| - i
  {
    if i < |calls| {
      var id := TaskRequestId(t.toolkitId, i, suffixes[i]);
      var msg := TaskRequest(t, id, calls[i]).value;
      var (s1, got) := Await(s.(sent := s.sent + [msg]), Str(id), arrivals[i]);
      var acc' := acc + [CallResult(CallId(calls[i], i), got.value)];
      assert got.Some? && SocketCalls(s, t, calls, suffixes, arrivals, i, acc)
        == SocketCalls(s1, t, calls, suffixes, arrivals, i + 1, acc');
      SocketCallsComplete(s1, t, calls, suffixes, arrivals, i + 1, acc');
      var rs := SocketCalls(s1, t, calls, suffixes, arrivals, i + 1, acc').1.value;
      assert rs[..|acc'|] == acc';
      assert rs[|acc|] == acc'[|acc|];
      assert rs[..|acc|] == acc'[..|acc|];
    }
  }

  /** A socket batch that succeeds returns one result per call, in order. */
  lemma SocketBatchComplete(s: Session, apiKey: string, t: Task, calls: seq<Entry>, suffixes: seq<string>,
                            opens: bool, handshake: seq<Event>, arrivals: seq<seq<Event>>)
    requires |suffixes| == |calls| && |arrivals| == |calls|
    requires SocketBatch(s, apiKey, t, calls, suffixes, opens, handshake, arrivals).1.Success?
    ensures var rs := SocketBatch(s, apiKey, t, calls, suffixes, opens, handshake, arrivals).1.value;
      |rs| == |calls| && forall j :: 0 <= j < |calls| ==> rs[j].toolCallId == CallId(calls[j], j)
  {
    var (s1, err) := ConnectSession(s, apiKey, opens, handshake);
    SocketCallsComplete(s1, t, calls, suffixes, arrivals, 0, []);
  }

  /** When the reply to the first call never arrives, the batch fails with
      the timeout for call 1 after sending only that call. */
  lemma SocketBatchAbortsOnTimeout(s: Session, apiKey: string, t: Task, calls: seq<Entry>, suffixes: seq<string>,
                                   opens: bool, handshake: seq<Event>, arrivals: seq<seq<Event>>)
    requires |suffixes| == |calls| && |arrivals| == |calls| && |calls| >= 1
    requires s.connected && s.authenticated
    requires EntryJson(calls[0]).Some?
    requires Str(TaskRequestId(t.toolkitId, 0, suffixes[0])) !in s.responseData
    requires forall j :: 0 <= j < |arrivals[0]| ==> StoredKey(arrivals[0][j]) != Some(Str(TaskRequestId(t.toolkitId, 0, suffixes[0])))
    ensures var (s1, r) := SocketBatch(s, apiKey, t, calls, suffixes, opens, handshake, arrivals);
      r == Failure(TimedOutMessage(0)) && |s1.sent| == |s.sent| + 1
  {
    var id := TaskRequestId(t.toolkitId, 0, suffixes[0]);
    var msg := TaskRequest(t, id, calls[0]).value;
    AwaitTimesOut(s.(sent := s.sent + [msg]), Str(id), arrivals[0]);
    ReceiveAllKeepsSent(s.(sent := s.sent + [msg]), arrivals[0]);
  }

  lemma {:induction false} ReceiveAllKeepsSent(s: Session, es: seq<Event>)
    ensures ReceiveAll(s, es).sent == s.sent
    decreases |es|
  {
    if es != [] {
      ReceiveAllKeepsSent(Receive(s, es[0]), es[1..]);
    }
  }

  const ContextTimedOut := "Timed out waiting for toolkit context response."

  function ContextRequest(toolkitId: string, requestId: string, provider: string, userPrompt: string): Value {
    Obj(map["type" := Str("get_toolkit_context"), "toolkit_id" := Str(toolkitId), "request_id" := Str(requestId),
            "provider" := Str(provider), "user_prompt" := Str(userPrompt)])
  }

  /** `_get_toolkit_context_ws`: connect, check `authenticated` again,
      send the request under `context_<toolkit>_<uuid>` and wait for the
      reply. */
  function SocketContext(s: Session, apiKey: string, toolkitId: string, userPrompt: string, provider: string,
                         suffix: string, opens: bool, handshake: seq<Event>, arrivals: seq<Event>): (Session, Result<Value, string>)
  {
    var (s1, err) := ConnectSession(s, apiKey, opens, handshake);
    if err.Some? then (s1, Failure(err.value))
    else if !s1.authenticated then (s1, Failure(NotAuthenticated))
    else if !s1.connected then (s1, Failure(SendClosed))
    else
      var id := "context_" + toolkitId + "_" + suffix;
      var (s2, got) := Await(s1.(sent := s1.sent + [ContextRequest(toolkitId, id, provider, userPrompt)]), Str(id), arrivals);
      if got.None? then (s2, Failure(ContextTimedOut)) else (s2, Success(got.value))
  }

  /** On a ready socket, the context is the payload of the reply carrying
      the request's id, and the table no longer holds it afterwards. */
  lemma SocketContextReturnsReply(s: Session, apiKey: string, toolkitId: string, userPrompt: string, provider: string,
                                  suffix: string, at: int, reply: map<string, Value>)
    requires s.connected && s.authenticated
    requires GetOr(reply, "type", Null) == Str("toolkit_context")
    requires GetOr(reply, "request_id", Null) == Str("context_" + toolkitId + "_" + suffix)
    ensures var (s1, r) := SocketContext(s, apiKey, toolkitId, userPrompt, provider, suffix, true, [], [Message(at, Some(Obj(reply)))]);
      && r == Success(GetOr(reply, "payload", Obj(map[])))
      && Str("context_" + toolkitId + "_" + suffix) !in s1.responseData
  {
    var id := "context_" + toolkitId + "_" + suffix;
    var s2 := s.(sent := s.sent + [ContextRequest(toolkitId, id, provider, userPrompt)]);
    var e := Message(at, Some(Obj(reply)));
    assert StoredKey(e) == Some(Str(id));
    assert ReceiveAll(s2, [e]) == ReceiveAll(Receive(s2, e), []);
  }

  /** The re-check after `_connect` fires when a close follows a successful
      `auth_response`: both requests fail with "WebSocket not
      authenticated." and send nothing beyond the auth message. */
  lemma NotAuthenticatedAfterClose(s: Session, apiKey: string, at: int, reply: map<string, Value>,
                                   t: Task, calls: seq<Entry>, suffixes: seq<string>, arrivals: seq<seq<Event>>,
                                   toolkitId: string, userPrompt: string, provider: string, suffix: string, events: seq<Event>)
    requires !s.authenticated
    requires GetOr(reply, "type", Null) == Str("auth_response") && Truthy(GetOr(reply, "success", Null))
    requires |suffixes| == |calls| && |arrivals| == |calls|
    ensures var (s1, r) := SocketBatch(s, apiKey, t, calls, suffixes, true, [Message(at, Some(Obj(reply))), SocketClosed], arrivals);
      r == Failure(NotAuthenticated) && s1.sent == s.sent + [AuthMessage(apiKey)]
    ensures var (s1, r) := SocketContext(s, apiKey, toolkitId, userPrompt, provider, suffix, true, [Message(at, Some(Obj(reply))), SocketClosed], events);
      r == Failure(NotAuthenticated) && s1.sent == s.sent + [AuthMessage(apiKey)]
  {
    ConnectAuthThenClose(s, apiKey, at, reply);
  }

  // ------------------------------------------------------------- the class

  class LLMClient {
    const settings: Settings
    var connected: bool
    var authenticated: bool
    var responseData: map<Value, Value>
    var lastActivityTime: int
    /** Every message sent on a socket, oldest first. */
    var sent: seq<Value>

    function State(): Session
      reads this
    {
      Session(connected, authenticated, responseData, lastActivityTime, sent)
    }

    /** A client built from the settings `Configure` accepted; the
        connection is made by the first `Connect`. */
    constructor(settings: Settings, now: int)
      ensures this.settings == settings
      ensures State() == Session(false, false, map[], now, [])
    {
      this.settings := settings;
      connected := false;
      authenticated := false;
      responseData := map[];
      lastActivityTime := now;
      sent := [];
    }

    /** `_on_message`; the message is already JSON-decoded. */
    method OnMessage(now: int, data: Option<Value>)
      modifies this
      ensures State() == Receive(old(State()), Message(now, data))
    {
      lastActivityTime := now;
      if data.Some? && data.value.Obj? {
        var d := data.value.fields;
        var kind := GetOr(d, "type", Null);
        var requestId := GetOr(d, "request_id", Null);
        if kind == Str("auth_response") {
          if !Truthy(GetOr(d, "success", Null)) {
            connected := false;
            authenticated := false;
          } else {
            authenticated := true;
          }
        } else if (kind == Str("toolkit_context") || kind == Str("task_response")) && Hashable(requestId) {
          responseData := responseData[requestId := GetOr(d, "payload", Obj(map[]))];
        }
      }
    }

    /** `_on_error`: drop the socket and the authentication. */
    method OnError()
      modifies this
      ensures State() == Receive(old(State()), SocketError)
    {
      connected := false;
      authenticated := false;
    }

    /** `_on_close`: as `_on_error`. */
    method OnClose()
      modifies this
      ensures State() == Receive(old(State()), SocketClosed)
    {
      connected := false;
      authenticated := false;
    }

    /** The receive thread delivering `es`, in order. */
    method DeliverAll(es: seq<Event>)
      modifies this
      ensures State() == ReceiveAll(old(State()), es)
    {
      var i := 0;
      while i < |es|
        invariant 0 <= i <= |es|
        invariant ReceiveAll(old(State()), es) == ReceiveAll(State(), es[i..])
      {
        assert es[i..][0] == es[i] && es[i..][1..] == es[i + 1..];
        match es[i] {
          case Message(at, data) => OnMessage(at, data);
          case SocketError => OnError();
          case SocketClosed => OnClose();
        }
        i := i + 1;
      }
    }

    /** The wait loop followed by `response_data.pop(request_id)`. */
    method AwaitReply(id: Value, es: seq<Event>) returns (got: Option<Value>)
      modifies this
      ensures (State(), got) == Await(old(State()), id, es)
    {
      DeliverAll(es);
      if id in responseData {
        got := Some(responseData[id]);
        responseData := responseData - {id};
      } else {
        got := None;
      }
    }

    /** `_connect`: the receive thread delivers the handshake up to its
        first error or close while the lock is held, and the rest after. */
    method Connect(opens: bool, handshake: seq<Event>) returns (error: Option<string>)
      modifies this
      ensures (State(), error) == ConnectSession(old(State()), settings.apiKey, opens, handshake)
    {
      if connected && authenticated {
        return None;
      }
      connected := opens;
      if opens {
        sent := sent + [AuthMessage(settings.apiKey)];
      }
      ghost var s0 := State();
      assert s0 == Opening(old(State()), settings.apiKey, opens);
      var k := HeldUntil(handshake);
      DeliverAll(handshake[..k]);
      error := if authenticated then None else Some(AuthTimedOut);
      DeliverAll(handshake[k..]);
      ReceiveAllSplit(s0, handshake[..k], handshake[k..]);
      assert handshake[..k] + handshake[k..] == handshake;
    }

    /** `_get_toolkit_context_ws`; the uuid, whether a new socket opens,
        the handshake (if a connection is made) and the events during the
        wait are passed in. */
    method GetToolkitContextWs(toolkitId: string, userPrompt: string, provider: string, suffix: string,
                               opens: bool, handshake: seq<Event>, arrivals: seq<Event>) returns (r: Result<Value, string>)
      modifies this
      ensures (State(), r) == SocketContext(old(State()), settings.apiKey, toolkitId, userPrompt, provider, suffix, opens, handshake, arrivals)
    {
      var err := Connect(opens, handshake);
      if err.Some? {
        return Failure(err.value);
      }
      if !authenticated {
        return Failure(NotAuthenticated);
      }
      if !connected {
        return Failure(SendClosed);
      }
      var id := "context_" + toolkitId + "_" + suffix;
      sent := sent + [ContextRequest(toolkitId, id, provider, userPrompt)];
      var got := AwaitReply(Str(id), arrivals);
      r := if got.None? then Failure(ContextTimedOut) else Success(got.value);
    }

    /** `_call_tool_ws`; per call, the uuid and the events during its wait
        are passed in. */
    method CallToolWs(t: Task, calls: seq<Entry>, suffixes: seq<string>, opens: bool, handshake: seq<Event>,
                      arrivals: seq<seq<Event>>) returns (r: Result<seq<CallResult>, string>)
      requires |suffixes| == |calls| && |arrivals| == |calls|
      modifies this
      ensures (State(), r) == SocketBatch(old(State()), settings.apiKey, t, calls, suffixes, opens, handshake, arrivals)
    {
      var err := Connect(opens, handshake);
      if err.Some? {
        return Failure(err.value);
      }
      if !authenticated {
        return Failure(NotAuthenticated);
      }
      r := SendCalls(t, calls, suffixes, arrivals);
    }

    /** The loop of `_call_tool_ws` on a connected client: each call is sent
        and its reply awaited before the next. */
    method SendCalls(t: Task, calls: seq<Entry>, suffixes: seq<string>, arrivals: seq<seq<Event>>)
      returns (r: Result<seq<CallResult>, string>)
      requires |suffixes| == |calls| && |arrivals| == |calls|
      modifies this
      ensures (State(), r) == SocketCalls(old(State()), t, calls, suffixes, arrivals, 0, [])
    {
      ghost var s0 := State();
      var results: seq<CallResult> := [];
      var i := 0;
      while i < |calls|
        invariant 0 <= i <= |calls|
        invariant SocketCalls(s0, t, calls, suffixes, arrivals, 0, []) == SocketCalls(State(), t, calls, suffixes, arrivals, i, results)
      {
        var id := TaskRequestId(t.toolkitId, i, suffixes[i]);
        var msg := TaskRequest(t, id, calls[i]);
        if msg.None? {
          return Failure(NotSerializable);
        }
        if !connected {
          return Failure(SendClosed);
        }
        sent := sent + [msg.value];
        var got := AwaitReply(Str(id), arrivals[i]);
        if got.None? {
          return Failure(TimedOutMessage(i));
        }
        results := results + [CallResult(CallId(calls[i], i), got.value)];
        i := i + 1;
      }
      r := Success(results);
    }
  }

  // ------------------------------------------------------ requests over HTTP

  /** The item `_call_tool_http` appends for call `i`, given what
      `_http_request` returned or raised for it. */
  function HttpResult(call: Entry, i: nat, outcome: Result<Value, string>): CallResult {
    if EntryJson(call).None? then CallResult(CallId(call, i), ErrorObj(NotSerializable))
    else match outcome
      case Success(v) => CallResult(CallId(call, i), v)
      case Failure(m) => CallResult(CallId(call, i), ErrorObj(m))
  }

  /** What posting a request body records: nothing when `json.dumps` of
      the body fails, since `requests.post` raises before sending. */
  function Posted(body: Option<Value>): seq<Value> {
    if body.Some? then [body.value] else []
  }

  /** The bodies `_call_tool_http` posts for `calls`, in order: call `i`
      goes out as the same `task_request` the socket path sends, under
      `task_<toolkit>_<i>_<uuid>`; `suffixes[i]` is that uuid. */
  function HttpTaskPosts(t: Task, calls: seq<Entry>, suffixes: seq<string>): seq<Value>
    requires |suffixes| == |calls|
    decreases |calls|
  {
    if calls == [] then []
    else
      var n := |calls| - 1;
      HttpTaskPosts(t, calls[..n], suffixes[..n]) + Posted(TaskRequest(t, TaskRequestId(t.toolkitId, n, suffixes[n]), calls[n]))
  }

  /** Posting one more call extends the posts of the earlier calls. */
  lemma HttpTaskPostsSnoc(t: Task, calls: seq<Entry>, suffixes: seq<string>, i: nat)
    requires |suffixes| == |calls| && i < |calls|
    ensures HttpTaskPosts(t, calls[..i + 1], suffixes[..i + 1])
      == HttpTaskPosts(t, calls[..i], suffixes[..i]) + Posted(TaskRequest(t, TaskRequestId(t.toolkitId, i, suffixes[i]), calls[i]))
  {
    assert calls[..i + 1][..i] == calls[..i] && suffixes[..i + 1][..i] == suffixes[..i];
  }

  /** When every call serialises, one body is posted per call, and body `j`
      is the `task_request` of call `j` under its own request id. */
  lemma {:induction false} HttpTaskPostsAll(t: Task, calls: seq<Entry>, suffixes: seq<string>)
    requires |suffixes| == |calls|
    requires forall j :: 0 <= j < |calls| ==> EntryJson(calls[j]).Some?
    ensures |HttpTaskPosts(t, calls, suffixes)| == |calls|
    ensures forall j :: 0 <= j < |calls| ==>
      HttpTaskPosts(t, calls, suffixes)[j] == TaskRequest(t, TaskRequestId(t.toolkitId, j, suffixes[j]), calls[j]).value
    decreases |calls|
  {
    if calls != [] {
      var n := |calls| - 1;
      HttpTaskPostsAll(t, calls[..n], suffixes[..n]);
      var front := HttpTaskPosts(t, calls[..n], suffixes[..n]);
      var last := TaskRequest(t, TaskRequestId(t.toolkitId, n, suffixes[n]), calls[n]).value;
      assert HttpTaskPosts(t, calls, suffixes) == front + [last];
      forall j | 0 <= j < |calls|
        ensures HttpTaskPosts(t, calls, suffixes)[j] == TaskRequest(t, TaskRequestId(t.toolkitId, j, suffixes[j]), calls[j]).value
      {
        if j < n {
          assert calls[..n][j] == calls[j] && suffixes[..n][j] == suffixes[j];
        }
      }
    }
  }

  /** Every posted body is a `task_request` of the toolkit carrying the
      provider, the auth token and the user prompt. */
  lemma {:induction false} HttpTaskPostsShape(t: Task, calls: seq<Entry>, suffixes: seq<string>)
    requires |suffixes| == |calls|
    ensures |HttpTaskPosts(t, calls, suffixes)| <= |calls|
    ensures forall b :: b in HttpTaskPosts(t, calls, suffixes) ==>
      && b.Obj? && b.fields.Keys == {"type", "toolkit_id", "request_id", "payload", "provider", "auth_token", "user_prompt"}
      && b.fields["type"] == Str("task_request") && b.fields["toolkit_id"] == Str(t.toolkitId)
      && b.fields["provider"] == Str(t.provider) && b.fields["auth_token"] == OptStr(t.authToken)
      && b.fields["user_prompt"] == OptStr(t.userPrompt)
    decreases |calls|
  {
    if calls != [] {
      var n := |calls| - 1;
      HttpTaskPostsShape(t, calls[..n], suffixes[..n]);
    }
  }

  /** `_call_tool_http`: one item per call, in order; a call whose request
      raises gets `{"error": str(e)}` and the later calls still run.
      `posts` is what was posted, to the one fixed URL of `_http_request`. */
  method CallToolHttp(t: Task, calls: seq<Entry>, suffixes: seq<string>, outcomes: seq<Result<Value, string>>)
    returns (results: seq<CallResult>, posts: seq<Value>)
    requires |outcomes| == |calls| && |suffixes| == |calls|
    ensures |results| == |calls|
    ensures forall i :: 0 <= i < |calls| ==> results[i] == HttpResult(calls[i], i, outcomes[i])
    ensures forall i :: 0 <= i < |calls| && outcomes[i].Failure? ==> results[i].result.Obj? && "error" in results[i].result.fields
    ensures posts == HttpTaskPosts(t, calls, suffixes)
  {
    results, posts := [], [];
    for i := 0 to |calls|
      invariant |results| == i
      invariant forall j :: 0 <= j < i ==> results[j] == HttpResult(calls[j], j, outcomes[j])
      invariant posts == HttpTaskPosts(t, calls[..i], suffixes[..i])
    {
      var body := TaskRequest(t, TaskRequestId(t.toolkitId, i, suffixes[i]), calls[i]);
      HttpTaskPostsSnoc(t, calls, suffixes, i);
      var item: CallResult;
      if body.None? {
        item := CallResult(CallId(calls[i], i), ErrorObj(NotSerializable));
      } else {
        posts := posts + [body.value];
        match outcomes[i] {
          case Success(v) => item := CallResult(CallId(calls[i], i), v);
          case Failure(m) => item := CallResult(CallId(calls[i], i), ErrorObj(m));
        }
      }
      results := results + [item];
    }
    assert calls[..|calls|] == calls && suffixes[..|suffixes|] == suffixes;
  }

  /** `_get_toolkit_context_http`: posts the same `get_toolkit_context`
      body the socket path sends, under the bare uuid `requestId`; the
      context is the reply's `payload` (or `{}`), and a reply that is not a
      dict raises. */
  function HttpContext(toolkitId: string, userPrompt: string, provider: string, requestId: string,
                       outcome: Result<Value, string>): (r: (Value, Result<Value, string>))
    ensures r.0 == ContextRequest(toolkitId, requestId, provider, userPrompt)
    ensures r.1.Success? <==> outcome.Success? && outcome.value.Obj?
    ensures r.1.Success? ==> r.1.value == GetOr(outcome.value.fields, "payload", Obj(map[]))
  {
    var request := ContextRequest(toolkitId, requestId, provider, userPrompt);
    match outcome
    case Failure(m) => (request, Failure(m))
    case Success(v) =>
      if v.Obj? then (request, Success(GetOr(v.fields, "payload", Obj(map[]))))
      else (request, Failure("'" + TypeName(v) + "' object has no attribute 'get'"))
  }

  // ------------------------------------------------------- sequential calls

  const NoResult := "No result returned"

  /** What `_call_tool_sequential` appends for call `i`, given what the
      single-call batch returned or raised. */
  function SequentialPiece(call: Entry, i: nat, sub: Result<seq<CallResult>, string>): seq<CallResult> {
    match sub
    case Success(rs) => if rs != [] then rs else [CallResult(CallId(call, i), ErrorObj(NoResult))]
    case Failure(m) => [CallResult(CallId(call, i), ErrorObj(m))]
  }

  function Sequential(calls: seq<Entry>, subs: seq<Result<seq<CallResult>, string>>, i: nat): seq<CallResult>
    requires |subs| == |calls| && i <= |calls|
    decreases |calls| - i
  {
    if i == |calls| then [] else SequentialPiece(calls[i], i, subs[i]) + Sequential(calls, subs, i + 1)
  }

  /** Appending call `i`'s piece to the results moves the loop on by one. */
  lemma SequentialStep(calls: seq<Entry>, subs: seq<Result<seq<CallResult>, string>>, results: seq<CallResult>, i: nat)
    requires |subs| == |calls| && i < |calls|
    ensures results + Sequential(calls, subs, i)
      == (results + SequentialPiece(calls[i], i, subs[i])) + Sequential(calls, subs, i + 1)
  {
    assert Sequential(calls, subs, i) == SequentialPiece(calls[i], i, subs[i]) + Sequential(calls, subs, i + 1);
  }

  /** `_call_tool_sequential`: the calls run one at a time, each as a batch
      of one; `subs[i]` is what that batch returned or raised. */
  method CallToolSequential(calls: seq<Entry>, subs: seq<Result<seq<CallResult>, string>>) returns (results: seq<CallResult>)
    requires |subs| == |calls|
    ensures results == Sequential(calls, subs, 0)
  {
    results := [];
    var i := 0;
    while i < |calls|
      invariant 0 <= i <= |calls|
      invariant results + Sequential(calls, subs, i) == Sequential(calls, subs, 0)
    {
      var piece: seq<CallResult>;
      match subs[i] {
        case Success(rs) =>
          if rs != [] {
            piece := rs;
          } else {
            piece := [CallResult(CallId(calls[i], i), ErrorObj(NoResult))];
          }
        case Failure(m) =>
          piece := [CallResult(CallId(calls[i], i), ErrorObj(m))];
      }
      assert piece == SequentialPiece(calls[i], i, subs[i]);
      SequentialStep(calls, subs, results, i);
      results := results + piece;
      i := i + 1;
    }
  }

  /** Over HTTP every single-call batch returns one item, so the sequential
      path returns exactly what the batch path returns for calls that carry
      an id (as every formatted call does). */
  lemma {:induction false} SequentialOverHttp(calls: seq<Entry>, outcomes: seq<Result<Value, string>>,
                                              subs: seq<Result<seq<CallResult>, string>>, i: nat)
    requires |outcomes| == |calls| && |subs| == |calls| && i <= |calls|
    requires forall j :: 0 <= j < |calls| ==> "id" in calls[j]
    requires forall j :: 0 <= j < |calls| ==> subs[j] == Success([HttpResult(calls[j], 0, outcomes[j])])
    ensures Sequential(calls, subs, i) == seq(|calls| - i, j requires 0 <= j < |calls| - i => HttpResult(calls[i + j], i + j, outcomes[i + j]))
    decreases |calls| - i
  {
    if i < |calls| {
      SequentialOverHttp(calls, outcomes, subs, i + 1);
      assert HttpResult(calls[i], 0, outcomes[i]) == HttpResult(calls[i], i, outcomes[i]);
      assert SequentialPiece(calls[i], i, subs[i]) == [HttpResult(calls[i], i, outcomes[i])];
      assert Sequential(calls, subs, i) == [HttpResult(calls[i], i, outcomes[i])] + Sequential(calls, subs, i + 1);
    } else {
      assert Sequential(calls, subs, i) == [];
    }
  }

  /** When every single-call batch returns one item or raises, the
      sequential path has one item per call, in order, and a call that
      raised gets `{"error": str(e)}` while the later calls still run. */
  lemma {:induction false} SequentialOnePerCall(calls: seq<Entry>, subs: seq<Result<seq<CallResult>, string>>, i: nat)
    requires |subs| == |calls| && i <= |calls|
    requires forall j :: 0 <= j < |calls| ==> subs[j].Failure? || |subs[j].value| == 1
    ensures |Sequential(calls, subs, i)| == |calls| - i
    ensures forall j :: i <= j < |calls| && subs[j].Failure? ==>
      Sequential(calls, subs, i)[j - i] == CallResult(CallId(calls[j], j), ErrorObj(subs[j].error))
    decreases |calls| - i
  {
    if i < |calls| {
      SequentialOnePerCall(calls, subs, i + 1);
      var piece := SequentialPiece(calls[i], i, subs[i]);
      assert |piece| == 1;
      assert subs[i].Failure? ==> piece[0] == CallResult(CallId(calls[i], i), ErrorObj(subs[i].error));
      assert Sequential(calls, subs, i) == piece + Sequential(calls, subs, i + 1);
    }
  }

  // ------------------------------------------------------------- routing

  /** Which path `call_tool` takes. */
  datatype Plan = NoCalls | SequentialCalls | SocketCallsPlan | HttpCallsPlan | NoPath

  function CallToolPlan(numCalls: nat, sequential: bool, protocol: string): (r: Plan)
    ensures r == NoCalls <==> numCalls == 0
    ensures numCalls > 0 && sequential ==> r == SequentialCalls
    ensures numCalls > 0 && !sequential ==>
      (IsSocketProtocol(protocol) <==> r == SocketCallsPlan) && (IsHttpProtocol(protocol) <==> r == HttpCallsPlan)
  {
    if numCalls == 0 then NoCalls
    else if sequential then SequentialCalls
    else if IsSocketProtocol(protocol) then SocketCallsPlan
    else if IsHttpProtocol(protocol) then HttpCallsPlan
    else NoPath
  }

  /** A client made by `Configure` always has a path for a non-empty batch. */
  lemma ConfiguredClientsRoute(apiKey: string, protocol: string, baseUrl: string, numCalls: nat, sequential: bool)
    requires Configure(apiKey, protocol, baseUrl).Success? && numCalls > 0
    ensures CallToolPlan(numCalls, sequential, Configure(apiKey, protocol, baseUrl).value.protocol) != NoPath
  {
  }
}
