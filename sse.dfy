/** `call_tool_streaming` and its line filter: the reply is read as a
    stream of server-sent-event lines, a small subset of the event-stream
    format of section 9.2 of the WHATWG HTML Living Standard (only single
    `data: ` lines, no multi-line accumulation, no `data:` without space). */
module ServerSentEvents {

  import opened Wrappers
  import opened JsonValue
  import opened Text
  import opened ToolCallFormat
  import LlmClient

  newtype byte = b: int | 0 <= b < 256

  /** The bytes of `data: `. */
  const DataPrefix: seq<byte> := [0x64, 0x61, 0x74, 0x61, 0x3A, 0x20]

  predicate IsDataLine(line: seq<byte>) {
    |line| > 0 && StartsWith(line, DataPrefix)
  }

  /** The events one line yields: a non-empty `data: ` line whose rest
      decodes yields that value; any other line, or a failed decode, none. */
  function LineEvents(line: seq<byte>, decode: seq<byte> -> Option<Value>): (r: seq<Value>)
    ensures |r| <= 1
    ensures r != [] <==> IsDataLine(line) && decode(line[|DataPrefix|..]).Some?
  {
    if IsDataLine(line) then
      match decode(line[|DataPrefix|..])
      case Some(v) => [v]
      case None => []
    else []
  }

  function Events(lines: seq<seq<byte>>, decode: seq<byte> -> Option<Value>): seq<Value>
    decreases |lines|
  {
    if lines == [] then [] else LineEvents(lines[0], decode) + Events(lines[1..], decode)
  }

  /** `Events` of the suffix starting at `i`, one line at a time. */
  lemma EventsStep(lines: seq<seq<byte>>, decode: seq<byte> -> Option<Value>, i: nat)
    requires i < |lines|
    ensures Events(lines[i..], decode) == LineEvents(lines[i], decode) + Events(lines[i + 1..], decode)
  {
    assert lines[i..][0] == lines[i] && lines[i..][1..] == lines[i + 1..];
  }

  /** The loop of `_http_stream_request` over `resp.iter_lines()`. */
  method ParseEvents(lines: seq<seq<byte>>, decode: seq<byte> -> Option<Value>) returns (events: seq<Value>)
    ensures events == Events(lines, decode)
  {
    events := [];
    var i := 0;
    while i < |lines|
      invariant 0 <= i <= |lines|
      invariant events + Events(lines[i..], decode) == Events(lines, decode)
    {
      var line := lines[i];
      var found: seq<Value> := [];
      if IsDataLine(line) {
        var event := decode(line[|DataPrefix|..]);
        if event.Some? {
          found := [event.value];
        }
      }
      assert found == LineEvents(line, decode);
      EventsStep(lines, decode, i);
      events := events + found;
      i := i + 1;
    }
  }

  /** Filtering is line by line: the events of two chunks of lines are the
      events of each chunk, in order. */
  lemma {:induction false} EventsAppend(a: seq<seq<byte>>, b: seq<seq<byte>>, decode: seq<byte> -> Option<Value>)
    ensures Events(a + b, decode) == Events(a, decode) + Events(b, decode)
    decreases |a|
  {
    if a == [] {
      assert a + b == b;
    } else {
      assert (a + b)[0] == a[0] && (a + b)[1..] == a[1..] + b;
      EventsAppend(a[1..], b, decode);
    }
  }

  /** Every event is the decoded rest of some `data: ` line, and there are
      never more events than lines. */
  lemma {:induction false} EventsFromDataLines(lines: seq<seq<byte>>, decode: seq<byte> -> Option<Value>)
    ensures |Events(lines, decode)| <= |lines|
    ensures forall k :: 0 <= k < |Events(lines, decode)| ==>
      exists j :: 0 <= j < |lines| && IsDataLine(lines[j]) && decode(lines[j][|DataPrefix|..]) == Some(Events(lines, decode)[k])
    decreases |lines|
  {
    if lines != [] {
      EventsFromDataLines(lines[1..], decode);
      var head := LineEvents(lines[0], decode);
      var rest := Events(lines[1..], decode);
      forall k | 0 <= k < |Events(lines, decode)|
        ensures exists j :: 0 <= j < |lines| && IsDataLine(lines[j]) && decode(lines[j][|DataPrefix|..]) == Some(Events(lines, decode)[k])
      {
        if k < |head| {
          assert IsDataLine(lines[0]) && decode(lines[0][|DataPrefix|..]) == Some(Events(lines, decode)[k]);
        } else {
          var j :| 0 <= j < |lines[1..]| && IsDataLine(lines[1..][j]) && decode(lines[1..][j][|DataPrefix|..]) == Some(rest[k - |head|]);
          assert lines[j + 1] == lines[1..][j];
        }
      }
    }
  }

  /** A stream with no `data: ` line yields nothing. */
  lemma {:induction false} NoDataLinesNoEvents(lines: seq<seq<byte>>, decode: seq<byte> -> Option<Value>)
    requires forall j :: 0 <= j < |lines| ==> !IsDataLine(lines[j])
    ensures Events(lines, decode) == []
    decreases |lines|
  {
    if lines != [] {
      assert !IsDataLine(lines[0]);
      NoDataLinesNoEvents(lines[1..], decode);
    }
  }

  /** The generator's outcome: a status other than 200 raises before any
      line is read. */
  function StreamEvents(status: nat, text: string, lines: seq<seq<byte>>, decode: seq<byte> -> Option<Value>): (r: Result<seq<Value>, string>)
    ensures r.Success? <==> status == 200
    ensures r.Success? ==> r.value == Events(lines, decode)
  {
    if status != 200 then Failure("Streaming request failed: " + NatToString(status) + " " + text)
    else Success(Events(lines, decode))
  }

  /** The headers of the streaming POST. */
  const StreamHeaders: map<string, string> := map["Accept" := "application/json", "Cache-Control" := "no-cache"]

  /** How `call_tool_streaming` starts: nothing for no calls, a ValueError
      off HTTP, else one POST of the `task_request` for the first formatted
      call only, with the stream headers. */
  datatype StreamStart =
    | NothingToStream
    | Rejected(message: string)
    | Post(url: string, headers: map<string, string>, task: LlmClient.Task, requestId: string, call: Entry)

  method CallToolStreaming(settings: LlmClient.Settings, toolkitId: string, calls: seq<PyVal>, provider: string,
                           authToken: Option<string>, userPrompt: Option<string>,
                           parseJson: string -> Option<Value>, suffix: string) returns (r: StreamStart)
    ensures calls == [] <==> r == NothingToStream
    ensures calls != [] && !LlmClient.IsHttpProtocol(settings.protocol) ==> r == Rejected("Streaming only supported for HTTP protocol")
    ensures calls != [] && LlmClient.IsHttpProtocol(settings.protocol) ==>
      r == Post(settings.baseUrl + "/api/v1/atp/llm-client/process/", StreamHeaders,
                LlmClient.Task(toolkitId, provider, authToken, userPrompt), "task_" + toolkitId + "_" + suffix,
                FormatAt(provider, calls[0], parseJson, 0))
  {
    if calls == [] {
      return NothingToStream;
    }
    var formatted := FormatToolCalls(calls, provider, parseJson);
    if !LlmClient.IsHttpProtocol(settings.protocol) {
      return Rejected("Streaming only supported for HTTP protocol");
    }
    r := Post(settings.baseUrl + "/api/v1/atp/llm-client/process/", StreamHeaders,
              LlmClient.Task(toolkitId, provider, authToken, userPrompt), "task_" + toolkitId + "_" + suffix, formatted[0]);
  }

  /** The streaming body is the `task_request` the other paths send, with
      the provider, auth token and user prompt, under `task_<toolkit>_<uuid>`. */
  lemma StreamBody(start: StreamStart)
    requires start.Post? && EntryJson(start.call).Some?
    ensures var b := LlmClient.TaskRequest(start.task, start.requestId, start.call);
      && b.Some? && b.value.Obj?
      && b.value.fields["type"] == Str("task_request") && b.value.fields["request_id"] == Str(start.requestId)
      && b.value.fields["payload"] == EntryJson(start.call).value
      && b.value.fields["provider"] == Str(start.task.provider)
      && b.value.fields["auth_token"] == OptStr(start.task.authToken)
      && b.value.fields["user_prompt"] == OptStr(start.task.userPrompt)
  {
  }
}
