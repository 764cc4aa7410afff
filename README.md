# Agent Tool Protocol (ATP) SDK — a Dafny model

ATP connects two kinds of programs through an agent server. A **toolkit
client** (`ToolKitClient`) hosts Python functions as remote tools. It
registers each tool with the server and receives a single-use exchange
token for it. It then answers tool requests that arrive over a socket or
from an HTTP inbox. An **LLM client** (`LLMClient`) fetches a toolkit's
context for an LLM provider. It normalises the tool calls the LLM returns
(OpenAI, Anthropic, Mistral or generic) and has the server execute them,
either in a socket batch, over HTTP, one at a time, or as a server-sent
event stream. Around these sit:

- a FastAPI registry from toolkit names to clients;
- Django views that expose a client's tool metadata and invoke its tools;
- the `atp_ui` builders, which describe UI components as
  `{"category", "component_type", "props"}` dicts.

The model is organised as follows:

- Python values are `JsonValue.Value`. A dict that keeps insertion order
  (`registered_tools`) is `OrderedDict.Dict`.
- A user tool function is a `ToolFunction`. It records the parameters the
  function declares, those without defaults, whether it takes `**kwargs`,
  and its body as a function from keyword arguments to a returned value or
  an exception text. `Call` models Python's keyword binding.
- Parts the source changes in place are classes:
  - `ToolKitClient` holds its tool registry, token map, activity time and
    a log of what it sent;
  - `LLMClient` holds its connection flags, `response_data` table and sent
    messages;
  - the FastAPI `Registry` holds its `clients` dict.
  Each method is proved against a pure function of the old state, and the
  properties are lemmas about those functions.
- The loops of the source are methods with loop invariants:
  `_generate_sample_params`, `_re_register_tools`, `_format_tool_calls`,
  `_call_tool_ws`, `_call_tool_http`, `_call_tool_sequential` and the SSE
  line loop.
- The following become parameters:
  - network replies, as status plus decoded body, or a connection error;
  - the events the socket's receive thread delivers, and whether a new socket opens;
  - uuids and clock readings;
  - SHA-256 hashes and source text;
  - JSON decoding of provider arguments and SSE lines.
- Python's `str.lower()` is modelled on ASCII letters only (`Text.AsciiLower`).

## Model

| member | source | states |
|---|---|---|
| `UiComponent.ComponentDefinition` | atp_ui/utils.py:5-19 | the result has exactly the keys category, component_type and props, and reads back as the three arguments unchanged |
| `UiComponent.ParseInverse` | atp_ui/utils.py:15-19 | every dict of that shape is the `component_definition` of its own parts |
| `Layouts.BreakpointDefinitions` | atp_ui/layouts.py:17-26 | updating the defaults only when the extras are truthy is the same as always merging them in |
| `Layouts.Breakpoints` | atp_ui/layouts.py:15-27 | a Breakpoints description whose only prop, `definitions`, is the defaults merged with the extras |
| `Layouts.BreakpointsOverride` | atp_ui/layouts.py:25-26 | an extra wins on a shared key, every other default stays, and no other key appears |
| `Layouts.BreakpointsDefaults` | atp_ui/layouts.py:17-24 | with no extras (or empty extras), exactly xs=0px, sm=576px, md=768px, lg=992px, xl=1200px, xxl=1400px |
| `Layouts.Container` | atp_ui/layouts.py:29-35 | category Layout; `max_width` is stored under `maxWidth`, next to `fluid` and the fixed description |
| `Layouts.Grid` | atp_ui/layouts.py:38-44 | category Layout; `behavior` is always "flexbox", with columns and direction as given |
| `Layouts.Column` | atp_ui/layouts.py:47-53 | content is `[]` when none is given and the given list otherwise |
| `Layouts.Gutters` | atp_ui/layouts.py:56-63 | only a missing map (not an empty one) is replaced by the default spacing scale |
| `Layouts.ZIndex` | atp_ui/layouts.py:66-71 | component type "Z-index"; every layer keeps its integer |
| `Layouts.CssGrid` | atp_ui/layouts.py:73-79 | component type "CSS Grid" with the two templates and the fixed description |
| `Layouts.LayoutDefaults` | atp_ui/layouts.py:29-79 | default arguments: 12 columns, "row", not fluid, no max width, breakpoint "default", unit "rem", templates "repeat(12, 1fr)" and "auto" |
| `Contents.Reboot` | atp_ui/contents.py:18-24 | always normalize_css true, box_sizing "border-box", font_family "system-ui" |
| `Contents.Typography` | atp_ui/contents.py:27-33 | category Content; tag, style and text carried unchanged |
| `Contents.Images` | atp_ui/contents.py:36-43 | category Content; src, alt, responsive and rounded carried unchanged |
| `Contents.Tables` | atp_ui/contents.py:46-53 | data_rows is the number of rows; the preview schema is the first row, or `[]` for no data |
| `Contents.Figures` | atp_ui/contents.py:56-60 | `img_src` is stored under `image_src` |
| `Contents.ContentDefaults` | atp_ui/contents.py:27-53 | defaults "p"/"body"/"Default text content", alt "", responsive, not rounded, not striped, hover |
| `Forms.FormControl` | atp_ui/forms.py:17-24 | component type "Form control"; `required` is false whatever the arguments |
| `Forms.Select` | atp_ui/forms.py:27-33 | label, options and multiple carried unchanged |
| `Forms.ChecksRadios` | atp_ui/forms.py:36-42 | component type "Checks & radios"; the type is stored under `input_type` |
| `Forms.Range` | atp_ui/forms.py:45-52 | `min_val`/`max_val`/`step` are stored as `min`/`max`/`step` |
| `Forms.InputGroup` | atp_ui/forms.py:55-61 | component type "Input group"; prepend and append may be None |
| `Forms.FloatingLabels` | atp_ui/forms.py:64-69 | component type "Floating labels" with label and input type |
| `Forms.Layout` | atp_ui/forms.py:72-77 | direction and alignment carried unchanged |
| `Forms.Validation` | atp_ui/forms.py:80-85 | `message` is stored under `feedback_message` |
| `Forms.FormsDefaults` | atp_ui/forms.py:17-85 | defaults "text"/"Input Field", checkbox/"Option"/unchecked, 0/100/1, vertical/start, "invalid"/"Field is required." |
| `Components.Accordion` | atp_ui/components.py:17-22 | category Components; items and always_open carried unchanged |
| `Components.Alerts` | atp_ui/components.py:25-31 | message, type and dismissible carried unchanged |
| `Components.Badge` | atp_ui/components.py:34-40 | content, color and pill carried unchanged |
| `Components.Breadcrumb` | atp_ui/components.py:43-47 | the links carried unchanged |
| `Components.Buttons` | atp_ui/components.py:50-57 | label, variant, size and disabled carried unchanged |
| `Components.ButtonGroup` | atp_ui/components.py:60-65 | component type "Button group" |
| `Components.Card` | atp_ui/components.py:68-74 | header and footer may be None, body defaults to "" |
| `Components.Carousel` | atp_ui/components.py:77-83 | items, indicators and controls carried unchanged |
| `Components.CloseButton` | atp_ui/components.py:86-90 | component type "Close button"; props hold only `aria_label` |
| `Components.Collapse` | atp_ui/components.py:93-98 | target id and show flag carried unchanged |
| `Components.Dropdowns` | atp_ui/components.py:101-106 | label and items carried unchanged |
| `Components.ListGroup` | atp_ui/components.py:109-115 | component type "List group" |
| `Components.Modal` | atp_ui/components.py:118-125 | title, body, size and backdrop flag carried unchanged |
| `Components.Navbar` | atp_ui/components.py:128-134 | `brand_name` is stored under `brand` |
| `Components.NavsTabs` | atp_ui/components.py:137-142 | component type "Navs & tabs" |
| `Components.Offcanvas` | atp_ui/components.py:145-151 | title, body and placement carried unchanged |
| `Components.Pagination` | atp_ui/components.py:154-159 | `current_page`/`total_pages` are stored as `current`/`total` |
| `Components.Placeholders` | atp_ui/components.py:162-167 | lines and size carried unchanged |
| `Components.Popovers` | atp_ui/components.py:170-175 | trigger and content carried unchanged |
| `Components.Progress` | atp_ui/components.py:178-184 | `max_val` is stored under `max`; the label may be None |
| `Components.Scrollspy` | atp_ui/components.py:187-192 | target id and nav items carried unchanged |
| `Components.Spinners` | atp_ui/components.py:195-201 | style, color and size carried unchanged |
| `Components.Toasts` | atp_ui/components.py:204-210 | title, message and delay carried unchanged |
| `Components.Tooltips` | atp_ui/components.py:213-217 | placement and content carried unchanged |
| `Components.ComponentsDefaults` | atp_ui/components.py:25-210 | close label "Close", progress max 100 and no label, navbar fixed "none", alert "info", toast delay 5000 |
| `Components.ComponentsContentDefaults` | atp_ui/components.py:68-217 | 3 placeholder lines, tooltip placement "top", the default popover text, a card with no header and an empty body |
| `OrderedDict.Put` | atp_sdk/clients.py:213-224 | assigning a name keeps the dict consistent; a new name is appended, an existing one keeps its place with the new value |
| `OrderedDict.PutKeepsPosition` | atp_sdk/clients.py:213-224 | re-registering a tool name does not move it in registration order |
| `OrderedDict.KeysCount` | django_atp/views.py:64-75 | a dict lists exactly as many keys as it has entries |
| `ToolkitClient.Call` | atp_sdk/clients.py:246-250 | an unexpected keyword (no `**kwargs`) or a missing required parameter raises before the body runs |
| `ToolkitClient.GenerateSampleParams` | atp_sdk/clients.py:287-304 | the loop yields "sample_value" for every declared parameter and the dummy "sample_token" under `auth_token` unless declared |
| `ToolkitClient.SampleParamsShape` | atp_sdk/clients.py:298-304 | the sample's keys are `auth_token` plus the declared parameters |
| `ToolkitClient.SampleUnavailableWithoutAuthParameter` | atp_sdk/clients.py:244-252 | the dummy `auth_token` makes any tool without `auth_token` or `**kwargs` report "Sample response unavailable" |
| `ToolkitClient.RegistrationPayload` | atp_sdk/clients.py:254-270 | the payload names the tool as `function_id` and carries its code hash |
| `ToolkitClient.RegistrationError` | atp_sdk/clients.py:276-285 | only a connection failure or a 200 reply whose body is not a JSON dict raises; other statuses are only logged |
| `ToolkitClient.StoreToken` | atp_sdk/clients.py:278-285 | only an accepted reply stores a token (its `exchange_token`, or None); any other reply leaves the map unchanged |
| `ToolkitClient.RegisterAllTokensFromAccepted` | atp_sdk/clients.py:169-181 | after re-registration every token comes from an accepted reply for that tool |
| `ToolkitClient.RegisterAllStoresAccepted` | atp_sdk/clients.py:169-181 | when nothing escapes, every tool whose reply was accepted holds a token |
| `ToolkitClient.RegisterAllKeepsKeys` | atp_sdk/clients.py:178-179 | registering further tools never removes a token |
| `ToolkitClient.CallParamsAddsOnlyAuthToken` | atp_sdk/clients.py:509-512 | params pass unchanged unless a truthy token meets `auth_token` or `**kwargs`; then exactly the key `auth_token` is added |
| `ToolkitClient.InjectionIsAccepted` | atp_sdk/clients.py:509-512 | injection never causes an unexpected-keyword error |
| `ToolkitClient.ClassifyMessage` | atp_sdk/clients.py:350-365 | only a dict whose `message_type` is "atp_tool_request" is a tool request |
| `ToolkitClient.SocketRepliesShape` | atp_sdk/clients.py:352-413 | a message gets at most one reply, exactly when it requests a registered tool, shaped `{type, request_id, result}` with the request's id |
| `ToolkitClient.SocketReplyResult` | atp_sdk/clients.py:366-407 | the socket path calls the tool with the injected params and replies `{"error": str(e)}` when it raises |
| `ToolkitClient.OtherMessagesIgnored` | atp_sdk/clients.py:352-415 | connection notices, unknown types and malformed messages get no reply |
| `ToolkitClient.PolledRequest` | atp_sdk/clients.py:461-487 | a polled request is always truthy |
| `ToolkitClient.InboxResponses` | atp_sdk/clients.py:489-530 | one polled request leads to at most two posts |
| `ToolkitClient.InboxPostFailure` | atp_sdk/clients.py:513-522 | a result whose post fails is followed by one post of that failure under the same id; a raising tool is posted once |
| `ToolkitClient.SocketRequestAnswer` | atp_sdk/clients.py:362-407 | a socket request for a registered tool gets exactly one reply: the outcome of calling the tool with the params plus the injected token |
| `ToolkitClient.InboxRequestAnswer` | atp_sdk/clients.py:497-522 | the same request polled from the inbox gets exactly one post with that outcome when the post succeeds |
| `ToolkitClient.InboxAgreesWithSocket` | atp_sdk/clients.py:366-389 | the socket and inbox transports return the same result under the same request id |
| `ToolkitClient.UnregisteredNotAnswered` | atp_sdk/clients.py:409-410 | a request for an unregistered tool gets no reply on either transport |
| `ToolkitClient.IdleProperties` | atp_sdk/clients.py:420 | the idle test is strict, and once idle a client stays idle while nothing arrives |
| `ToolkitClient.UsesInbox` | atp_sdk/clients.py:545-549 | the inbox poller runs exactly when the protocol starts with "http" |
| `ToolkitClient.ToolkitSocketUrl` | atp_sdk/clients.py:556-561 | a URL exists only for http(s) base URLs and then starts with wss:// or ws:// |
| `ToolkitClient.ToolKitClient.constructor` | atp_sdk/clients.py:94-131 | empty registry and tokens, trailing slashes stripped from the base URL |
| `ToolkitClient.ToolKitClient.RegisterTool` | atp_sdk/clients.py:199-227 | the tool is stored (replacing one of the same name) and registered; the token map follows `StoreToken` |
| `ToolkitClient.ToolKitClient.RegisterWithServer` | atp_sdk/clients.py:231-285 | posts the registration payload to `/api/v1/register_tool` and stores the token only for an accepted reply |
| `ToolkitClient.ToolKitClient.ReRegisterTools` | atp_sdk/clients.py:169-181 | clears every token, then registers the tools in order, stopping at the first escaping error; the outbox gains exactly the registration posts of the tools tried, up to and including the one whose error escapes |
| `ToolkitClient.PostsSentPrefix` | atp_sdk/clients.py:176-181 | while every reply passes, each tool tried adds exactly one registration post |
| `ToolkitClient.PostsSentStopsAtError` | atp_sdk/clients.py:169-181 | re-registration ends without an error exactly when no reply raises, and then every tool is posted; otherwise the last post made is the one whose error escaped, and every earlier one passed |
| `ToolkitClient.ToolKitClient.ReportExecution` | atp_sdk/clients.py:306-339 | the token is popped; the result is posted only when the token was present and truthy |
| `ToolkitClient.ToolKitClient.OnMessage` | atp_sdk/clients.py:341-415 | records the activity time and sends exactly the dispatch replies |
| `ToolkitClient.ToolKitClient.ProcessInboxRequest` | atp_sdk/clients.py:442-530 | posts exactly the inbox responses to `/api/v1/toolkit/<key>/inbox/respond` |
| `ToolkitClient.ReportTwice` | atp_sdk/clients.py:314-319 | a second report of the same tool sends nothing |
| `ToolCallFormat.FormatToolCalls` | atp_sdk/clients.py:928-1048 | one entry per call, in order; a failing call becomes the fallback numbered by its index, and later calls are unaffected |
| `ToolCallFormat.FormatFailsOnlyOnOpenAiFunction` | atp_sdk/clients.py:943-951 | formatting raises exactly for an openai dict whose `function` is not a dict |
| `ToolCallFormat.EntryShape` | atp_sdk/clients.py:939-1046 | every entry has type "function" with id, function and arguments; only fallbacks carry `error` |
| `ToolCallFormat.FallbackEntry` | atp_sdk/clients.py:1037-1046 | a failing call gives `{"id": "error_<i>", "function": "unknown", "arguments": {}, "type": "function", "error": msg}` |
| `ToolCallFormat.FallbackIdsDistinct` | atp_sdk/clients.py:1040 | fallback ids of different positions differ |
| `ToolCallFormat.OpenAiMapping` | atp_sdk/clients.py:943-960 | openai reads `function.name` and `function.arguments`, from a dict or an object |
| `ToolCallFormat.AnthropicMapping` | atp_sdk/clients.py:962-979 | anthropic reads `name` and `input` and never fails |
| `ToolCallFormat.MistralMapping` | atp_sdk/clients.py:981-1014 | mistral dicts read `name`/`arguments`; object string arguments are JSON-decoded, `{}` when invalid, and a missing `arguments` attribute gives `{}` |
| `ToolCallFormat.GenericMapping` | atp_sdk/clients.py:1016-1033 | any other provider uses `function` else `name` and `arguments` else `input`, and never fails |
| `ToolCallFormat.EntryJson` | atp_sdk/clients.py:1091-1099 | an entry serialises exactly when it holds no SDK object |
| `ToolCallFormat.DictCallsSerialise` | atp_sdk/clients.py:943-1033 | a dict of JSON data always formats to a serialisable entry, for every provider |
| `LlmClient.Configure` | atp_sdk/clients.py:685-735 | protocol lower-cased and limited to ws/wss/http/https; socket URL `<rewritten base>/<key>/` or the HTTP endpoint; the two ValueErrors |
| `LlmClient.ConfigureNormalises` | atp_sdk/clients.py:703-704 | configuration ignores protocol case and trailing slashes and is stable under re-configuration |
| `LlmClient.RStripSlashIdempotent` | atp_sdk/clients.py:704 | stripping trailing slashes twice is stripping once |
| `LlmClient.ReceiveTable` | atp_sdk/clients.py:787-788 | only toolkit_context/task_response replies write `response_data`, storing `payload` (or `{}`) under `request_id` |
| `LlmClient.ReceiveAuthentication` | atp_sdk/clients.py:780-808 | authenticated is set by a successful auth_response and cleared by an error, a close or a failed auth_response |
| `LlmClient.ReceiveAllKeepsAbsent` | atp_sdk/clients.py:866-873 | an id no delivered reply names stays absent from the table |
| `LlmClient.ReceiveAllKeepsPresent` | atp_sdk/clients.py:787-788 | delivered events never remove a stored reply |
| `LlmClient.ReceiveAllSplit` | atp_sdk/clients.py:773-808 | delivering two runs of events is delivering their concatenation |
| `LlmClient.ReceiveAllKeepsSent` | atp_sdk/clients.py:773-808 | receiving never sends |
| `LlmClient.AwaitConsumes` | atp_sdk/clients.py:869-873 | a waiter removes its reply, so a later wait on the same id times out |
| `LlmClient.AwaitTimesOut` | atp_sdk/clients.py:1114-1118 | a wait whose reply neither is stored nor arrives times out |
| `LlmClient.AwaitFindsArrival` | atp_sdk/clients.py:1114-1121 | a reply arriving during the wait is returned |
| `LlmClient.HeldUntil` | atp_sdk/clients.py:796-808 | the events delivered while `_connect` holds the lock are those before the first error, close or failed auth_response, since `_on_error` and `_on_close` wait for the lock |
| `LlmClient.ConnectSession` | atp_sdk/clients.py:737-761 | does nothing on a ready socket; otherwise the only error is "Authentication timed out.", the final session is every handshake event delivered to the new socket, and without an error or close in the handshake a normal return leaves it authenticated |
| `LlmClient.AuthenticatedWithoutClose` | atp_sdk/clients.py:780-808 | with no error or close, `authenticated` ends set exactly when it was set or a successful auth_response arrives |
| `LlmClient.ConnectDecision` | atp_sdk/clients.py:737-761 | on a socket that is not ready, `_connect` returns normally exactly when a successful auth_response arrives before the first error or close (or `authenticated` was already set) |
| `LlmClient.ConnectUnopened` | atp_sdk/clients.py:763-771 | a socket that never opens sends no auth message and stays disconnected |
| `LlmClient.ConnectHandshake` | atp_sdk/clients.py:763-786 | a new connection sends exactly the auth message and a successful auth_response makes it ready |
| `LlmClient.ConnectAuthThenClose` | atp_sdk/clients.py:737-761 | a close after a successful auth_response is held back by the lock: `_connect` returns normally but leaves the session unauthenticated and disconnected |
| `LlmClient.NotAuthenticatedAfterClose` | atp_sdk/clients.py:845-849 | after such a handshake both `_call_tool_ws` and `_get_toolkit_context_ws` fail with "WebSocket not authenticated." having sent only the auth message |
| `LlmClient.SocketCallsComplete` | atp_sdk/clients.py:1096-1127 | a completed socket loop holds one result per call, in order, under each call's id |
| `LlmClient.SocketBatchComplete` | atp_sdk/clients.py:1085-1127 | a socket batch that succeeds returns one result per call, in order |
| `LlmClient.SocketBatchAbortsOnTimeout` | atp_sdk/clients.py:1114-1118 | a missing first reply fails the batch with "Timed out waiting for task response 1." after one send |
| `LlmClient.SocketContextReturnsReply` | atp_sdk/clients.py:845-873 | on a ready socket the context is the reply's payload, which then leaves the table |
| `LlmClient.LLMClient.constructor` | atp_sdk/clients.py:701-711 | no socket, not authenticated, empty table |
| `LlmClient.LLMClient.OnMessage` | atp_sdk/clients.py:773-794 | the new state is `Receive` of the message |
| `LlmClient.LLMClient.OnError` | atp_sdk/clients.py:796-801 | the socket and authentication are dropped |
| `LlmClient.LLMClient.OnClose` | atp_sdk/clients.py:803-808 | the socket and authentication are dropped |
| `LlmClient.LLMClient.DeliverAll` | atp_sdk/clients.py:773-808 | delivering events in order gives `ReceiveAll` |
| `LlmClient.LLMClient.AwaitReply` | atp_sdk/clients.py:866-873 | the wait-and-pop gives `Await` |
| `LlmClient.LLMClient.Connect` | atp_sdk/clients.py:737-771 | the connection attempt, delivering the handshake up to its first error or close under the lock and the rest after, gives `ConnectSession` |
| `LlmClient.LLMClient.GetToolkitContextWs` | atp_sdk/clients.py:845-873 | the context request gives `SocketContext` |
| `LlmClient.LLMClient.CallToolWs` | atp_sdk/clients.py:1085-1127 | connecting, the re-check of `authenticated` and the batch loop give `SocketBatch` |
| `LlmClient.LLMClient.SendCalls` | atp_sdk/clients.py:1093-1127 | the loop over the calls gives `SocketCalls` |
| `LlmClient.CallToolHttp` | atp_sdk/clients.py:1129-1157 | one item per call, in order; a call whose request raises gets `{"error": str(e)}` and later calls still run; the bodies posted are exactly `HttpTaskPosts` of the calls |
| `LlmClient.HttpTaskPostsAll` | atp_sdk/clients.py:1133-1145 | when every call serialises, one body is posted per call, body `j` being the same `task_request` the socket path sends, under `task_<toolkit>_<j>_<uuid>` |
| `LlmClient.HttpTaskPostsShape` | atp_sdk/clients.py:1134-1142 | every posted body is a `task_request` with exactly the seven keys, carrying the toolkit, provider, auth token and user prompt; never more bodies than calls |
| `LlmClient.HttpContext` | atp_sdk/clients.py:875-885 | posts the same `get_toolkit_context` body as the socket path, under the bare uuid; the context is the reply's payload (or `{}`), and a reply that is not a dict raises |
| `LlmClient.CallToolSequential` | atp_sdk/clients.py:1050-1083 | the loop's items are each call's batch results, "No result returned" for an empty one, `{"error": str(e)}` for a raised one |
| `LlmClient.SequentialOverHttp` | atp_sdk/clients.py:1050-1083 | over HTTP, the sequential path returns what the batch path returns |
| `LlmClient.SequentialOnePerCall` | atp_sdk/clients.py:1076-1081 | with single-item batches, one item per call, and a raised call gives an error item while later calls still run |
| `LlmClient.CallToolPlan` | atp_sdk/clients.py:911-926 | no calls gives `[]`; otherwise sequential, socket or HTTP by flag and protocol |
| `LlmClient.ConfiguredClientsRoute` | atp_sdk/clients.py:715-720 | a configured client always has a path for a non-empty batch |
| `ServerSentEvents.LineEvents` | atp_sdk/clients.py:1202-1211 | a line yields an event exactly when it is a non-empty `data: ` line whose rest decodes |
| `ServerSentEvents.ParseEvents` | atp_sdk/clients.py:1202-1211 | the line loop yields `Events` of the lines |
| `ServerSentEvents.EventsAppend` | atp_sdk/clients.py:1202-1211 | the events of two chunks of lines are the events of each, in order |
| `ServerSentEvents.EventsFromDataLines` | atp_sdk/clients.py:1205-1209 | every event is the decoded rest of some `data: ` line, and events never outnumber lines |
| `ServerSentEvents.NoDataLinesNoEvents` | atp_sdk/clients.py:1204-1206 | a stream without `data: ` lines yields nothing |
| `ServerSentEvents.StreamEvents` | atp_sdk/clients.py:1197-1199 | any status other than 200 raises; otherwise the events of the lines |
| `ServerSentEvents.CallToolStreaming` | atp_sdk/clients.py:1160-1191 | no calls gives nothing; a non-HTTP protocol raises; otherwise one POST with the `Accept`/`Cache-Control` headers, the provider, auth token and user prompt, carrying only the first formatted call |
| `ServerSentEvents.StreamBody` | atp_sdk/clients.py:1176-1184 | the streaming body is the `task_request` with the call under `payload` and the provider, auth token and user prompt |
| `ClientRegistry.Init` | fastapi_atp/registry.py:4-7 | a dict is kept unchanged, anything else becomes `{}` |
| `ClientRegistry.InitIdempotent` | fastapi_atp/registry.py:4-7 | initialising twice is initialising once, and keeps every client |
| `ClientRegistry.GetAfterRegister` | fastapi_atp/registry.py:9-13 | after registering, the name returns the client and other names are unchanged |
| `ClientRegistry.RegisterReplaces` | fastapi_atp/registry.py:10 | registering a name again replaces the earlier client |
| `ClientRegistry.NeverRegisteredIsNone` | fastapi_atp/registry.py:1-13 | from an initialised registry without `name`, any sequence of `register_client` calls under other names succeeds and `get_client(name)` still returns None |
| `ClientRegistry.Registry.constructor` | fastapi_atp/registry.py:2 | the registry starts as an empty dict |
| `ClientRegistry.Registry.InitRegistry` | fastapi_atp/registry.py:4-7 | the new registry is `Init` of the old |
| `ClientRegistry.Registry.RegisterClient` | fastapi_atp/registry.py:9-10 | the new registry is `Register` of the old, or an error on a non-dict |
| `ClientRegistry.Registry.GetClient` | fastapi_atp/registry.py:12-13 | the lookup is `Get` |
| `ToolViews.ToolContext` | django_atp/views.py:12-20 | exactly seven keys, with `function` the tool name |
| `ToolViews.GetToolContext` | django_atp/views.py:8-20 | None exactly for an unknown tool; otherwise the seven public keys |
| `ToolViews.ContextShowsRegisteredMetadata` | django_atp/views.py:12-20 | the context repeats the registered metadata and exposes no source or hash |
| `ToolViews.ToolViewGet` | django_atp/views.py:24-31 | 404 "Toolkit not found" first, then 404 "Tool not found", else 200 with the context |
| `ToolViews.ToolViewPost` | django_atp/views.py:33-49 | the same 404s; parameters that fail to decode give 400 with the decoding error, and decoded parameters that are not a dict give 400 with the `**` mapping error; every response is 200, 400 or 404 |
| `ToolViews.PostOutcome` | django_atp/views.py:45-49 | a tool that returns gives 200 `{"result": r}`; one that raises gives 400 `{"error": str(e)}` |
| `ToolViews.ToolList` | django_atp/views.py:64-75 | one entry per registered tool |
| `ToolViews.ToolkitViewGet` | django_atp/views.py:59-80 | 404 exactly when there is no client; otherwise 200 with exactly `toolkit`, `app_name` and `tools`, `toolkit` being the requested name and `app_name` the client's own when it has one, else the toolkit name |
| `ToolViews.ListingMatchesContexts` | django_atp/views.py:64-79 | the listing is the tools' contexts in registration order, and `app_name` falls back to the toolkit name |
| `Text.ReplaceAll` | atp_sdk/clients.py:557-561 | a string that starts with the pattern is rewritten to start with the replacement |
| `Text.ReplaceAllNoOccurrence` | atp_sdk/clients.py:724-727 | a string without the pattern is unchanged |
| `Text.ReplaceRewritesEveryOccurrence` | atp_sdk/clients.py:727 | `str.replace` rewrites every occurrence, not only the scheme prefix |
| `Text.RStripSlash` | atp_sdk/clients.py:704 | the result is the longest prefix without a trailing slash, and only slashes are removed |
| `Text.AsciiLower` | atp_sdk/clients.py:703 | same length, each character lower-cased |
| `Text.AsciiLowerIdempotent` | atp_sdk/clients.py:703 | lower-casing twice is lower-casing once |
| `Text.NatToString` | atp_sdk/clients.py:1040 | a non-empty string of decimal digits |
| `Text.NatToStringRoundTrip` | atp_sdk/clients.py:1040 | reading the digits back gives the number |
| `Text.SocketBase` | atp_sdk/clients.py:724-729 | defined exactly for https:// and http:// URLs, rewritten to wss:// and ws:// respectively |

## Left out

- Threads, sleeps and event loops are not modelled: `FileWatcher`, `_setup_file_watching`, `_on_code_change`, `start`, `run_forever`, `stop`, the `_watch_idle` loop, the reconnect loop of `_run_ws_loop` and `_poll_inbox_loop`'s sleeping. Only their decisions are modelled (`Idle`, `UsesInbox`, `ToolkitSocketUrl`, one inbox round as `ProcessInboxRequest`). Receiving and waiting are sequential steps. The one place the lock changes the outcome is modelled: `_connect` holds `self.lock` for its whole wait, and `_on_error` and `_on_close` take the same lock, so an error or close (including the close after a failed auth_response) and every event after it are delivered only once `_connect` is done (`HeldUntil`, `ConnectSession`). `_on_message` takes no lock.
- Network I/O is not modelled. Replies are parameters: an `HttpReply`, an outcome `Result`, or the events delivered during a wait. What the toolkit client sends is recorded in `outbox`, and what the LLM client sends on its socket in `sent`.
- `_http_request` posts each payload to one hard-coded URL, ignoring `endpoint`, `method` and `stream`. The payloads are recorded (`HttpTaskPosts`, the first component of `HttpContext`), but the URL and the reply's HTTP details are not; each call's outcome is a parameter.
- A failing socket send inside `on_message` is not modelled. The inner except branch tries to send an `{"error": ...}` reply instead, and if that send fails too, the outer `except` logs it, so nothing escapes `on_message`.
- Tool results and sample responses are JSON values (`Value`), so the paths where `json.dumps` fails on a result are not modelled: the second `{"error": ...}` reply of `on_message`, the registration post raising out of `register_tool`, and the view's 400 when `JsonResponse` cannot encode `{"result": r}`.
- `ToolCallFormat.DictCallsSerialise`: dict-shaped tool calls hold JSON data only, so a dict whose `function` value is an SDK object, which the generic branch would copy into the entry and `json.dumps` would then reject, is not modelled.
- `_run_http_loop`, `_handle_http_message` and `_send_tool_result_http` are not modelled, because `start` never runs them.
- `LlmClient.LLMClient.constructor` does not connect. The constructor's `_connect` is the first `Connect` call.
- Whether a new socket opens is a parameter (`opens`); the model delivers whatever handshake it is given even to a socket that did not open.
- Exception texts raised by Python itself are abstracted to fixed strings: binding errors, non-mapping `**` arguments, JSON encoding of SDK objects, JSON decoding.
- Response bodies of failed HTTP calls are abstracted to an error text.
- Time is an integer clock reading passed in. Fractional seconds are not modelled.
- `ToolkitClient.Call` only binds keyword arguments. Positional-only parameters are not modelled.
- An SDK object is modelled with data attributes only. An object with its own callable `get` is not modelled.
- Python dict keys that compare equal across numeric types (`1`, `1.0`, `True`) are separate keys in `response_data` here.
- `Text.AsciiLower`: lower-cases ASCII letters only, not Unicode, because Dafny has no Unicode case tables.
- The order of keys inside `props` and other JSON dicts is not modelled (dicts are maps). Only `registered_tools` keeps its order.
- Float values are exact rationals. They occur only in the `Gutters` default scale.
- The SHA-256 code hash, `inspect.getsource`, uuids and JSON decoding are parameters.
- `django_atp/registry.py` (the views' `get_client`) is not part of this model. The views take the client it returns, or `None`.
- `django_atp/apps.py` and `django_atp/urls.py` are not modelled; they only hold configuration.
- The views' Django request and response objects are reduced to the decoded parameters and to a `JsonResponse(status, body)`.
- `ServerSentEvents.CallToolStreaming` returns the request it would send, not the event generator. `StreamEvents` models the generator's result from the reply's status and lines.
