# Tool-calling question answering endpoint, modelled in Dafny

The service answers a natural-language question about a dataset by letting a hosted chat model call two
local tools: `execute_sql`, which runs a query on an embedded analytical engine and returns the rendered
table or the error text, and `generate_vega_spec`, which builds a Vega-Lite v5 chart specification.
`query_openai` (the `/query` endpoint) seeds a transcript with a system and a user message, asks the model
up to six times, runs every tool call of a reply in order (appending the model's message and a tool
message tagged with the call id, once per call), stops at the first reply without tool calls, and turns
any exception into an HTTP 500.

The project has five modules:

- `wrappers.dfy` (`Wrappers`): `Option` and `Result`.
- `json.dfy` (`Json`): decoded JSON values and `At`, which looks up a path through nested objects.
- `vega.dfy` (`Vega`): `generate_vega_spec` as a pure function, with lemmas about its output.
- `tools.dfy` (`Tools`): the closed set of tool names, the dispatch table, the advertised schemas and
  Python's keyword-argument binding for the two tools. It also holds the SQL tool, which never raises,
  and the tool-message content `{**arguments, "result": result}`.
- `orchestrator.dfy` (`Orchestrator`): the transcript, the reference definition of the loop
  (`Batch`, `Converse`), and the endpoint itself as methods over a growing `seq<Message>`:
  `QueryOpenAI` for the endpoint, `ToolLoop` for its `while`, `Iteration` for one pass of the loop body
  and `RunToolCalls` for the inner `for`. Each is proved equal to the reference definition, and lemmas
  state what the reference definition guarantees.

The chat model is a parameter `llm: (nat, seq<Message>) -> Result<Reply, string>`: an opaque function of
the number of model calls made before it in the request and of the transcript it is sent, whose
`Failure` stands for the remote call raising. The call number lets a model answer the same transcript
differently on a later call, as a remote model may. The SQL engine is a parameter
`engine: Value -> SqlOutcome`: an opaque function of the query that either renders a table or raises
with a message.

Some points where the code is followed exactly:

- `tool_calls` equal to an empty list is not `None`. Such a reply uses an iteration, appends nothing,
  and the model is asked again, as its next call, with the same transcript.
- Python checks neither argument types nor the `str` annotations, so every argument is a JSON `Value`
  and `generate_vega_spec` echoes whatever it is given.
- An argument named `result` is not a parameter of either tool. A call carrying one raises a TypeError
  when the arguments are bound, before the merge at main.py:162-165. So the merge never overwrites an
  argument.

## Model

| member | source | states |
|---|---|---|
| `Vega.GenerateVegaSpec` | main.py:54-65 | The specification always has exactly the top-level keys `$schema`, `description`, `data`, `mark`, `encoding`. |
| `Vega.AxisTypeFollowsMark` | main.py:61-62 | Both x and y are encoded `"ordinal"` exactly when the mark is `"text"`, and `"quantitative"` exactly when it is any other value. |
| `Vega.SpecEchoesInputs` | main.py:55-63 | The schema URL is the Vega-Lite v5 one. The description, `data.url`, the mark and the x/y fields are the given values, unchanged. The encoding has only the x and y channels. |
| `Vega.ColorFieldIgnored` | main.py:54-65 | Two calls that differ only in `color_field` give the same specification. |
| `Tools.Lookup` | main.py:126-129 | A name is found in the dispatch table exactly when some schema of the `tools` list carries that name; `"execute_sql"` and `"generate_vega_spec"` find their own tool and nothing else does. |
| `Tools.RegistryInSync` | main.py:68-129 | Over the `tools` list as written: every advertised tool name is a key of the dispatch table, and the table maps it to the tool that schema describes. Every key of the table is advertised. The corrected list carries the same names in the same order. |
| `Tools.Binds` | main.py:44-54 | Binding keyword arguments to a tool's signature never accepts a keyword `result`. `execute_sql` binds exactly the argument object with the one key `sql_query`. `generate_vega_spec` binds only objects that carry `question` and `data_url`. |
| `Tools.ExecuteSqlQuery` | main.py:44-51 | The SQL tool returns the rendered table when the engine succeeds and the exception text when it raises. |
| `Tools.Invoke` | main.py:44-65 | Calling a tool with keyword arguments raises exactly when they do not bind to its signature (a required parameter is missing or a keyword is unexpected). `execute_sql` then returns a string and `generate_vega_spec` a chart object. |
| `Tools.Dispatch` | main.py:157-165 | A name missing from the dispatch table raises the lookup error for that name. A known name succeeds exactly when the arguments bind. |
| `Tools.DispatchMergesResult` | main.py:162-165 | The tool message content has the argument keys plus `"result"`. Every other argument is kept unchanged, and `"result"` holds the tool's return value. |
| `Tools.ResultArgumentNeverOverwritten` | main.py:159-165 | A call with an argument named `result` raises while binding, so no argument is ever overwritten by the merge. |
| `Tools.SqlErrorsBecomeToolOutput` | main.py:44-51 | With its one argument, `execute_sql` never makes the call raise. On an engine exception its result is the exception text. On success its result is the rendered table. |
| `Tools.ChartCallAxisTypes` | main.py:54-62 | A chart call that binds yields a tool result whose mark is the given one, or `"bar"` when left out. Both axis types are `"ordinal"` for a `"text"` mark and `"quantitative"` otherwise. The x and y fields are the given ones, or `null` when left out. The description is the question and `data.url` the data URL. |
| `Tools.AdmittedArgumentsBind` | main.py:68-124 | In the list with the corrected `execute_sql` schema, every argument object a schema admits binds to the signature of the tool its name dispatches to. |
| `Tools.ExecuteSqlSchemaAsWrittenAdmitsUnboundArguments` | main.py:72-84 | The `execute_sql` schema as written admits `{"sql_query": "SELECT 1", "limit": "5"}`, which `execute_sql(**arguments)` rejects. |
| `Orchestrator.Seed` | main.py:135-140 | A request starts from two messages: the system prompt, then a user message made of `"Question:"`, the prompt and `" Data:"`, in that order. |
| `Orchestrator.Batch` | main.py:153-176 | A batch that completes appends two messages per tool call. A batch raises only when it has a call, and then with a tool error. |
| `Orchestrator.BatchSucceedsIff` | main.py:153-159 | A batch of tool calls completes exactly when every call in it dispatches without raising. |
| `Orchestrator.BatchMessages` | main.py:153-176 | For the k-th call, in order, the batch appends the model's whole message (once per call, not per batch). It then appends a tool message whose `tool_call_id` is that call's id and whose content is that call's dispatch result. |
| `Orchestrator.BatchFirstError` | main.py:153-159 | A batch that raises does so with the error of its first call that raises, and every earlier call dispatched. |
| `Orchestrator.BatchPaired` | main.py:166-176 | The messages a batch appends form assistant/tool pairs. Each tool message answers a call requested by the assistant message just before it. |
| `Orchestrator.Converse` | main.py:142-177 | A run from iteration `i` makes at least one and at most `6 - i` model calls. |
| `Orchestrator.ConverseStopsAtFirstFinal` | main.py:142-151 | The first reply is the model's answer to the starting transcript. Every reply but the last requested tools. The last one requested none or used up the budget. |
| `Orchestrator.ConverseTranscriptLength` | main.py:153-177 | A run grows the transcript by exactly two messages per tool call requested. The reply that ends the run adds nothing. |
| `Orchestrator.ConversePaired` | main.py:139-176 | A run only appends to the transcript it started from, and never changes what is already there. What it appends is a sequence of assistant/tool pairs, each tool message answering a call of the assistant message before it. |
| `Orchestrator.ToolCallingModelExhaustsBudget` | main.py:137-177 | A model that always requests tools the registry can run is asked exactly as many times as the budget allows. The run still completes, with no error. |
| `Orchestrator.EmptyToolCallsAskAgain` | main.py:150-176 | A reply whose tool calls are an empty list does not end the run: nothing is appended, and the run goes on with the model's next call on the same transcript. |
| `Orchestrator.UnknownToolAborts` | main.py:153-158 | A requested tool that is not in the dispatch table aborts the run. If every earlier call dispatched, the error is that name's lookup failure. |
| `Orchestrator.RunToolCalls` | main.py:153-176 | The inner loop over one reply's tool calls appends exactly what the reference batch appends, or raises with its error. |
| `Orchestrator.Iteration` | main.py:143-176 | One pass of the loop body ends the run with the reply when it has no tool calls, raises as the reference run does, or appends to the transcript and continues exactly as the reference run continues. |
| `Orchestrator.ToolLoop` | main.py:142-176 | The loop makes 1 to 6 model calls, only appends to its transcript, and ends with the last reply or the exception, exactly as the reference run says. |
| `Orchestrator.QueryOpenAI` | main.py:133-181 | The endpoint makes 1 to 6 model calls, and its transcript starts with the system message and `"Question:" + prompt + " Data:"`. It returns the last reply or a 500 error carrying the exception, exactly as the reference run says. A returned reply has no tool calls unless all 6 calls were used. The appended messages are assistant/tool pairs. |

## Findings

| source | as written | input that shows it | evidently intended | confidence | as-written member | corrected member |
|---|---|---|---|---|---|---|
| main.py:72-84 | `"additionalProperties": False` sits inside `properties` of the `execute_sql` schema, which declares a forbidden property named `additionalProperties` and leaves the parameter object open. | arguments `{"sql_query": "SELECT 1", "limit": "5"}` are valid under the advertised schema, but `execute_sql(**arguments)` raises a TypeError, and the request then fails with a 500 | the parameter object is closed, as it is for `generate_vega_spec` at main.py:121, so every admitted argument object binds | medium, not executed | `Tools.ExecuteSqlSchemaAsWrittenAdmitsUnboundArguments` | `Tools.AdmittedArgumentsBind` |

## Left out

- The web framework: app setup, static files, CORS, the `/` route and the pydantic request and response models (main.py:1-40, 183-186).
- The hosted chat-completion client and its request (model name, `tools=tools`). The model is the opaque parameter `llm`, and the schemas it is sent do not influence it in the model.
- Environment and secret loading.
- The SQL engine and the pandas rendering of its result. The engine is an opaque function of the query, and a query's effect on the store seen by later queries (for example creating a table) is not modelled.
- JSON decoding of the tool-call arguments and JSON encoding of the tool message. Arguments arrive as a decoded map. Malformed argument text, and arguments that decode to a non-object, are not modelled.
- Numbers in JSON values are integers; floating point is not modelled.
- The schema descriptions and `default` hints are not modelled: they only inform the remote model.
- `QueryOpenAI`: on success it returns the last model reply itself, not the result of wrapping it in the pydantic response model (main.py:179), whose behaviour belongs to the library.
- `QueryOpenAI`: the error detail is the exception as a value (`Orchestrator.Error`), not its rendering by `str(e)`.
- `QueryOpenAI`: on an error the transcript it returns is the one before the failing batch, whereas the source may have appended part of that batch. The source discards the transcript in that case.
- `async` execution and concurrent requests sharing the store.
- static/script.js: browser user interface.
