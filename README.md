# MuLi tool core, modelled in Dafny

MuLi is a desktop assistant. A language model talks to the user and calls tools. This
project models the parts of MuLi that decide what those tools are and what calling them does:

- **Tool discovery.** `generate_openai_tools` reads the `TOOL_*` definition block of every
  local tool file and builds one OpenAI function descriptor per function.
  `fastmcp_to_openai_tools` converts the descriptors fetched from an MCP server, and
  `list_tools` reports them with their names.
- **Tool dispatch.** `execute_tool` finds and calls a local tool. `execute_mcp_tools`
  flattens an MCP call result into text.
- **The persistent shell tool** (`shell_for_ai`). It keeps a `docker exec` session on a
  pseudo-terminal with an output buffer and a table of TCP port forwards.
- **The time tool.** It keeps named timers and stopwatches and renders time differences.
- **The file copy tool.** It validates batches of host to container copies and the reverse,
  and aggregates their results.
- **The chat history** of `AIModel`.
- **The display logger.**
- **The text formatting step** of the dialogue encoder.

There is one Dafny module per source file.

- **Mutable module state and objects become classes:**
  - `ShellForAi.ShellBroker` (`SHELL_SESSION`);
  - `TimeTool.TimeRegistry` (`_timers`, `_stopwatches`);
  - `AIModel.AIModel`;
  - `Logger.DisplayLogger`.
- **How state changes are stated.** Each state-changing method's postcondition says the new
  state and the reply equal a pure transition function of the old state, for example
  `ShellForAi.ExposeNext`. The lemmas state the promised properties of those functions.
- **Loops are methods proved against a specification function**, for example
  `PyTools.GenerateOpenaiTools` against `PyTools.AllTools`.
- **What the operating system, Docker, the MCP server, the clock and the language-model
  provider report is an input.** Each is a datatype value or a function from the item index
  to its outcome.
- **Dict order.** A Python dict keeps insertion order, so a dict whose order is observable is
  a sequence of key/value pairs. Assignment keeps a key's position (`Json.Upsert`) and
  deletion removes it (`Json.Remove`, `ShellForAi.RemovePort`).

Modules:

| module | models |
|---|---|
| `Wrappers` | `Option`, `Result` |
| `Strings` | the joining, splitting, integer formatting and UTF-8 encoding the source relies on |
| `Json` | JSON values and dict-ordered objects |
| `ToolExecutor` | `core/tools/tool_executor.py` |
| `PyTools` | `core/tools/py_tools/__init__.py` |
| `McpTools` | `core/tools/mcp_tools/mcp_tools.py` |
| `Tools` | `core/tools/__init__.py` |
| `ShellForAi` | `core/tools/py_tools/shell_for_ai.py` |
| `TimeTool` | the timers, stopwatches and `get_time_difference` of `core/tools/py_tools/time.py` |
| `FileCopy` | `core/tools/py_tools/file_copy_container.py` |
| `AIModel` | `llms/AIModel.py` |
| `Logger` | `core/utils/logger.py` |
| `DialogueEncoder` | the formatting in `Live2D/DialogueEncoder.py` |

## Model

| member | source | states |
|---|---|---|
| ToolExecutor.TryModule | core/tools/tool_executor.py:14-26 | A file answers a call exactly when it is a `.py` file other than `__init__.py`, imports, defines the function, the arguments are a JSON object and the call returns; its answer is the returned text |
| ToolExecutor.FirstMatch | core/tools/tool_executor.py:13-26 | The search finds nothing exactly when no file in the listing answers |
| ToolExecutor.FirstMatchIsFirst | core/tools/tool_executor.py:13-24 | A found answer comes from some file that answers, and every file before it in listing order does not |
| ToolExecutor.FirstAnswerWins | core/tools/tool_executor.py:13-24 | Conversely, the first answering file in listing order determines the result |
| ToolExecutor.OnlyCandidatesConsulted | core/tools/tool_executor.py:13-14 | Searching the whole listing gives the same answer as searching only the `.py` files other than `__init__.py` |
| ToolExecutor.Candidates | core/tools/tool_executor.py:14 | The candidates are exactly the listed files that pass the name filter |
| ToolExecutor.BadArgumentsInvokeNothing | core/tools/tool_executor.py:7-30 | Arguments that are not JSON give the format error whatever the tool directory holds |
| ToolExecutor.NotFoundExactly | core/tools/tool_executor.py:13-28 | The not-found message is returned exactly when no file answers; otherwise the first answer is returned |
| ToolExecutor.ExecuteTool | core/tools/tool_executor.py:6-32 | Defines the result of `execute_tool`: the format error, the listing failure, the first file's answer or the not-found message; characterised by `ExecuteOutcomes`, `NotFoundExactly` and `BadArgumentsInvokeNothing` |
| ToolExecutor.ExecuteOutcomes | core/tools/tool_executor.py:6-32 | The call never raises: the result is the format error, the listing failure message, the not-found message, or the text some file's tool returned |
| PyTools.Description | core/tools/py_tools/__init__.py:42-53 | The published description always starts with the tool's own description |
| PyTools.DescriptionSuffix | core/tools/py_tools/__init__.py:44-53 | The mount mapping is appended only to the `shell_for_ai` tool's description and only when it is non-empty; otherwise the description is unchanged |
| PyTools.FlattenMembers | core/tools/py_tools/__init__.py:63-64 | An item is visited exactly when it belongs to one of the function's parameter dicts |
| PyTools.UpsertDistinct | core/tools/py_tools/__init__.py:65-68 | Assigning a property keeps the property names unique |
| PyTools.PropertiesKeys | core/tools/py_tools/__init__.py:60-69 | The property names are unique and are exactly the parameter names |
| PyTools.PropertiesLastWins | core/tools/py_tools/__init__.py:64-68 | A property is the string schema holding the description of the last item with that name |
| PyTools.FunctionToolShape | core/tools/py_tools/__init__.py:58-83 | A descriptor has type `function` and carries the function's name and the shared description; its parameters are an object schema whose unique property names are exactly the parameter names, each item having its property |
| PyTools.FunctionToolRequired | core/tools/py_tools/__init__.py:61-79 | The `required` list of a descriptor holds the name of every parameter item of every dict, in order and with repeats |
| PyTools.FileToolsShape | core/tools/py_tools/__init__.py:9-86 | A filtered-out file, a file without the block, an unreadable block or a missing `TOOL_*` name contributes nothing; otherwise there is one descriptor per function, in order, until the parameter lists run out |
| PyTools.FileTools | core/tools/py_tools/__init__.py:9-86 | Defines the descriptors one file contributes, keeping those made before an exception; characterised by `FileToolsShape` and `FunctionToolShape` |
| PyTools.AllTools | core/tools/py_tools/__init__.py:5-88 | Defines the descriptors of all listed files, in listing order; characterised by `AllToolsAppend` |
| PyTools.AllToolsAppend | core/tools/py_tools/__init__.py:9-88 | Files contribute independently and in listing order: the tools of two listings run together are the tools of the first followed by those of the second |
| PyTools.BuildParameters | core/tools/py_tools/__init__.py:60-69 | The outer loop builds the property dict and the `required` list of all items of all dicts |
| PyTools.AddItems | core/tools/py_tools/__init__.py:64-69 | The inner loop assigns each item's property and appends its name, continuing from what earlier dicts built |
| PyTools.ItemSnoc | core/tools/py_tools/__init__.py:65-69 | One more item assigns its property in place or appends it, and appends its name to `required` |
| PyTools.Built | core/tools/py_tools/__init__.py:58-59 | The number of functions that get a descriptor is the first index whose parameter list is missing or malformed, or the number of functions; every earlier list is a list of dicts |
| PyTools.FunctionDescriptor | core/tools/py_tools/__init__.py:59-82 | One loop turn builds the descriptor of one function from its parameter list |
| PyTools.DescriptorsOf | core/tools/py_tools/__init__.py:58-83 | The per-function loop yields one descriptor per function, in order, up to the first missing or malformed parameter list, each built from that function's dicts |
| PyTools.ToolsOfFile | core/tools/py_tools/__init__.py:42-86 | The per-file loop yields the descriptors the file contributes, keeping those made before an index error |
| PyTools.GenerateOpenaiTools | core/tools/py_tools/__init__.py:5-88 | The result is every file's descriptors, in listing order |
| McpTools.OrNull | core/tools/mcp_tools/mcp_tools.py:22-29 | An absent attribute is published as null; a present one keeps its value |
| McpTools.Parameters | core/tools/mcp_tools/mcp_tools.py:30-41 | Defines the converted `parameters`; characterised by `ParametersSpec` |
| McpTools.Convert | core/tools/mcp_tools/mcp_tools.py:43-50 | Defines one converted descriptor; characterised by `ConvertShape` |
| McpTools.ParametersSpec | core/tools/mcp_tools/mcp_tools.py:30-41 | A missing or empty schema becomes the empty object schema; an object schema loses exactly its `$schema` member and keeps every other member's value; a schema without `$schema` is kept as it is |
| McpTools.ConvertShape | core/tools/mcp_tools/mcp_tools.py:43-50 | A converted descriptor has type `function` and carries the tool's name, description and converted parameters |
| McpTools.FastmcpToOpenaiTools | core/tools/mcp_tools/mcp_tools.py:10-52 | One converted descriptor per fetched tool, in order |
| McpTools.ToolNames | core/tools/mcp_tools/mcp_tools.py:62 | The listing fails exactly when some tool lacks a name; otherwise the names come in tool order |
| McpTools.ListToolsAligned | core/tools/mcp_tools/mcp_tools.py:55-63 | Each reported name is the name inside the descriptor at the same position |
| Tools.AdvertisedTools | core/tools/__init__.py:8 | The advertised list is the local descriptors followed by the MCP descriptors |
| Tools.PartText | core/tools/__init__.py:19-24 | An item contributes its `text` when it has one and its rendering otherwise |
| Tools.ResultText | core/tools/__init__.py:15-27 | Defines the text of a call result: the parts joined by newlines, or the rendering when there is no content; characterised by `ResultTextCases`, `ResultTextSplits` and `ResultTextLength` |
| Tools.ExecuteMcpTools | core/tools/__init__.py:15-27 | The collection loop and the join yield the result text |
| Tools.ResultTextCases | core/tools/__init__.py:15-27 | Empty content gives the empty string, a single item its own text, and a result without content its rendering |
| Tools.ResultTextSplits | core/tools/__init__.py:25 | Splitting the text at newlines gives back exactly the parts, in order, when no part holds a newline |
| Tools.ResultTextLength | core/tools/__init__.py:25 | The text is as long as the parts plus one newline between neighbours |
| ShellForAi.DrainedIgnoresAfterStop | core/tools/py_tools/shell_for_ai.py:129-139 | Nothing after the poll that ends the read loop is read |
| ShellForAi.DrainedAppendsChunks | core/tools/py_tools/shell_for_ai.py:130-137 | Chunks that do not end the loop are appended in order |
| ShellForAi.EnsureDisabled | core/tools/py_tools/shell_for_ai.py:60-62 | When disabled, the fixed error is returned and no field changes |
| ShellForAi.EnsureAliveNoOp | core/tools/py_tools/shell_for_ai.py:64-70 | A live process makes the call a no-op apart from recording the container name |
| ShellForAi.EnsureKeepsBuffer | core/tools/py_tools/shell_for_ai.py:56-122 | Session validity is kept and forwards are untouched. The buffer only grows: the banner is appended on a start and a dead process's buffer is kept. Success comes exactly with a live or newly started process. A dead process whose restart fails, for any reason, loses its handles and keeps its buffer unchanged |
| ShellForAi.EnsureIdempotent | core/tools/py_tools/shell_for_ai.py:56-70 | After a successful call, a second call while the process lives changes nothing |
| ShellForAi.CtrlLetter | core/tools/py_tools/shell_for_ai.py:171-176 | `Ctrl+x` and `Ctrl+X` both send the single control code of letter x |
| ShellForAi.CtrlKeyCodes | core/tools/py_tools/shell_for_ai.py:171-178 | A six-character `Ctrl+` key sends one byte in 1..26 exactly when its lower-cased character is a letter; otherwise it is reported unknown |
| ShellForAi.CtrlTableEntriesAgree | core/tools/py_tools/shell_for_ai.py:159-178 | The table's Ctrl entries agree with the computed codes |
| ShellForAi.NamedKeyBytes | core/tools/py_tools/shell_for_ai.py:159-181 | Enter and Return send LF, Tab sends HT, and Up and Down send ESC [ A and ESC [ B |
| ShellForAi.NamedKeysNotCtrl | core/tools/py_tools/shell_for_ai.py:171-179 | The named keys are not six-character `Ctrl+` keys, so the table serves them |
| ShellForAi.UnknownKeyWritesNothing | core/tools/py_tools/shell_for_ai.py:182-183 | Any other key is reported unknown |
| ShellForAi.InputReplyNoInput | core/tools/py_tools/shell_for_ai.py:152-189 | The reply is "No input provided." exactly when neither text nor key was given; otherwise it starts with the first step's message |
| ShellForAi.InputSteps | core/tools/py_tools/shell_for_ai.py:152-183 | The text step and then the key step yield the step messages and the written bytes |
| ShellForAi.KeyStep | core/tools/py_tools/shell_for_ai.py:158-183 | The key step writes the translated bytes and reports "Sent key", or writes nothing and reports the key unknown |
| ShellForAi.SentBytesOrder | core/tools/py_tools/shell_for_ai.py:154-183 | The UTF-8 text is written before the key, and an unknown key adds no byte |
| ShellForAi.OutputDrainsAndClears | core/tools/py_tools/shell_for_ai.py:200-213 | A successful read returns everything buffered so far plus the new output and leaves the buffer empty |
| ShellForAi.OutputTwice | core/tools/py_tools/shell_for_ai.py:208-213 | Output is never delivered twice: a second read with no new data returns nothing |
| ShellForAi.RestartThenFreshStart | core/tools/py_tools/shell_for_ai.py:223-240 | After a restart the forwards are kept, and the next start holds only the new banner |
| ShellForAi.RemovePortSpec | core/tools/py_tools/shell_for_ai.py:399 | Deleting a port removes exactly the entries with that key, keeps the rest and their uniqueness, and changes nothing when the port is absent |
| ShellForAi.PruneDeadSpec | core/tools/py_tools/shell_for_ai.py:361-373 | Pruning keeps exactly the live entries |
| ShellForAi.PruneDeadDistinct | core/tools/py_tools/shell_for_ai.py:361-373 | Pruning keeps host ports unique |
| ShellForAi.CleanupRemovesDead | core/tools/py_tools/shell_for_ai.py:359-373 | Deleting the collected dead ports one after another removes exactly the dead entries |
| ShellForAi.ForwardLine | core/tools/py_tools/shell_for_ai.py:369 | Defines one listing line; characterised by `ForwardLineStatus`, `ForwardLineStart` and `ForwardLineNoNewline` |
| ShellForAi.ForwardLineStatus | core/tools/py_tools/shell_for_ai.py:362-369 | A line ends with "(Process Died)" exactly when the relay has exited, and with "(Active)" otherwise |
| ShellForAi.ForwardLineStart | core/tools/py_tools/shell_for_ai.py:369 | A line starts with `  Host:`, the host port and ` -> Container:` |
| ShellForAi.ForwardLineNoNewline | core/tools/py_tools/shell_for_ai.py:369 | A line holds no newline when the container address holds none |
| ShellForAi.ListReplyLines | core/tools/py_tools/shell_for_ai.py:353-375 | When no container address holds a newline, a non-empty listing splits at its newlines into exactly the header and one line per entry in table order, each marked "(Process Died)" exactly when its relay has exited |
| ShellForAi.ListReportsAndPrunes | core/tools/py_tools/shell_for_ai.py:353-375 | The reply is the fixed message exactly when the table is empty. Afterwards exactly the live entries remain, host ports stay unique, and the shell session is untouched |
| ShellForAi.ExposeAddsOne | core/tools/py_tools/shell_for_ai.py:256-351 | Exposing either leaves the table unchanged or appends exactly one entry: under a host port that was free, with the container port and address, replying with the success message |
| ShellForAi.ExposeSucceeds | core/tools/py_tools/shell_for_ai.py:256-351 | An entry under the effective host port, with the relay, container port and address, is appended and reported as exposed exactly when both ports are integers, the session starts, the container has an address, the host port is free and the relay did not exit before saying it was ready; otherwise the table is unchanged |
| ShellForAi.ExposeDuplicateRefused | core/tools/py_tools/shell_for_ai.py:279-280 | A host port already forwarded is refused and the table is unchanged |
| ShellForAi.ExposeSamePortTwice | core/tools/py_tools/shell_for_ai.py:276-346 | Exposing again on the host port just bound is refused |
| ShellForAi.CloseRemovesExactly | core/tools/py_tools/shell_for_ai.py:377-400 | Closing an absent port is an error that changes nothing. Closing a present one removes exactly that entry, and a later listing's cleanup leaves it absent |
| ShellForAi.ListAfterClose | core/tools/py_tools/shell_for_ai.py:353-400 | After a close, when no container address holds a newline, every line of a non-empty next listing after the header is the line of a remaining entry, and none of those entries has the closed host port |
| ShellForAi.ScanForwards | core/tools/py_tools/shell_for_ai.py:361-369 | The report loop yields one line per entry in table order, each the entry rendered by the given line format (the listing passes `ForwardLine`), and the dead ports in the same order |
| ShellForAi.ShellBroker.DeleteForwards | core/tools/py_tools/shell_for_ai.py:371-373 | Deleting the collected host ports one after another leaves `RemovePorts` of the old table |
| ShellForAi.ShellBroker.constructor | core/tools/py_tools/shell_for_ai.py:38-46 | The initial session: no process, empty buffer, default container, no forwards |
| ShellForAi.ShellBroker.ReadAvailableOutput | core/tools/py_tools/shell_for_ai.py:124-139 | The drained bytes are appended to the buffer; without a descriptor nothing is read |
| ShellForAi.ShellBroker.EnsureSession | core/tools/py_tools/shell_for_ai.py:56-122 | The session moves as `EnsureNext` says and stays valid |
| ShellForAi.ShellBroker.SendShellInput | core/tools/py_tools/shell_for_ai.py:141-189 | The session, the reply and the written bytes follow `InputNext` |
| ShellForAi.ShellBroker.GetShellOutput | core/tools/py_tools/shell_for_ai.py:191-221 | The session and the returned bytes follow `OutputNext` |
| ShellForAi.ShellBroker.RestartShellSession | core/tools/py_tools/shell_for_ai.py:223-240 | Process, descriptor and buffer are cleared; the fixed reply is returned |
| ShellForAi.ShellBroker.ExposeContainerPort | core/tools/py_tools/shell_for_ai.py:256-351 | The session and the reply follow `ExposeNext` |
| ShellForAi.ShellBroker.ListExposedPorts | core/tools/py_tools/shell_for_ai.py:353-375 | The session and the reply follow `ListNext` |
| ShellForAi.ShellBroker.CloseExposedPort | core/tools/py_tools/shell_for_ai.py:377-400 | The session and the reply follow `CloseNext` |
| TimeTool.StartTimerSpec | core/tools/py_tools/time.py:229-251 | A name whose timer is unfinished is refused with nothing changed. Otherwise the timer is (re)created unfinished, ending `seconds` after now, and the other timers are untouched |
| TimeTool.StopTimerSpec | core/tools/py_tools/time.py:254-277 | An unknown name changes nothing. Otherwise that timer, and only it, becomes finished, whether or not it had expired |
| TimeTool.StopThenStartAccepted | core/tools/py_tools/time.py:240-276 | A stopped timer frees its name for a new start |
| TimeTool.CleanedUpSpec | core/tools/py_tools/time.py:378-386 | Exactly the expired timers become finished and nothing else changes; cleanup is idempotent |
| TimeTool.StopwatchSpec | core/tools/py_tools/time.py:280-331 | Starting a present stopwatch changes nothing and starting a new one adds it running. Stopping an absent or stopped one changes nothing; stopping a running one only clears its running flag |
| TimeTool.StopwatchNameNeverFreed | core/tools/py_tools/time.py:290-320 | Once a stopwatch name is used, starting it again is refused after any sequence of operations |
| TimeTool.TimeRegistry.constructor | core/tools/py_tools/time.py:62-64 | Both registries start empty |
| TimeTool.TimeRegistry.StartTimer | core/tools/py_tools/time.py:229-251 | Timers and reply follow `StartTimerNext` |
| TimeTool.TimeRegistry.StopTimer | core/tools/py_tools/time.py:254-277 | Timers and reply follow `StopTimerNext` |
| TimeTool.TimeRegistry.StartStopwatch | core/tools/py_tools/time.py:280-298 | Stopwatches and reply follow `StartStopwatchNext` |
| TimeTool.TimeRegistry.StopStopwatch | core/tools/py_tools/time.py:301-331 | Stopwatches and reply follow `StopStopwatchNext` |
| TimeTool.TimeRegistry.CleanupTimers | core/tools/py_tools/time.py:378-386 | Collecting, then marking, yields `CleanedUp` of the old timers |
| TimeTool.Breakdown | core/tools/py_tools/time.py:352-356 | Hours < 24 and minutes and seconds < 60, and days, hours, minutes and seconds add back to the total |
| TimeTool.ComponentsSpec | core/tools/py_tools/time.py:359-366 | At least one component is written. Days, hours and minutes appear exactly when non-zero. Seconds appear when non-zero or when nothing else does |
| TimeTool.ComponentsTextRendersComponents | core/tools/py_tools/time.py:358-366 | The text is the written components, in order, each rendered with its unit |
| TimeTool.TimeDifferenceSpec | core/tools/py_tools/time.py:345-372 | An end before the start is refused. Otherwise the text is the label, the components of an exact breakdown, and the grouped total |
| TimeTool.TimeDifference | core/tools/py_tools/time.py:345-372 | Defines the reply of `get_time_difference`; characterised by `TimeDifferenceSpec`, `ComponentsSpec` and `ComponentsTextRendersComponents` |
| FileCopy.CountsCoverResults | core/tools/py_tools/file_copy_container.py:108-164 | When no entry is pending, successes plus failures equals the number of entries |
| FileCopy.HostToContainerValidation | core/tools/py_tools/file_copy_container.py:73-106 | Unequal lists are refused first, then an empty batch succeeds, then a failed container lookup is reported |
| FileCopy.HostToContainerCompleted | core/tools/py_tools/file_copy_container.py:108-172 | A completed batch has one settled entry per pair, in order, with counts that add up; an entry succeeds exactly when the archive was accepted |
| FileCopy.CopyFilesFromHostToContainer | core/tools/py_tools/file_copy_container.py:58-172 | The loop's report is `HostToContainer` |
| FileCopy.ContainerToHostValidation | core/tools/py_tools/file_copy_container.py:190-223 | The same validation order for the reverse direction |
| FileCopy.ContainerToHostCompleted | core/tools/py_tools/file_copy_container.py:225-297 | A completed batch has one settled entry per pair, in order, with counts that add up; an entry succeeds exactly when the file was extracted |
| FileCopy.CopyFilesFromContainerToHost | core/tools/py_tools/file_copy_container.py:175-297 | The loop's report is `ContainerToHost` |
| AIModel.ChatGrowth | llms/AIModel.py:10-27 | A successful chat appends the user message (unless after a tool call) and then the reply, and returns exactly that reply |
| AIModel.ChatUnsupported | llms/AIModel.py:16-25 | An unknown provider type raises after the user message was appended, and no reply is appended |
| AIModel.RunExtends | llms/AIModel.py:8-30 | The history is append-only: every earlier history, the system message included, is a prefix of every later one |
| AIModel.AIModel.constructor | llms/AIModel.py:5-8 | The history starts as the single system message |
| AIModel.AIModel.Chat | llms/AIModel.py:10-27 | History and outcome follow `ChatNext`; the system message stays first |
| AIModel.AIModel.AddToolResult | llms/AIModel.py:29-30 | Exactly one tool message is appended |
| Logger.Loaded | core/utils/logger.py:14-20 | A file that is missing or unreadable gives no entries |
| Logger.LogSpec | core/utils/logger.py:22-38 | `log` appends exactly one entry and keeps the earlier ones. A successful save loads back as the whole list. A failed open leaves the file as it was |
| Logger.LogAllSpec | core/utils/logger.py:22-38 | After any run of calls the list is the loaded entries plus one entry per call; if the last save succeeded, reloading restores it |
| Logger.DisplayLogger.constructor | core/utils/logger.py:7-12 | A new logger holds what the file loads to |
| Logger.DisplayLogger.Load | core/utils/logger.py:14-20 | A missing file leaves the list; an unreadable one empties it; a readable one replaces it |
| Logger.DisplayLogger.Log | core/utils/logger.py:22-30 | List and file follow `LogNext` |
| Logger.DisplayLogger.Save | core/utils/logger.py:32-38 | The file follows `SavedFile` |
| DialogueEncoder.FormatBatch | Live2D/DialogueEncoder.py:44 | One formatted text per history, in batch order |
| DialogueEncoder.FormatDialogue | Live2D/DialogueEncoder.py:19-26 | Defines `_format_dialogue`; characterised by `FormatSmallCases`, `FormatAppend` and `FormatDialogueLength` |
| DialogueEncoder.FormatSmallCases | Live2D/DialogueEncoder.py:19-26 | No turns give the empty text; one turn gives exactly its labelled form |
| DialogueEncoder.FormatAppend | Live2D/DialogueEncoder.py:19-26 | Adding a turn appends a blank line and the new turn |
| DialogueEncoder.FormattedTurnsLength | Live2D/DialogueEncoder.py:21-24 | The labelled turns take the utterances' length plus eleven label characters each |
| DialogueEncoder.FormatDialogueLength | Live2D/DialogueEncoder.py:19-26 | The text is as long as the utterances, eleven label characters per turn and two separator characters between turns |
| Json.UpsertGet | core/tools/py_tools/__init__.py:65-68 | After `d[k] = v`, `d[k]` is `v` and every other key keeps its value |
| Json.UpsertKeys | core/tools/py_tools/__init__.py:65-68 | After `d[k] = v` the keys keep their order, with `k` appended only when new |
| Json.RemoveKeepsOthers | core/tools/mcp_tools/mcp_tools.py:37-38 | After `del d[k]` the key is gone and every other key keeps its value |
| Strings.Utf8EncodeAppend | core/tools/py_tools/shell_for_ai.py:155 | Encoding distributes over concatenation |
| Strings.EncodeScalarRoundTrip | core/tools/py_tools/shell_for_ai.py:155 | The UTF-8 bytes written for one character of `input_text` decode back to that character, so the encoding loses nothing |
| Strings.Utf8EncodeLength | core/tools/py_tools/shell_for_ai.py:155 | The bytes written for `input_text` are empty exactly when the text is, and number between one and four per character |
| Strings.Utf8EncodeAscii | core/tools/py_tools/shell_for_ai.py:155 | ASCII text is written as its own character codes, one byte per character |
| Strings.SplitJoin | core/tools/__init__.py:25 | Splitting a join at its separator gives back the parts when none contains the separator |
| Strings.NatToStringRoundTrip | core/tools/py_tools/time.py:360-366 | The decimal rendering of a number reads back as that number |

## Left out

- **Process, terminal and Docker effects are inputs, not modelled code.**
  - Covered: the pseudo-terminal and `select`/`os.read`, `docker ps`/`exec`/`inspect`, `subprocess.Popen`, `_find_free_port`, `poll`, `terminate`, `wait` and `kill`.
  - Each arrives as a value: `Poll`, `HostWorld`, `ExposeWorld` and the `exited` set.
  - The sleeps only wait, so they are left out.
- **The relay script is not modelled.** This is the Python TCP proxy in `shell_for_ai.py`, lines 284-321. Only its outcome is: it raised, it said `READY`, or it exited early.
- **Configuration is an input.** This covers the enable flag, the container name and the mount mapping. `config_manage` is not part of this model.
- ShellForAi.EnsureKeepsBuffer: **some start-up failures are not modelled.**
  - An exception other than `CalledProcessError` from `docker ps`, such as Docker missing, propagates to the caller. The model does not cover that.
  - Neither does a failure after `Popen` succeeded (from `fcntl` or the drain) that leaves a process recorded beside an error.
- ShellForAi.ShellBroker.GetShellOutput **returns the raw bytes.** Decoding with replacement characters and the timeout argument's parsing and sleep are not modelled.
- ShellForAi.LowerChar **covers only the single-character lower cases of `str.lower`.** These are ASCII and U+212A. For `Ctrl+İ` (U+0130), Python lowers the character to the two-character string "i̇", which compares between 'a' and 'z', so `ord` raises TypeError and the exception leaves `send_shell_input` after any text was already written. The model instead replies "Unknown Ctrl key: Ctrl+İ".
- ShellForAi.InputSteps **takes every `os.write` to be complete.** The master descriptor is non-blocking and the return value of `os.write` is ignored. With the terminal's input buffer full, a short write loses the rest while the reply still reports it sent, or BlockingIOError propagates. Neither case is modelled.
- **List and close are not gated by the enable flag.** `list_exposed_ports` and `close_exposed_port` never call `_ensure_session`; the model follows the code.
- **Arguments a tool cannot convert are inputs.** A port argument that is not an integer is `None`. A `TypeError` from `int()` is not distinguished from a `ValueError`.
- **Time is whole seconds.** The clock is an integer number of seconds passed to each operation, so `.1f`/`.2f` renderings end in zeros. Fractional times are not modelled. `start_timer` reads the clock twice; the model uses one reading.
- **The other time-tool functions are not modelled.** These are current time, time zones, `add_time`, formatting and timestamp conversion. Date parsing in `get_time_difference` is an input (`Instant`).
- **File copy transfers are inputs.** Per file, the archive building, `put_archive`/`get_archive` and tar extraction arrive as the outcome of transferring the i-th pair. The progress bar is not modelled. Neither is reading the container name from `config.json` with its `ai_shell_container` fallback; only the outcome of looking the container up arrives, as `lookupError`.
- FileCopy.HostToContainer **reports each host path as given.** The source reports `str(Path(p))` as `source`, which collapses repeated slashes and `.` segments and drops a trailing slash: for `a//b/` it reports `a/b`, where the model reports `a//b/`. FileCopy.HostToContainerCompleted states `source == hostPaths[i]` accordingly.
- FileCopy.ContainerToHost **reports each host destination as given.** The source reports `str(Path(p))` as `destination`, with the same normalisation. FileCopy.ContainerToHostCompleted states `destination == destPaths[i]` accordingly.
- **Tool discovery is an input.**
  - Covered: `os.listdir` order, file reading, the block regular expression, `ast.parse`/`literal_eval` and `importlib`.
  - The model receives each file already classified, with `TOOL_FUNCTIONS` as the sequence its enumeration yields and each `TOOL_PARAMETERS` entry as a list of dicts or as malformed (`PyTools.ParamList`).
  - PyTools.FileTools takes names, descriptions and dict items to be strings. Values of other types would be copied into the descriptor as they are.
  - A tool call's `str(result)` arrives as its text.
- McpTools.Parameters **keeps a truthy schema that is not an object as it is.** In Python, `'$schema' in` a string is a substring test, and `del` on it raises. A tool whose name attribute is present but `None` is treated like an absent name.
- **The MCP client is an input.** Its connection, `list_tools` and `call_tool` are inputs, and so is the content item's `str`.
- **The provider is an input.** Its HTTP call is an input (`Provider`). The list of supported providers in the NotImplementedError message lives in `llms/providers`, which is not part of this model.
- **The tokenizer and BERT are not modelled.** The tokenizer, the BERT model and the tensor output of `DialogueEncoder.forward` are out; only the text formatting is modelled.
- Logger.DisplayLogger.Load **treats any content that does not load as a list as Unreadable.** JSON that parses but is not a list of entries falls here. The wall-clock timestamp is an input, and the log directory creation is not modelled.
