# ChatLlamaCpp in Dafny

A model of `ChatLlamaCpp`, LangChain's chat-model adapter over the
llama.cpp Python binding. It covers the rules the adapter applies around the
native library:

- **Construction (the root validator).** It builds the native constructor's
  keyword arguments from sixteen allow-listed fields. It adds `n_gpu_layers`
  only when that field is not None, and `model_kwargs` entries win over
  both. It builds the client first. It then applies the grammar rule: a
  truthy grammar together with a truthy grammar path is rejected; a string
  grammar is compiled from the string; otherwise a truthy path is compiled
  from the file; otherwise the grammar is left as it is.
- **Call parameters.** A fixed set of sampling keys, plus `grammar` when it
  is truthy. `stop_sequences` is renamed to `stop`, which falls back to an
  empty list. Per-call keywords override all of these.
- **Response translation.** Each choice becomes one generation, in order.
  Its info always has `finish_reason` and has `logprobs` only when the
  choice has that key. `token_usage` defaults to an empty dict.
- **The streaming loop.** Events with no choices, or whose first choice has
  a None delta, are skipped. Every other event yields one chunk. Its info
  keeps only a truthy finish reason and truthy logprobs, and an empty info
  becomes None. The class of each chunk is the default class for the next
  delta conversion, starting from `AIMessageChunk`. With a callback
  handler, each chunk is announced just before it is yielded.
- **Tool binding.** `tool_choice` is checked against the names of the
  formatted tools. The cases are: falsy, dict, string, `True`, and
  anything else.
- **Structured output.** Extra keywords are rejected first, then a missing
  schema. One tool is bound with `tool_choice=True`. The parser depends on
  whether the schema is a Pydantic class. With `include_raw`, the result is
  a `{raw, parsed, parsing_error}` record that captures parse failures.

Modules:

- `PyValues` (`py_values.dfy`): Python values and truthiness, the outcome of
  a foreign call (`Native`), `Option` and `Result`.
- `LlamaCppParams` (`llamacpp_params.dfy`): the fields, the root validator
  and the call parameters.
- `LlamaCppChat` (`llamacpp_chat.dfy`): response translation and streaming.
- `LlamaCppTools` (`llamacpp_tools.dfy`): `bind_tools` and
  `with_structured_output`.

Operations that update state step by step in the source are methods, each
fully described in terms of a specification function:

- `ValidateEnvironment` is proved equal to `Validated`.
- `Stream` is proved equal to `StreamFrom`.
- `GetParameters` is described key by key in terms of `DefaultParams`.
- `CreateChatResult` is described element by element in terms of
  `ChoiceInfo` and `TokenUsage`.

The properties are lemmas about those functions.

Calls into code outside the module are function-valued parameters:

- The `Llama` constructor and the two `LlamaGrammar` compilers (`NativeLib`)
  and the output parsers may raise. They return `Native` (a value or an
  exception message).
- The message converters and the tool formatter `convert_to_openai_tool`
  are total functions. `_create_message_dicts` (lines 237-242) appears only
  as the generic map `Mapped`; no member stands for
  `_convert_message_to_dict`.

The model invocation inside the structured pipeline is the given outcome
of the bound model.

Where the code and its own docstrings differ, the model follows the code:

- The docstrings of `grammar_path` and `grammar` (lines 145-146 and
  151-152) say at most one of the two should be passed in. The code
  rejects the pair only when both are truthy. An empty grammar string next
  to a path is compiled as a string and the path is ignored
  (`EmptyGrammarStringShadowsPath`).
- The `bind_tools` docstring asks for a dict that forces one tool. A
  matching string `tool_choice` is bound as the string itself, not turned
  into such a dict (lines 347-355 and 370, `StringToolChoiceRule`).
- `tool_choice=True` with no tools fails with an IndexError when the code
  selects the first tool (`NoToolToSelect`).
- A dict `tool_choice` with no tools is rejected as "not found" before the
  dict is inspected. With tools, a dict that lacks `function.name` fails
  with a KeyError or TypeError (`ToolChoiceMalformed`).
- The `stop` argument of `_generate` and `_stream` (lines 266 and 284) is
  never used: the configured `stop` always goes to the binding
  (`GetParameters`). Only `**kwargs` override the configured parameters
  (`CallParams`).
- `_create_chat_result` passes the choice's `text` entry to the dict
  converter.

## Model

| member | source | states |
|---|---|---|
| LlamaCppParams.Defaults | libs/community/langchain_community/chat_models/llamacpp.py:52-156 | with only a model path, the grammar, the grammar path and `n_gpu_layers` are None, `model_kwargs` is empty and `stop` is the empty list |
| LlamaCppParams.Attr | libs/community/langchain_community/chat_models/llamacpp.py:189 | the value of the instance field of that name (`values[k]` here, `self.<name>` at lines 569-575); None for a name that is not a forwarded field |
| LlamaCppParams.ModelParams | libs/community/langchain_community/chat_models/llamacpp.py:171-194 | exactly the sixteen allow-listed keys, plus `n_gpu_layers` iff it is not None, plus the `model_kwargs` keys; `model_kwargs` entries override, other allow-listed keys carry the field values |
| LlamaCppParams.DefaultsForwardOnlyAllowList | libs/community/langchain_community/chat_models/llamacpp.py:171-194 | with every field at its default the constructor receives exactly the allow-listed keys (no `n_gpu_layers`), with `n_ctx` 512 |
| LlamaCppParams.Validated | libs/community/langchain_community/chat_models/llamacpp.py:196-216 | the load error is reported iff the constructor raises; a validated instance keeps its model path, `model_kwargs` and grammar path |
| LlamaCppParams.ResolveGrammar | libs/community/langchain_community/chat_models/llamacpp.py:204-216 | only the grammar can change, and only for a string grammar or a truthy path; the conflict error occurs iff both are truthy; the only other error is the compiler's |
| LlamaCppParams.ValidateEnvironment | libs/community/langchain_community/chat_models/llamacpp.py:158-217 | the step-by-step validator returns exactly what the specification `Validated` says, error cases included |
| LlamaCppParams.ValidatedChangesOnlyClientAndGrammar | libs/community/langchain_community/chat_models/llamacpp.py:189-217 | on success the client is what the constructor returned for the model path and the assembled parameters, and no field other than client and grammar changes |
| LlamaCppParams.LoadFailureReportedFirst | libs/community/langchain_community/chat_models/llamacpp.py:196-204 | a constructor failure is reported as a load error for the model path, whatever the grammar settings |
| LlamaCppParams.GrammarConflictRejected | libs/community/langchain_community/chat_models/llamacpp.py:204-210 | a truthy grammar with a truthy grammar path never validates, and once the client loads the error is the conflict carrying both values |
| LlamaCppParams.GrammarResolution | libs/community/langchain_community/chat_models/llamacpp.py:211-216 | without a conflict: a string grammar is compiled from the string, otherwise a truthy path from the file, otherwise the grammar is kept; success holds iff the compiler returns |
| LlamaCppParams.EmptyGrammarStringShadowsPath | libs/community/langchain_community/chat_models/llamacpp.py:204-212 | an empty grammar string next to a truthy path passes the conflict check and is compiled from the string; the path is unused |
| LlamaCppParams.DefaultParams | libs/community/langchain_community/chat_models/llamacpp.py:566-579 | keys are the seven fixed keys plus `grammar` iff the grammar is truthy; each value is the matching attribute (`stop_sequences` reads `stop`) |
| LlamaCppParams.DefaultParamsReflectConfiguration | libs/community/langchain_community/chat_models/llamacpp.py:566-579 | after a successful construction every fixed call parameter still carries the value the instance was configured with |
| LlamaCppParams.GetParameters | libs/community/langchain_community/chat_models/llamacpp.py:219-235 | the defaults with `stop_sequences` removed and `stop` set to the configured stop or `[]`; every other key unchanged; `grammar` present iff truthy |
| LlamaCppParams.CallParams | libs/community/langchain_community/chat_models/llamacpp.py:288 | per-call keywords override the configured parameters; the key set is the union |
| PyValues.Mapped | libs/community/langchain_community/chat_models/llamacpp.py:336 | `[f(x) for x in xs]`: one result per element, in order; `BindTools` applies it to format the tools (lines 336 and 371) |
| LlamaCppChat.ChoiceInfo | libs/community/langchain_community/chat_models/llamacpp.py:249-251 | the info always has `finish_reason` (None when absent), has `logprobs` iff the choice has that key, and nothing else |
| LlamaCppChat.TokenUsage | libs/community/langchain_community/chat_models/llamacpp.py:257 | the response's `usage` when it has one, the empty dict otherwise |
| LlamaCppChat.CreateChatResult | libs/community/langchain_community/chat_models/llamacpp.py:244-261 | as many generations as choices, in order, each with the converted text and the choice's info; `token_usage` is the response's usage or `{}` |
| LlamaCppChat.Emits | libs/community/langchain_community/chat_models/llamacpp.py:301-305 | an event emits a chunk iff its choice list is non-empty and its first choice's delta is not None; otherwise the loop continues |
| LlamaCppChat.EmitChunk | libs/community/langchain_community/chat_models/llamacpp.py:306-318 | the chunk of an emitting event: the delta converted with the current default class, with the `StreamInfo` of the first choice |
| LlamaCppChat.StreamInfo | libs/community/langchain_community/chat_models/llamacpp.py:309-318 | the info has `finish_reason` iff it is truthy and `logprobs` iff they are truthy, with their values; it is None iff neither is truthy |
| LlamaCppChat.StreamFrom | libs/community/langchain_community/chat_models/llamacpp.py:295-321 | the trace has one effect per emitting event without a handler and two with one |
| LlamaCppChat.Stream | libs/community/langchain_community/chat_models/llamacpp.py:295-321 | the loop produces exactly the notifications and yields of the specification `StreamFrom`, starting from `AIMessageChunk` |
| LlamaCppChat.Kept | libs/community/langchain_community/chat_models/llamacpp.py:301-305 | every kept event has a non-empty choice list whose first delta is not None |
| LlamaCppChat.Skipped | libs/community/langchain_community/chat_models/llamacpp.py:301-305 | the events the loop skips, in order: each has an empty choice list or a None delta |
| LlamaCppChat.KeptAndSkippedPartition | libs/community/langchain_community/chat_models/llamacpp.py:301-305 | every event is kept or skipped; the kept ones are exactly the emitting events and the skipped ones exactly the others |
| LlamaCppChat.ChunksFrom | libs/community/langchain_community/chat_models/llamacpp.py:306-318 | one chunk per kept event |
| LlamaCppChat.ChunksFromThreadsDefaultClass | libs/community/langchain_community/chat_models/llamacpp.py:295-315 | the first chunk is converted with the initial default class, every later one with the class of the chunk before it |
| LlamaCppChat.StreamWithoutHandler | libs/community/langchain_community/chat_models/llamacpp.py:297-321 | without a handler the stream is exactly one yield per emitting event, in order, of the threaded chunks |
| LlamaCppChat.StreamWithHandler | libs/community/langchain_community/chat_models/llamacpp.py:297-321 | with a handler the stream is each threaded chunk announced and then yielded, and nothing else |
| LlamaCppChat.AnnouncedPairs | libs/community/langchain_community/chat_models/llamacpp.py:319-321 | the trace with a handler has two entries per chunk: the notification (text, chunk, logprobs) at `2j`, the yield at `2j + 1` |
| LlamaCppChat.Announced | libs/community/langchain_community/chat_models/llamacpp.py:319-321 | the trace with a handler built from the kept events and their chunks: each chunk notified, then yielded; two entries per chunk |
| LlamaCppChat.Yields | libs/community/langchain_community/chat_models/llamacpp.py:321 | the trace without a handler has one yield per chunk, in order |
| LlamaCppTools.AsValue | libs/community/langchain_community/chat_models/llamacpp.py:336-337 | a formatted tool is a `function` dict whose `function.name` is the tool name |
| LlamaCppTools.ToolNames | libs/community/langchain_community/chat_models/llamacpp.py:337 | the tool names, one per formatted tool, in order |
| LlamaCppTools.AnyNameMatchesMeansMember | libs/community/langchain_community/chat_models/llamacpp.py:340-342 | no names gives False; otherwise a malformed dict fails and a well-formed one matches iff its name is among the names |
| LlamaCppTools.ChosenMeansNamed | libs/community/langchain_community/chat_models/llamacpp.py:348-350 | some tool is chosen by a string iff the string is a tool name, and every chosen tool has that name |
| LlamaCppTools.ResolveToolChoice | libs/community/langchain_community/chat_models/llamacpp.py:338-368 | a falsy choice resolves to itself; a truthy one resolves only if it is a dict, a string or a bool; it resolves to itself except `True`, which resolves to the single formatted tool |
| LlamaCppTools.ChoiceName | libs/community/langchain_community/chat_models/llamacpp.py:341 | `choice["function"]["name"]` when `function` is a dict with a `name` entry, and no value otherwise (the subscript fails) |
| LlamaCppTools.AnyNameMatches | libs/community/langchain_community/chat_models/llamacpp.py:340-342 | no names gives False; a failure is the malformed-choice error of a dict without `function.name`; a match means the chosen name is a string among the names |
| LlamaCppTools.Chosen | libs/community/langchain_community/chat_models/llamacpp.py:348-350 | the chosen tools are among the formatted tools and all carry the requested name |
| LlamaCppTools.BindTools | libs/community/langchain_community/chat_models/llamacpp.py:323-372 | binding succeeds iff the choice resolves; the bound tools are the formatted tools in order; the keywords are the given ones plus `tool_choice` set to the resolved choice |
| LlamaCppTools.FalsyToolChoicePassesThrough | libs/community/langchain_community/chat_models/llamacpp.py:338-370 | a falsy choice always binds and is bound unchanged |
| LlamaCppTools.DictToolChoiceRule | libs/community/langchain_community/chat_models/llamacpp.py:339-346 | a dict binds unchanged iff its `function.name` names a tool; with no tools it is not found; with tools and no `function.name` it is malformed |
| LlamaCppTools.StringToolChoiceRule | libs/community/langchain_community/chat_models/llamacpp.py:347-355 | a string binds unchanged iff it names a tool, and is otherwise rejected as not found with the tool names |
| LlamaCppTools.TrueToolChoiceRule | libs/community/langchain_community/chat_models/llamacpp.py:356-362 | `True` with one tool binds that formatted tool; with more it is rejected with their count; with none the selection fails |
| LlamaCppTools.OtherToolChoiceRejected | libs/community/langchain_community/chat_models/llamacpp.py:363-367 | a truthy choice that is not a dict, string or bool is rejected as unrecognized |
| LlamaCppTools.WithStructuredOutput | libs/community/langchain_community/chat_models/llamacpp.py:513-542 | extra keywords are rejected first, then a missing schema; otherwise the model is bound with exactly the schema's tool and `tool_choice` set to it, and the parser is the Pydantic one for a class and the key parser named after the tool otherwise |
| LlamaCppTools.Invoke | libs/community/langchain_community/chat_models/llamacpp.py:532-542 | a model failure propagates; otherwise only a parse failure without `include_raw` raises; the result is a raw record iff `include_raw` |
| LlamaCppTools.IncludeRawCapturesParseFailure | libs/community/langchain_community/chat_models/llamacpp.py:532-540 | with `include_raw` only the model can raise; the record holds the raw message, and `parsing_error` is set iff parsing failed, in which case `parsed` is None |
| LlamaCppTools.WithoutRawPropagatesParseFailure | libs/community/langchain_community/chat_models/llamacpp.py:541-542 | without `include_raw` the runnable raises iff the model or the parser does; otherwise it returns the parsed value, the same one the raw record carries |

## Left out

- The `llama_cpp` import check (lines 161-168): it is environment I/O.
- The native `Llama` constructor, `create_chat_completion` and the
  `LlamaGrammar` compilers: they are foreign calls. They appear only as
  parameters whose results may be exceptions. The completion's response or
  event stream is an input.
- `model_dump()` for events that are not dicts (line 300), and the unused
  `count` (lines 296-298): events are modelled as dicts only.
- The dispatch of `_generate` to the stream and `generate_from_stream`,
  `_identifying_params` and `_llm_type`: these are framework plumbing
  outside the rules modelled here.
- Pydantic field validation and coercion: fields hold the values given.
- `bind` and Runnable composition (`RunnableMap`, `RunnablePassthrough`,
  `with_fallbacks`): they are reduced to the records `BoundModel` and
  `StructuredRunnable` and to the function `Invoke`.
- The parsers' own behaviour: it is a parameter of `Invoke`.
- The callback handler's own behaviour: it is modelled as the ordered list
  of notifications. An exception raised by the handler, or by the event
  source mid-stream, is not modelled.
- The exceptions of the message converters and of `convert_to_openai_tool`
  (lines 240, 248, 306, 336, 371 and 527) are not modelled. These are
  total-function parameters here.
- LlamaCppChat.CreateChatResult: requires a response whose `choices` is a
  list of dicts that each have `text`. It does not model the KeyError or
  TypeError of `response["choices"]` or `res["text"]` (lines 247-248).
- LlamaCppChat.Stream: requires events that are dicts with a `choices`
  list whose first choice is a dict with `delta`. It does not model the
  KeyError or TypeError of `chunk["choices"]` or `choice["delta"]` (lines
  301-304).
- Floating-point values: they are carried as opaque `real`s and never
  computed with.
- Duplicate-keyword TypeErrors: the requires clauses of `BindTools` leave
  them out. Python's calling convention already keeps `tools` and
  `tool_choice` out of `**kwargs`.
- LlamaCppTools.ChoiceName: does not model a `tool_choice["function"]` that
  is an arbitrary object with its own `__getitem__`. Only a dict with a
  `name` entry counts as well-formed.
- LlamaCppTools.AnyNameMatches: compares with structural equality. It does
  not model a custom `__eq__` on the chosen name.
