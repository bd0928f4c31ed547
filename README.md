# Ollama chat completion client — a Dafny model

This project models the core of autogen's Ollama chat client
(`autogen_ext.models.ollama._ollama_client`) and proves properties of the model.
The core is the part of the client that decides things. It does not talk to a server.

- **Message translation.** The generic `LLMMessage`s (system, user, assistant and
  tool-result messages) become Ollama `Message` records. A user message with list
  content becomes one message per text part, and each image rides on the message
  before it (module `Messages`).
- **Names.** Tool and function names are checked and normalised: only letters,
  digits, `_` and `-` are allowed, and at most 64 characters (module `Names`).
- **Tool schemas.** Tool schemas are converted to Ollama's stricter property form.
  Each property keeps only a `type` and a `description`. Every tool name is then
  validated (module `Tools`).
- **Argument routing.** The client's keyword arguments are routed: sampling
  controls go into `options`, request keywords are passed through, and the rest is
  dropped (module `CreateArgs`).
- **The request builder, `_process_create_args`.** It merges per-call arguments
  over the client's, then resolves the `response_format` / `json_output` / `format`
  directive. It then checks vision and function-calling capability and applies the
  `tool_choice` policy (module `Request`).
- **Reply mapping.** One reply of `create` becomes a `CreateResult`. The chunks of
  `create_stream` are aggregated into the yielded text fragments and a final result.
  `normalize_stop_reason` and `_add_usage` live here too (module `Response`).
- **The client object.** The client is a class. Its fields are the two usage
  totals and the tool-call counter, and `create` and `create_stream` update them
  (module `Client`).
- **Token counting.** The message part of `count_tokens_ollama` is modelled, with
  the tokenizer as a parameter (module `Tokens`).

The backend (`AsyncClient.chat`) is a function parameter. `create` receives a
function from the request to one `ChatResponse`. `create_stream` receives a
function from the request to the finite list of chunks the stream delivers.
Python's `str.lower()` is modelled for what the client compares it against: ASCII
keys. `Strings.LowerChar` maps A–Z and the Kelvin sign (U+212A) to lower case and
keeps every other character. Every other Unicode case mapping either leaves the
character alone or produces something that is not an ASCII letter.

The Python dictionaries the client iterates in order (its keyword arguments) are
sequences of pairs. The dictionaries it only looks keys up in are `map`s.

## Model

All source paths are relative to the repository root.

| member | source | states |
|---|---|---|
| Strings.Lower | python/packages/autogen-ext/src/autogen_ext/models/ollama/_ollama_client.py:129 | lower-casing keeps the length and maps each character by `LowerChar` |
| Strings.LowerIdempotent | python/packages/autogen-ext/src/autogen_ext/models/ollama/_ollama_client.py:379 | lower-casing twice is lower-casing once |
| Strings.ParseNatToString | python/packages/autogen-ext/src/autogen_ext/models/ollama/_ollama_client.py:681 | `str(n)` of the tool counter reads back as `n`: the decimal rendering is invertible |
| Strings.NatToStringInjective | python/packages/autogen-ext/src/autogen_ext/models/ollama/_ollama_client.py:681 | different counter values give different id strings |
| Strings.NatToString | python/packages/autogen-ext/src/autogen_ext/models/ollama/_ollama_client.py:681 | `str(n)` of the counter: a non-empty string of decimal digits without a leading zero |
| Names.NormalizeName | python/packages/autogen-ext/src/autogen_ext/models/ollama/_ollama_client.py:351-357 | the result has length min(\|name\|, 64), contains only letters, digits, `_` and `-`, keeps every allowed character in place and turns every other one into `_` |
| Names.NormalizeIdempotent | python/packages/autogen-ext/src/autogen_ext/models/ollama/_ollama_client.py:351-357 | normalising a normalised name changes nothing |
| Names.NormalizeFixedPoints | python/packages/autogen-ext/src/autogen_ext/models/ollama/_ollama_client.py:351-357 | a name is left unchanged exactly when it has only allowed characters and at most 64 of them |
| Names.AssertValidName | python/packages/autogen-ext/src/autogen_ext/models/ollama/_ollama_client.py:360-370 | it returns the name itself exactly when the name matches the pattern and has at most 64 characters; a name that fails the pattern gets the invalid-characters error, and a matching name that is too long gets the too-long error |
| Names.ValidNameExactly | python/packages/autogen-ext/src/autogen_ext/models/ollama/_ollama_client.py:360-370 | a name without a trailing newline is accepted exactly when it is non-empty, at most 64 long and made of allowed characters |
| Names.TrailingNewlineAccepted | python/packages/autogen-ext/src/autogen_ext/models/ollama/_ollama_client.py:366 | because `re.match` with `$` also matches before a final newline, a valid name followed by one newline passes |
| Names.AcceptedNamesAreNormal | python/packages/autogen-ext/src/autogen_ext/models/ollama/_ollama_client.py:351-370 | a name the validator accepts (and that has no trailing newline) is a fixed point of normalisation |
| Names.NormalizedNamesValidate | python/packages/autogen-ext/src/autogen_ext/models/ollama/_ollama_client.py:351-370 | every non-empty normalised name passes validation |
| Messages.SystemMessageToOllama | python/packages/autogen-ext/src/autogen_ext/models/ollama/_ollama_client.py:191-195 | a system message becomes one `system` message with the same text, no images and no tool calls |
| Messages.TypeToRole | python/packages/autogen-ext/src/autogen_ext/models/ollama/_ollama_client.py:151-159 | each message class has its own role: system, user, assistant, tool |
| Messages.FuncCallToOllama | python/packages/autogen-ext/src/autogen_ext/models/ollama/_ollama_client.py:198-208 | a call keeps its name, and its argument text is parsed into arguments that dump back to the same text (by construction of the text representation) |
| Messages.AssistantMessageToOllama | python/packages/autogen-ext/src/autogen_ext/models/ollama/_ollama_client.py:202-231 | it succeeds exactly when the source name is valid, and fails with the validator's error otherwise. Text content is kept as text. A call list becomes a tool-call list of the same length; each call keeps its name and carries its parsed arguments, whose dump gives back the original argument text (by construction of the text representation) |
| Messages.ToolMessageToOllama | python/packages/autogen-ext/src/autogen_ext/models/ollama/_ollama_client.py:211-214 | one `tool` message per function result, in order, carrying that result's content |
| Messages.UserMessageToOllama | python/packages/autogen-ext/src/autogen_ext/models/ollama/_ollama_client.py:162-188 | the loop that appends text messages and attaches images to the last message computes `UserMessageTranslation`: the name check, then one message per text part, or the unknown-content error |
| Messages.FoldIsGrouped | python/packages/autogen-ext/src/autogen_ext/models/ollama/_ollama_client.py:172-187 | the part-by-part fold equals the grouping stated without a loop: each text part opens a message that carries the images following it, and leading images form one message without text |
| Messages.UserImagesPreserved | python/packages/autogen-ext/src/autogen_ext/models/ollama/_ollama_client.py:172-187 | the images of the translated messages, read in order, are exactly the image parts in order |
| Messages.UserTextsInOrder | python/packages/autogen-ext/src/autogen_ext/models/ollama/_ollama_client.py:172-187 | the contents of the translated messages are the text parts in order, preceded by one empty content exactly when the list starts with an image; all messages have the `user` role and no tool calls |
| Messages.TextThenImage | python/packages/autogen-ext/src/autogen_ext/models/ollama/_ollama_client.py:172-187 | a text followed by an image gives one message carrying both |
| Messages.TwoImages | python/packages/autogen-ext/src/autogen_ext/models/ollama/_ollama_client.py:172-187 | two images and no text give one text-less message with both images |
| Messages.ToOllamaType | python/packages/autogen-ext/src/autogen_ext/models/ollama/_ollama_client.py:234-242 | translation of one message fails exactly for a user or assistant message with an invalid name, or a user list with an unknown part, and every message it gives has the role `type_to_role` gives the generic message |
| Messages.TranslationOutcome | python/packages/autogen-ext/src/autogen_ext/models/ollama/_ollama_client.py:234-242 | system, assistant and plain-text user messages that translate give one message; tool results give one message per result |
| Messages.SystemRoundTrip | python/packages/autogen-ext/src/autogen_ext/models/ollama/_ollama_client.py:191-195 | the text of a system message comes back unchanged |
| Messages.FlatTranslateOk | python/packages/autogen-ext/src/autogen_ext/models/ollama/_ollama_client.py:582-583 | the flattened translation of a conversation (with `to_ollama_type` or any other per-message translation) succeeds exactly when every message translates |
| Messages.FlatTranslateFirstError | python/packages/autogen-ext/src/autogen_ext/models/ollama/_ollama_client.py:582-583 | a failing conversation fails with the error of its first bad message |
| Messages.FlatTranslateAppend | python/packages/autogen-ext/src/autogen_ext/models/ollama/_ollama_client.py:582-583 | translating a concatenation concatenates the translations |
| Messages.TranslateAll | python/packages/autogen-ext/src/autogen_ext/models/ollama/_ollama_client.py:582-583 | the whole conversation translates exactly when each of its messages does |
| Tools.PropertyType | python/packages/autogen-ext/src/autogen_ext/models/ollama/_ollama_client.py:319-325 | the type is never empty; a non-empty explicit type wins; an explicit empty type, no type and no `anyOf`, or an `anyOf` whose options are all "null" give "string"; otherwise, without a type, the first non-"null" option decides: its type if it has a non-empty one, else "string"; "null" only comes from an explicit "null" |
| Tools.FirstNonNullType | python/packages/autogen-ext/src/autogen_ext/models/ollama/_ollama_client.py:320-323 | the result is the first `anyOf` option whose type is not "null" (an untyped option counts, and gives nothing), never "null", and nothing when every option is "null" |
| Tools.ConvertProperties | python/packages/autogen-ext/src/autogen_ext/models/ollama/_ollama_client.py:315-330 | the property loop computes the converted properties, key by key in order |
| Tools.ConvertTools | python/packages/autogen-ext/src/autogen_ext/models/ollama/_ollama_client.py:303-348 | the conversion loop and the validation loop compute `ConvertToolsResult`: the converted tools, or the first invalid name's error |
| Tools.FirstNameError | python/packages/autogen-ext/src/autogen_ext/models/ollama/_ollama_client.py:345-347 | there is no error exactly when every name is valid; an error belongs to the first tool whose name fails |
| Tools.ConvertToolsResult | python/packages/autogen-ext/src/autogen_ext/models/ollama/_ollama_client.py:303-348 | `convert_tools` succeeds exactly when every name is valid, and then converts every tool in order; otherwise it fails with the error of the first tool whose name is invalid |
| Tools.ConvertToolsShape | python/packages/autogen-ext/src/autogen_ext/models/ollama/_ollama_client.py:303-348 | conversion succeeds exactly when all names are valid, and then gives one tool per schema with the same name, the description or "", the `required` list, and the converted properties exactly when there is a `parameters` schema |
| Tools.ConvertedPropertiesShape | python/packages/autogen-ext/src/autogen_ext/models/ollama/_ollama_client.py:315-330 | one converted property per input property, in order, with the same key and description, and the type `PropertyType` resolves for its schema |
| Tools.OneBadNameFailsAll | python/packages/autogen-ext/src/autogen_ext/models/ollama/_ollama_client.py:345-347 | a single invalid name fails the whole conversion |
| Tools.AnyOfSkipsNull | python/packages/autogen-ext/src/autogen_ext/models/ollama/_ollama_client.py:320-323 | `anyOf: [null, integer]` gives "integer" |
| Tools.AnyOfUntypedOption | python/packages/autogen-ext/src/autogen_ext/models/ollama/_ollama_client.py:320-324 | an untyped first option stops the search, and the falsy result becomes "string" |
| CreateArgs.Find | python/packages/autogen-ext/src/autogen_ext/models/ollama/_ollama_client.py:121-126 | a key is found exactly when some entry has it, and the value found is that of the first entry with the key |
| CreateArgs.CreateArgsFromConfig | python/packages/autogen-ext/src/autogen_ext/models/ollama/_ollama_client.py:110-141 | the routing loop computes `ConfigToCreateArgs` |
| CreateArgs.ConfigToCreateArgs | python/packages/autogen-ext/src/autogen_ext/models/ollama/_ollama_client.py:110-141 | the created arguments hold only request keys and `options` |
| CreateArgs.RouteSpec | python/packages/autogen-ext/src/autogen_ext/models/ollama/_ollama_client.py:128-139 | key by key: a lower-cased request key keeps the last value written under it; a control parameter is moved into the options under its lower-cased name; any other key is dropped |
| CreateArgs.CreateArgsRouting | python/packages/autogen-ext/src/autogen_ext/models/ollama/_ollama_client.py:110-141 | every key other than `options` is present exactly when it is a request key that some entry lower-cases to, with the last such value; `options` is present exactly when the configuration had an `options` entry or a control parameter was moved; when none was moved, `options` is the configuration's own non-empty `options` mapping, or else the last value under a key that lower-cases to `options` |
| CreateArgs.UnknownKeysDropped | python/packages/autogen-ext/src/autogen_ext/models/ollama/_ollama_client.py:128-139 | a key that is neither a request key nor a control parameter never reaches the request |
| CreateArgs.OptionsMerge | python/packages/autogen-ext/src/autogen_ext/models/ollama/_ollama_client.py:118-139 | a moved control parameter appears in `options` with its value, next to the options the caller gave |
| CreateArgs.ControlParamCaseInsensitive | python/packages/autogen-ext/src/autogen_ext/models/ollama/_ollama_client.py:81-98 | "Seed" is routed as the control parameter "seed" |
| Request.FindSetEntry | python/packages/autogen-ext/src/autogen_ext/models/ollama/_ollama_client.py:523 | setting a key changes the lookup of that key only |
| Request.UpdateOverrides | python/packages/autogen-ext/src/autogen_ext/models/ollama/_ollama_client.py:521-523 | after `update`, a key has the per-call value if the call gave one, else the client's |
| Request.ResolveFormat | python/packages/autogen-ext/src/autogen_ext/models/ollama/_ollama_client.py:526-569 | resolution succeeds exactly when the five acceptance conditions hold: `response_format` is a class; `json_output` is None, a boolean or a class; `True` only with JSON capability; a class only without `response_format`; `format` only when neither is given. Without `json_output` or `format`, the directive is the schema of `response_format` if given, else none. On success the `response_format` and `format` keys are gone; `True` gives "json", `False` no format, a class its schema, and `format` its own value. A non-class `response_format` fails with its own error |
| Request.FormatCases | python/packages/autogen-ext/src/autogen_ext/models/ollama/_ollama_client.py:526-569 | the directive or error for each combination. Successes: nothing given; `response_format` alone giving its schema; `True` on a capable model; a class alone; `format` alone; plain `False`. Errors: unsupported JSON; class and `response_format` together; invalid `json_output`; `json_output` with `format`; `response_format` with `format` |
| Request.JsonOutputAndFormatConflict | python/packages/autogen-ext/src/autogen_ext/models/ollama/_ollama_client.py:562-565 | `json_output=True` together with a `format` argument fails |
| Request.ProcessCreateArgs | python/packages/autogen-ext/src/autogen_ext/models/ollama/_ollama_client.py:513-610 | a built request has no `format`/`response_format` argument and carries the translated conversation. It exists only if no user message holds an image when the model lacks vision, and only if no tools were supplied when it lacks function calling. `json_output=True` gives "json". "none" sends no tools; "required" at least one and as many as supplied; a single tool only that tool; "auto" as many as supplied. When it is built and its exact contents are in `Request.BuiltRequest` |
| Request.BuiltRequest | python/packages/autogen-ext/src/autogen_ext/models/ollama/_ollama_client.py:513-610 | a request is built exactly when format resolution succeeds, the vision check passes, every message translates, the function-calling check passes and the tool choice selects. It then holds the translated messages, the selected tools, and the format directive and remaining arguments of format resolution for the merged, routed arguments. "auto" and "required" send exactly the converted tools |
| Request.RequestErrors | python/packages/autogen-ext/src/autogen_ext/models/ollama/_ollama_client.py:526-603 | a failed build raises the error of the first failing step, in the order format resolution, vision, message translation, function calling, tool choice |
| Request.ToolChoicePolicy | python/packages/autogen-ext/src/autogen_ext/models/ollama/_ollama_client.py:588-603 | "required" without tools fails; "none" sends nothing and validates nothing; "auto" and "required" convert all tools |
| Request.SelectTools | python/packages/autogen-ext/src/autogen_ext/models/ollama/_ollama_client.py:588-603 | "none" sends no tool; a specific tool is sent alone when its name is valid; "auto" sends the converted tools or fails with the conversion's error; "required" does too, and fails without tools |
| Request.FunctionCallingGate | python/packages/autogen-ext/src/autogen_ext/models/ollama/_ollama_client.py:585-586 | without function calling any supplied tool fails the call, whatever the tool choice |
| Request.VisionGate | python/packages/autogen-ext/src/autogen_ext/models/ollama/_ollama_client.py:573-577 | without vision an image in any user message fails the call |
| Response.SumUsageAppend | python/packages/autogen-ext/src/autogen_ext/models/ollama/_ollama_client.py:295-299 | accumulating two logs in turn adds their totals |
| Response.SumUsageOrderIrrelevant | python/packages/autogen-ext/src/autogen_ext/models/ollama/_ollama_client.py:295-299 | the total does not depend on the order of two batches |
| Response.AddUsageCommutes | python/packages/autogen-ext/src/autogen_ext/models/ollama/_ollama_client.py:295-299 | adding usages is commutative |
| Response.AddUsageAssociates | python/packages/autogen-ext/src/autogen_ext/models/ollama/_ollama_client.py:295-299 | adding usages is associative |
| Response.AddUsage | python/packages/autogen-ext/src/autogen_ext/models/ollama/_ollama_client.py:295-299 | both counts add up, and adding no usage changes nothing |
| Response.NormalizeStopReason | python/packages/autogen-ext/src/autogen_ext/models/ollama/_ollama_client.py:374-387 | the reason is `stop` exactly when it lower-cases to "stop" or "end_turn", `function_calls` exactly when it lower-cases to "tool_calls", and `unknown` for no reason |
| Response.StopReasonIgnoresCase | python/packages/autogen-ext/src/autogen_ext/models/ollama/_ollama_client.py:374-387 | lower-casing a reason first does not change its mapping |
| Response.StopReasonTable | python/packages/autogen-ext/src/autogen_ext/models/ollama/_ollama_client.py:374-387 | a reason maps to `stop` exactly when it lower-cases to "stop" or "end_turn", to `function_calls` exactly when it lower-cases to "tool_calls"; "" and None map to `unknown` |
| Response.ToolCallsReason | python/packages/autogen-ext/src/autogen_ext/models/ollama/_ollama_client.py:687 | the reason `create` passes for a tool-call reply maps to `function_calls` |
| Response.StopReasonCapitals | python/packages/autogen-ext/src/autogen_ext/models/ollama/_ollama_client.py:374-387 | "STOP" and "End_Turn" map to `stop` |
| Response.ToFunctionCalls | python/packages/autogen-ext/src/autogen_ext/models/ollama/_ollama_client.py:679-686 | one call per tool call, in order, each with the shared id, the tool call's name normalised, and its arguments dumped to text that loads back to the same arguments (by construction of the text representation) |
| Response.ResponseToResult | python/packages/autogen-ext/src/autogen_ext/models/ollama/_ollama_client.py:648-708 | the result is never cached; missing counts become 0; the content is a call list exactly when the reply has tool calls, and then the reason is `function_calls` and the calls are the reply's tool calls mapped under the current counter; a thought is present exactly when there are calls and the reply's text is non-empty, and is that text; without tool calls the content is the text or "" and the reason is the normalised done reason or "" |
| Response.TextReply | python/packages/autogen-ext/src/autogen_ext/models/ollama/_ollama_client.py:689-691 | a reply without tool calls gives its text or "" and no thought; its reason is `stop` exactly when the done reason lower-cases to "stop" or "end_turn", `function_calls` exactly when it lower-cases to "tool_calls", and `unknown` when there is none |
| Response.DistinctCallIds | python/packages/autogen-ext/src/autogen_ext/models/ollama/_ollama_client.py:679-688 | calls mapped under different counter values never share an id |
| Response.StopReasonUnset | python/packages/autogen-ext/src/autogen_ext/models/ollama/_ollama_client.py:778 | the stream's stop reason stays unset exactly when no chunk finished with a reason |
| Response.StopReasonIsFirstFinished | python/packages/autogen-ext/src/autogen_ext/models/ollama/_ollama_client.py:778 | the stream's stop reason is that of the first chunk that finished with one |
| Response.AggregateChunks | python/packages/autogen-ext/src/autogen_ext/models/ollama/_ollama_client.py:756-852 | the chunk loop and the aggregation yield exactly the non-empty fragments in order and compute `StreamResult` |
| Response.StreamResult | python/packages/autogen-ext/src/autogen_ext/models/ollama/_ollama_client.py:818-852 | the final result is never cached, its reason is the normalised stop reason, its prompt count the last chunk's; text content and thought are exactly the text yielded to the caller, and call content is the stream's calls |
| Response.JoinedTextIsYieldedText | python/packages/autogen-ext/src/autogen_ext/models/ollama/_ollama_client.py:779-783 | joining the recorded fragments gives the same text as joining the yielded ones |
| Response.TextStream | python/packages/autogen-ext/src/autogen_ext/models/ollama/_ollama_client.py:829-834 | several fragments and no call give the whole yielded text as content, with no thought, and the last chunk's prompt and completion counts |
| Response.CallsWithThought | python/packages/autogen-ext/src/autogen_ext/models/ollama/_ollama_client.py:822-828 | text and calls together give the calls as content, the whole text as thought, and the last chunk's prompt and completion counts |
| Response.LoneFragmentBecomesEmptyCalls | python/packages/autogen-ext/src/autogen_ext/models/ollama/_ollama_client.py:835-837 | a stream whose text is one fragment and that has no call yields the fragment but ends with an empty call list and no completion tokens |
| Response.CallsOnlyStream | python/packages/autogen-ext/src/autogen_ext/models/ollama/_ollama_client.py:835-837 | a stream with at most one fragment, and not both text and calls, ends with its calls as content (none for a lone fragment), no thought, the last prompt count and no completion tokens |
| Response.StreamCallsShareId | python/packages/autogen-ext/src/autogen_ext/models/ollama/_ollama_client.py:786-796 | the calls of a stream are all its chunks' tool calls, in order, mapped as `create` maps them (normalised names, dumped arguments), and every one carries the counter's current value as id |
| Tokens.CountTokens | python/packages/autogen-ext/src/autogen_ext/models/ollama/_ollama_client.py:397-410 | the counting loops compute 3 per message, plus the encoded length of each translated content, plus 3 and 12, or the first translation error |
| Tokens.CountContents | python/packages/autogen-ext/src/autogen_ext/models/ollama/_ollama_client.py:402-408 | the inner loop adds the encoded length of each present content |
| Tokens.CountTokensSpec | python/packages/autogen-ext/src/autogen_ext/models/ollama/_ollama_client.py:397-446 | the count exists exactly when every message translates, fails with the translation's error otherwise, and is at least 3 per message plus 15 |
| Tokens.CountOfTranslation | python/packages/autogen-ext/src/autogen_ext/models/ollama/_ollama_client.py:397-446 | a conversation that translates is counted as 3 per message, the encoded lengths of the translated contents, and 15 |
| Tokens.CountLowerBound | python/packages/autogen-ext/src/autogen_ext/models/ollama/_ollama_client.py:397-446 | a count is at least 3 per message plus 15 |
| Tokens.CountAdditive | python/packages/autogen-ext/src/autogen_ext/models/ollama/_ollama_client.py:397-446 | counting two conversations together counts the 15 fixed tokens once |
| Tokens.ImagePartsCostNothing | python/packages/autogen-ext/src/autogen_ext/models/ollama/_ollama_client.py:403-408 | a user list is counted by its text parts alone |
| Tokens.ImageAddsNothing | python/packages/autogen-ext/src/autogen_ext/models/ollama/_ollama_client.py:405-406 | adding an image to a user message leaves the token count of its translation unchanged |
| Client.OllamaClient.constructor | python/packages/autogen-ext/src/autogen_ext/models/ollama/_ollama_client.py:500-504 | a new client has both totals at zero and the counter at 0; its request keys include the literal ones |
| Client.OllamaClient.RecordUsage | python/packages/autogen-ext/src/autogen_ext/models/ollama/_ollama_client.py:715-716 | both totals grow by exactly the usage and stay the sum of the recorded usages |
| Client.OllamaClient.Create | python/packages/autogen-ext/src/autogen_ext/models/ollama/_ollama_client.py:612-718 | a request that fails to build changes nothing; otherwise the result is the mapped reply under the old counter, the counter goes up by one exactly for a tool-call reply, and both totals grow by the result's usage |
| Client.OllamaClient.CreateStream | python/packages/autogen-ext/src/autogen_ext/models/ollama/_ollama_client.py:720-865 | the counter never changes; a failing request yields nothing and changes nothing; otherwise the non-empty fragments are yielded and the final result is the aggregation, and both totals grow by its usage |
| Client.OllamaClient.TotalUsage | python/packages/autogen-ext/src/autogen_ext/models/ollama/_ollama_client.py:873-874 | the total is the sum of all recorded usages |
| Client.OllamaClient.ActualUsage | python/packages/autogen-ext/src/autogen_ext/models/ollama/_ollama_client.py:870-871 | the actual usage equals the same sum |
| Client.TwoToolCallReplies | python/packages/autogen-ext/src/autogen_ext/models/ollama/_ollama_client.py:679-716 | two replies in a row that carry tool calls give call lists whose ids differ, and the total accounts for both calls |

## Left out

- The transport: `AsyncClient`, `chat(...)` and its keyword plumbing. This is network I/O. The reply and the chunks are inputs, given as backend functions. Turning an empty tool list into `None` is part of that plumbing and is not modelled.
- Concurrency and cancellation: `asyncio.ensure_future`, `link_future` and `anext`. Calls run one after another. Chunks arrive as a finite list, and a stream is always consumed to its end.
- Logging, the deprecation warnings and the resolved-model mismatch warning. These are diagnostics only.
- `calculate_vision_tokens`, which works in floating point. Its only caller tests whether a message's `content` is an `Image`, and in the message datatypes a `content` is never an `Image` (images only occur as parts of a user message's list), so that branch is unreachable by construction. `Tokens.ImageAddsNothing` shows that images add no tokens.
- The tokenizer and the tool-token loop of `count_tokens_ollama`. The encoder's length is a parameter `encLen`. The tool loop depends on how ollama's objects behave under `in` and iteration, and that code is not part of this model. `Tokens.CountTokens` is therefore the count for an empty tool list, where that loop does nothing.
- `json.loads`/`json.dumps` of call arguments, `Image.to_base64` and Pydantic's `model_json_schema`. These are foreign library calls. Parsed arguments are represented by their text, so loading and dumping are inverse by construction. A model class carries its JSON schema as a field.
- `Messages.LoadArguments`: `json.loads` failing on malformed argument text is not modelled. In the source that error makes `to_ollama_type`, `create`, `create_stream` and `count_tokens` fail; in the model every argument text loads.
- The model registry (`get_info`, `get_token_limit`, `resolve_model_class`), and with it `remaining_tokens` and the constructor's capability lookups. Capabilities are a plain record given to the client.
- The constructor's checks, `create_from_config`, the client-from-config helper, pickling support and the component config conversion. This is construction and serialisation glue.
- Tool objects appear only through their schema. Passing a `Tool` or a `ToolSchema` dict is the same here.
- A `tool_choice` string other than "none" and "required" behaves like "auto", as it does in the source.
- `Request.ProcessCreateArgs` omits the second JSON-capability check (lines 579-580 of `_ollama_client.py`). The format step has already raised for exactly the same condition.
- A property's `type` is a string. A non-string `type` value in a schema is not modelled.
- Property schemas are a list of pairs and are assumed to have distinct keys, as a dict's keys are.
- A `parameters` schema always has `properties` in the model. In the source, a schema without it raises `KeyError` (line 317); that error path is not modelled.
- Lower-casing is exact only for the comparisons the client makes against ASCII keys. Characters whose Python lower case spans several characters are kept as they are.
