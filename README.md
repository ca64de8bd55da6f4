# Validated retries for tool calls, in Dafny

This project models the validate-and-retry engine of the LangChain extraction
pipeline (`short_tutorials/langchain/extraction/pipeline`). The engine wraps a
chat model that answers with tool calls. The flow is:

1. The model is called once.
2. If the answer carries a tool call, or a tool choice was forced, the calls
   are validated.
3. On a validation error a fallback model is asked to try again. This
   repeats until the validation passes or the attempt budget is spent.
4. The messages generated along the way are then folded into one returned
   message.

Two retry strategies are covered:

- the plain one, where the fallback (by default the model itself) answers
  again from scratch and the last AI message is kept;
- the JSONPatch one, where the fallback answers with a
  `PatchFunctionParameters` call. That call holds JSON Patch operations
  (RFC 6902, with JSON Pointer paths per RFC 6901), and `aggregate_messages`
  applies them to the arguments of the call they correct.

Modules:

- `Retry` (retry.dfy) is the engine: the `RetryStrategy` configuration with
  its defaults, the message reducer, each graph node as a function on a
  `GraphState`, and the two routing functions.
  - `ValidationLoop`/`Invoke` are the specification of a run.
  - `ValidationGraph` is the graph as a class whose fields the nodes update.
    Its `Run` method is the explicit loop, proved equal to the specification.
- `Respond` (respond.dfy) is the concrete `Respond` validator: the answer must
  mention "llama", in any letter case.
- `Patched` (patched.py's strategy, in patched.dfy) models the following:
  - the two tool schemas;
  - `aggregate_messages`, both as the nested loops of the source
    (`AggregateMessages`) and as the function `Aggregate` it is proved
    against;
  - `format_exception`;
  - the strategy handed to the engine.
- `JsonValue`, `JsonPointer`, `JsonPatch` and `Decimal` model the part of the
  `jsonpatch` library that `aggregate_messages` relies on: JSON values whose
  objects keep insertion order, pointer parsing with its round trip, and the
  `add`, `remove` and `replace` operations of sections 4.1 to 4.3 of
  RFC 6902.
- `Messages` and `Wrappers` hold the message records and `Option`/`Result`.

The models, the validator and the fallback are parameters of the engine
(functions from the message list). The validator returns the messages it
produces, each carrying an `is_error` flag.

Four facts about the code shape the model:

- The budget check in `route_validation` runs after the fallback has already
  counted its call. So a budget of `max_attempts` allows `max_attempts + 1`
  model calls, and a budget of 1 still calls the fallback once before giving
  up (`Retry.InvokeBudget`, `Retry.BudgetOneMakesTwoCalls`).
- The model and the fallback receive every message in the state, not only
  the window generated since the run started.
- A patch call naming an unknown target falls back to the first key inserted
  into the dictionary. No key is chosen at random.
- A patch that fails ends the run. The aggregator's exception escapes
  `select_generated_messages` in the validator node, so no retry follows
  (`Patched.PatchFailureEscapes`, `Retry.AggregatorFailureEndsRun`,
  `Patched.PatchFailureEndsRun`).

## Model

| member | source | states |
|---|---|---|
| Retry.DefaultAggregator | short_tutorials/langchain/extraction/pipeline/retry.py:16-20 | succeeds exactly when the window holds an AI message; the result is one of the window's messages, it is an AI message, and no later message is an AI message; otherwise it fails with the "No AI message" text |
| Retry.DefaultAggregatorSingleAI | short_tutorials/langchain/extraction/pipeline/retry.py:16-20 | on a window with exactly one AI message the default aggregator returns that message unchanged |
| Retry.AddOrOverwriteMessages | short_tutorials/langchain/extraction/pipeline/retry.py:69-82 | an ordinary update appends; a "finalize" update replaces the whole list with the finalized message(s), same count, every id set, ids already present kept, nothing but ids changed |
| Retry.ExhaustedTextNamesLimit | short_tutorials/langchain/extraction/pipeline/retry.py:172-176 | the exhausted-attempts error text determines the configured limit |
| Retry.Encode | short_tutorials/langchain/extraction/pipeline/retry.py:190-196 | a prompt value or a list is accepted as the message list with input format "list"; any other input fails with the unexpected-input error naming its type |
| Retry.EndictValidatorOutput | short_tutorials/langchain/extraction/pipeline/retry.py:126-136 | with a truthy tool choice and no validator output, exactly one human message flagged is_error asking for the tool call; otherwise the output unchanged |
| Retry.FinalizerKeepsOnlyAggregate | short_tutorials/langchain/extraction/pipeline/retry.py:141-154 | after the finalizer the state holds exactly one message: the aggregator's output on `messages[initial_num_messages:]`, with an id |
| Retry.RouteValidator | short_tutorials/langchain/extraction/pipeline/retry.py:163-166 | goes to validation iff the last message has tool calls or a tool choice is given |
| Retry.ErrorAfterLastAI | short_tutorials/langchain/extraction/pipeline/retry.py:177-182 | the reverse scan reports an error iff some message after the last AI message is flagged is_error (all messages when there is no AI message) |
| Retry.RouteValidation | short_tutorials/langchain/extraction/pipeline/retry.py:172-182 | fails iff attempt_number > max_attempts, even after a successful validation, and the error names max_attempts; otherwise routes to the fallback iff the scan finds an error |
| Retry.ScanStopsAtLastAI | short_tutorials/langchain/extraction/pipeline/retry.py:177-182 | messages at or before the last AI message are never inspected: only the error flags after it decide the route |
| Retry.LoopCountsGenerations | short_tutorials/langchain/extraction/pipeline/retry.py:96-106 | attempt_number grows by exactly one per llm or fallback step and no other node changes it |
| Retry.LoopBudget | short_tutorials/langchain/extraction/pipeline/retry.py:170-176 | after validation, a result is returned only while attempt_number <= max_attempts; when the budget is spent the counter is max_attempts + 1 and the error names the limit |
| Retry.LoopMessages | short_tutorials/langchain/extraction/pipeline/retry.py:146-154 | until it finalizes, a run only appends to messages; a successful run ends with the returned message, with an id, as the only message and the finalizer as the last step |
| Retry.LoopReturnsAggregate | short_tutorials/langchain/extraction/pipeline/retry.py:146-154 | a run through validation that returns a value stopped after validating a state the loop reaches from its start, a state whose scan routes to the finalizer; the value is, up to its id, the aggregator's output on that state's window, which starts where the starting window starts and extends it |
| Retry.InvokeReturnsAggregate | short_tutorials/langchain/extraction/pipeline/retry.py:108-124 | initial_num_messages is the length of the caller's list; a returned value is either the model's first answer (no tool call, no tool choice) or, up to its id, the aggregate of the messages after the caller's, a window that begins with the model's first answer |
| Retry.InvokeBudget | short_tutorials/langchain/extraction/pipeline/retry.py:104-106 | per invocation: attempt_number equals the number of model calls, which is at most max(1, max_attempts + 1); a validated result needs at most max_attempts calls; exhaustion happens after exactly max(1, max_attempts + 1) calls and names the limit |
| Retry.DefaultBudget | short_tutorials/langchain/extraction/pipeline/retry.py:170 | with no max_attempts configured (default 3), at most four model calls are made |
| Retry.EndsWithoutToolCall | short_tutorials/langchain/extraction/pipeline/retry.py:163-169 | no tool call and no tool choice: the first answer is returned unchanged after one model call, and nothing is validated |
| Retry.ForcedToolChoiceRetries | short_tutorials/langchain/extraction/pipeline/retry.py:126-136 | an instance of the rule below: a forced tool choice whose first answer has no tool call is sent to the fallback |
| Retry.ForcedToolChoiceFallsBack | short_tutorials/langchain/extraction/pipeline/retry.py:126-138 | for any aggregator and any round: with a truthy tool choice and an empty validator output, the synthesized error is appended and, within the budget, the run goes to the fallback next |
| Retry.AggregatorFailureEndsRun | short_tutorials/langchain/extraction/pipeline/retry.py:121-124 | an exception from the aggregator in the validator node ends the run with that error, in the state it had, with no retry |
| Retry.FallbackRecoversWithinBudget | short_tutorials/langchain/extraction/pipeline/retry.py:97-106 | invalid primary answer, valid fallback answer, budget 2: the fallback's answer is returned after exactly two model calls |
| Retry.BudgetOneMakesTwoCalls | short_tutorials/langchain/extraction/pipeline/retry.py:172-176 | the same models with budget 1: two model calls are made, then the run fails with AttemptsExhausted(1) |
| Retry.ValidationGraph.constructor | short_tutorials/langchain/extraction/pipeline/retry.py:84-88 | the state starts with the input messages, attempt_number 0, initial_num_messages 0 |
| Retry.ValidationGraph.CountMessages | short_tutorials/langchain/extraction/pipeline/retry.py:108-109 | records the number of input messages and changes nothing else |
| Retry.ValidationGraph.Llm | short_tutorials/langchain/extraction/pipeline/retry.py:96 | appends the primary model's answer to all messages and counts one attempt |
| Retry.ValidationGraph.Fallback | short_tutorials/langchain/extraction/pipeline/retry.py:97-106 | appends the fallback's answer (the primary model when none is configured) and counts one attempt |
| Retry.ValidationGraph.Validator | short_tutorials/langchain/extraction/pipeline/retry.py:121-139 | validates the aggregate of the generated window and appends the validator's messages; an aggregator failure is reported and leaves the state as it was |
| Retry.ValidationGraph.Finalizer | short_tutorials/langchain/extraction/pipeline/retry.py:141-157 | replaces the messages by the aggregate of the generated window, given a fresh id if it had none |
| Retry.ValidationGraph.Run | short_tutorials/langchain/extraction/pipeline/retry.py:157-186 | the graph's loop: result and final state are those of the run specification, so every property above holds of it |
| Retry.InvokeGraph | short_tutorials/langchain/extraction/pipeline/retry.py:202-205 | encode, graph, decode: returns the result of the invocation specification |
| Respond.Contains | short_tutorials/langchain/extraction/pipeline/retry.py:216 | the substring test is true iff the keyword occurs at some position |
| Respond.KeywordCaseInsensitive | short_tutorials/langchain/extraction/pipeline/retry.py:216 | the check accepts an answer iff it accepts its lower-cased form |
| Respond.ReasonContainsApologyAsWritten | short_tutorials/langchain/extraction/pipeline/retry.py:214-220 | as written: fails with the advertisement demand iff "llama" does not occur in the lower-cased answer, and otherwise returns None |
| Respond.ValidateRespondAsWritten | short_tutorials/langchain/extraction/pipeline/retry.py:208-220 | as written, a response is built iff the answer mentions "llama" in any case; otherwise it fails with the advertisement demand; every response built keeps its reason and has no answer |
| Respond.AsWrittenLosesValidAnswer | short_tutorials/langchain/extraction/pipeline/retry.py:214-220 | "Llama!" passes the check, yet as written the response's answer is None; corrected, it is "Llama!" |
| Respond.AsWrittenDiscardsEveryAcceptedAnswer | short_tutorials/langchain/extraction/pipeline/retry.py:214-220 | every answer the check accepts is discarded as written |
| Respond.ReasonContainsApology | short_tutorials/langchain/extraction/pipeline/retry.py:214-220 | corrected: same failure condition and text; an accepted answer passes through unchanged |
| Respond.ValidateRespond | short_tutorials/langchain/extraction/pipeline/retry.py:208-220 | corrected: a response is built iff the answer mentions the keyword, and it keeps both fields |
| Patched.ReadPatchShape | short_tutorials/langchain/extraction/pipeline/patched.py:58-81 | a JsonPatch object is accepted iff it has a string op among add, remove and replace, a string path and a value (null included); the accepted shape holds exactly those three fields |
| Patched.ReadPatchShapes | short_tutorials/langchain/extraction/pipeline/patched.py:96-99 | a patch list fits iff every item fits, and item i reads as item i |
| Patched.SchemaFitsAggregator | short_tutorials/langchain/extraction/pipeline/patched.py:83-99 | arguments that fit PatchFunctionParameters give the aggregator a string target and a patch list of the same length |
| Patched.PatchList | short_tutorials/langchain/extraction/pipeline/patched.py:124 | a missing or falsy patches value gives the empty list; a truthy list is used as it is; a truthy value that is not a list is an error |
| Patched.TargetKey | short_tutorials/langchain/extraction/pipeline/patched.py:115-122 | a known target is used; the lookup fails only when the dictionary is empty; the key found is always in the dictionary |
| Patched.StepCall | short_tutorials/langchain/extraction/pipeline/patched.py:113-131 | an ordinary call is stored under its id (new ids last, known ids in place); a patch call keeps keys and order and rewrites only the target's args and id |
| Patched.StepCalls | short_tutorials/langchain/extraction/pipeline/patched.py:113-131 | each dictionary reached lists every key once, matches its keys, and holds no patch call |
| Patched.ResolveFrom | short_tutorials/langchain/extraction/pipeline/patched.py:108-131 | the same well-formedness after every message |
| Patched.CallsInOrder | short_tutorials/langchain/extraction/pipeline/patched.py:134 | one stored call per key, in insertion order, none a patch call |
| Patched.AggregateMessages | short_tutorials/langchain/extraction/pipeline/patched.py:104-135 | the nested loops compute the aggregate function, with the lookup as written |
| Patched.StepCallsOrder | short_tutorials/langchain/extraction/pipeline/patched.py:130-131 | the keys of one message's calls are the ids of its ordinary calls, deduplicated in first-seen order |
| Patched.ResolveOrder | short_tutorials/langchain/extraction/pipeline/patched.py:106-131 | the same over all messages |
| Patched.DedupIntoFacts | short_tutorials/langchain/extraction/pipeline/patched.py:106 | the key list keeps every key once and invents none |
| Patched.AggregateShape | short_tutorials/langchain/extraction/pipeline/patched.py:104-135 | the result holds exactly one tool call per distinct ordinary id, in first-seen order, no patch call, the first non-empty content, and no id; the call at position i is the one stored (and patched) under the i-th distinct id |
| Patched.AggregateWithoutPatches | short_tutorials/langchain/extraction/pipeline/patched.py:130-134 | without patch calls aggregation cannot fail, and every returned call sits under its own id |
| Patched.FirstContentIsFirstNonEmpty | short_tutorials/langchain/extraction/pipeline/patched.py:107-112 | the content is "" iff every AI message has empty content, and otherwise that of the first AI message with non-empty content |
| Patched.AggregateIgnoresNonAI | short_tutorials/langchain/extraction/pipeline/patched.py:108-110 | non-AI messages never change the aggregate |
| Patched.PatchKnownTarget | short_tutorials/langchain/extraction/pipeline/patched.py:114-129 | a patch naming a stored key applies the patches in order to that call's args and gives it the patch call's id, under the same key; a failing patch is that call's error |
| Patched.PatchUnknownTarget | short_tutorials/langchain/extraction/pipeline/patched.py:116-122 | as written, a target that is no key lands on the first key, or fails with KeyError(None) when no ordinary call has been seen |
| Patched.RenamedIdFollowed | short_tutorials/langchain/extraction/pipeline/patched.py:114-129 | with the corrected lookup, a target that is the current id of a stored call lands on that call |
| Patched.EmptyPatchesKeepArgs | short_tutorials/langchain/extraction/pipeline/patched.py:124-129 | a missing or empty patch list leaves the args as they were; only the id changes |
| Patched.PatchFailureEscapes | short_tutorials/langchain/extraction/pipeline/patched.py:125-128 | a failing step in the current message is not caught: the rest of the loop is skipped and the aggregation fails with it |
| Patched.ResolveFromConcat | short_tutorials/langchain/extraction/pipeline/patched.py:108-131 | the outer loop over two runs of messages is the loop over the first, then over the second from where it stopped |
| Patched.PatchFailureFailsAggregate | short_tutorials/langchain/extraction/pipeline/patched.py:108-131 | when the messages before message j aggregate cleanly and the calls of message j fail, aggregate_messages fails with exactly that error, whatever follows |
| Patched.PatchFailureEndsRun | short_tutorials/langchain/extraction/pipeline/patched.py:148-152 | with the JSONPatch strategy, an aggregation failure on the validator's window ends the run with the aggregator's error text and no further attempt |
| Patched.ReplaceExample | short_tutorials/langchain/extraction/pipeline/patched.py:125-129 | `replace /a z` on {"a": x, "b": y} gives {"a": z, "b": y} under the original key, with the patch call's id |
| Patched.TwoCalls | short_tutorials/langchain/extraction/pipeline/patched.py:114-129 | the two-call state used by the stale-id lemmas (call k1 with args {}, call k2 with args {"x": x} reporting id id2) is well formed |
| Patched.StaleIdFirstPatch | short_tutorials/langchain/extraction/pipeline/patched.py:114-129 | for any two distinct keys, a patch on the second call (with or without the corrected lookup) replaces /x, keeps the call under its key and gives it the patch call's id |
| Patched.StaleIdMisrouted | short_tutorials/langchain/extraction/pipeline/patched.py:116-122 | as written, a second patch naming that new id finds no key, lands on the first call and fails with "can't replace a non-existent object 'x'" |
| Patched.StaleIdFollowed | short_tutorials/langchain/extraction/pipeline/patched.py:116-122 | with the corrected lookup, the same second patch reaches the renamed call and replaces its /x |
| Patched.StaleIdScenario | short_tutorials/langchain/extraction/pipeline/patched.py:116-122 | both outcomes of the second patch together, for any distinct keys and ids |
| Patched.StaleIdExample | short_tutorials/langchain/extraction/pipeline/patched.py:114-129 | the concrete run: c2 patched by p1, then p1 patched by p2, failing as written and succeeding with the corrected lookup |
| Patched.FormatException | short_tutorials/langchain/extraction/pipeline/patched.py:137-142 | the message starts with the error's repr and ends by requesting a JSONPatch for the call's current id |
| Patched.FormatExceptionNamesId | short_tutorials/langchain/extraction/pipeline/patched.py:137-142 | for a given error and schema the message determines the id it names |
| Patched.PatchStrategyReturnsNoPatchCall | short_tutorials/langchain/extraction/pipeline/patched.py:148-152 | with the lookup as written (the strategy the source builds) and with the corrected one, no message the engine returns holds a PatchFunctionParameters call |
| JsonPatch.ApplyDocument | short_tutorials/langchain/extraction/pipeline/patched.py:125-128 | an empty patch leaves the document as it is; a malformed op or path rejects the whole patch before anything is applied (never as a conflict); otherwise the operations are applied in order |
| JsonPatch.ParseOp | short_tutorials/langchain/extraction/pipeline/patched.py:125-128 | an operation is read iff it is an object whose op is the string add, remove or replace and whose path is a string that parses as a pointer; "remove" gives a remove of that pointer, "add" and "replace" with a value give that operation with that value, and without a value the operation is read and fails only when applied; a bad pointer is a pointer error, and no error is a conflict |
| JsonPatch.MissingValueFailsWhenReached | short_tutorials/langchain/extraction/pipeline/patched.py:125-128 | an operation without a value fails only when reached: an earlier operation's failure is reported first |
| JsonPatch.ParsePatch | short_tutorials/langchain/extraction/pipeline/patched.py:125-128 | a patch is read iff each operation is, item by item; a failure is the error of the first malformed item |
| JsonPatch.ApplyPatchConcat | short_tutorials/langchain/extraction/pipeline/patched.py:125-128 | operations apply one after another: applying a + b is applying b to the result of a |
| JsonPatch.GetAfterAdd | short_tutorials/langchain/extraction/pipeline/patched.py:125-128 | after a successful add (not an append with "-") the value is found at the path |
| JsonPatch.GetAfterReplace | short_tutorials/langchain/extraction/pipeline/patched.py:125-128 | after a successful replace the new value is found at the path |
| JsonPatch.ReplaceNeedsTarget | short_tutorials/langchain/extraction/pipeline/patched.py:125-128 | replace succeeds iff the path exists |
| JsonPatch.RemoveNeedsTarget | short_tutorials/langchain/extraction/pipeline/patched.py:125-128 | remove succeeds iff the path exists and is not the whole document |
| JsonPatch.RemoveMemberGone | short_tutorials/langchain/extraction/pipeline/patched.py:125-128 | removing a member leaves an object without it and with all its other members |
| JsonPatch.ReplaceMemberKeepsSiblings | short_tutorials/langchain/extraction/pipeline/patched.py:125-128 | replacing an object member keeps every position and every other member, and sets the new value |
| JsonPatch.AddMemberKeepsSiblings | short_tutorials/langchain/extraction/pipeline/patched.py:125-128 | adding an object member always succeeds, sets the value and keeps every other member; an existing member keeps its position, a new one is appended |
| JsonPatch.WithChild | short_tutorials/langchain/extraction/pipeline/patched.py:125-128 | rewriting one child sets that child and keeps every other child, the kind of container and every position |
| JsonPatch.ReplaceFrame | short_tutorials/langchain/extraction/pipeline/patched.py:125-128 | a replace changes nothing outside its path: any pointer that leaves the path reads the same value before and after |
| JsonPatch.AddFrame | short_tutorials/langchain/extraction/pipeline/patched.py:125-128 | an add changes nothing outside its path when it adds to an object, and nothing outside the container it adds to in any case |
| JsonPatch.RemoveFrame | short_tutorials/langchain/extraction/pipeline/patched.py:125-128 | a remove changes nothing outside its path when it removes from an object, and nothing outside the container it removes from in any case |
| JsonPointer.ParseRender | short_tutorials/langchain/extraction/pipeline/patched.py:74-77 | a rendered pointer parses back to its tokens |
| JsonPointer.RenderParse | short_tutorials/langchain/extraction/pipeline/patched.py:74-77 | every pointer that parses is the rendering of its tokens |
| JsonPointer.UnescapeEscape | short_tutorials/langchain/extraction/pipeline/patched.py:74-77 | "~0"/"~1" escaping of one token round-trips |
| JsonValue.SetMember | short_tutorials/langchain/extraction/pipeline/patched.py:125-128 | setting a member makes it found with the new value, keeps every other lookup, keeps a known key in place and appends a new one |
| JsonValue.RemoveMember | short_tutorials/langchain/extraction/pipeline/patched.py:125-128 | the removed key is gone, and every other member is kept |
| JsonValue.RemoveKeepsOtherLookups | short_tutorials/langchain/extraction/pipeline/patched.py:125-128 | removing a key leaves the lookup of every other key unchanged |
| Decimal.IndexOfNatToString | short_tutorials/langchain/extraction/pipeline/patched.py:74-77 | an array-index token written in decimal reads back as its number |
| Decimal.CanonicalDigits | short_tutorials/langchain/extraction/pipeline/patched.py:74-77 | a canonical digit string (no leading zero) is the decimal form of its value |
| Decimal.IntToStringInjective | short_tutorials/langchain/extraction/pipeline/retry.py:174-176 | different limits give different decimal texts |

## Left out

- Calling the chat models (`bind_tools`, `invoke`) is not modelled. The
  primary model and the fallback are parameters of type
  `seq<Message> -> Message`.
- Schema checking by `ValidationNode`, pydantic, and `schema_json()` are not
  modelled. The validator is a parameter returning messages with an is_error
  flag, and the schema text is a parameter of `FormatException`. The
  `Respond` rule is modelled concretely.
- The LangGraph plumbing (`StateGraph`, `compile`, `with_config`, run names,
  metadata) is not modelled. The graph is the explicit loop of
  `ValidationGraph.Run`.
- The `bind` functions (retry.py:223-252, patched.py:15-21, 101-102 and
  153-158) only wire tools to models and are not modelled.
  `Patched.PatchStrategy(false, ...)` stands for the strategy of
  patched.py:148-152; `Patched.PatchStrategy(true, ...)` is the same
  strategy with the corrected target lookup.
- `add_messages` is modelled as an append. Its merging of messages that share
  an id, and the ids it assigns to new messages, are not modelled.
- `uuid.uuid4` is not modelled. Fresh ids come from a parameter
  `uuid: nat -> string`, indexed by position in the finalized list.
- Retry.InvokeBudget: LangGraph's default recursion limit of 25 steps is not
  modelled. A run takes 3 steps to its first validation and 2 more per
  fallback, so with `max_attempts` of about 11 or more a run that keeps
  failing raises GraphRecursionError before `route_validation` can report the
  exhausted budget, and a run that would succeed only after its 11th fallback
  also ends that way. The call sites use budgets of at most 3.
- Retry.LoopBudget: the same step limit is not modelled, so the exhaustion
  stated here is reached only for budgets below about 11.
- JsonPatch.ApplyDocument: error kinds follow the `jsonpatch` library, but
  the texts only roughly. Pointer errors carry no document in their text.
  A scalar reached at the last token is reported as a conflict. A "-" token outside
  an add is reported as a pointer error.
- Retry.EndsWithoutToolCall: the returned message is unchanged in the model.
  The real `add_messages` may give it an id, which this model does not
  capture.
- The "dict" input format is declared but never produced, so it plays no
  part in the model.
- JSON numbers are integers. Floating point is not modelled.
- A `patches` value that is a JSON string is parsed by the library. Here it
  is reported as not a list.
- The patch operations `move`, `copy` and `test` are reported as invalid.
  They fall outside the three operations the schema allows.
- Tool-call arguments that are not JSON objects are treated as having no
  `tool_call_id`.
- Message content that is a list of parts is not modelled. Content is a
  string.
- `str.lower()` is modelled on ASCII letters only. Unicode case mapping is
  not modelled.
- Several incidental pieces are not modelled:
  - the `logger.debug` diagnostic (patched.py:117-120);
  - the `jsonpatch` import guard (patched.py:52-56);
  - the in-place mutation of the message object by the finalizer's id
    assignment, whose effect on the returned value is modelled.
- A `ValueError` raised inside the graph, and an exception from the
  aggregator, are modelled as `EngineError` results. No exception
  propagation is modelled.
- Patched.SchemaFitsAggregator: the aggregator runs before the schema is
  checked, so the lemma shows which failures schema-valid calls avoid. It
  does not show that malformed calls never reach the aggregator.

## Findings

| source | as written | input that shows it | evidently intended | confidence | as-written member | corrected member |
|---|---|---|---|---|---|---|
| short_tutorials/langchain/extraction/pipeline/retry.py:214-220 | the `answer` field validator raises when "llama" is missing and otherwise returns nothing; a pydantic field validator's return value becomes the field's value, so every accepted answer is replaced by None | `Respond(reason="r", answer="Llama!")` | return the answer unchanged | high, not executed | Respond.AsWrittenLosesValidAnswer | Respond.ValidateRespond |
| short_tutorials/langchain/extraction/pipeline/patched.py:116-129 | a patched call keeps its dictionary key but takes the patch call's id, which is the id `format_exception` (patched.py:137-142) then asks the model to patch; a second patch naming that id finds no key and is applied to the first call instead | calls c1 (args {}) and c2 (args {"x": 1}); patch p1 on c2 sets /x to 2; patch p2 names p1 and replaces /x with 3: p2 lands on c1 and fails with "can't replace a non-existent object 'x'", which ends the run (Patched.PatchFailureEndsRun) | the second patch reaches c2, the call the validator reported | medium, not executed | Patched.StaleIdExample | Patched.RenamedIdFollowed |

`Patched.AggregateMessages` models the loop as written. `Patched.PatchStrategy`
takes the lookup as a parameter: `false` is the strategy the source builds,
`true` the corrected one; `Patched.PatchStrategyReturnsNoPatchCall` holds for
both.
