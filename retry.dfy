/** The validate-and-retry engine ("bind validator with retries").

    The source builds a small state graph whose nodes share one mutable state
    (messages, attempt_number, initial_num_messages, input_format):

      count_messages -> llm -> (validator | END)
      validator -> (finalizer | fallback),  fallback -> validator,  finalizer -> END

    This module gives each node and each routing function as a function over
    `GraphState`, the whole run as `ValidationLoop`/`RunGraph`/`Invoke`, and the
    graph itself as the class `ValidationGraph`, whose `Run` method walks the
    graph with an explicit loop and is proved to agree with `RunGraph`. The
    language models, the fallback and the schema validator are parameters. */
module Retry {
  import opened Wrappers
  import opened Messages
  import Decimal

  /** A (bound) chat model: the conversation so far in, one new message out. */
  type Oracle = seq<Message> -> Message
  /** The schema validator: messages in, one message per checked tool call out
      (failures carry `isError`). */
  type ValidationFn = seq<Message> -> seq<Message>
  /** An aggregator: the generated window in, one AI message out, or the text of
      the exception it raises. */
  type AggregateFn = seq<Message> -> Result<Message, string>

  /** `RetryStrategy`: every key is optional. */
  datatype RetryStrategy = RetryStrategy(
    maxAttempts: Option<int>,
    fallback: Option<Oracle>,
    aggregateMessages: Option<AggregateFn>)

  /** The arguments of `_bind_validator_with_retries`. */
  datatype Binding = Binding(
    llm: Oracle,
    validator: ValidationFn,
    strategy: RetryStrategy,
    toolChoice: Option<string>)

  /** The exceptions that escape the engine. */
  datatype EngineError =
    | UnexpectedInput(typeName: string)   // `encode` got neither a PromptValue nor a list
    | AggregationFailed(reason: string)   // the aggregator raised
    | AttemptsExhausted(maxAttempts: int) // `route_validation` found the budget spent

  const DefaultMaxAttempts: int := 3
  const NoAIMessageText := "No AI message found in the sequence."

  function ErrorText(e: EngineError): string {
    match e
    case UnexpectedInput(t) => "Unexpected input type: " + t
    case AggregationFailed(reason) => reason
    case AttemptsExhausted(n) =>
      "Could not extract a valid value in " + Decimal.IntToString(n) + " attempts."
  }

  /** The exhausted-attempts message names the limit: two limits never give the
      same text. */
  lemma ExhaustedTextNamesLimit(a: int, b: int)
    requires ErrorText(AttemptsExhausted(a)) == ErrorText(AttemptsExhausted(b))
    ensures a == b
  {
    var p, q := "Could not extract a valid value in ", " attempts.";
    var ta, tb := Decimal.IntToString(a), Decimal.IntToString(b);
    assert p + ta + q == p + tb + q;
    assert |ta| == |tb|;
    assert ta == (p + ta + q)[|p|..|p| + |ta|];
    assert tb == (p + tb + q)[|p|..|p| + |tb|];
    Decimal.IntToStringInjective(a, b);
  }

  // ---- Strategy defaults ----

  /** `retry_strategy.get("max_attempts", 3)` */
  function MaxAttempts(s: RetryStrategy): int {
    match s.maxAttempts
    case None => DefaultMaxAttempts
    case Some(n) => n
  }

  /** The fallback runnable: the strategy's, else the primary model. */
  function FallbackOracle(b: Binding): Oracle {
    match b.strategy.fallback
    case None => b.llm
    case Some(f) => f
  }

  /** `retry_strategy.get("aggregate_messages") or _default_aggregator` */
  function SelectMessages(s: RetryStrategy): AggregateFn {
    match s.aggregateMessages
    case None => DefaultAggregator
    case Some(a) => a
  }

  // ---- The default aggregator ----

  /** `_default_aggregator`: the last AI message; raises when there is none. */
  function DefaultAggregator(messages: seq<Message>): (r: Result<Message, string>)
    ensures r.Ok? <==> exists i :: 0 <= i < |messages| && messages[i].msgType == AI
    ensures r.Ok? ==> exists i :: 0 <= i < |messages| && r.value == messages[i]
                        && messages[i].msgType == AI
                        && forall j :: i < j < |messages| ==> messages[j].msgType != AI
    ensures r.Err? ==> r.error == NoAIMessageText
    decreases |messages|
  {
    if messages == [] then Err(NoAIMessageText)
    else if messages[|messages| - 1].msgType == AI then Ok(messages[|messages| - 1])
    else DefaultAggregator(messages[..|messages| - 1])
  }

  /** On a window holding exactly one AI message, the default aggregator returns
      that message unchanged. */
  lemma DefaultAggregatorSingleAI(messages: seq<Message>, k: nat)
    requires k < |messages| && messages[k].msgType == AI
    requires forall j :: 0 <= j < |messages| && j != k ==> messages[j].msgType != AI
    ensures DefaultAggregator(messages) == Ok(messages[k])
  {
  }

  // ---- The `messages` reducer ----

  /** What `Finalizer` hands over: one message, or a list of them. */
  datatype Finalized = One(message: Message) | Many(messages: seq<Message>)

  /** A node's update to `messages`: `{"messages": [...]}` or
      `{"messages": {"finalize": ...}}`. */
  datatype Update = Append(added: seq<Message>) | Finalize(finalized: Finalized)

  function FinalizedList(f: Finalized): seq<Message> {
    match f
    case One(m) => [m]
    case Many(ms) => ms
  }

  /** Every id-less message gets an id from `uuid` (indexed by position). */
  function WithFreshIds(ms: seq<Message>, uuid: nat -> string): (r: seq<Message>)
    ensures |r| == |ms|
  {
    seq(|ms|, i requires 0 <= i < |ms| =>
      if ms[i].id.None? then ms[i].(id := Some(uuid(i))) else ms[i])
  }

  /** `add_or_overwrite_messages`, with `add_messages` taken as an append. */
  function Reduce(left: seq<Message>, right: Update, uuid: nat -> string): seq<Message> {
    match right
    case Append(added) => left + added
    case Finalize(f) => WithFreshIds(FinalizedList(f), uuid)
  }

  /** `add_or_overwrite_messages`: a finalize update replaces the whole list with
      the finalized message(s), each id-less one given a fresh id in place; any
      other update is appended. */
  method AddOrOverwriteMessages(left: seq<Message>, right: Update, uuid: nat -> string)
    returns (res: seq<Message>)
    ensures res == Reduce(left, right, uuid)
    ensures right.Append? ==> res == left + right.added
    ensures right.Finalize? ==>
              var fin := FinalizedList(right.finalized);
              |res| == |fin|
              && (forall i :: 0 <= i < |res| ==> res[i].id.Some?)
              && (forall i :: 0 <= i < |res| ==> res[i] == fin[i].(id := res[i].id))
              && (forall i :: 0 <= i < |res| && fin[i].id.Some? ==> res[i] == fin[i])
  {
    match right
    case Append(added) =>
      res := left + added;
    case Finalize(f) =>
      var finalized := match f case One(m) => [m] case Many(ms) => ms;
      ghost var fin := FinalizedList(f);
      var i := 0;
      while i < |finalized|
        invariant 0 <= i <= |finalized| == |fin|
        invariant finalized[..i] == WithFreshIds(fin, uuid)[..i]
        invariant finalized[i..] == fin[i..]
      {
        assert finalized[i] == fin[i];
        if finalized[i].id.None? {
          finalized := finalized[i := finalized[i].(id := Some(uuid(i)))];
        }
        i := i + 1;
      }
      assert finalized == finalized[..i];
      res := finalized;
  }

  // ---- Graph state and nodes ----

  datatype InputFormat = ListFormat | DictFormat

  datatype GraphState = GraphState(
    messages: seq<Message>,
    attemptNumber: nat,
    initialNumMessages: nat,
    inputFormat: InputFormat)

  datatype Node = CountMessagesNode | LlmNode | ValidatorNode | FallbackNode | FinalizerNode

  /** What a graph run ends with: the value returned or raised, the final
      state, and the nodes entered, in order. */
  datatype Outcome = Outcome(result: Result<Message, EngineError>, state: GraphState, trace: seq<Node>)

  /** What the engine accepts: a prompt value, a list of messages, or anything
      else (named by its type). */
  datatype Input = PromptInput(promptMessages: seq<Message>) | ListInput(items: seq<Message>) | OtherInput(typeName: string)

  /** `encode`: only a PromptValue or a list is accepted; both are recorded as
      the "list" input format. */
  function Encode(input: Input): (r: Result<(seq<Message>, InputFormat), EngineError>)
    ensures r.Ok? <==> !input.OtherInput?
    ensures r.Ok? ==> r.value.1 == ListFormat
    ensures input.PromptInput? ==> r == Ok((input.promptMessages, ListFormat))
    ensures input.ListInput? ==> r == Ok((input.items, ListFormat))
    ensures input.OtherInput? ==> r == Err(UnexpectedInput(input.typeName))
  {
    match input
    case PromptInput(ms) => Ok((ms, ListFormat))
    case ListInput(ms) => Ok((ms, ListFormat))
    case OtherInput(t) => Err(UnexpectedInput(t))
  }

  /** `decode`: the last message of the final state. */
  function Decode(s: GraphState): Message
    requires s.messages != []
  {
    s.messages[|s.messages| - 1]
  }

  /** `count_messages` */
  function CountMessagesStep(s: GraphState): GraphState {
    s.(initialNumMessages := |s.messages|)
  }

  /** The `llm` and `fallback` nodes: call the model on every message in the
      state, append its answer, and add 1 to `attempt_number`. */
  function GenerateStep(s: GraphState, oracle: Oracle, uuid: nat -> string): GraphState {
    s.(messages := Reduce(s.messages, Append([oracle(s.messages)]), uuid),
       attemptNumber := s.attemptNumber + 1)
  }

  /** `messages[initial_num_messages:]`: what this invocation generated. */
  function Generated(s: GraphState): seq<Message> {
    if s.initialNumMessages <= |s.messages| then s.messages[s.initialNumMessages..] else []
  }

  /** `select_generated_messages`: the aggregate of the generated window, as a
      one-element list. */
  function SelectGeneratedMessages(b: Binding, s: GraphState): Result<seq<Message>, EngineError> {
    match SelectMessages(b.strategy)(Generated(s))
    case Err(e) => Err(AggregationFailed(e))
    case Ok(m) => Ok([m])
  }

  /** The message synthesized when a forced tool choice produced no tool call. */
  function ToolChoiceError(toolChoice: string): Message {
    Message(Human,
            "ValidationError: please respond with a valid tool call [tool_choice=" + toolChoice + "].",
            [], None, true)
  }

  /** Python truthiness of `tool_choice`. */
  predicate ToolChoiceSet(toolChoice: Option<string>) {
    toolChoice.Some? && toolChoice.value != ""
  }

  /** `endict_validator_output`: an empty validator output under a truthy
      tool_choice becomes one error-flagged message; anything else passes. */
  function EndictValidatorOutput(x: seq<Message>, toolChoice: Option<string>): (r: seq<Message>)
    ensures ToolChoiceSet(toolChoice) && x == [] ==>
              |r| == 1 && r[0].isError && r[0].msgType == Human && r[0].toolCalls == []
    ensures !(ToolChoiceSet(toolChoice) && x == []) ==> r == x
  {
    if ToolChoiceSet(toolChoice) && x == [] then [ToolChoiceError(toolChoice.value)] else x
  }

  /** The `validator` node: aggregate the window, validate the aggregate, append
      the validator's messages. */
  function ValidatorStep(b: Binding, s: GraphState, uuid: nat -> string): Result<GraphState, EngineError> {
    match SelectGeneratedMessages(b, s)
    case Err(e) => Err(e)
    case Ok(selected) =>
      Ok(s.(messages := Reduce(s.messages, Append(EndictValidatorOutput(b.validator(selected), b.toolChoice)), uuid)))
  }

  /** The `finalizer` node: replace every message by the aggregate of the window. */
  function FinalizerStep(b: Binding, s: GraphState, uuid: nat -> string): Result<GraphState, EngineError> {
    match SelectMessages(b.strategy)(Generated(s))
    case Err(e) => Err(AggregationFailed(e))
    case Ok(m) => Ok(s.(messages := Reduce(s.messages, Finalize(One(m)), uuid)))
  }

  /** After finalizing, the state holds exactly the aggregate of the generated
      window, with an id, and nothing else. */
  lemma FinalizerKeepsOnlyAggregate(b: Binding, s: GraphState, uuid: nat -> string)
    requires FinalizerStep(b, s, uuid).Ok?
    ensures SelectMessages(b.strategy)(Generated(s)).Ok?
    ensures var m := SelectMessages(b.strategy)(Generated(s)).value;
            var f := FinalizerStep(b, s, uuid).value;
            |f.messages| == 1 && f.messages[0] == m.(id := f.messages[0].id)
            && f.messages[0].id.Some?
            && (m.id.Some? ==> f.messages[0] == m)
            && f.attemptNumber == s.attemptNumber
  {
  }

  // ---- Routing ----

  datatype LlmRoute = ToValidator | ToEnd
  datatype Route = ToFallback | ToFinalizer

  /** `route_validator`: validate when the model's answer has tool calls or a
      tool choice was given at all (even the empty string). */
  function RouteValidator(messages: seq<Message>, toolChoice: Option<string>): (r: LlmRoute)
    requires messages != []
    ensures r == ToValidator <==> messages[|messages| - 1].toolCalls != [] || toolChoice.Some?
  {
    if messages[|messages| - 1].toolCalls != [] || toolChoice.Some? then ToValidator else ToEnd
  }

  /** The reverse scan of `route_validation`: true when, walking back from the
      end and stopping at the first AI message, an error-flagged message is met. */
  function ErrorAfterLastAI(messages: seq<Message>): (r: bool)
    ensures r <==> exists i :: 0 <= i < |messages| && messages[i].isError
                     && forall j :: i <= j < |messages| ==> messages[j].msgType != AI
    decreases |messages|
  {
    if messages == [] then false
    else
      var m := messages[|messages| - 1];
      if m.msgType == AI then false
      else if m.isError then true
      else ErrorAfterLastAI(messages[..|messages| - 1])
  }

  /** `route_validation`: the budget is checked first, then the scan. */
  function RouteValidation(messages: seq<Message>, attemptNumber: int, maxAttempts: int): (r: Result<Route, EngineError>)
    ensures r.Err? <==> attemptNumber > maxAttempts
    ensures r.Err? ==> r.error == AttemptsExhausted(maxAttempts)
    ensures r.Ok? ==> (r.value == ToFallback <==> ErrorAfterLastAI(messages))
  {
    if attemptNumber > maxAttempts then Err(AttemptsExhausted(maxAttempts))
    else if ErrorAfterLastAI(messages) then Ok(ToFallback)
    else Ok(ToFinalizer)
  }

  /** Messages at or before the last AI message never affect the scan. */
  lemma ScanStopsAtLastAI(before: seq<Message>, ai: Message, after: seq<Message>)
    requires ai.msgType == AI
    requires forall j :: 0 <= j < |after| ==> after[j].msgType != AI
    ensures ErrorAfterLastAI(before + [ai] + after) <==> exists j :: 0 <= j < |after| && after[j].isError
  {
    var ms := before + [ai] + after;
    var k := |before| + 1;
    assert ms[k - 1] == ai;
    assert forall j :: 0 <= j < |after| ==> ms[k + j] == after[j];
    if ErrorAfterLastAI(ms) {
      var i :| 0 <= i < |ms| && ms[i].isError && forall j :: i <= j < |ms| ==> ms[j].msgType != AI;
      assert ms[i] == after[i - k];
    }
    if exists j :: 0 <= j < |after| && after[j].isError {
      var j :| 0 <= j < |after| && after[j].isError;
      forall t | k + j <= t < |ms|
        ensures ms[t].msgType != AI
      {
        assert ms[t] == after[t - k];
      }
      assert ms[k + j].isError;
    }
  }

  // ---- Whole runs ----

  /** The `validator -> (fallback -> validator)* -> finalizer` part of a run. */
  function ValidationLoop(b: Binding, s: GraphState, uuid: nat -> string): Outcome
    decreases MaxAttempts(b.strategy) + 1 - s.attemptNumber
  {
    match ValidatorStep(b, s, uuid)
    case Err(e) => Outcome(Err(e), s, [ValidatorNode])
    case Ok(v) =>
      match RouteValidation(v.messages, v.attemptNumber, MaxAttempts(b.strategy))
      case Err(e) => Outcome(Err(e), v, [ValidatorNode])
      case Ok(ToFinalizer) =>
        (match FinalizerStep(b, v, uuid)
         case Err(e) => Outcome(Err(e), v, [ValidatorNode, FinalizerNode])
         case Ok(f) => Outcome(Ok(Decode(f)), f, [ValidatorNode, FinalizerNode]))
      case Ok(ToFallback) =>
        var o := ValidationLoop(b, GenerateStep(v, FallbackOracle(b), uuid), uuid);
        o.(trace := [ValidatorNode, FallbackNode] + o.trace)
  }

  /** A run of the compiled graph from its initial state. */
  function RunGraph(b: Binding, s0: GraphState, uuid: nat -> string): Outcome {
    var s1 := GenerateStep(CountMessagesStep(s0), b.llm, uuid);
    match RouteValidator(s1.messages, b.toolChoice)
    case ToEnd => Outcome(Ok(Decode(s1)), s1, [CountMessagesNode, LlmNode])
    case ToValidator =>
      var o := ValidationLoop(b, s1, uuid);
      o.(trace := [CountMessagesNode, LlmNode] + o.trace)
  }

  /** `encode | graph | decode`: the state starts with the caller's messages and
      `attempt_number` 0. */
  function Invoke(b: Binding, input: Input, uuid: nat -> string): Outcome {
    match Encode(input)
    case Err(e) => Outcome(Err(e), GraphState([], 0, 0, ListFormat), [])
    case Ok((ms, fmt)) => RunGraph(b, GraphState(ms, 0, 0, fmt), uuid)
  }

  /** Calls of a language model (primary or fallback) along a trace. */
  function Generations(trace: seq<Node>): nat {
    if trace == [] then 0
    else (if trace[0] == LlmNode || trace[0] == FallbackNode then 1 else 0) + Generations(trace[1..])
  }

  function Max(a: int, b: int): int {
    if a < b then b else a
  }

  // ---- Properties of runs ----

  /** `attempt_number` goes up by exactly one per model call, and no other node
      changes it. */
  lemma {:induction false} LoopCountsGenerations(b: Binding, s: GraphState, uuid: nat -> string)
    ensures var o := ValidationLoop(b, s, uuid);
            o.state.attemptNumber == s.attemptNumber + Generations(o.trace)
    decreases MaxAttempts(b.strategy) + 1 - s.attemptNumber
  {
    match ValidatorStep(b, s, uuid)
    case Err(_) =>
    case Ok(v) =>
      match RouteValidation(v.messages, v.attemptNumber, MaxAttempts(b.strategy))
      case Err(_) =>
      case Ok(ToFinalizer) =>
      case Ok(ToFallback) =>
        var s2 := GenerateStep(v, FallbackOracle(b), uuid);
        LoopCountsGenerations(b, s2, uuid);
        var t := ValidationLoop(b, s2, uuid).trace;
        assert ([ValidatorNode, FallbackNode] + t)[1..] == [FallbackNode] + t;
        assert ([FallbackNode] + t)[1..] == t;
  }

  /** The budget: a run through validation returns only while
      `attempt_number <= max_attempts`, and when it gives up the counter stands
      at exactly `max_attempts + 1` (or 1 for a budget below 1). */
  lemma {:induction false} LoopBudget(b: Binding, s: GraphState, uuid: nat -> string)
    requires 1 <= s.attemptNumber
    requires s.attemptNumber == 1 || s.attemptNumber <= MaxAttempts(b.strategy) + 1
    ensures var o := ValidationLoop(b, s, uuid); var n := MaxAttempts(b.strategy);
            o.state.attemptNumber <= Max(1, n + 1)
            && (o.result.Ok? ==> o.state.attemptNumber <= n)
            && (o.result.Err? && o.result.error.AttemptsExhausted? ==>
                  o.result.error.maxAttempts == n && o.state.attemptNumber == Max(1, n + 1))
    decreases MaxAttempts(b.strategy) + 1 - s.attemptNumber
  {
    match ValidatorStep(b, s, uuid)
    case Err(_) =>
    case Ok(v) =>
      match RouteValidation(v.messages, v.attemptNumber, MaxAttempts(b.strategy))
      case Err(_) =>
      case Ok(ToFinalizer) =>
      case Ok(ToFallback) =>
        LoopBudget(b, GenerateStep(v, FallbackOracle(b), uuid), uuid);
  }

  /** Until it finalizes, a run only appends to `messages`; a successful run
      ends with the returned message as the only one in the state. */
  lemma {:induction false} LoopMessages(b: Binding, s: GraphState, uuid: nat -> string)
    ensures var o := ValidationLoop(b, s, uuid);
            o.state.initialNumMessages == s.initialNumMessages
            && (o.result.Err? ==> s.messages <= o.state.messages)
            && (o.result.Ok? ==> o.state.messages == [o.result.value] && o.result.value.id.Some?
                                 && o.trace[|o.trace| - 1] == FinalizerNode)
    decreases MaxAttempts(b.strategy) + 1 - s.attemptNumber
  {
    match ValidatorStep(b, s, uuid)
    case Err(_) =>
    case Ok(v) =>
      match RouteValidation(v.messages, v.attemptNumber, MaxAttempts(b.strategy))
      case Err(_) =>
      case Ok(ToFinalizer) =>
      case Ok(ToFallback) =>
        var s2 := GenerateStep(v, FallbackOracle(b), uuid);
        LoopMessages(b, s2, uuid);
        var o := ValidationLoop(b, s2, uuid);
        if o.result.Err? {
          assert s.messages <= v.messages <= s2.messages <= o.state.messages;
        }
  }

  /** `m` is, up to its id, what the configured aggregator makes of window `w`. */
  ghost predicate Aggregates(b: Binding, w: seq<Message>, m: Message) {
    SelectMessages(b.strategy)(w).Ok? && m == SelectMessages(b.strategy)(w).value.(id := m.id)
  }

  /** `v` is a state the validator node is entered with, in a loop started at
      `s`: `s` itself, or a state reached from it by a validation routed to
      the fallback, followed by the fallback's answer. */
  ghost predicate ValidatedFrom(b: Binding, s: GraphState, v: GraphState, uuid: nat -> string)
    decreases MaxAttempts(b.strategy) + 1 - s.attemptNumber
  {
    v == s
    || (ValidatorStep(b, s, uuid).Ok?
        && var w := ValidatorStep(b, s, uuid).value;
        RouteValidation(w.messages, w.attemptNumber, MaxAttempts(b.strategy)) == Ok(ToFallback)
        && ValidatedFrom(b, GenerateStep(w, FallbackOracle(b), uuid), v, uuid))
  }

  /** Validating `v` succeeds and routes to the finalizer. */
  ghost predicate ValidatesToFinalizer(b: Binding, v: GraphState, uuid: nat -> string) {
    ValidatorStep(b, v, uuid).Ok?
    && var w := ValidatorStep(b, v, uuid).value;
    RouteValidation(w.messages, w.attemptNumber, MaxAttempts(b.strategy)) == Ok(ToFinalizer)
  }

  /** A value returned after validation is, up to its id, the aggregate of
      the window of the last validated state: a state the loop reaches from
      `s`, whose messages extend those of `s` and whose window starts where
      the window of `s` starts. */
  lemma {:induction false} LoopReturnsAggregate(b: Binding, s: GraphState, uuid: nat -> string)
    ensures var o := ValidationLoop(b, s, uuid);
            o.result.Ok? ==>
              exists v :: ValidatedFrom(b, s, v, uuid) && ValidatesToFinalizer(b, v, uuid)
                          && var w := ValidatorStep(b, v, uuid).value;
                          w.initialNumMessages == s.initialNumMessages && s.messages <= w.messages
                          && Aggregates(b, Generated(w), o.result.value)
    decreases MaxAttempts(b.strategy) + 1 - s.attemptNumber
  {
    match ValidatorStep(b, s, uuid)
    case Err(_) =>
    case Ok(w) =>
      match RouteValidation(w.messages, w.attemptNumber, MaxAttempts(b.strategy))
      case Err(_) =>
      case Ok(ToFinalizer) =>
        if FinalizerStep(b, w, uuid).Ok? {
          FinalizerKeepsOnlyAggregate(b, w, uuid);
          assert Aggregates(b, Generated(w), Decode(FinalizerStep(b, w, uuid).value));
          assert ValidatedFrom(b, s, s, uuid);
        }
      case Ok(ToFallback) =>
        var s2 := GenerateStep(w, FallbackOracle(b), uuid);
        LoopReturnsAggregate(b, s2, uuid);
        if ValidationLoop(b, s2, uuid).result.Ok? {
          var v :| ValidatedFrom(b, s2, v, uuid) && ValidatesToFinalizer(b, v, uuid)
                   && var w2 := ValidatorStep(b, v, uuid).value;
                   w2.initialNumMessages == s2.initialNumMessages && s2.messages <= w2.messages
                   && Aggregates(b, Generated(w2), ValidationLoop(b, s2, uuid).result.value);
          assert ValidatedFrom(b, s, v, uuid);
          assert s.messages <= s2.messages;
        }
  }

  /** What an invocation returns is either the model's first answer (no tool
      call and no tool choice), or, up to its id, the aggregate of the
      messages generated after the caller's: a window that starts with the
      model's first answer and leaves the caller's history out. The state
      records the length of that history. */
  lemma InvokeReturnsAggregate(b: Binding, input: Input, uuid: nat -> string)
    ensures var o := Invoke(b, input, uuid);
            Encode(input).Ok? ==>
              var (ms, fmt) := Encode(input).value;
              var s1 := GenerateStep(CountMessagesStep(GraphState(ms, 0, 0, fmt)), b.llm, uuid);
              o.state.initialNumMessages == |ms|
              && (o.result.Ok? ==>
                    (o.result.value == b.llm(ms) && o.result.value.toolCalls == [] && b.toolChoice.None?)
                    || exists v :: ValidatedFrom(b, s1, v, uuid) && ValidatesToFinalizer(b, v, uuid)
                                   && var w := ValidatorStep(b, v, uuid).value;
                                   ms + [b.llm(ms)] <= w.messages
                                   && Aggregates(b, w.messages[|ms|..], o.result.value))
  {
    match Encode(input)
    case Err(_) =>
    case Ok((ms, fmt)) =>
      var s1 := GenerateStep(CountMessagesStep(GraphState(ms, 0, 0, fmt)), b.llm, uuid);
      assert s1.messages == ms + [b.llm(ms)] && s1.initialNumMessages == |ms|;
      if RouteValidator(s1.messages, b.toolChoice) == ToValidator {
        LoopMessages(b, s1, uuid);
        LoopReturnsAggregate(b, s1, uuid);
      }
  }

  lemma {:induction false} GenerationsAppend(a: seq<Node>, c: seq<Node>)
    ensures Generations(a + c) == Generations(a) + Generations(c)
  {
    if a != [] {
      assert (a + c)[1..] == a[1..] + c;
      GenerationsAppend(a[1..], c);
    } else {
      assert a + c == c;
    }
  }

  /** A whole invocation: the model is called at most `max_attempts + 1` times
      (once when the budget is below 1), `attempt_number` counts those calls, a
      validated result is returned only within the budget, and an exhausted
      budget is reported with the limit after exactly `max_attempts + 1` calls. */
  lemma InvokeBudget(b: Binding, input: Input, uuid: nat -> string)
    ensures var o := Invoke(b, input, uuid); var n := MaxAttempts(b.strategy);
            o.state.attemptNumber == Generations(o.trace)
            && Generations(o.trace) <= Max(1, n + 1)
            && (o.result.Ok? && ValidatorNode in o.trace ==> Generations(o.trace) <= n)
            && (o.result.Err? && o.result.error.AttemptsExhausted? ==>
                  o.result.error.maxAttempts == n && Generations(o.trace) == Max(1, n + 1))
  {
    match Encode(input)
    case Err(_) =>
    case Ok((ms, fmt)) =>
      var s0 := GraphState(ms, 0, 0, fmt);
      var s1 := GenerateStep(CountMessagesStep(s0), b.llm, uuid);
      var pre := [CountMessagesNode, LlmNode];
      assert Generations(pre) == 1;
      if RouteValidator(s1.messages, b.toolChoice) == ToValidator {
        LoopCountsGenerations(b, s1, uuid);
        LoopBudget(b, s1, uuid);
        GenerationsAppend(pre, ValidationLoop(b, s1, uuid).trace);
      }
  }

  /** With no budget configured, at most four model calls are made. */
  lemma DefaultBudget(b: Binding, input: Input, uuid: nat -> string)
    requires b.strategy.maxAttempts.None?
    ensures Generations(Invoke(b, input, uuid).trace) <= DefaultMaxAttempts + 1
  {
    InvokeBudget(b, input, uuid);
  }

  /** No tool call and no tool choice: the model's first answer is returned
      unchanged after one call, and nothing is validated. */
  lemma EndsWithoutToolCall(b: Binding, history: seq<Message>, uuid: nat -> string)
    requires b.llm(history).toolCalls == [] && b.toolChoice.None?
    ensures var o := Invoke(b, ListInput(history), uuid);
            o.result == Ok(b.llm(history))
            && o.trace == [CountMessagesNode, LlmNode]
            && o.state == GraphState(history + [b.llm(history)], 1, |history|, ListFormat)
  {
  }

  /** Whatever the aggregator and whichever round: under a truthy tool choice,
      a validation that produces no message appends the synthesized error, and
      within the budget the run goes on to the fallback. */
  lemma ForcedToolChoiceFallsBack(b: Binding, s: GraphState, uuid: nat -> string)
    requires ToolChoiceSet(b.toolChoice)
    requires SelectGeneratedMessages(b, s).Ok? && b.validator(SelectGeneratedMessages(b, s).value) == []
    requires s.attemptNumber <= MaxAttempts(b.strategy)
    ensures ValidatorStep(b, s, uuid).Ok?
    ensures var v := ValidatorStep(b, s, uuid).value;
            v.messages == s.messages + [ToolChoiceError(b.toolChoice.value)]
            && RouteValidation(v.messages, v.attemptNumber, MaxAttempts(b.strategy)) == Ok(ToFallback)
    ensures var t := ValidationLoop(b, s, uuid).trace;
            |t| >= 2 && t[..2] == [ValidatorNode, FallbackNode]
  {
    var v := ValidatorStep(b, s, uuid).value;
    var e := ToolChoiceError(b.toolChoice.value);
    assert v.messages[|v.messages| - 1] == e;
    assert ErrorAfterLastAI(v.messages);
  }

  /** An exception from the aggregator is not caught: the validator node
      raises it and the run ends there, without a retry. */
  lemma AggregatorFailureEndsRun(b: Binding, s: GraphState, uuid: nat -> string)
    requires SelectMessages(b.strategy)(Generated(s)).Err?
    ensures ValidationLoop(b, s, uuid)
            == Outcome(Err(AggregationFailed(SelectMessages(b.strategy)(Generated(s)).error)), s, [ValidatorNode])
  {
  }

  /** An instance: the model's first answer carries no tool call under a forced
      tool choice and the default aggregator, so the run is sent to the
      fallback. */
  lemma ForcedToolChoiceRetries(b: Binding, history: seq<Message>, uuid: nat -> string)
    requires ToolChoiceSet(b.toolChoice)
    requires b.strategy.aggregateMessages.None?
    requires b.llm(history).msgType == AI && b.llm(history).toolCalls == []
    requires b.validator([b.llm(history)]) == []
    requires MaxAttempts(b.strategy) >= 1
    ensures var o := Invoke(b, ListInput(history), uuid);
            |o.trace| >= 4 && o.trace[..4] == [CountMessagesNode, LlmNode, ValidatorNode, FallbackNode]
  {
    var m := b.llm(history);
    var s1 := GraphState(history + [m], 1, |history|, ListFormat);
    assert Generated(s1) == [m];
    assert DefaultAggregator([m]) == Ok(m);
    ForcedToolChoiceFallsBack(b, s1, uuid);
  }

  /** Primary answer invalid, fallback answer valid, budget 2: the fallback's
      answer is returned after exactly two model calls. */
  lemma FallbackRecoversWithinBudget(b: Binding, history: seq<Message>, bad: Message, good: Message, err: Message, uuid: nat -> string)
    requires bad.msgType == AI && bad.toolCalls != [] && good.msgType == AI && good != bad
    requires err.msgType == Tool && err.isError
    requires forall ms :: b.llm(ms) == bad
    requires b.strategy.fallback.Some? && forall ms :: b.strategy.fallback.value(ms) == good
    requires forall ms :: b.validator(ms) == if ms == [bad] then [err] else []
    requires b.strategy.maxAttempts == Some(2) && b.strategy.aggregateMessages.None?
    requires b.toolChoice.None?
    ensures var o := Invoke(b, ListInput(history), uuid);
            o.result.Ok? && o.result.value == good.(id := o.result.value.id)
            && Generations(o.trace) == 2
  {
    ScriptedRun(b, history, bad, good, err, uuid);
  }

  /** The same models with a budget of 1: the engine still calls the fallback,
      then gives up, so two calls are made and the valid answer is dropped. */
  lemma BudgetOneMakesTwoCalls(b: Binding, history: seq<Message>, bad: Message, good: Message, err: Message, uuid: nat -> string)
    requires bad.msgType == AI && bad.toolCalls != [] && good.msgType == AI && good != bad
    requires err.msgType == Tool && err.isError
    requires forall ms :: b.llm(ms) == bad
    requires b.strategy.fallback.Some? && forall ms :: b.strategy.fallback.value(ms) == good
    requires forall ms :: b.validator(ms) == if ms == [bad] then [err] else []
    requires b.strategy.maxAttempts == Some(1) && b.strategy.aggregateMessages.None?
    requires b.toolChoice.None?
    ensures var o := Invoke(b, ListInput(history), uuid);
            o.result == Err(AttemptsExhausted(1)) && Generations(o.trace) == 2
  {
    ScriptedRun(b, history, bad, good, err, uuid);
  }

  /** The run of the two scenarios above: the first validation fails and sends
      the run to the fallback; the second finds nothing wrong. */
  lemma ScriptedRun(b: Binding, history: seq<Message>, bad: Message, good: Message, err: Message, uuid: nat -> string)
    requires bad.msgType == AI && bad.toolCalls != [] && good.msgType == AI && good != bad
    requires err.msgType == Tool && err.isError
    requires forall ms :: b.llm(ms) == bad
    requires b.strategy.fallback.Some? && forall ms :: b.strategy.fallback.value(ms) == good
    requires forall ms :: b.validator(ms) == if ms == [bad] then [err] else []
    requires b.strategy.aggregateMessages.None? && b.toolChoice.None?
    requires MaxAttempts(b.strategy) == 1 || MaxAttempts(b.strategy) == 2
    ensures var o := Invoke(b, ListInput(history), uuid);
            Generations(o.trace) == 2
            && (MaxAttempts(b.strategy) == 2 ==> o.result.Ok? && o.result.value == good.(id := o.result.value.id))
            && (MaxAttempts(b.strategy) == 1 ==> o.result == Err(AttemptsExhausted(1)))
  {
    var s2 := GraphState(history + [bad, err, good], 2, |history|, ListFormat);
    assert b.llm(history) == bad && b.validator([bad]) == [err];
    assert b.strategy.fallback.value(history + [bad, err]) == good;
    ScriptedFirstRound(b, history, bad, good, err, uuid);
    ScriptedSecondRound(b, history, bad, good, err, uuid);
    var t2 := ValidationLoop(b, s2, uuid).trace;
    assert t2 == [ValidatorNode, FinalizerNode] || t2 == [ValidatorNode];
    FallbackRoundCounts(t2);
  }

  /** One round through the fallback counts one more model call than the
      primary answer. */
  lemma FallbackRoundCounts(t: seq<Node>)
    requires t == [ValidatorNode, FinalizerNode] || t == [ValidatorNode]
    ensures Generations([CountMessagesNode, LlmNode, ValidatorNode, FallbackNode] + t) == 2
  {
    var pre := [CountMessagesNode, LlmNode, ValidatorNode, FallbackNode];
    GenerationsAppend(pre, t);
    if t == [ValidatorNode, FinalizerNode] {
      assert t[1..] == [FinalizerNode] && t[1..][1..] == [];
    } else {
      assert t[1..] == [];
    }
    assert Generations(pre) == 2 by {
      assert pre[1..] == [LlmNode, ValidatorNode, FallbackNode];
      assert pre[1..][1..] == [ValidatorNode, FallbackNode];
    }
  }

  lemma ScriptedFirstRound(b: Binding, history: seq<Message>, bad: Message, good: Message, err: Message, uuid: nat -> string)
    requires bad.msgType == AI && bad.toolCalls != []
    requires err.msgType == Tool && err.isError
    requires b.llm(history) == bad && b.validator([bad]) == [err]
    requires b.strategy.fallback.Some? && b.strategy.fallback.value(history + [bad, err]) == good
    requires b.strategy.aggregateMessages.None? && b.toolChoice.None?
    requires MaxAttempts(b.strategy) >= 1
    ensures var o := Invoke(b, ListInput(history), uuid);
            var o2 := ValidationLoop(b, GraphState(history + [bad, err, good], 2, |history|, ListFormat), uuid);
            o.result == o2.result
            && o.trace == [CountMessagesNode, LlmNode, ValidatorNode, FallbackNode] + o2.trace
  {
    InvokeEntersLoop(b, history, uuid);
    LoopAfterFirstValidation(b, history, bad, good, err, uuid);
    TraceThroughFallback(ValidationLoop(b, GraphState(history + [bad, err, good], 2, |history|, ListFormat), uuid).trace);
  }

  lemma TraceThroughFallback(t: seq<Node>)
    ensures [CountMessagesNode, LlmNode] + ([ValidatorNode, FallbackNode] + t)
            == [CountMessagesNode, LlmNode, ValidatorNode, FallbackNode] + t
  {
    assert [CountMessagesNode, LlmNode] + [ValidatorNode, FallbackNode] == [CountMessagesNode, LlmNode, ValidatorNode, FallbackNode];
  }

  /** After the failed first validation the loop goes on from the state that
      holds the fallback's answer. */
  lemma LoopAfterFirstValidation(b: Binding, history: seq<Message>, bad: Message, good: Message, err: Message, uuid: nat -> string)
    requires bad.msgType == AI && err.msgType == Tool && err.isError
    requires b.validator([bad]) == [err]
    requires b.strategy.fallback.Some? && b.strategy.fallback.value(history + [bad, err]) == good
    requires b.strategy.aggregateMessages.None? && b.toolChoice.None?
    requires MaxAttempts(b.strategy) >= 1
    ensures var o2 := ValidationLoop(b, GraphState(history + [bad, err, good], 2, |history|, ListFormat), uuid);
            ValidationLoop(b, GraphState(history + [bad], 1, |history|, ListFormat), uuid)
            == o2.(trace := [ValidatorNode, FallbackNode] + o2.trace)
  {
    var s1 := GraphState(history + [bad], 1, |history|, ListFormat);
    FirstValidationFails(b, history, bad, err, uuid);
    var v1 := ValidatorStep(b, s1, uuid).value;
    LoopThroughFallback(b, s1, uuid);
    assert FallbackOracle(b)(v1.messages) == good;
    var s2 := GenerateStep(v1, FallbackOracle(b), uuid);
    assert s2 == GraphState(history + [bad, err, good], 2, |history|, ListFormat);
  }

  /** The first validation of the scripted runs reports `err`, which sends the
      run to the fallback. */
  lemma FirstValidationFails(b: Binding, history: seq<Message>, bad: Message, err: Message, uuid: nat -> string)
    requires bad.msgType == AI && err.msgType == Tool && err.isError
    requires b.validator([bad]) == [err]
    requires b.strategy.aggregateMessages.None? && b.toolChoice.None?
    requires MaxAttempts(b.strategy) >= 1
    ensures var s1 := GraphState(history + [bad], 1, |history|, ListFormat);
            ValidatorStep(b, s1, uuid) == Ok(GraphState(history + [bad, err], 1, |history|, ListFormat))
            && RouteValidation(history + [bad, err], 1, MaxAttempts(b.strategy)) == Ok(ToFallback)
  {
    var s1 := GraphState(history + [bad], 1, |history|, ListFormat);
    assert Generated(s1) == [bad];
    assert DefaultAggregator([bad]) == Ok(bad);
    assert history + [bad] + [err] == history + [bad, err];
    ScanStopsAtLastAI(history, bad, [err]);
  }

  /** A run whose first answer goes to validation continues with the loop. */
  lemma InvokeEntersLoop(b: Binding, history: seq<Message>, uuid: nat -> string)
    requires RouteValidator(history + [b.llm(history)], b.toolChoice) == ToValidator
    ensures var o := Invoke(b, ListInput(history), uuid);
            var o1 := ValidationLoop(b, GraphState(history + [b.llm(history)], 1, |history|, ListFormat), uuid);
            o.result == o1.result && o.trace == [CountMessagesNode, LlmNode] + o1.trace
  {
    var s1 := GenerateStep(CountMessagesStep(GraphState(history, 0, 0, ListFormat)), b.llm, uuid);
    assert s1 == GraphState(history + [b.llm(history)], 1, |history|, ListFormat);
  }

  /** A validation routed to the fallback continues the loop after it. */
  lemma LoopThroughFallback(b: Binding, s: GraphState, uuid: nat -> string)
    requires ValidatorStep(b, s, uuid).Ok?
    requires var v := ValidatorStep(b, s, uuid).value;
             RouteValidation(v.messages, v.attemptNumber, MaxAttempts(b.strategy)) == Ok(ToFallback)
    ensures var v := ValidatorStep(b, s, uuid).value;
            var o := ValidationLoop(b, GenerateStep(v, FallbackOracle(b), uuid), uuid);
            ValidationLoop(b, s, uuid) == o.(trace := [ValidatorNode, FallbackNode] + o.trace)
  {
  }

  lemma ScriptedSecondRound(b: Binding, history: seq<Message>, bad: Message, good: Message, err: Message, uuid: nat -> string)
    requires good.msgType == AI && good != bad
    requires forall ms :: b.validator(ms) == if ms == [bad] then [err] else []
    requires b.strategy.aggregateMessages.None? && b.toolChoice.None?
    requires MaxAttempts(b.strategy) == 1 || MaxAttempts(b.strategy) == 2
    ensures var o2 := ValidationLoop(b, GraphState(history + [bad, err, good], 2, |history|, ListFormat), uuid);
            (MaxAttempts(b.strategy) == 2 ==> o2.result.Ok? && o2.result.value == good.(id := o2.result.value.id)
                                              && o2.trace == [ValidatorNode, FinalizerNode])
            && (MaxAttempts(b.strategy) == 1 ==> o2.result == Err(AttemptsExhausted(1)) && o2.trace == [ValidatorNode])
  {
    var n := MaxAttempts(b.strategy);
    var s2 := GraphState(history + [bad, err, good], 2, |history|, ListFormat);
    assert Generated(s2) == [bad, err, good];
    assert DefaultAggregator([bad, err, good]) == Ok(good);
    assert b.validator([good]) == [];
    var v2 := ValidatorStep(b, s2, uuid).value;
    assert v2 == s2;
    if n == 2 {
      assert s2.messages == (history + [bad, err]) + [good] + [];
      ScanStopsAtLastAI(history + [bad, err], good, []);
      assert RouteValidation(v2.messages, 2, n) == Ok(ToFinalizer);
    }
  }

  // ---- The graph, run step by step ----

  /** One invocation of the compiled graph: the shared state, one method per
      node, and `Run`, which follows the edges until a route exits. */
  class ValidationGraph {
    const binding: Binding
    const uuid: nat -> string
    var messages: seq<Message>
    var attemptNumber: nat
    var initialNumMessages: nat
    var inputFormat: InputFormat

    function State(): GraphState
      reads this
    {
      GraphState(messages, attemptNumber, initialNumMessages, inputFormat)
    }

    /** The state the graph starts from after `encode`. */
    constructor (binding: Binding, uuid: nat -> string, input: seq<Message>, inputFormat: InputFormat)
      ensures this.binding == binding && this.uuid == uuid
      ensures State() == GraphState(input, 0, 0, inputFormat)
    {
      this.binding := binding;
      this.uuid := uuid;
      this.messages := input;
      this.attemptNumber := 0;
      this.initialNumMessages := 0;
      this.inputFormat := inputFormat;
    }

    method CountMessages()
      modifies this
      ensures State() == CountMessagesStep(old(State()))
    {
      initialNumMessages := |messages|;
    }

    /** The `llm` node. */
    method Llm()
      modifies this
      ensures State() == GenerateStep(old(State()), binding.llm, uuid)
    {
      var msg := binding.llm(messages);
      messages := AddOrOverwriteMessages(messages, Append([msg]), uuid);
      attemptNumber := attemptNumber + 1;
    }

    /** The `fallback` node. */
    method Fallback()
      modifies this
      ensures State() == GenerateStep(old(State()), FallbackOracle(binding), uuid)
    {
      var msg := FallbackOracle(binding)(messages);
      messages := AddOrOverwriteMessages(messages, Append([msg]), uuid);
      attemptNumber := attemptNumber + 1;
    }

    /** The `validator` node; `failure` is the aggregator's exception. */
    method Validator() returns (failure: Option<EngineError>)
      modifies this
      ensures ValidatorStep(binding, old(State()), uuid).Err? ==>
                failure == Some(ValidatorStep(binding, old(State()), uuid).error) && State() == old(State())
      ensures ValidatorStep(binding, old(State()), uuid).Ok? ==>
                failure == None && State() == ValidatorStep(binding, old(State()), uuid).value
    {
      var selected := SelectGeneratedMessages(binding, State());
      if selected.Err? {
        return Some(selected.error);
      }
      var out := EndictValidatorOutput(binding.validator(selected.value), binding.toolChoice);
      messages := AddOrOverwriteMessages(messages, Append(out), uuid);
      failure := None;
    }

    /** The `finalizer` node. */
    method Finalizer() returns (failure: Option<EngineError>)
      modifies this
      ensures FinalizerStep(binding, old(State()), uuid).Err? ==>
                failure == Some(FinalizerStep(binding, old(State()), uuid).error) && State() == old(State())
      ensures FinalizerStep(binding, old(State()), uuid).Ok? ==>
                failure == None && State() == FinalizerStep(binding, old(State()), uuid).value
    {
      var aggregated := SelectMessages(binding.strategy)(Generated(State()));
      if aggregated.Err? {
        return Some(AggregationFailed(aggregated.error));
      }
      messages := AddOrOverwriteMessages(messages, Finalize(One(aggregated.value)), uuid);
      failure := None;
    }

    /** Walks the graph: count_messages, llm, then validator and fallback in a
        loop until the budget check or the scan sends it to the finalizer. */
    method Run() returns (r: Result<Message, EngineError>)
      modifies this
      ensures r == RunGraph(binding, old(State()), uuid).result
      ensures State() == RunGraph(binding, old(State()), uuid).state
    {
      CountMessages();
      Llm();
      if RouteValidator(messages, binding.toolChoice) == ToEnd {
        r := Ok(messages[|messages| - 1]);
        return;
      }
      ghost var goal := ValidationLoop(binding, State(), uuid);
      assert goal.result == RunGraph(binding, old(State()), uuid).result;
      while true
        invariant ValidationLoop(binding, State(), uuid).result == goal.result
        invariant ValidationLoop(binding, State(), uuid).state == goal.state
        decreases MaxAttempts(binding.strategy) + 1 - attemptNumber
      {
        var failure := Validator();
        if failure.Some? {
          r := Err(failure.value);
          return;
        }
        var route := RouteValidation(messages, attemptNumber, MaxAttempts(binding.strategy));
        if route.Err? {
          r := Err(route.error);
          return;
        }
        if route.value == ToFinalizer {
          failure := Finalizer();
          if failure.Some? {
            r := Err(failure.value);
            return;
          }
          r := Ok(messages[|messages| - 1]);
          return;
        }
        Fallback();
      }
    }
  }

  /** `encode | graph | decode` on a fresh graph. */
  method InvokeGraph(b: Binding, input: Input, uuid: nat -> string) returns (r: Result<Message, EngineError>)
    ensures r == Invoke(b, input, uuid).result
  {
    var encoded := Encode(input);
    if encoded.Err? {
      return Err(encoded.error);
    }
    var g := new ValidationGraph(b, uuid, encoded.value.0, encoded.value.1);
    r := g.Run();
  }
}
