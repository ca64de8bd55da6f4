/** The JSONPatch retry strategy: the fallback model answers a failed tool call
    with a `PatchFunctionParameters` call holding JSON Patch operations, and
    `aggregate_messages` folds every AI message of the generated window into
    one AI message, applying each patch to the arguments of the call it
    targets.

    `aggregate_messages` keeps an insertion-ordered dictionary from tool-call
    id to tool call; here it is a `Resolved` value: the keys in insertion order
    plus a map. `AggregateMessages` is the loop itself; `Aggregate` is the
    specification it is proved against. */
module Patched {
  import opened Wrappers
  import opened JsonValue
  import opened Messages
  import JsonPatch
  import JsonPointer
  import Retry

  const PatchToolName := "PatchFunctionParameters"

  predicate IsPatchCall(tc: ToolCall) {
    tc.name == PatchToolName
  }

  /** A key of the dictionary: a tool-call id, possibly None. */
  type Key = Option<string>

  /** The exceptions `aggregate_messages` lets escape. */
  datatype AggError =
    | MissingTarget                        // the patch call's args have no "tool_call_id"
    | UnhashableTarget                     // "tool_call_id" is a list or an object
    | NothingToPatch                       // no ordinary call seen yet: the lookup of None fails
    | PatchesNotAList                      // "patches" is truthy but not a list
    | PatchFailed(error: JsonPatch.PatchError)  // raised by the patch library

  function AggErrorText(e: AggError): string {
    match e
    case MissingTarget => "KeyError: 'tool_call_id'"
    case UnhashableTarget => "TypeError: unhashable type"
    case NothingToPatch => "KeyError: None"
    case PatchesNotAList => "InvalidJsonPatch: Document is not a list"
    case PatchFailed(pe) =>
      match pe
      case InvalidPatch(reason) => "InvalidJsonPatch: " + reason
      case PointerError(reason) => "JsonPointerException: " + reason
      case Conflict(reason) => "JsonPatchConflict: " + reason
  }

  // ---- The tool schemas the fallback model answers with ----

  /** One `JsonPatch` tool argument: op, path and value are all required. */
  datatype PatchShape = PatchShape(op: string, path: string, value: Json)

  /** The `PatchFunctionParameters` tool arguments. */
  datatype PatchParameters = PatchParameters(toolCallId: string, reasoning: string, patches: seq<PatchShape>)

  /** Schema validation of one `JsonPatch` object: a string op among
      add/remove/replace, a string path, and some value (null included). */
  function ReadPatchShape(j: Json): (r: Result<PatchShape, string>)
    ensures r.Ok? <==>
              j.JObject?
              && Lookup(j.members, "op").Some? && Lookup(j.members, "op").value.JString?
              && Lookup(j.members, "op").value.s in {"add", "remove", "replace"}
              && Lookup(j.members, "path").Some? && Lookup(j.members, "path").value.JString?
              && Lookup(j.members, "value").Some?
    ensures r.Ok? ==> r.value.op in {"add", "remove", "replace"}
                      && r.value == PatchShape(Lookup(j.members, "op").value.s,
                                               Lookup(j.members, "path").value.s,
                                               Lookup(j.members, "value").value)
  {
    match j
    case JObject(ms) =>
      (match (Lookup(ms, "op"), Lookup(ms, "path"), Lookup(ms, "value"))
       case (Some(JString(op)), Some(JString(path)), Some(v)) =>
         if op in {"add", "remove", "replace"} then Ok(PatchShape(op, path, v))
         else Err("op: Input should be 'add', 'remove' or 'replace'")
       case _ => Err("op, path and value are required"))
    case _ => Err("Input should be a valid dictionary")
  }

  function ReadPatchShapes(items: seq<Json>): (r: Result<seq<PatchShape>, string>)
    ensures r.Ok? <==> forall i :: 0 <= i < |items| ==> ReadPatchShape(items[i]).Ok?
    ensures r.Ok? ==> |r.value| == |items|
                      && forall i :: 0 <= i < |items| ==> r.value[i] == ReadPatchShape(items[i]).value
  {
    if items == [] then Ok([])
    else
      match ReadPatchShape(items[0])
      case Err(e) => Err(e)
      case Ok(p) =>
        match ReadPatchShapes(items[1..])
        case Err(e) => Err(e)
        case Ok(ps) => Ok([p] + ps)
  }

  /** Schema validation of `PatchFunctionParameters` arguments. */
  function ReadPatchParameters(args: Json): Result<PatchParameters, string> {
    match args
    case JObject(ms) =>
      (match (Lookup(ms, "tool_call_id"), Lookup(ms, "reasoning"), Lookup(ms, "patches"))
       case (Some(JString(id)), Some(JString(reasoning)), Some(JArray(items))) =>
         (match ReadPatchShapes(items)
          case Err(e) => Err(e)
          case Ok(ps) => Ok(PatchParameters(id, reasoning, ps)))
       case _ => Err("tool_call_id, reasoning and patches are required"))
    case _ => Err("Input should be a valid dictionary")
  }

  // ---- One tool call at a time ----

  /** The dictionary: keys in insertion order, and the call under each key. */
  datatype Resolved = Resolved(order: seq<Key>, calls: map<Key, ToolCall>)

  const Empty: Resolved := Resolved([], map[])

  predicate Distinct(ks: seq<Key>) {
    forall i, j :: 0 <= i < j < |ks| ==> ks[i] != ks[j]
  }

  /** Each key listed once, the listed keys are exactly the map's, and only
      ordinary calls are stored. */
  ghost predicate WellFormed(r: Resolved) {
    Distinct(r.order)
    && (forall k :: k in r.calls <==> k in r.order)
    && (forall k :: k in r.calls ==> !IsPatchCall(r.calls[k]))
  }

  /** `tc["args"]["tool_call_id"]` as a dictionary key: `Some(k)` can match the
      key `k`; `None` (a number or a boolean) matches no key. Args that are not
      an object have no "tool_call_id" either. */
  function PatchTarget(args: Json): Result<Option<Key>, AggError> {
    match args
    case JObject(ms) =>
      (match Lookup(ms, "tool_call_id")
       case None => Err(MissingTarget)
       case Some(JString(s)) => Ok(Some(Some(s)))
       case Some(JNull) => Ok(Some(None))
       case Some(JArray(_)) => Err(UnhashableTarget)
       case Some(JObject(_)) => Err(UnhashableTarget)
       case Some(_) => Ok(None))
    case _ => Err(MissingTarget)
  }

  /** `tc["args"].get("patches") or []` */
  function PatchList(args: Json): (r: Result<seq<Json>, AggError>)
    ensures var p := if args.JObject? then Lookup(args.members, "patches") else None;
            (p.None? || !Truthy(p.value) ==> r == Ok([]))
            && (p.Some? && Truthy(p.value) && p.value.JArray? ==> r == Ok(p.value.items))
            && (p.Some? && Truthy(p.value) && !p.value.JArray? ==> r == Err(PatchesNotAList))
  {
    var p := if args.JObject? then Lookup(args.members, "patches") else None;
    if p.None? || !Truthy(p.value) then Ok([])
    else if p.value.JArray? then Ok(p.value.items)
    else Err(PatchesNotAList)
  }

  /** A call that fits the `PatchFunctionParameters` schema names its target
      by a string and holds a list of patches, so of the lookups above only
      the patch library itself can fail on it. */
  lemma SchemaFitsAggregator(args: Json)
    requires ReadPatchParameters(args).Ok?
    ensures var p := ReadPatchParameters(args).value;
            PatchTarget(args) == Ok(Some(Some(p.toolCallId)))
            && PatchList(args).Ok? && |PatchList(args).value| == |p.patches|
  {
  }

  /** Position of the first listed call whose current id is `id`. */
  function FirstWithId(order: seq<Key>, calls: map<Key, ToolCall>, id: Key): (r: Option<nat>)
    ensures r.Some? ==> r.value < |order| && order[r.value] in calls && calls[order[r.value]].id == id
    ensures r.Some? ==> forall j :: 0 <= j < r.value && order[j] in calls ==> calls[order[j]].id != id
    ensures r.None? ==> forall i :: 0 <= i < |order| && order[i] in calls ==> calls[order[i]].id != id
  {
    if order == [] then None
    else if order[0] in calls && calls[order[0]].id == id then Some(0)
    else
      match FirstWithId(order[1..], calls, id)
      case None => None
      case Some(i) => Some(i + 1)
  }

  /** The key a patch call lands on; None when the lookup raises KeyError.
      As written, a target that is not a key falls back to the first key.
      With `followRenamed`, a target that is not a key is first looked up
      among the ids the stored calls currently carry. */
  function TargetKey(r: Resolved, target: Option<Key>, followRenamed: bool): (k: Option<Key>)
    requires WellFormed(r)
    ensures k.Some? ==> k.value in r.calls
    ensures k.None? <==> r.order == []
    ensures target.Some? && target.value in r.calls ==> k == Some(target.value)
  {
    if target.Some? && target.value in r.calls then Some(target.value)
    else if followRenamed && target.Some? && FirstWithId(r.order, r.calls, target.value).Some? then
      Some(r.order[FirstWithId(r.order, r.calls, target.value).value])
    else if r.order == [] then None
    else Some(r.order[0])
  }

  /** One iteration of the inner loop: an ordinary call is stored (a copy)
      under its id; a patch call rewrites the args of the call it targets and
      gives that call the patch call's id, under the same key. */
  function StepCall(r: Resolved, tc: ToolCall, followRenamed: bool): (res: Result<Resolved, AggError>)
    requires WellFormed(r)
    ensures res.Ok? ==> WellFormed(res.value)
    ensures !IsPatchCall(tc) ==>
              res == Ok(Resolved(if tc.id in r.calls then r.order else r.order + [tc.id], r.calls[tc.id := tc]))
    ensures IsPatchCall(tc) && res.Ok? ==>
              res.value.order == r.order && res.value.calls.Keys == r.calls.Keys
              && exists k :: k in r.calls && res.value.calls == r.calls[k := r.calls[k].(args := res.value.calls[k].args, id := tc.id)]
  {
    if !IsPatchCall(tc) then
      Ok(Resolved(if tc.id in r.calls then r.order else r.order + [tc.id], r.calls[tc.id := tc]))
    else
      match PatchTarget(tc.args)
      case Err(e) => Err(e)
      case Ok(target) =>
        match TargetKey(r, target, followRenamed)
        case None => Err(NothingToPatch)
        case Some(k) =>
          match PatchList(tc.args)
          case Err(e) => Err(e)
          case Ok(items) =>
            match JsonPatch.ApplyDocument(r.calls[k].args, items)
            case Err(e) => Err(PatchFailed(e))
            case Ok(a) => Ok(r.(calls := r.calls[k := r.calls[k].(args := a, id := tc.id)]))
  }

  /** The inner loop: the tool calls of one message, left to right; the first
      failure ends the aggregation. */
  function StepCalls(r: Resolved, tcs: seq<ToolCall>, followRenamed: bool): (res: Result<Resolved, AggError>)
    requires WellFormed(r)
    ensures res.Ok? ==> WellFormed(res.value)
    decreases |tcs|
  {
    if tcs == [] then Ok(r)
    else
      match StepCall(r, tcs[0], followRenamed)
      case Err(e) => Err(e)
      case Ok(r2) => StepCalls(r2, tcs[1..], followRenamed)
  }

  /** The outer loop from dictionary `r` on: non-AI messages are skipped. */
  function ResolveFrom(r: Resolved, ms: seq<Message>, followRenamed: bool): (res: Result<Resolved, AggError>)
    requires WellFormed(r)
    ensures res.Ok? ==> WellFormed(res.value)
    decreases |ms|
  {
    if ms == [] then Ok(r)
    else if ms[0].msgType != AI then ResolveFrom(r, ms[1..], followRenamed)
    else
      match StepCalls(r, ms[0].toolCalls, followRenamed)
      case Err(e) => Err(e)
      case Ok(r2) => ResolveFrom(r2, ms[1..], followRenamed)
  }

  /** The rest of the outer loop after the current message's calls. */
  function ThenResolve(res: Result<Resolved, AggError>, ms: seq<Message>, followRenamed: bool): Result<Resolved, AggError>
    requires res.Ok? ==> WellFormed(res.value)
  {
    match res
    case Err(e) => Err(e)
    case Ok(r) => ResolveFrom(r, ms, followRenamed)
  }

  /** `if not content: content = m.content` over the AI messages. */
  function ContentFrom(content: string, ms: seq<Message>): string
    decreases |ms|
  {
    if ms == [] then content
    else ContentFrom(if content == "" && ms[0].msgType == AI then ms[0].content else content, ms[1..])
  }

  function FirstContent(ms: seq<Message>): string {
    ContentFrom("", ms)
  }

  /** `list(resolved_tool_calls.values())` */
  function CallsInOrder(r: Resolved): (calls: seq<ToolCall>)
    requires WellFormed(r)
    ensures |calls| == |r.order|
    ensures forall i :: 0 <= i < |calls| ==> calls[i] == r.calls[r.order[i]] && !IsPatchCall(calls[i])
  {
    seq(|r.order|, i requires 0 <= i < |r.order| => r.calls[r.order[i]])
  }

  /** `aggregate_messages`; `followRenamed` selects the corrected target lookup. */
  function Aggregate(ms: seq<Message>, followRenamed: bool): Result<Message, AggError> {
    match ResolveFrom(Empty, ms, followRenamed)
    case Err(e) => Err(e)
    case Ok(r) => Ok(AIMessage(FirstContent(ms), CallsInOrder(r)))
  }

  /** `aggregate_messages` as written: two nested loops filling the dictionary
      in place. */
  method AggregateMessages(messages: seq<Message>) returns (r: Result<Message, AggError>)
    ensures r == Aggregate(messages, false)
  {
    var order: seq<Key> := [];
    var calls: map<Key, ToolCall> := map[];
    var content := "";
    ghost var goal := ResolveFrom(Empty, messages, false);
    var i := 0;
    while i < |messages|
      invariant 0 <= i <= |messages|
      invariant WellFormed(Resolved(order, calls))
      invariant ResolveFrom(Resolved(order, calls), messages[i..], false) == goal
      invariant ContentFrom(content, messages[i..]) == FirstContent(messages)
    {
      var m := messages[i];
      assert messages[i..][0] == m && messages[i..][1..] == messages[i + 1..];
      if m.msgType == AI {
        if content == "" {
          content := m.content;
        }
        var j := 0;
        while j < |m.toolCalls|
          invariant 0 <= j <= |m.toolCalls|
          invariant WellFormed(Resolved(order, calls))
          invariant ThenResolve(StepCalls(Resolved(order, calls), m.toolCalls[j..], false), messages[i + 1..], false) == goal
        {
          var tc := m.toolCalls[j];
          assert m.toolCalls[j..][0] == tc && m.toolCalls[j..][1..] == m.toolCalls[j + 1..];
          if tc.name == PatchToolName {
            var target := PatchTarget(tc.args);
            if target.Err? {
              return Err(target.error);
            }
            var tcid: Key;
            if target.value.Some? && target.value.value in calls {
              tcid := target.value.value;
            } else if order != [] {
              tcid := order[0];
            } else {
              return Err(NothingToPatch);
            }
            var patches := PatchList(tc.args);
            if patches.Err? {
              return Err(patches.error);
            }
            var orig := calls[tcid];
            var patched := JsonPatch.ApplyDocument(orig.args, patches.value);
            if patched.Err? {
              return Err(PatchFailed(patched.error));
            }
            orig := orig.(args := patched.value);
            orig := orig.(id := tc.id);
            calls := calls[tcid := orig];
          } else {
            if tc.id !in calls {
              order := order + [tc.id];
            }
            calls := calls[tc.id := tc];
          }
          j := j + 1;
        }
        assert m.toolCalls[j..] == [];
      }
      i := i + 1;
    }
    r := Ok(AIMessage(content, CallsInOrder(Resolved(order, calls))));
  }

  // ---- What the aggregate contains ----

  /** `DedupInto(acc, ks)`: `acc` followed by the keys of `ks` not seen before,
      in first-seen order. */
  function DedupInto(acc: seq<Key>, ks: seq<Key>): seq<Key>
    decreases |ks|
  {
    if ks == [] then acc
    else DedupInto(if ks[0] in acc then acc else acc + [ks[0]], ks[1..])
  }

  /** The ids of the ordinary calls among `tcs`, in order. */
  function CallIds(tcs: seq<ToolCall>): seq<Key>
    decreases |tcs|
  {
    if tcs == [] then []
    else (if IsPatchCall(tcs[0]) then [] else [tcs[0].id]) + CallIds(tcs[1..])
  }

  /** The ids of the ordinary calls of the AI messages, in order. */
  function OrdinaryIds(ms: seq<Message>): seq<Key>
    decreases |ms|
  {
    if ms == [] then []
    else (if ms[0].msgType == AI then CallIds(ms[0].toolCalls) else []) + OrdinaryIds(ms[1..])
  }

  lemma {:induction false} DedupIntoConcat(acc: seq<Key>, a: seq<Key>, b: seq<Key>)
    ensures DedupInto(acc, a + b) == DedupInto(DedupInto(acc, a), b)
    decreases |a|
  {
    if a == [] {
      assert a + b == b;
    } else {
      assert (a + b)[0] == a[0] && (a + b)[1..] == a[1..] + b;
      DedupIntoConcat(if a[0] in acc then acc else acc + [a[0]], a[1..], b);
    }
  }

  /** Deduplication keeps every key once and invents none. */
  lemma {:induction false} DedupIntoFacts(acc: seq<Key>, ks: seq<Key>)
    requires Distinct(acc)
    ensures Distinct(DedupInto(acc, ks))
    ensures forall k :: k in DedupInto(acc, ks) <==> k in acc || k in ks
    decreases |ks|
  {
    if ks != [] {
      var acc2 := if ks[0] in acc then acc else acc + [ks[0]];
      DedupIntoFacts(acc2, ks[1..]);
      forall k | k in ks
        ensures k == ks[0] || k in ks[1..]
      {
        var i :| 0 <= i < |ks| && ks[i] == k;
        if i > 0 {
          assert ks[1..][i - 1] == k;
        }
      }
    }
  }

  lemma {:induction false} StepCallsOrder(r: Resolved, tcs: seq<ToolCall>, followRenamed: bool)
    requires WellFormed(r) && StepCalls(r, tcs, followRenamed).Ok?
    ensures StepCalls(r, tcs, followRenamed).value.order == DedupInto(r.order, CallIds(tcs))
    decreases |tcs|
  {
    if tcs != [] {
      var r2 := StepCall(r, tcs[0], followRenamed).value;
      var head := if IsPatchCall(tcs[0]) then [] else [tcs[0].id];
      StepCallsOrder(r2, tcs[1..], followRenamed);
      DedupIntoConcat(r.order, head, CallIds(tcs[1..]));
      if head != [] {
        assert DedupInto(r.order, head) == DedupInto(if head[0] in r.order then r.order else r.order + [head[0]], []);
      }
    }
  }

  lemma {:induction false} ResolveOrder(r: Resolved, ms: seq<Message>, followRenamed: bool)
    requires WellFormed(r) && ResolveFrom(r, ms, followRenamed).Ok?
    ensures ResolveFrom(r, ms, followRenamed).value.order == DedupInto(r.order, OrdinaryIds(ms))
    decreases |ms|
  {
    if ms != [] {
      if ms[0].msgType != AI {
        ResolveOrder(r, ms[1..], followRenamed);
        assert OrdinaryIds(ms) == [] + OrdinaryIds(ms[1..]) == OrdinaryIds(ms[1..]);
      } else {
        var r2 := StepCalls(r, ms[0].toolCalls, followRenamed).value;
        StepCallsOrder(r, ms[0].toolCalls, followRenamed);
        ResolveOrder(r2, ms[1..], followRenamed);
        DedupIntoConcat(r.order, CallIds(ms[0].toolCalls), OrdinaryIds(ms[1..]));
      }
    }
  }

  /** The aggregate holds exactly one tool call per distinct ordinary id, in
      first-seen order, and no patch call; it is an AI message whose content
      is the first non-empty AI content. */
  lemma AggregateShape(ms: seq<Message>, followRenamed: bool)
    requires Aggregate(ms, followRenamed).Ok?
    ensures var m := Aggregate(ms, followRenamed).value;
            var ids := DedupInto([], OrdinaryIds(ms));
            m.msgType == AI && m.content == FirstContent(ms) && m.id.None?
            && |m.toolCalls| == |ids| && Distinct(ids)
            && (forall k :: k in ids <==> k in OrdinaryIds(ms))
            && (forall i :: 0 <= i < |m.toolCalls| ==> !IsPatchCall(m.toolCalls[i]))
    ensures var r := ResolveFrom(Empty, ms, followRenamed);
            var ids := DedupInto([], OrdinaryIds(ms));
            r.Ok? && r.value.order == ids
            && forall i :: 0 <= i < |ids| ==> Aggregate(ms, followRenamed).value.toolCalls[i] == r.value.calls[ids[i]]
  {
    ResolveOrder(Empty, ms, followRenamed);
    DedupIntoFacts([], OrdinaryIds(ms));
  }

  /** Without patch calls every stored call sits under its own id. */
  ghost predicate KeysAreIds(r: Resolved) {
    forall k :: k in r.calls ==> r.calls[k].id == k
  }

  function PatchCallCount(ms: seq<Message>): nat
    decreases |ms|
  {
    if ms == [] then 0
    else (if ms[0].msgType == AI then |CallsNamed(ms[0].toolCalls)| else 0) + PatchCallCount(ms[1..])
  }

  function CallsNamed(tcs: seq<ToolCall>): (r: seq<ToolCall>)
    ensures forall i :: 0 <= i < |r| ==> IsPatchCall(r[i])
    ensures (forall i :: 0 <= i < |tcs| ==> !IsPatchCall(tcs[i])) <==> r == []
    decreases |tcs|
  {
    if tcs == [] then []
    else (if IsPatchCall(tcs[0]) then [tcs[0]] else []) + CallsNamed(tcs[1..])
  }

  lemma {:induction false} StepCallsKeepIds(r: Resolved, tcs: seq<ToolCall>, followRenamed: bool)
    requires WellFormed(r) && KeysAreIds(r)
    requires forall i :: 0 <= i < |tcs| ==> !IsPatchCall(tcs[i])
    ensures StepCalls(r, tcs, followRenamed).Ok? && KeysAreIds(StepCalls(r, tcs, followRenamed).value)
    decreases |tcs|
  {
    if tcs != [] {
      StepCallsKeepIds(StepCall(r, tcs[0], followRenamed).value, tcs[1..], followRenamed);
    }
  }

  lemma {:induction false} ResolveKeepsIds(r: Resolved, ms: seq<Message>, followRenamed: bool)
    requires WellFormed(r) && KeysAreIds(r) && PatchCallCount(ms) == 0
    ensures ResolveFrom(r, ms, followRenamed).Ok? && KeysAreIds(ResolveFrom(r, ms, followRenamed).value)
    decreases |ms|
  {
    if ms != [] {
      if ms[0].msgType != AI {
        ResolveKeepsIds(r, ms[1..], followRenamed);
      } else {
        assert CallsNamed(ms[0].toolCalls) == [];
        StepCallsKeepIds(r, ms[0].toolCalls, followRenamed);
        ResolveKeepsIds(StepCalls(r, ms[0].toolCalls, followRenamed).value, ms[1..], followRenamed);
      }
    }
  }

  /** Without patch calls aggregation cannot fail, and the i-th tool call of
      the aggregate carries the i-th distinct id: it is the last call seen
      with that id. */
  lemma AggregateWithoutPatches(ms: seq<Message>, followRenamed: bool)
    requires PatchCallCount(ms) == 0
    ensures Aggregate(ms, followRenamed).Ok?
    ensures var calls := Aggregate(ms, followRenamed).value.toolCalls;
            var ids := DedupInto([], OrdinaryIds(ms));
            |calls| == |ids| && forall i :: 0 <= i < |calls| ==> calls[i].id == ids[i]
  {
    ResolveKeepsIds(Empty, ms, followRenamed);
    ResolveOrder(Empty, ms, followRenamed);
  }

  // ---- Content ----

  /** The first AI message with non-empty content is at position `i`. */
  predicate FirstNonEmptyAt(ms: seq<Message>, i: int) {
    0 <= i < |ms| && ms[i].msgType == AI && ms[i].content != ""
    && forall j :: 0 <= j < i && ms[j].msgType == AI ==> ms[j].content == ""
  }

  lemma {:induction false} ContentFromFacts(c: string, ms: seq<Message>)
    ensures c != "" ==> ContentFrom(c, ms) == c
    ensures c == "" && ContentFrom(c, ms) == "" ==>
              forall i :: 0 <= i < |ms| && ms[i].msgType == AI ==> ms[i].content == ""
    ensures c == "" && ContentFrom(c, ms) != "" ==>
              exists i :: FirstNonEmptyAt(ms, i) && ContentFrom(c, ms) == ms[i].content
    decreases |ms|
  {
    if ms != [] {
      var c2 := if c == "" && ms[0].msgType == AI then ms[0].content else c;
      ContentFromFacts(c2, ms[1..]);
      if c == "" && c2 == "" && ContentFrom(c, ms) != "" {
        var i :| FirstNonEmptyAt(ms[1..], i) && ContentFrom(c2, ms[1..]) == ms[1..][i].content;
        assert FirstNonEmptyAt(ms, i + 1);
      }
      if c == "" && c2 != "" {
        assert FirstNonEmptyAt(ms, 0);
      }
    }
  }

  /** The content of the aggregate is that of the first AI message with
      non-empty content, or "" when there is none. */
  lemma FirstContentIsFirstNonEmpty(ms: seq<Message>)
    ensures FirstContent(ms) == "" <==> forall i :: 0 <= i < |ms| && ms[i].msgType == AI ==> ms[i].content == ""
    ensures FirstContent(ms) != "" ==> exists i :: FirstNonEmptyAt(ms, i) && FirstContent(ms) == ms[i].content
  {
    ContentFromFacts("", ms);
  }

  // ---- Non-AI messages ----

  function OnlyAI(ms: seq<Message>): (r: seq<Message>)
    ensures forall i :: 0 <= i < |r| ==> r[i].msgType == AI
    decreases |ms|
  {
    if ms == [] then []
    else (if ms[0].msgType == AI then [ms[0]] else []) + OnlyAI(ms[1..])
  }

  lemma {:induction false} ResolveOnlyAI(r: Resolved, ms: seq<Message>, followRenamed: bool)
    requires WellFormed(r)
    ensures ResolveFrom(r, ms, followRenamed) == ResolveFrom(r, OnlyAI(ms), followRenamed)
    ensures forall c :: ContentFrom(c, ms) == ContentFrom(c, OnlyAI(ms))
    decreases |ms|
  {
    if ms != [] {
      var rest := OnlyAI(ms[1..]);
      if ms[0].msgType == AI {
        assert OnlyAI(ms)[0] == ms[0] && OnlyAI(ms)[1..] == rest;
        ResolveOnlyAI(r, ms[1..], followRenamed);
        if StepCalls(r, ms[0].toolCalls, followRenamed).Ok? {
          ResolveOnlyAI(StepCalls(r, ms[0].toolCalls, followRenamed).value, ms[1..], followRenamed);
        }
      } else {
        assert OnlyAI(ms) == rest;
        ResolveOnlyAI(r, ms[1..], followRenamed);
      }
    }
  }

  /** Messages that are not AI messages never change the aggregate. */
  lemma AggregateIgnoresNonAI(ms: seq<Message>, followRenamed: bool)
    ensures Aggregate(ms, followRenamed) == Aggregate(OnlyAI(ms), followRenamed)
  {
    ResolveOnlyAI(Empty, ms, followRenamed);
  }

  // ---- Patch calls ----

  /** A patch call naming a stored key rewrites exactly that call: its args
      become the patched args, its id the patch call's id; its key, its
      position and every other call stay. */
  lemma PatchKnownTarget(r: Resolved, tc: ToolCall, k: Key, items: seq<Json>, followRenamed: bool)
    requires WellFormed(r) && IsPatchCall(tc) && k in r.calls
    requires PatchTarget(tc.args) == Ok(Some(k)) && PatchList(tc.args) == Ok(items)
    ensures JsonPatch.ApplyDocument(r.calls[k].args, items).Err? ==>
              StepCall(r, tc, followRenamed) == Err(PatchFailed(JsonPatch.ApplyDocument(r.calls[k].args, items).error))
    ensures JsonPatch.ApplyDocument(r.calls[k].args, items).Ok? ==>
              StepCall(r, tc, followRenamed).Ok?
              && StepCall(r, tc, followRenamed).value.order == r.order
              && StepCall(r, tc, followRenamed).value.calls[k]
                 == r.calls[k].(args := JsonPatch.ApplyDocument(r.calls[k].args, items).value, id := tc.id)
              && forall k2 :: k2 in r.calls && k2 != k ==> StepCall(r, tc, followRenamed).value.calls[k2] == r.calls[k2]
  {
  }

  /** As written, a target that is no key lands on the first key; before any
      ordinary call there is nothing to patch. */
  lemma PatchUnknownTarget(r: Resolved, tc: ToolCall, target: Option<Key>)
    requires WellFormed(r) && IsPatchCall(tc)
    requires PatchTarget(tc.args) == Ok(target) && !(target.Some? && target.value in r.calls)
    ensures r.order == [] ==> StepCall(r, tc, false) == Err(NothingToPatch)
    ensures r.order != [] ==> TargetKey(r, target, false) == Some(r.order[0])
  {
  }

  /** With the corrected lookup, a target that is no key but is the id a stored
      call now carries (the id a patch gave it, which is the id the validator
      reports) lands on the first such call. */
  lemma RenamedIdFollowed(r: Resolved, target: Key, i: nat)
    requires WellFormed(r) && target !in r.calls
    requires i < |r.order| && r.calls[r.order[i]].id == target
    requires forall j :: 0 <= j < i ==> r.calls[r.order[j]].id != target
    ensures TargetKey(r, Some(target), true) == Some(r.order[i])
  {
    assert r.order[i] in r.calls;
  }

  /** A missing or empty patch list leaves the args as they were; only the id
      changes. */
  lemma EmptyPatchesKeepArgs(r: Resolved, tc: ToolCall, k: Key, followRenamed: bool)
    requires WellFormed(r) && IsPatchCall(tc) && k in r.calls
    requires PatchTarget(tc.args) == Ok(Some(k)) && PatchList(tc.args) == Ok([])
    ensures StepCall(r, tc, followRenamed) == Ok(r.(calls := r.calls[k := r.calls[k].(id := tc.id)]))
  {
    assert r.calls[k].(args := r.calls[k].args, id := tc.id) == r.calls[k].(id := tc.id);
  }

  /** A failing patch operation is not caught: the whole aggregation fails. */
  lemma {:induction false} PatchFailureEscapes(ms: seq<Message>, r: Resolved, followRenamed: bool, e: AggError)
    requires WellFormed(r)
    requires ms != [] && ms[0].msgType == AI && StepCalls(r, ms[0].toolCalls, followRenamed) == Err(e)
    ensures ResolveFrom(r, ms, followRenamed) == Err(e)
  {
  }

  /** The outer loop over `a + b` is the loop over `a`, then over `b`. */
  lemma {:induction false} ResolveFromConcat(r: Resolved, a: seq<Message>, b: seq<Message>, followRenamed: bool)
    requires WellFormed(r)
    ensures ResolveFrom(r, a + b, followRenamed) == ThenResolve(ResolveFrom(r, a, followRenamed), b, followRenamed)
    decreases |a|
  {
    if a == [] {
      assert a + b == b;
    } else {
      assert (a + b)[0] == a[0] && (a + b)[1..] == a[1..] + b;
      if a[0].msgType != AI {
        ResolveFromConcat(r, a[1..], b, followRenamed);
      } else if StepCalls(r, a[0].toolCalls, followRenamed).Ok? {
        ResolveFromConcat(StepCalls(r, a[0].toolCalls, followRenamed).value, a[1..], b, followRenamed);
      }
    }
  }

  /** A failing patch in message `j` fails the whole aggregation: when the
      messages before it aggregate cleanly and its own tool calls fail, that
      failure is what `aggregate_messages` raises, whatever follows. */
  lemma PatchFailureFailsAggregate(ms: seq<Message>, j: nat, followRenamed: bool)
    requires j < |ms| && ms[j].msgType == AI
    requires ResolveFrom(Empty, ms[..j], followRenamed).Ok?
    requires StepCalls(ResolveFrom(Empty, ms[..j], followRenamed).value, ms[j].toolCalls, followRenamed).Err?
    ensures Aggregate(ms, followRenamed)
            == Err(StepCalls(ResolveFrom(Empty, ms[..j], followRenamed).value, ms[j].toolCalls, followRenamed).error)
  {
    var r := ResolveFrom(Empty, ms[..j], followRenamed).value;
    assert ms == ms[..j] + ms[j..];
    ResolveFromConcat(Empty, ms[..j], ms[j..], followRenamed);
    assert ms[j..][0] == ms[j];
    PatchFailureEscapes(ms[j..], r, followRenamed,
                        StepCalls(r, ms[j].toolCalls, followRenamed).error);
  }

  // ---- An example ----

  /** A patch call naming `target`, with the given patch operations. */
  function PatchCall(target: string, patches: seq<Json>, id: string): ToolCall {
    ToolCall(PatchToolName, JObject([("tool_call_id", JString(target)), ("patches", JArray(patches))]), Some(id))
  }

  /** A one-letter pointer "/c" selects the member "c". */
  lemma OneLetterPointer(c: char)
    requires c != '~' && c != '/'
    ensures JsonPointer.Parse(['/', c]) == Some([[c]])
  {
    assert JsonPointer.Escape([c]) == [c] + JsonPointer.Escape([]);
    assert JsonPointer.Render([[c]]) == "/" + [c] + JsonPointer.Render([]);
    assert JsonPointer.Render([[c]]) == ['/', c];
    JsonPointer.ParseRender([[c]]);
  }

  /** The operation object `{"op": "replace", "path": "/c", "value": v}`. */
  function ReplaceObj(c: char, v: Json): Json {
    JObject([("op", JString("replace")), ("path", JString(['/', c])), ("value", v)])
  }

  /** The members of `ReplaceObj(c, v)` as the patch library looks them up. */
  lemma ReplaceObjMembers(c: char, v: Json)
    ensures var ms := ReplaceObj(c, v).members;
            Lookup(ms, "op") == Some(JString("replace")) && Lookup(ms, "path") == Some(JString(['/', c]))
            && Lookup(ms, "value") == Some(v)
  {
    var ms := ReplaceObj(c, v).members;
    var tail := [("path", JString(['/', c])), ("value", v)];
    assert ms == [("op", JString("replace"))] + tail;
    assert tail == [("path", JString(['/', c]))] + [("value", v)];
    LookupCons("op", JString("replace"), tail, "op");
    LookupCons("op", JString("replace"), tail, "path");
    LookupCons("op", JString("replace"), tail, "value");
    LookupCons("path", JString(['/', c]), [("value", v)], "path");
    LookupCons("path", JString(['/', c]), [("value", v)], "value");
    LookupCons("value", v, [], "value");
    assert [("value", v)] == [("value", v)] + [];
  }

  lemma ReplaceObjParses(c: char, v: Json)
    requires c != '~' && c != '/'
    ensures JsonPatch.ParsePatch([ReplaceObj(c, v)]) == Ok([JsonPatch.Replace([[c]], v)])
  {
    OneLetterPointer(c);
    ReplaceObjMembers(c, v);
    var op := JsonPatch.Replace([[c]], v);
    assert JsonPatch.ParseOp(ReplaceObj(c, v)) == Ok(op);
    var r := JsonPatch.ParsePatch([ReplaceObj(c, v)]);
    assert r.Ok? && |r.value| == 1 && r.value[0] == op;
    assert r.value == [op];
  }

  /** A patch call with one "replace /c" operation, landing on key `k`. */
  lemma ReplaceCallStep(r: Resolved, target: string, c: char, v: Json, id: string, k: Key, followRenamed: bool)
    requires WellFormed(r) && c != '~' && c != '/'
    requires TargetKey(r, Some(Some(target)), followRenamed) == Some(k)
    ensures StepCall(r, PatchCall(target, [ReplaceObj(c, v)], id), followRenamed)
            == match JsonPatch.ApplyReplace(r.calls[k].args, [[c]], v)
               case Err(e) => Err(PatchFailed(e))
               case Ok(a) => Ok(r.(calls := r.calls[k := r.calls[k].(args := a, id := Some(id))]))
  {
    PatchCallArgs(target, [ReplaceObj(c, v)], id);
    ApplyOneReplace(r.calls[k].args, c, v);
  }

  /** The target and the patch list of `PatchCall(target, patches, id)`. */
  lemma PatchCallArgs(target: string, patches: seq<Json>, id: string)
    ensures PatchTarget(PatchCall(target, patches, id).args) == Ok(Some(Some(target)))
    ensures patches != [] ==> PatchList(PatchCall(target, patches, id).args) == Ok(patches)
  {
    var tail := [("patches", JArray(patches))];
    assert PatchCall(target, patches, id).args.members == [("tool_call_id", JString(target))] + tail;
    LookupCons("tool_call_id", JString(target), tail, "tool_call_id");
    LookupCons("tool_call_id", JString(target), tail, "patches");
    assert tail == tail + [];
    LookupCons("patches", JArray(patches), [], "patches");
  }

  /** The patch document `[{"op": "replace", "path": "/c", "value": v}]` is
      the one replace operation. */
  lemma ApplyOneReplace(doc: Json, c: char, v: Json)
    requires c != '~' && c != '/'
    ensures JsonPatch.ApplyDocument(doc, [ReplaceObj(c, v)]) == JsonPatch.ApplyReplace(doc, [[c]], v)
  {
    ReplaceObjParses(c, v);
    var ops := [JsonPatch.Replace([[c]], v)];
    assert JsonPatch.ApplyDocument(doc, [ReplaceObj(c, v)]) == JsonPatch.ApplyPatch(doc, ops);
    assert ops[1..] == [];
    assert JsonPatch.ApplyOp(doc, ops[0]) == JsonPatch.ApplyReplace(doc, [[c]], v);
    match JsonPatch.ApplyReplace(doc, [[c]], v)
    case Err(e) =>
    case Ok(a) =>
      assert JsonPatch.ApplyPatch(a, []) == Ok(a);
  }

  /** Replacing the first member of an object keeps the others. */
  lemma ReplaceFirstMember(key: string, x: Json, rest: seq<(string, Json)>, v: Json)
    ensures JsonPatch.ApplyReplace(JObject([(key, x)] + rest), [key], v) == Ok(JObject([(key, v)] + rest))
  {
    var ms := [(key, x)] + rest;
    assert IndexOfKey(ms, key) == Some(0);
    assert JsonPatch.Child(JObject(ms), key) == Some(x);
    assert [key][1..] == [];
    assert ms[0 := (key, v)] == [(key, v)] + rest;
  }

  /** `{"a": x, "b": y}` patched with `replace /a z` gives `{"a": z, "b": y}`
      (for instance `{"a": 1, "b": 2}` becomes `{"a": 5, "b": 2}`), under the
      original key and with the patch call's id. */
  lemma ReplaceExample(x: int, y: int, z: int)
    ensures var call := ToolCall("Extract", JObject([("a", JNumber(x)), ("b", JNumber(y))]), Some("c1"));
            var r := Resolved([Some("c1")], map[Some("c1") := call]);
            StepCall(r, PatchCall("c1", [ReplaceObj('a', JNumber(z))], "p1"), false)
            == Ok(Resolved([Some("c1")],
                           map[Some("c1") := ToolCall("Extract", JObject([("a", JNumber(z)), ("b", JNumber(y))]), Some("p1"))]))
  {
    var call := ToolCall("Extract", JObject([("a", JNumber(x)), ("b", JNumber(y))]), Some("c1"));
    var r := Resolved([Some("c1")], map[Some("c1") := call]);
    assert WellFormed(r);
    assert TargetKey(r, Some(Some("c1")), false) == Some(Some("c1"));
    ReplaceCallStep(r, "c1", 'a', JNumber(z), "p1", Some("c1"), false);
    var rest := [("b", JNumber(y))];
    assert call.args == JObject([("a", JNumber(x))] + rest);
    ReplaceFirstMember("a", JNumber(x), rest, JNumber(z));
    var a := JObject([("a", JNumber(z))] + rest);
    assert a == JObject([("a", JNumber(z)), ("b", JNumber(y))]);
    assert JsonPatch.ApplyReplace(call.args, ["a"], JNumber(z)) == Ok(a);
    assert StepCall(r, PatchCall("c1", [ReplaceObj('a', JNumber(z))], "p1"), false)
        == Ok(r.(calls := r.calls[Some("c1") := call.(args := a, id := Some("p1"))]));
    var fixed := ToolCall("Extract", JObject([("a", JNumber(z)), ("b", JNumber(y))]), Some("p1"));
    assert call.(args := a, id := Some("p1")) == fixed;
    assert r.calls[Some("c1") := fixed] == map[Some("c1") := fixed];
  }

  /** Two stored calls: `k1` (args {}) under its own id, and `k2` (args
      {"x": x}) currently reported as `id2`. */
  function TwoCalls(k1: string, k2: string, id2: string, x: int): (r: Resolved)
    requires k1 != k2
    ensures WellFormed(r)
  {
    Resolved([Some(k1), Some(k2)],
             map[Some(k1) := ToolCall("A", JObject([]), Some(k1)),
                 Some(k2) := ToolCall("B", JObject([("x", JNumber(x))]), Some(id2))])
  }

  /** How the stale id arises: patch `p1`, naming `k2`, replaces /x of `k2`
      with `y`; `k2` keeps its key but is now reported as `p1`, under either
      lookup. */
  lemma StaleIdFirstPatch(k1: string, k2: string, p1: string, x: int, y: int, followRenamed: bool)
    requires k1 != k2
    ensures StepCall(TwoCalls(k1, k2, k2, x), PatchCall(k2, [ReplaceObj('x', JNumber(y))], p1), followRenamed)
            == Ok(TwoCalls(k1, k2, p1, y))
  {
    var r := TwoCalls(k1, k2, k2, x);
    assert TargetKey(r, Some(Some(k2)), followRenamed) == Some(Some(k2));
    ReplaceCallStep(r, k2, 'x', JNumber(y), p1, Some(k2), followRenamed);
    SecondCallPatched(k1, k2, k2, x, p1, y);
  }

  /** The next patch, `p2`, names `p1`, the id the validator reported for
      `k2`, and replaces /x with `z`. As written it lands on `k1`, which has
      no /x, and the aggregation fails; with the corrected lookup `k2` gets
      {"x": z} and the id `p2`. */
  lemma StaleIdScenario(k1: string, k2: string, p1: string, p2: string, y: int, z: int)
    requires k1 != k2 && p1 != k1 && p1 != k2
    ensures var r1 := TwoCalls(k1, k2, p1, y);
            var patch := PatchCall(p1, [ReplaceObj('x', JNumber(z))], p2);
            StepCall(r1, patch, false) == Err(PatchFailed(JsonPatch.Conflict("can't replace a non-existent object 'x'")))
            && StepCall(r1, patch, true) == Ok(TwoCalls(k1, k2, p2, z))
  {
    StaleIdMisrouted(k1, k2, p1, p2, y, z);
    StaleIdFollowed(k1, k2, p1, p2, y, z);
  }

  lemma StaleIdMisrouted(k1: string, k2: string, p1: string, p2: string, y: int, z: int)
    requires k1 != k2 && p1 != k1 && p1 != k2
    ensures StepCall(TwoCalls(k1, k2, p1, y), PatchCall(p1, [ReplaceObj('x', JNumber(z))], p2), false)
            == Err(PatchFailed(JsonPatch.Conflict("can't replace a non-existent object 'x'")))
  {
    var r1 := TwoCalls(k1, k2, p1, y);
    assert Some(p1) !in r1.calls;
    assert TargetKey(r1, Some(Some(p1)), false) == Some(Some(k1));
    ReplaceCallStep(r1, p1, 'x', JNumber(z), p2, Some(k1), false);
    assert IndexOfKey([], "x").None?;
    assert JsonPatch.Child(JObject([]), "x").None?;
    assert JsonPatch.ApplyReplace(JObject([]), ["x"], JNumber(z))
           == Err(JsonPatch.ReplaceMissing(JObject([]), "x"));
    assert "can't replace a non-existent object '" + "x" + "'" == "can't replace a non-existent object 'x'";
  }

  lemma StaleIdFollowed(k1: string, k2: string, p1: string, p2: string, y: int, z: int)
    requires k1 != k2 && p1 != k1 && p1 != k2
    ensures StepCall(TwoCalls(k1, k2, p1, y), PatchCall(p1, [ReplaceObj('x', JNumber(z))], p2), true)
            == Ok(TwoCalls(k1, k2, p2, z))
  {
    var r1 := TwoCalls(k1, k2, p1, y);
    assert r1.calls[r1.order[0]].id == Some(k1);
    RenamedIdFollowed(r1, Some(p1), 1);
    ReplaceCallStep(r1, p1, 'x', JNumber(z), p2, Some(k2), true);
    SecondCallPatched(k1, k2, p1, y, p2, z);
  }

  /** Replacing /x of the second call with `y2` and giving it the id `id2`
      yields the same fixture with those two values. */
  lemma SecondCallPatched(k1: string, k2: string, id: string, y: int, id2: string, y2: int)
    requires k1 != k2
    ensures var r := TwoCalls(k1, k2, id, y);
            JsonPatch.ApplyReplace(r.calls[Some(k2)].args, ["x"], JNumber(y2)) == Ok(JObject([("x", JNumber(y2))]))
            && r.(calls := r.calls[Some(k2) := r.calls[Some(k2)].(args := JObject([("x", JNumber(y2))]), id := Some(id2))])
               == TwoCalls(k1, k2, id2, y2)
  {
    ReplaceFirstMember("x", JNumber(y), [], JNumber(y2));
    assert [("x", JNumber(y))] + [] == [("x", JNumber(y))];
    assert [("x", JNumber(y2))] + [] == [("x", JNumber(y2))];
  }

  /** The two patches on one input: calls c1 (args {}) and c2 (args {"x": 1});
      p1 sets /x of c2 to 2; p2 names p1 and sets /x to 3. */
  lemma StaleIdExample()
    ensures var r0 := TwoCalls("c1", "c2", "c2", 1);
            var r1 := TwoCalls("c1", "c2", "p1", 2);
            var patch := PatchCall("p1", [ReplaceObj('x', JNumber(3))], "p2");
            StepCall(r0, PatchCall("c2", [ReplaceObj('x', JNumber(2))], "p1"), false) == Ok(r1)
            && StepCall(r1, patch, false) == Err(PatchFailed(JsonPatch.Conflict("can't replace a non-existent object 'x'")))
            && StepCall(r1, patch, true) == Ok(TwoCalls("c1", "c2", "p2", 3))
  {
    assert "c1"[1] != "c2"[1] && "p1"[0] != "c1"[0] && "p1"[0] != "c2"[0];
    StaleIdFirstPatch("c1", "c2", "p1", 1, 2, false);
    StaleIdScenario("c1", "c2", "p1", "p2", 2, 3);
  }

  // ---- The validator's error message ----

  /** How an id prints inside an f-string: None prints as "None". */
  function RenderId(id: Option<string>): string {
    match id
    case None => "None"
    case Some(s) => s
  }

  const ErrorHead := "Error:\n\n```\n"
  const SchemaHead := "\n```\nExpected Parameter Schema:\n\n```json\n"
  const CorrectionRequest := "\n```\nPlease respond with a JSONPatch to correct the error for tool_call_id=["

  /** `format_exception`: the error's repr, the expected parameter schema, and
      a request to patch the failed call, named by the id it carries now. */
  function FormatException(errorRepr: string, schemaJson: string, callId: Option<string>): (r: string)
    ensures |ErrorHead + errorRepr| <= |r| && r[..|ErrorHead + errorRepr|] == ErrorHead + errorRepr
    ensures var tail := CorrectionRequest + RenderId(callId) + "].";
            |tail| <= |r| && r[|r| - |tail|..] == tail
  {
    ErrorHead + errorRepr + SchemaHead + schemaJson + CorrectionRequest + RenderId(callId) + "]."
  }

  /** For a given error and schema the message determines the id it asks to
      patch. */
  lemma FormatExceptionNamesId(errorRepr: string, schemaJson: string, a: Option<string>, b: Option<string>)
    requires FormatException(errorRepr, schemaJson, a) == FormatException(errorRepr, schemaJson, b)
    ensures RenderId(a) == RenderId(b)
  {
    var pre := ErrorHead + errorRepr + SchemaHead + schemaJson + CorrectionRequest;
    var ra := FormatException(errorRepr, schemaJson, a);
    var rb := FormatException(errorRepr, schemaJson, b);
    assert ra == pre + RenderId(a) + "].";
    assert rb == pre + RenderId(b) + "].";
    assert |RenderId(a)| == |RenderId(b)|;
    assert RenderId(a) == ra[|pre|..|ra| - 2];
    assert RenderId(b) == rb[|pre|..|rb| - 2];
  }

  // ---- The strategy handed to the retry engine ----

  /** The aggregator as the engine calls it: failures become exception text.
      `PatchAggregator(false)` is `aggregate_messages` as written;
      `PatchAggregator(true)` uses the corrected target lookup. */
  function PatchAggregator(followRenamed: bool): Retry.AggregateFn {
    ms => match Aggregate(ms, followRenamed)
          case Ok(m) => Ok(m)
          case Err(e) => Err(AggErrorText(e))
  }

  /** `RetryStrategy(max_attempts=..., fallback=fallback_llm,
      aggregate_messages=aggregate_messages)`; the source hands the engine
      `PatchStrategy(false, ...)`. */
  function PatchStrategy(followRenamed: bool, maxAttempts: int, fallbackLlm: Retry.Oracle): Retry.RetryStrategy {
    Retry.RetryStrategy(Some(maxAttempts), Some(fallbackLlm), Some(PatchAggregator(followRenamed)))
  }

  /** Under the JSONPatch strategy, with either lookup, whatever the engine
      returns holds no `PatchFunctionParameters` call: patches are merged into
      the calls they correct. */
  lemma PatchStrategyReturnsNoPatchCall(
    followRenamed: bool, llm: Retry.Oracle, validator: Retry.ValidationFn, maxAttempts: int,
    fallbackLlm: Retry.Oracle, toolChoice: Option<string>, input: Retry.Input, uuid: nat -> string)
    ensures var b := Retry.Binding(llm, validator, PatchStrategy(followRenamed, maxAttempts, fallbackLlm), toolChoice);
            var o := Retry.Invoke(b, input, uuid);
            o.result.Ok? ==> forall i :: 0 <= i < |o.result.value.toolCalls| ==> !IsPatchCall(o.result.value.toolCalls[i])
  {
    var b := Retry.Binding(llm, validator, PatchStrategy(followRenamed, maxAttempts, fallbackLlm), toolChoice);
    var o := Retry.Invoke(b, input, uuid);
    Retry.InvokeReturnsAggregate(b, input, uuid);
    if o.result.Ok? && o.result.value.toolCalls != [] {
      var (ms, fmt) := Retry.Encode(input).value;
      var s1 := Retry.GenerateStep(Retry.CountMessagesStep(Retry.GraphState(ms, 0, 0, fmt)), b.llm, uuid);
      var v :| Retry.ValidatedFrom(b, s1, v, uuid) && Retry.ValidatesToFinalizer(b, v, uuid)
               && var w := Retry.ValidatorStep(b, v, uuid).value;
               ms + [b.llm(ms)] <= w.messages
               && Retry.Aggregates(b, w.messages[|ms|..], o.result.value);
      var win := Retry.ValidatorStep(b, v, uuid).value.messages[|ms|..];
      assert Retry.SelectMessages(b.strategy)(win) == PatchAggregator(followRenamed)(win);
      AggregateShape(win, followRenamed);
    }
  }

  /** A failing patch ends the run: when the aggregate of the window the
      validator is given fails, the engine raises the aggregator's error and
      makes no further attempt. */
  lemma PatchFailureEndsRun(
    followRenamed: bool, b: Retry.Binding, s: Retry.GraphState, uuid: nat -> string)
    requires b.strategy.aggregateMessages == Some(PatchAggregator(followRenamed))
    requires Aggregate(Retry.Generated(s), followRenamed).Err?
    ensures Retry.ValidationLoop(b, s, uuid)
            == Retry.Outcome(Err(Retry.AggregationFailed(AggErrorText(Aggregate(Retry.Generated(s), followRenamed).error))),
                             s, [Retry.ValidatorNode])
  {
    assert Retry.SelectMessages(b.strategy)(Retry.Generated(s)).Err?;
    Retry.AggregatorFailureEndsRun(b, s, uuid);
  }
}
