/** JSON Patch (RFC 6902) restricted to the three operations a correction
    tool call may ask for: "add" (section 4.1), "remove" (section 4.2) and
    "replace" (section 4.3). Paths are JSON Pointers; a patch is applied in
    order and fails as a whole when one of its operations fails.

    Errors follow the `jsonpatch` library in kind: a malformed operation is an
    invalid patch, a malformed pointer or a step of the path that does not
    exist is a pointer error, and a target that cannot be changed is a
    conflict. */
module JsonPatch {
  import opened Wrappers
  import opened JsonValue
  import JsonPointer
  import Decimal

  datatype PatchError =
    | InvalidPatch(reason: string)   // malformed operation object
    | PointerError(reason: string)   // malformed pointer, or a path step that does not exist
    | Conflict(reason: string)       // the target at the last token cannot be changed

  datatype PatchOp =
    | Add(path: seq<string>, value: Json)
    | Remove(path: seq<string>)
    | Replace(path: seq<string>, value: Json)
    | MissingValue(path: seq<string>)   // an "add" or "replace" without a value

  /** The value one reference token selects inside `doc`, if any. */
  function Child(doc: Json, token: string): Option<Json> {
    match doc
    case JObject(ms) => Lookup(ms, token)
    case JArray(xs) =>
      (match Decimal.ArrayIndex(token)
       case Some(i) => if i < |xs| then Some(xs[i]) else None
       case None => None)
    case _ => None
  }

  /** `doc` with the value at `token` replaced by `c`, in place: every other
      member or element, and every position, stays. */
  function WithChild(doc: Json, token: string, c: Json): (r: Json)
    requires Child(doc, token).Some?
    ensures Child(r, token) == Some(c)
    ensures forall t :: t != token ==> Child(r, t) == Child(doc, t)
    ensures doc.JObject? ==> r.JObject? && |r.members| == |doc.members|
                             && forall i :: 0 <= i < |r.members| ==> r.members[i].0 == doc.members[i].0
    ensures doc.JArray? ==> r.JArray? && |r.items| == |doc.items|
  {
    match doc
    case JObject(ms) => JObject(SetMember(ms, token, c))
    case JArray(xs) =>
      var i := Decimal.ArrayIndex(token).value;
      JArray(xs[i := c])
  }

  /** The value a whole pointer selects (section 4 of RFC 6901). */
  function Get(doc: Json, path: seq<string>): Option<Json>
    decreases |path|
  {
    if path == [] then Some(doc)
    else
      match Child(doc, path[0])
      case None => None
      case Some(c) => Get(c, path[1..])
  }

  /** The error of a path step (not the last) that selects nothing. */
  function WalkError(doc: Json, token: string): PatchError {
    match doc
    case JObject(_) => PointerError("member '" + token + "' not found")
    case JArray(_) =>
      if Decimal.ArrayIndex(token).Some? then PointerError("index '" + token + "' is out of bounds")
      else PointerError("'" + token + "' is not a valid sequence index")
    case _ => PointerError("document does not support indexing")
  }

  /** The error of a "replace" whose last token selects nothing. */
  function ReplaceMissing(doc: Json, token: string): PatchError {
    match doc
    case JObject(_) => Conflict("can't replace a non-existent object '" + token + "'")
    case JArray(_) =>
      if Decimal.ArrayIndex(token).Some? then Conflict("can't replace outside of list")
      else PointerError("'" + token + "' is not a valid sequence index")
    case _ => Conflict("unable to fully resolve json pointer")
  }

  /** "add" at the last token: an object member is set, an array gets the value
      inserted before the index (or appended for "-"). */
  function AddAt(doc: Json, token: string, v: Json): Result<Json, PatchError> {
    match doc
    case JObject(ms) => Ok(JObject(SetMember(ms, token, v)))
    case JArray(xs) =>
      if token == "-" then Ok(JArray(xs + [v]))
      else
        (match Decimal.ArrayIndex(token)
         case Some(i) =>
           if i <= |xs| then Ok(JArray(xs[..i] + [v] + xs[i..]))
           else Err(Conflict("can't insert outside of list"))
         case None => Err(PointerError("'" + token + "' is not a valid sequence index")))
    case _ => Err(Conflict("unable to fully resolve json pointer"))
  }

  /** "remove" at the last token: the member or element must exist. */
  function RemoveAt(doc: Json, token: string): Result<Json, PatchError> {
    match doc
    case JObject(ms) =>
      if Lookup(ms, token).Some? then Ok(JObject(RemoveMember(ms, token)))
      else Err(Conflict("can't remove a non-existent object '" + token + "'"))
    case JArray(xs) =>
      (match Decimal.ArrayIndex(token)
       case Some(i) =>
         if i < |xs| then Ok(JArray(xs[..i] + xs[i + 1..]))
         else Err(Conflict("can't remove a non-existent object '" + token + "'"))
       case None => Err(PointerError("'" + token + "' is not a valid sequence index")))
    case _ => Err(Conflict("unable to fully resolve json pointer"))
  }

  function ApplyAdd(doc: Json, path: seq<string>, v: Json): Result<Json, PatchError>
    decreases |path|
  {
    if path == [] then Ok(v)
    else if |path| == 1 then AddAt(doc, path[0], v)
    else
      match Child(doc, path[0])
      case None => Err(WalkError(doc, path[0]))
      case Some(c) =>
        match ApplyAdd(c, path[1..], v)
        case Err(e) => Err(e)
        case Ok(c2) => Ok(WithChild(doc, path[0], c2))
  }

  function ApplyRemove(doc: Json, path: seq<string>): Result<Json, PatchError>
    decreases |path|
  {
    if path == [] then Err(Conflict("can't remove the whole document"))
    else if |path| == 1 then RemoveAt(doc, path[0])
    else
      match Child(doc, path[0])
      case None => Err(WalkError(doc, path[0]))
      case Some(c) =>
        match ApplyRemove(c, path[1..])
        case Err(e) => Err(e)
        case Ok(c2) => Ok(WithChild(doc, path[0], c2))
  }

  function ApplyReplace(doc: Json, path: seq<string>, v: Json): Result<Json, PatchError>
    decreases |path|
  {
    if path == [] then Ok(v)
    else
      match Child(doc, path[0])
      case None => Err(if |path| == 1 then ReplaceMissing(doc, path[0]) else WalkError(doc, path[0]))
      case Some(c) =>
        match ApplyReplace(c, path[1..], v)
        case Err(e) => Err(e)
        case Ok(c2) => Ok(WithChild(doc, path[0], c2))
  }

  function ApplyOp(doc: Json, op: PatchOp): Result<Json, PatchError> {
    match op
    case Add(path, v) => ApplyAdd(doc, path, v)
    case Remove(path) => ApplyRemove(doc, path)
    case Replace(path, v) => ApplyReplace(doc, path, v)
    case MissingValue(_) => Err(InvalidPatch("The operation does not contain a 'value' member"))
  }

  /** `jsonpatch.apply_patch(doc, ops)`: the operations in order, all or nothing. */
  function ApplyPatch(doc: Json, ops: seq<PatchOp>): Result<Json, PatchError>
    decreases |ops|
  {
    if ops == [] then Ok(doc)
    else
      match ApplyOp(doc, ops[0])
      case Err(e) => Err(e)
      case Ok(d) => ApplyPatch(d, ops[1..])
  }

  /** The member `key` of an object; nothing for any other value. */
  function Member(j: Json, key: string): Option<Json> {
    if j.JObject? then Lookup(j.members, key) else None
  }

  /** The pointer an operation object's "path" names, when it is a string that parses. */
  function PathOf(j: Json): Option<seq<string>> {
    match Member(j, "path")
    case Some(JString(p)) => JsonPointer.Parse(p)
    case _ => None
  }

  /** Reads one operation object {"op": ..., "path": ..., "value": ...}: the
      op and the path are checked here, while a missing value is only reported
      when the operation is applied. */
  function ParseOp(j: Json): (r: Result<PatchOp, PatchError>)
    ensures r.Ok? <==> j.JObject? && PathOf(j).Some?
                       && Member(j, "op") in {Some(JString("add")), Some(JString("remove")), Some(JString("replace"))}
    ensures r.Ok? ==> r.value.path == PathOf(j).value
    ensures r.Ok? && Member(j, "op") == Some(JString("remove")) ==> r.value == Remove(PathOf(j).value)
    ensures r.Ok? && Member(j, "op") == Some(JString("add")) && Member(j, "value").Some? ==>
              r.value == Add(PathOf(j).value, Member(j, "value").value)
    ensures r.Ok? && Member(j, "op") == Some(JString("replace")) && Member(j, "value").Some? ==>
              r.value == Replace(PathOf(j).value, Member(j, "value").value)
    ensures r.Ok? ==> (r.value.MissingValue? <==>
                         Member(j, "value").None? && Member(j, "op") != Some(JString("remove")))
    ensures r.Err? ==> !r.error.Conflict?
    ensures r.Err? && r.error.PointerError? ==>
              Member(j, "path").Some? && Member(j, "path").value.JString? && PathOf(j).None?
  {
    match j
    case JObject(ms) =>
      (match (Lookup(ms, "op"), Lookup(ms, "path"))
       case (Some(JString(op)), Some(JString(p))) =>
         if op != "add" && op != "remove" && op != "replace" then Err(InvalidPatch("unknown operation"))
         else
           (match JsonPointer.Parse(p)
            case None => Err(PointerError("location must start with / and escape only ~0 and ~1"))
            case Some(path) =>
              if op == "remove" then Ok(Remove(path))
              else
                match Lookup(ms, "value")
                case None => Ok(MissingValue(path))
                case Some(v) => Ok(if op == "add" then Add(path, v) else Replace(path, v)))
       case _ => Err(InvalidPatch("operation must have string 'op' and 'path' members")))
    case _ => Err(InvalidPatch("operation must be an object"))
  }

  /** Reads the op and path of every operation before any is applied; the
      first malformed one rejects the patch with its own error. */
  function ParsePatch(items: seq<Json>): (r: Result<seq<PatchOp>, PatchError>)
    ensures r.Ok? ==> |r.value| == |items|
    ensures r.Ok? <==> forall i :: 0 <= i < |items| ==> ParseOp(items[i]).Ok?
    ensures r.Ok? ==> forall i :: 0 <= i < |items| ==> r.value[i] == ParseOp(items[i]).value
    ensures r.Err? ==> exists i :: 0 <= i < |items| && ParseOp(items[i]) == Err(r.error)
                                   && forall k :: 0 <= k < i ==> ParseOp(items[k]).Ok?
  {
    if items == [] then Ok([])
    else
      match ParseOp(items[0])
      case Err(e) => Err(e)
      case Ok(op) =>
        match ParsePatch(items[1..])
        case Err(e) =>
          var i :| 0 <= i < |items[1..]| && ParseOp(items[1..][i]) == Err(e)
                   && forall k :: 0 <= k < i ==> ParseOp(items[1..][k]).Ok?;
          assert ParseOp(items[i + 1]) == Err(e);
          assert forall k :: 0 <= k < i + 1 ==> ParseOp(items[k]).Ok? by {
            forall k | 0 <= k < i + 1 ensures ParseOp(items[k]).Ok? {
              if k > 0 { assert items[k] == items[1..][k - 1]; }
            }
          }
          Err(e)
        case Ok(ops) => Ok([op] + ops)
  }

  /** `jsonpatch.apply_patch(doc, patch)`: the op and path of every operation
      are read before any is applied, so a malformed op or path rejects the
      whole patch; a value is read only when its operation is applied. */
  function ApplyDocument(doc: Json, patch: seq<Json>): (r: Result<Json, PatchError>)
    ensures patch == [] ==> r == Ok(doc)
    ensures (exists i :: 0 <= i < |patch| && ParseOp(patch[i]).Err?) ==> r.Err? && !r.error.Conflict?
    ensures ParsePatch(patch).Ok? ==> r == ApplyPatch(doc, ParsePatch(patch).value)
  {
    match ParsePatch(patch)
    case Err(e) => Err(e)
    case Ok(ops) => ApplyPatch(doc, ops)
  }

  /** An operation without a value fails when it is reached, not before: the
      operations ahead of it are applied first, and their failure is the one
      reported. */
  lemma MissingValueFailsWhenReached(doc: Json, first: PatchOp, path: seq<string>)
    ensures ApplyOp(doc, first).Err? ==> ApplyPatch(doc, [first, MissingValue(path)]) == ApplyOp(doc, first)
    ensures ApplyOp(doc, first).Ok? ==>
              ApplyPatch(doc, [first, MissingValue(path)])
              == Err(InvalidPatch("The operation does not contain a 'value' member"))
  {
    var ops := [first, MissingValue(path)];
    assert ops[1..] == [MissingValue(path)] && ops[1..][1..] == [];
  }

  // ---- Properties ----

  /** Reading the target of a successful "add" gives the added value. */
  lemma {:induction false} GetAfterAdd(doc: Json, path: seq<string>, v: Json)
    requires ApplyAdd(doc, path, v).Ok?
    requires path == [] || path[|path| - 1] != "-"
    ensures Get(ApplyAdd(doc, path, v).value, path) == Some(v)
    decreases |path|
  {
    if |path| == 1 {
      var d := ApplyAdd(doc, path, v).value;
      assert Get(d, path) == Get(Child(d, path[0]).value, []);
      match doc
      case JArray(xs) =>
        var i := Decimal.ArrayIndex(path[0]).value;
        assert Child(d, path[0]) == Some((xs[..i] + [v] + xs[i..])[i]);
      case _ =>
    } else if |path| > 1 {
      var c := Child(doc, path[0]).value;
      var c2 := ApplyAdd(c, path[1..], v).value;
      assert ApplyAdd(doc, path, v).value == WithChild(doc, path[0], c2);
      assert path[1..][|path[1..]| - 1] == path[|path| - 1];
      GetAfterAdd(c, path[1..], v);
      assert Child(WithChild(doc, path[0], c2), path[0]) == Some(c2);
    }
  }

  /** Reading the target of a successful "replace" gives the new value. */
  lemma {:induction false} GetAfterReplace(doc: Json, path: seq<string>, v: Json)
    requires ApplyReplace(doc, path, v).Ok?
    ensures Get(ApplyReplace(doc, path, v).value, path) == Some(v)
    decreases |path|
  {
    if path != [] {
      GetAfterReplace(Child(doc, path[0]).value, path[1..], v);
    }
  }

  /** "replace" succeeds exactly when the path already names a value. */
  lemma {:induction false} ReplaceNeedsTarget(doc: Json, path: seq<string>, v: Json)
    ensures ApplyReplace(doc, path, v).Ok? <==> Get(doc, path).Some?
    decreases |path|
  {
    if path != [] {
      match Child(doc, path[0])
      case None =>
      case Some(c) => ReplaceNeedsTarget(c, path[1..], v);
    }
  }

  /** "remove" succeeds exactly when the path names a value inside the document. */
  lemma {:induction false} RemoveNeedsTarget(doc: Json, path: seq<string>)
    ensures ApplyRemove(doc, path).Ok? <==> path != [] && Get(doc, path).Some?
    decreases |path|
  {
    if |path| == 1 {
      assert Get(doc, path).Some? <==> Child(doc, path[0]).Some?;
    } else if |path| > 1 {
      match Child(doc, path[0])
      case None =>
      case Some(c) => RemoveNeedsTarget(c, path[1..]);
    }
  }

  /** After removing an object member, the member is gone and its siblings stay. */
  lemma RemoveMemberGone(ms: seq<(string, Json)>, key: string)
    requires ApplyRemove(JObject(ms), [key]).Ok?
    ensures ApplyRemove(JObject(ms), [key]).value.JObject?
    ensures Get(ApplyRemove(JObject(ms), [key]).value, [key]).None?
    ensures forall p :: p in ms && p.0 != key ==> p in ApplyRemove(JObject(ms), [key]).value.members
  {
    var d := ApplyRemove(JObject(ms), [key]).value;
    assert Child(d, key).None?;
  }

  /** Replacing an object member keeps every member's position and every other
      member's value. */
  lemma ReplaceMemberKeepsSiblings(ms: seq<(string, Json)>, key: string, v: Json)
    requires ApplyReplace(JObject(ms), [key], v).Ok?
    ensures ApplyReplace(JObject(ms), [key], v).value.JObject?
    ensures var r := ApplyReplace(JObject(ms), [key], v).value.members;
      |r| == |ms| && (forall i :: 0 <= i < |r| ==> r[i].0 == ms[i].0)
      && (forall i :: 0 <= i < |r| && ms[i].0 != key ==> r[i] == ms[i])
      && Lookup(r, key) == Some(v)
  {
  }

  /** Adding an object member sets that member and keeps every other one: an
      existing member keeps its position, a new one goes last. */
  lemma AddMemberKeepsSiblings(ms: seq<(string, Json)>, key: string, v: Json)
    ensures ApplyAdd(JObject(ms), [key], v).Ok? && ApplyAdd(JObject(ms), [key], v).value.JObject?
    ensures var r := ApplyAdd(JObject(ms), [key], v).value.members;
      Lookup(r, key) == Some(v)
      && (forall k :: k != key ==> Lookup(r, k) == Lookup(ms, k))
      && (Lookup(ms, key).Some? ==>
            |r| == |ms| && forall i :: 0 <= i < |r| && ms[i].0 != key ==> r[i] == ms[i])
      && (Lookup(ms, key).None? ==> r == ms + [(key, v)])
  {
  }

  /** `q` leaves `path` at position `i`: they agree before it and differ there. */
  predicate DivergesAt(path: seq<string>, q: seq<string>, i: nat) {
    i < |path| && i < |q| && path[..i] == q[..i] && path[i] != q[i]
  }

  /** One step down both pointers keeps them diverging, one position earlier. */
  lemma DivergesAtTail(path: seq<string>, q: seq<string>, i: nat)
    requires DivergesAt(path, q, i) && i > 0
    ensures path[0] == q[0] && DivergesAt(path[1..], q[1..], i - 1)
  {
    assert path[0] == path[..i][0] == q[..i][0] == q[0];
    assert path[1..][..i - 1] == path[..i][1..];
    assert q[1..][..i - 1] == q[..i][1..];
  }

  /** "replace" changes nothing outside its path: every pointer that leaves
      the path reads the same value before and after. */
  lemma {:induction false} ReplaceFrame(doc: Json, path: seq<string>, v: Json, q: seq<string>, i: nat)
    requires ApplyReplace(doc, path, v).Ok? && DivergesAt(path, q, i)
    ensures Get(ApplyReplace(doc, path, v).value, q) == Get(doc, q)
    decreases |path|
  {
    var c := Child(doc, path[0]).value;
    var r := WithChild(doc, path[0], ApplyReplace(c, path[1..], v).value);
    assert ApplyReplace(doc, path, v).value == r;
    if i > 0 {
      DivergesAtTail(path, q, i);
      ReplaceFrame(c, path[1..], v, q[1..], i - 1);
      assert Child(r, q[0]) == Some(ApplyReplace(c, path[1..], v).value);
    } else {
      assert Child(r, q[0]) == Child(doc, q[0]);
    }
  }

  /** The container the last token of `path` points into is an object. */
  predicate ObjectParent(doc: Json, path: seq<string>) {
    path != [] && Get(doc, path[..|path| - 1]).Some? && Get(doc, path[..|path| - 1]).value.JObject?
  }

  /** One step down, the parent of the rest of the path is the same value. */
  lemma ObjectParentTail(doc: Json, path: seq<string>, c: Json)
    requires |path| > 1 && Child(doc, path[0]) == Some(c)
    ensures ObjectParent(doc, path) <==> ObjectParent(c, path[1..])
  {
    assert path[..|path| - 1][0] == path[0];
    assert path[..|path| - 1][1..] == path[1..][..|path[1..]| - 1];
  }

  /** "add" changes nothing outside its path when it adds to an object, and
      nothing outside the container it adds to in any case (an insertion into
      an array shifts that array's later elements). */
  lemma {:induction false} AddFrame(doc: Json, path: seq<string>, v: Json, q: seq<string>, i: nat)
    requires ApplyAdd(doc, path, v).Ok? && DivergesAt(path, q, i)
    requires i < |path| - 1 || ObjectParent(doc, path)
    ensures Get(ApplyAdd(doc, path, v).value, q) == Get(doc, q)
    decreases |path|
  {
    if |path| == 1 {
      var d := ApplyAdd(doc, path, v).value;
      assert Get(doc, path[..0]) == Some(doc);
      var ms := doc.members;
      assert d == JObject(SetMember(ms, path[0], v));
      assert Child(d, q[0]) == Child(doc, q[0]);
    } else {
      var c := Child(doc, path[0]).value;
      var r := WithChild(doc, path[0], ApplyAdd(c, path[1..], v).value);
      assert ApplyAdd(doc, path, v).value == r;
      if i > 0 {
        DivergesAtTail(path, q, i);
        ObjectParentTail(doc, path, c);
        AddFrame(c, path[1..], v, q[1..], i - 1);
        assert Child(r, q[0]) == Some(ApplyAdd(c, path[1..], v).value);
      } else {
        assert Child(r, q[0]) == Child(doc, q[0]);
      }
    }
  }

  /** "remove" changes nothing outside its path when it removes from an
      object, and nothing outside the container it removes from in any case. */
  lemma {:induction false} RemoveFrame(doc: Json, path: seq<string>, q: seq<string>, i: nat)
    requires ApplyRemove(doc, path).Ok? && DivergesAt(path, q, i)
    requires i < |path| - 1 || ObjectParent(doc, path)
    ensures Get(ApplyRemove(doc, path).value, q) == Get(doc, q)
    decreases |path|
  {
    if |path| == 1 {
      var d := ApplyRemove(doc, path).value;
      assert Get(doc, path[..0]) == Some(doc);
      var ms := doc.members;
      assert d == JObject(RemoveMember(ms, path[0]));
      RemoveKeepsOtherLookups(ms, path[0], q[0]);
      assert Child(d, q[0]) == Child(doc, q[0]);
    } else {
      var c := Child(doc, path[0]).value;
      var r := WithChild(doc, path[0], ApplyRemove(c, path[1..]).value);
      assert ApplyRemove(doc, path).value == r;
      if i > 0 {
        DivergesAtTail(path, q, i);
        ObjectParentTail(doc, path, c);
        RemoveFrame(c, path[1..], q[1..], i - 1);
        assert Child(r, q[0]) == Some(ApplyRemove(c, path[1..]).value);
      } else {
        assert Child(r, q[0]) == Child(doc, q[0]);
      }
    }
  }

  /** A patch is applied operation by operation: splitting it splits the work. */
  lemma {:induction false} ApplyPatchConcat(doc: Json, a: seq<PatchOp>, b: seq<PatchOp>)
    ensures ApplyPatch(doc, a + b) ==
              match ApplyPatch(doc, a)
              case Err(e) => Err(e)
              case Ok(d) => ApplyPatch(d, b)
    decreases |a|
  {
    if a != [] {
      assert (a + b)[0] == a[0] && (a + b)[1..] == a[1..] + b;
      match ApplyOp(doc, a[0])
      case Err(_) =>
      case Ok(d) => ApplyPatchConcat(d, a[1..], b);
    } else {
      assert a + b == b;
    }
  }
}
