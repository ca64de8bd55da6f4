/** JSON documents as the patch machinery sees them (Python's json-compatible
    dict/list/str/int/bool/None). Object members keep insertion order, as
    Python dictionaries do. */
module JsonValue {
  import opened Wrappers

  datatype Json =
    | JNull
    | JBool(b: bool)
    | JNumber(n: int)
    | JString(s: string)
    | JArray(items: seq<Json>)
    | JObject(members: seq<(string, Json)>)

  /** Python truthiness of a JSON value (`x or default`, `if not x`). */
  predicate Truthy(j: Json) {
    match j
    case JNull => false
    case JBool(b) => b
    case JNumber(n) => n != 0
    case JString(s) => s != ""
    case JArray(items) => items != []
    case JObject(members) => members != []
  }

  /** Position of the first member named `key`. */
  function IndexOfKey(members: seq<(string, Json)>, key: string): (r: Option<nat>)
    ensures r.Some? ==> r.value < |members| && members[r.value].0 == key
    ensures r.Some? ==> forall j :: 0 <= j < r.value ==> members[j].0 != key
    ensures r.None? ==> forall j :: 0 <= j < |members| ==> members[j].0 != key
  {
    if members == [] then None
    else if members[0].0 == key then Some(0)
    else match IndexOfKey(members[1..], key)
      case None => None
      case Some(i) => Some(i + 1)
  }

  /** `d.get(key)` */
  function Lookup(members: seq<(string, Json)>, key: string): Option<Json> {
    match IndexOfKey(members, key)
    case None => None
    case Some(i) => Some(members[i].1)
  }

  /** Looking a key up in a member list, one member at a time. */
  lemma LookupCons(k: string, v: Json, rest: seq<(string, Json)>, key: string)
    ensures Lookup([(k, v)] + rest, key) == if k == key then Some(v) else Lookup(rest, key)
  {
    assert ([(k, v)] + rest)[1..] == rest;
  }

  /** `d[key] = v`: an existing key keeps its position, a new key goes last. */
  function SetMember(members: seq<(string, Json)>, key: string, v: Json): (r: seq<(string, Json)>)
    ensures Lookup(r, key) == Some(v)
    ensures forall k :: k != key ==> Lookup(r, k) == Lookup(members, k)
    ensures Lookup(members, key).Some? ==> |r| == |members|
    ensures Lookup(members, key).Some? ==> forall i :: 0 <= i < |r| ==> r[i].0 == members[i].0
    ensures Lookup(members, key).Some? ==>
              forall i :: 0 <= i < |r| && members[i].0 != key ==> r[i] == members[i]
    ensures Lookup(members, key).None? ==> r == members + [(key, v)]
  {
    match IndexOfKey(members, key)
    case Some(i) =>
      var r := members[i := (key, v)];
      assert IndexOfKey(r, key) == Some(i) by { IndexOfKeyFirst(r, key, i); }
      forall k | k != key ensures Lookup(r, k) == Lookup(members, k) {
        SetKeepsOtherLookups(members, i, key, v, k);
      }
      r
    case None =>
      var r := members + [(key, v)];
      assert IndexOfKey(r, key) == Some(|members|) by { IndexOfKeyFirst(r, key, |members|); }
      forall k | k != key ensures Lookup(r, k) == Lookup(members, k) {
        AppendKeepsOtherLookups(members, key, v, k);
      }
      r
  }

  /** `del d[key]`; with duplicate keys (never produced by Python) every one goes. */
  function RemoveMember(members: seq<(string, Json)>, key: string): (r: seq<(string, Json)>)
    ensures Lookup(r, key).None?
    ensures forall i :: 0 <= i < |r| ==> r[i] in members && r[i].0 != key
    ensures forall p :: p in members && p.0 != key ==> p in r
  {
    if members == [] then []
    else
      var rest := RemoveMember(members[1..], key);
      if members[0].0 == key then rest else [members[0]] + rest
  }

  /** Removing `key` does not change what any other key looks up. */
  lemma {:induction false} RemoveKeepsOtherLookups(members: seq<(string, Json)>, key: string, k: string)
    requires k != key
    ensures Lookup(RemoveMember(members, key), k) == Lookup(members, k)
    decreases |members|
  {
    if members != [] {
      var rest := RemoveMember(members[1..], key);
      RemoveKeepsOtherLookups(members[1..], key, k);
      assert members == [members[0]] + members[1..];
      LookupCons(members[0].0, members[0].1, members[1..], k);
      if members[0].0 != key {
        LookupCons(members[0].0, members[0].1, rest, k);
      }
    }
  }

  lemma {:induction false} IndexOfKeyFirst(members: seq<(string, Json)>, key: string, i: nat)
    requires i < |members| && members[i].0 == key
    requires forall j :: 0 <= j < i ==> members[j].0 != key
    ensures IndexOfKey(members, key) == Some(i)
  {
    if i > 0 {
      IndexOfKeyFirst(members[1..], key, i - 1);
    }
  }

  lemma SetKeepsOtherLookups(members: seq<(string, Json)>, i: nat, key: string, v: Json, k: string)
    requires i < |members| && members[i].0 == key && k != key
    ensures Lookup(members[i := (key, v)], k) == Lookup(members, k)
  {
    var r := members[i := (key, v)];
    match IndexOfKey(members, k)
    case None =>
    case Some(j) => IndexOfKeyFirst(r, k, j);
  }

  lemma AppendKeepsOtherLookups(members: seq<(string, Json)>, key: string, v: Json, k: string)
    requires k != key
    ensures Lookup(members + [(key, v)], k) == Lookup(members, k)
  {
    var r := members + [(key, v)];
    match IndexOfKey(members, k)
    case None =>
    case Some(j) => IndexOfKeyFirst(r, k, j);
  }
}
