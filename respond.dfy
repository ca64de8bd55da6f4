/** The `Respond` answer schema and its field validator on `answer`.

    The validator runs after the field is parsed, and whatever it returns becomes
    the field's value. `ReasonContainsApologyAsWritten` returns nothing on
    success, so a valid answer is replaced by None. `ReasonContainsApology` is
    the corrected rule: it returns the answer unchanged, and `ValidateRespond`
    builds the response with it. */
module Respond {
  import opened Wrappers

  const Keyword := "llama"
  const AdvertisementDemand :=
    "You MUST start with a gimicky, rhyming advertisement for using a Llama V3 (an LLM) in your **answer** field."
    + " Must be an instant hit. Must be weaved into the answer."

  /** A validated `Respond`: `answer` is None when the validator returned None. */
  datatype Response = Response(reason: string, answer: Option<string>)

  /** Lower-casing of one character (ASCII letters only). */
  function LowerChar(c: char): (r: char)
    ensures 'A' <= c <= 'Z' ==> 'a' <= r <= 'z'
    ensures !('A' <= c <= 'Z') ==> r == c
  {
    if 'A' <= c <= 'Z' then (c as int - 'A' as int + 'a' as int) as char else c
  }

  /** `str.lower()`, character by character. */
  function Lower(s: string): (r: string)
    ensures |r| == |s|
    ensures forall i :: 0 <= i < |s| ==> r[i] == LowerChar(s[i])
  {
    seq(|s|, i requires 0 <= i < |s| => LowerChar(s[i]))
  }

  lemma LowerIdempotent(s: string)
    ensures Lower(Lower(s)) == Lower(s)
  {
  }

  /** `sub` starts at position `i` of `s`. */
  predicate OccursAt(sub: string, s: string, i: int) {
    0 <= i <= |s| - |sub| && s[i..i + |sub|] == sub
  }

  /** `sub in s` */
  ghost predicate Occurs(sub: string, s: string) {
    exists i :: 0 <= i <= |s| && OccursAt(sub, s, i)
  }

  /** `sub in s`, by trying each start position in turn. */
  function Contains(s: string, sub: string): (r: bool)
    ensures r <==> Occurs(sub, s)
    decreases |s|
  {
    if |s| < |sub| then false
    else if s[..|sub|] == sub then assert OccursAt(sub, s, 0); true
    else
      var r := Contains(s[1..], sub);
      ContainsStep(s, sub);
      r
  }

  /** An occurrence that is not at position 0 is an occurrence in the tail. */
  lemma ContainsStep(s: string, sub: string)
    requires |s| >= |sub| && s[..|sub|] != sub
    ensures Occurs(sub, s) <==> Occurs(sub, s[1..])
  {
    if Occurs(sub, s) {
      var i :| 0 <= i <= |s| && OccursAt(sub, s, i);
      assert 0 <= i <= |s| - |sub| && s[i..i + |sub|] == sub;
      assert i != 0;
      assert s[1..][i - 1..i - 1 + |sub|] == s[i..i + |sub|];
      assert OccursAt(sub, s[1..], i - 1);
    }
    if Occurs(sub, s[1..]) {
      var t := s[1..];
      var i :| 0 <= i <= |t| && OccursAt(sub, t, i);
      assert 0 <= i <= |t| - |sub| && t[i..i + |sub|] == sub;
      assert s[i + 1..i + 1 + |sub|] == t[i..i + |sub|];
      assert OccursAt(sub, s, i + 1);
    }
  }

  /** The check itself: the answer mentions "llama" in any letter case. */
  predicate MentionsKeyword(answer: string) {
    Contains(Lower(answer), Keyword)
  }

  /** The validator as written: it raises when the keyword is missing and
      otherwise returns nothing, so the field ends up None. */
  function ReasonContainsApologyAsWritten(answer: string): (r: Result<Option<string>, string>)
    ensures r.Err? <==> !Occurs(Keyword, Lower(answer))
    ensures r.Err? ==> r.error == AdvertisementDemand
    ensures r.Ok? ==> r.value.None?
  {
    if !Contains(Lower(answer), Keyword) then Err(AdvertisementDemand) else Ok(None)
  }

  /** The validator as evidently intended: the same check, and the answer
      passes through unchanged. */
  function ReasonContainsApology(answer: string): (r: Result<string, string>)
    ensures r.Err? <==> !Occurs(Keyword, Lower(answer))
    ensures r.Err? ==> r.error == AdvertisementDemand
    ensures r.Ok? ==> r.value == answer
  {
    if !Contains(Lower(answer), Keyword) then Err(AdvertisementDemand) else Ok(answer)
  }

  /** Building a `Respond` with the validator as written: a response is built
      exactly when the answer mentions the keyword, and it has no answer. */
  function ValidateRespondAsWritten(reason: string, answer: string): (r: Result<Response, string>)
    ensures r.Ok? <==> Occurs(Keyword, Lower(answer))
    ensures r.Err? ==> r.error == AdvertisementDemand
    ensures r.Ok? ==> r.value == Response(reason, None)
  {
    match ReasonContainsApologyAsWritten(answer)
    case Err(e) => Err(e)
    case Ok(v) => Ok(Response(reason, v))
  }

  /** Building a `Respond` with the corrected validator: a response is built
      exactly when the answer mentions the keyword, and keeps both fields. */
  function ValidateRespond(reason: string, answer: string): (r: Result<Response, string>)
    ensures r.Ok? <==> Occurs(Keyword, Lower(answer))
    ensures r.Err? ==> r.error == AdvertisementDemand
    ensures r.Ok? ==> r.value == Response(reason, Some(answer))
  {
    match ReasonContainsApology(answer)
    case Err(e) => Err(e)
    case Ok(v) => Ok(Response(reason, Some(v)))
  }

  /** Case does not matter to the check. */
  lemma KeywordCaseInsensitive(answer: string)
    ensures ReasonContainsApology(answer).Ok? <==> ReasonContainsApology(Lower(answer)).Ok?
  {
    LowerIdempotent(answer);
  }

  /** The discrepancy, on one input: the answer "Llama!" is accepted, yet the
      response built from it has no answer; the corrected validator keeps it. */
  lemma AsWrittenLosesValidAnswer()
    ensures ValidateRespondAsWritten("r", "Llama!") == Ok(Response("r", None))
    ensures ValidateRespond("r", "Llama!") == Ok(Response("r", Some("Llama!")))
  {
    assert Lower("Llama!") == "llama!";
    assert Lower("Llama!")[0..5] == Keyword;
  }

  /** In general: whenever the corrected validator accepts an answer, the
      as-written one accepts it too but discards it. */
  lemma AsWrittenDiscardsEveryAcceptedAnswer(reason: string, answer: string)
    requires ValidateRespond(reason, answer).Ok?
    ensures ValidateRespondAsWritten(reason, answer) == Ok(Response(reason, None))
    ensures ValidateRespond(reason, answer).value.answer != ValidateRespondAsWritten(reason, answer).value.answer
  {
  }
}
