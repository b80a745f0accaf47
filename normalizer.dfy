/**
 * The response normaliser: how a successful reply's loosely typed `response`
 * payload becomes the text of the agent's message and its escalation flag.
 */
module Normalizer {
  import opened Js

  /**
   * The `response` field of a successful reply. `Absent` stands for a missing
   * or `null` field, and for any other value that is neither a string nor an
   * object, since all of them take the same path. `members` is the object's
   * serialised member list, in its own property order, as `JSON.stringify`
   * writes it; its relation to the other fields is not modelled.
   */
  datatype Payload =
    | Str(s: string)
    | Obj(agentResponse: Option<string>, message: Option<string>, response: Option<string>,
          escalationSuggested: Option<bool>, members: string)
    | Absent

  /** What a payload is displayed as. */
  datatype Normalized = Normalized(text: string, escalationSuggested: bool)

  /** `JSON.stringify` of an object: its member list between braces. */
  function Serialize(p: Payload): string
    requires p.Obj?
  {
    "{" + p.members + "}"
  }

  /** The candidate text fields of an object, in the order they are tried. */
  function Candidates(p: Payload): seq<Option<string>>
    requires p.Obj?
  {
    [p.agentResponse, p.message, p.response]
  }

  /**
   * The index of the first truthy candidate, or `|cands|` when none is:
   * what a chain `c0 || c1 || ... || fallback` picks.
   */
  function FirstTruthy(cands: seq<Option<string>>): (k: nat)
    ensures k <= |cands|
    ensures forall j :: 0 <= j < k ==> !Truthy(cands[j])
    ensures k < |cands| ==> Truthy(cands[k])
  {
    if cands == [] then 0
    else if Truthy(cands[0]) then 0
    else 1 + FirstTruthy(cands[1..])
  }

  /**
   * The normalisation of a successful reply's payload. An object always
   * yields non-empty text, and only an object can suggest escalation.
   */
  function Normalize(p: Payload): (r: Normalized)
    ensures r.escalationSuggested ==> p.Obj? && p.escalationSuggested == Some(true)
    ensures p.Obj? ==> r.text != ""
  {
    match p
    case Str(s) => Normalized(s, false)
    case Obj(agentResponse, message, response, escalation, _) =>
      Normalized(Or(agentResponse, Or(message, Or(response, Serialize(p)))), OrFalse(escalation))
    case Absent => Normalized("", false)
  }

  /** A string payload is shown verbatim, without escalation. */
  lemma NormalizeString(s: string)
    ensures Normalize(Str(s)) == Normalized(s, false)
  {
  }

  /** A missing payload is shown as empty text, without escalation. */
  lemma NormalizeAbsent()
    ensures Normalize(Absent) == Normalized("", false)
  {
  }

  /**
   * An object is shown as its first non-empty candidate field, in the order
   * `agent_response`, `message`, `response`, and as its serialisation when
   * none is; escalation is suggested exactly when `escalation_suggested` is true.
   */
  lemma {:induction false} NormalizeObject(p: Payload)
    requires p.Obj?
    ensures var cands, k := Candidates(p), FirstTruthy(Candidates(p));
      Normalize(p).text == if k < |cands| then cands[k].value else Serialize(p)
    ensures Normalize(p).escalationSuggested <==> p.escalationSuggested == Some(true)
  {
    var cands := Candidates(p);
    var k := FirstTruthy(cands);
    if k == 0 {
    } else if k == 1 {
      assert !Truthy(cands[0]);
    } else if k == 2 {
      assert !Truthy(cands[0]) && !Truthy(cands[1]);
    } else {
      assert !Truthy(cands[0]) && !Truthy(cands[1]) && !Truthy(cands[2]);
    }
  }

  /** Worked examples: a string, objects with a candidate field, and one with none. */
  lemma NormalizeExamples()
    ensures Normalize(Str("hello")) == Normalized("hello", false)
    ensures Normalize(Obj(Some("hi"), None, None, Some(true), "\"agent_response\":\"hi\",\"escalation_suggested\":true"))
         == Normalized("hi", true)
    ensures Normalize(Obj(None, Some("fallback text"), None, None, "\"message\":\"fallback text\""))
         == Normalized("fallback text", false)
    ensures Normalize(Obj(None, None, None, None, "\"unknown\":\"x\"")) == Normalized("{\"unknown\":\"x\"}", false)
  {
  }
}
