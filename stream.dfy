/**
 * The stream event schema (api/schemas/stream.py): the JSON objects the
 * pipeline sends to the UI, and the bounding of their payloads.
 */
module StreamEvents {
  import opened Common
  import opened JsonValue
  import opened Observability

  /** `_sanitize_payload(obj, max_str, max_list)`; dicts keep 50 entries whatever `max_list` is. */
  function Sanitize(v: Value, maxStr: nat, maxList: nat): (r: Value)
    ensures v.Str? && |v.s| <= maxStr ==> r == v
    ensures v.List? ==> r.List? && |r.items| == (if |v.items| > maxList then maxList + 1 else |v.items|)
    ensures v.Dict? ==> r.Dict? && |r.entries| == Min(|v.entries|, MaxEntries)
    decreases v
  {
    match v
    case Null => Null
    case Bool(_) => v
    case Int(_) => v
    case Float(_) => v
    case Str(s) => if |s| > maxStr then Str(s[..maxStr] + "...") else v
    case List(items) =>
      var n := Min(|items|, maxList);
      var head := seq(n, i requires 0 <= i < n => Sanitize(items[i], maxStr, maxList));
      List(if |items| > maxList then head + [Marker(|items| - maxList)] else head)
    case Dict(entries) =>
      var n := Min(|entries|, MaxEntries);
      Dict(seq(n, i requires 0 <= i < n => (entries[i].0, Sanitize(entries[i].1, maxStr, maxList))))
    case Other(text) => Str(if text.Some? then Take(text.value, MaxOther) else Unserializable)
  }

  /** With the default bounds the stream sanitiser and the tool-event sanitiser agree on every value. */
  lemma {:induction false} SanitizeDefaultAgrees(v: Value)
    ensures Sanitize(v, MaxStr, MaxList) == SafeValue(v)
    decreases v
  {
    match v
    case List(items) =>
      forall i | 0 <= i < |items|
        ensures Sanitize(items[i], MaxStr, MaxList) == SafeValue(items[i])
      {
        SanitizeDefaultAgrees(items[i]);
      }
      assert Sanitize(v, MaxStr, MaxList).items == SafeValue(v).items;
    case Dict(entries) =>
      forall i | 0 <= i < |entries|
        ensures Sanitize(entries[i].1, MaxStr, MaxList) == SafeValue(entries[i].1)
      {
        SanitizeDefaultAgrees(entries[i].1);
      }
      assert Sanitize(v, MaxStr, MaxList).entries == SafeValue(v).entries;
    case _ =>
  }

  /** A dict keeps its first 50 keys in order whatever the bounds. */
  lemma {:induction false} SanitizeKeepsKeys(entries: seq<(string, Value)>, maxStr: nat, maxList: nat)
    ensures var r := Sanitize(Dict(entries), maxStr, maxList);
            forall i :: 0 <= i < |r.entries| ==> r.entries[i].0 == entries[i].0
  {
  }

  /** Strings over the bound are cut to `max_str` characters plus "..."; lists over the bound end in a count marker. */
  lemma {:induction false} SanitizeCuts(v: Value, maxStr: nat, maxList: nat)
    ensures v.Str? && |v.s| > maxStr ==> Sanitize(v, maxStr, maxList) == Str(v.s[..maxStr] + "...")
    ensures v.List? && |v.items| > maxList ==>
              Sanitize(v, maxStr, maxList).items[maxList] == Marker(|v.items| - maxList)
    ensures v.List? ==> forall i :: 0 <= i < Min(|v.items|, maxList) ==>
              Sanitize(v, maxStr, maxList).items[i] == Sanitize(v.items[i], maxStr, maxList)
  {
  }

  /** The keys of an entry list, in order. */
  function Keys(entries: seq<(string, Value)>): (ks: seq<string>)
    ensures |ks| == |entries|
    ensures forall i :: 0 <= i < |entries| ==> ks[i] == entries[i].0
  {
    seq(|entries|, i requires 0 <= i < |entries| => entries[i].0)
  }

  /** `agent_step_event`: which stage ran, and its state update, bounded. */
  function AgentStepEvent(agentId: string, payload: seq<(string, Value)>): (ev: Value)
    ensures ev.Dict? && Keys(ev.entries) == ["type", "agent_id", "step", "payload"]
  {
    Dict([("type", Str("agent_step")), ("agent_id", Str(agentId)), ("step", Str(agentId)),
          ("payload", Sanitize(Dict(payload), MaxStr, MaxList))])
  }

  /** `tool_call_event`: the tool event, unbounded, both as the only tool call and as the payload. */
  function ToolCallStreamEvent(payload: seq<(string, Value)>): (ev: Value)
    ensures ev.Dict? && Keys(ev.entries) == ["type", "tool_calls", "payload"]
  {
    Dict([("type", Str("tool_call")), ("tool_calls", List([Dict(payload)])), ("payload", Dict(payload))])
  }

  /** `escalation_event`. */
  function EscalationEvent(payload: seq<(string, Value)>): (ev: Value)
    ensures ev.Dict? && Keys(ev.entries) == ["type", "payload"]
  {
    Dict([("type", Str("escalation")), ("payload", Sanitize(Dict(payload), MaxStr, MaxList))])
  }

  function OrNull(v: Option<Value>): Value
  {
    if v.Some? then v.value else Null
  }

  /** The five fields of the summary the `done` event carries. */
  function DoneSummary(finalResponse: string, escalate: bool, recommendedActions: seq<Value>,
                       intentResult: Option<Value>, guardrailsResult: Option<Value>): seq<(string, Value)>
  {
    [("final_response", Str(finalResponse)), ("escalate", Bool(escalate)),
     ("recommended_actions", List(recommendedActions)), ("intent_result", OrNull(intentResult)),
     ("guardrails_result", OrNull(guardrailsResult))]
  }

  /** `done_event`: the bounded summary. */
  function DoneEvent(finalResponse: string, escalate: bool, recommendedActions: seq<Value>,
                     intentResult: Option<Value>, guardrailsResult: Option<Value>): (ev: Value)
    ensures ev.Dict? && Keys(ev.entries) == ["type", "payload"]
  {
    Dict([("type", Str("done")),
          ("payload", Sanitize(Dict(DoneSummary(finalResponse, escalate, recommendedActions, intentResult, guardrailsResult)),
                               MaxStr, MaxList))])
  }

  /** The done payload has exactly the five summary keys, and the escalate flag comes through unchanged. */
  lemma {:induction false} DonePayloadKeys(finalResponse: string, escalate: bool, recommendedActions: seq<Value>,
                                          intentResult: Option<Value>, guardrailsResult: Option<Value>)
    ensures var p := DoneEvent(finalResponse, escalate, recommendedActions, intentResult, guardrailsResult).entries[1].1;
            && p.Dict?
            && Keys(p.entries) == ["final_response", "escalate", "recommended_actions", "intent_result", "guardrails_result"]
            && p.entries[1].1 == Bool(escalate)
  {
    var summary := DoneSummary(finalResponse, escalate, recommendedActions, intentResult, guardrailsResult);
    SanitizeKeepsKeys(summary, MaxStr, MaxList);
  }

  /** `error_event`: `{"message": message, **details}`, unbounded. */
  function ErrorEvent(message: string, details: Option<seq<(string, Value)>>): (ev: Value)
    ensures ev.Dict? && Keys(ev.entries) == ["type", "payload"]
  {
    Dict([("type", Str("error")),
          ("payload", Dict(Update([("message", Str(message))], if details.Some? then details.value else [])))])
  }

  /** The error payload's message is the last "message" in the details, else the message given; other keys come from the details. */
  lemma {:induction false} ErrorEventMessage(message: string, details: Option<seq<(string, Value)>>, key: string)
    ensures var p := ErrorEvent(message, details).entries[1].1;
            var more := if details.Some? then details.value else [];
            && p.Dict?
            && Lookup(p.entries, key) ==
               (if Lookup(Reversed(more), key).Some? then Lookup(Reversed(more), key)
                else if key == "message" then Some(Str(message)) else None)
  {
    var more := if details.Some? then details.value else [];
    UpdateLookup([("message", Str(message))], more, key);
  }
}
