/**
 * The intent stage (agents/intent.py): asks the LLM to classify the query
 * and reads intent, urgency and SLA risk out of its JSON reply, falling back
 * to defaults field by field and altogether when the reply is not a JSON
 * object.
 */
module IntentStage {
  import opened Common
  import opened JsonValue
  import opened PipelineState

  const Fence: string := "```"
  const MaxPromptQuery: nat := 500
  const IntentSystem: string :=
    "You are a support classifier. Respond with only a JSON object with keys: intent (string), urgency (low|medium|high), sla_risk (low|medium|high)."

  const IntentHeader: string := "Classify this support query:\n"

  function IntentPrompt(q: string): string
  {
    IntentHeader + Take(q, MaxPromptQuery)
  }

  /** The classifier sees the first 500 characters of the query and nothing else of it. */
  lemma {:induction false} IntentPromptPrefix(q1: string, q2: string)
    ensures IntentPrompt(q1) == IntentPrompt(q2) <==> Take(q1, MaxPromptQuery) == Take(q2, MaxPromptQuery)
  {
    if IntentPrompt(q1) == IntentPrompt(q2) {
      assert IntentPrompt(q1)[|IntentHeader|..] == Take(q1, MaxPromptQuery);
      assert IntentPrompt(q2)[|IntentHeader|..] == Take(q2, MaxPromptQuery);
    }
  }

  /**
   * A reply starting with a fence becomes the text up to the next fence
   * (`raw.split("```")[1]`), minus a leading "json".
   */
  function StripFence(raw: string): (body: string)
    ensures !StartsWith(raw, Fence) ==> body == raw
  {
    if StartsWith(raw, Fence) then
      var rest := raw[|Fence|..];
      var inner := match FindSub(rest, Fence) case Some(i) => rest[..i] case None => rest;
      if StartsWith(inner, "json") then inner[4..] else inner
    else raw
  }

  /** A fenced JSON block is read back as its body, whatever follows the closing fence. */
  lemma {:induction false} StripFenceBlock(body: string, rest: string)
    requires '`' !in body
    ensures StripFence("```json" + body + Fence + rest) == body
  {
    var t := "json" + body;
    assert '`' !in t by {
      assert forall i :: 0 <= i < |t| ==> t[i] == if i < 4 then "json"[i] else body[i - 4];
    }
    FindFenceAfter(t, rest);
    var raw := "```json" + body + Fence + rest;
    assert raw == Fence + (t + Fence + rest);
    StripFenceAt(t + Fence + rest, |t|);
    assert (t + Fence + rest)[..|t|] == t;
  }

  /** A fenced reply whose closing fence is at `i` of what follows the opening one. */
  lemma {:induction false} StripFenceAt(after: string, i: nat)
    requires FindSub(after, Fence) == Some(i)
    ensures StripFence(Fence + after) == if StartsWith(after[..i], "json") then after[..i][4..] else after[..i]
  {
    var raw := Fence + after;
    assert raw[..3] == Fence;
    assert raw[|Fence|..] == after;
  }

  /** The first fence in `t + "```" + rest` is the one right after `t` when `t` has no backquote. */
  lemma {:induction false} FindFenceAfter(t: string, rest: string)
    requires '`' !in t
    ensures FindSub(t + Fence + rest, Fence) == Some(|t|)
    decreases |t|
  {
    var s := t + Fence + rest;
    if t == [] {
      assert s[..3] == Fence;
    } else {
      assert s[0] == t[0];
      assert !StartsWith(s, Fence);
      assert s[1..] == t[1..] + Fence + rest;
      FindFenceAfter(t[1..], rest);
    }
  }

  /** `str(obj.get(key, default))`. */
  function Field(entries: seq<(string, Value)>, key: string, default: string, show: Value -> string): (f: string)
    ensures Lookup(entries, key).None? ==> f == default
    ensures Lookup(entries, key) == Some(Str(f)) || Lookup(entries, key).None? || f == show(Lookup(entries, key).value)
  {
    match Lookup(entries, key)
      case None => default
      case Some(Str(x)) => x
      case Some(v) => show(v)
  }

  /** The classification read from a reply: defaults unless the reply decodes to a JSON object. */
  function ParseIntent(raw: string, codec: Codec, show: Value -> string): (r: Intent)
    ensures codec.decode(StripFence(raw)).None? ==> r == DefaultIntent
    ensures codec.decode(StripFence(raw)).Some? && !codec.decode(StripFence(raw)).value.Dict? ==> r == DefaultIntent
  {
    match codec.decode(StripFence(raw))
      case Some(Dict(e)) =>
        Intent(Field(e, "intent", "unknown", show), Field(e, "urgency", "medium", show), Field(e, "sla_risk", "low", show))
      case _ => DefaultIntent
  }

  /** The JSON object an LLM reply is meant to hold. */
  function IntentObject(intent: string, urgency: string, slaRisk: string): Value
  {
    Dict([("intent", Str(intent)), ("urgency", Str(urgency)), ("sla_risk", Str(slaRisk))])
  }

  /** A reply that is the encoded intent object (fenced or not) is read back as that intent. */
  lemma {:induction false} ParseIntentRoundTrip(codec: Codec, show: Value -> string, intent: string, urgency: string,
                                               slaRisk: string, rest: string)
    requires RoundTripsOn(codec, IntentObject(intent, urgency, slaRisk))
    ensures var text := codec.encode(IntentObject(intent, urgency, slaRisk));
            (!StartsWith(text, Fence) ==> ParseIntent(text, codec, show) == Intent(intent, urgency, slaRisk))
            && ('`' !in text ==> ParseIntent("```json" + text + Fence + rest, codec, show) == Intent(intent, urgency, slaRisk))
  {
    var obj := IntentObject(intent, urgency, slaRisk);
    var text := codec.encode(obj);
    assert codec.decode(text) == Some(obj);
    var e := obj.entries;
    assert Lookup(e[2..], "sla_risk") == Some(Str(slaRisk));
    assert Lookup(e[1..], "urgency") == Some(Str(urgency));
    assert Lookup(e[1..], "sla_risk") == Lookup(e[2..], "sla_risk");
    assert Lookup(e, "sla_risk") == Lookup(e[1..], "sla_risk");
    assert Lookup(e, "urgency") == Lookup(e[1..], "urgency");
    if '`' !in text {
      StripFenceBlock(text, rest);
    }
  }

  /** `intent_agent`. */
  function IntentAgent(s: State, sv: Services): (r: StageResult)
    ensures Escalated(s) ==> r == Nothing
    ensures !Escalated(s) && QueryText(s) == "" ==> r == StageResult(Empty.(intentResult := Some(DefaultIntent)), [])
  {
    if Escalated(s) then Nothing
    else
      var q := QueryText(s);
      if q == "" then StageResult(Empty.(intentResult := Some(DefaultIntent)), [])
      else
        var prompt := IntentPrompt(q);
        var raw := sv.intentLlm(prompt, IntentSystem);
        StageResult(Empty.(intentResult := Some(ParseIntent(raw, sv.codec, sv.show))), [LlmCall(prompt, IntentSystem)])
  }

  /**
   * A non-escalated run with a query makes exactly one LLM call and writes
   * only `intent_result`; only the first 500 characters of the query reach
   * the prompt, so queries agreeing on them are classified alike.
   */
  lemma {:induction false} IntentUsesQueryPrefix(s1: State, s2: State, sv: Services)
    requires !Escalated(s1) && !Escalated(s2)
    requires QueryText(s1) != "" && QueryText(s2) != ""
    requires Take(QueryText(s1), MaxPromptQuery) == Take(QueryText(s2), MaxPromptQuery)
    ensures IntentAgent(s1, sv) == IntentAgent(s2, sv)
    ensures |IntentAgent(s1, sv).calls| == 1 && IsLlmCall(IntentAgent(s1, sv).calls[0])
    ensures IntentAgent(s1, sv).update == Empty.(intentResult := IntentAgent(s1, sv).update.intentResult)
  {
  }
}
