/**
 * The guardrails stage (agents/guardrails_agent.py): checks the draft with
 * the output policy and chooses the final response and the escalate flag.
 */
module GuardrailsStage {
  import opened Common
  import opened Config
  import opened Guardrails
  import opened PipelineState

  const SafeFallback: string :=
    "I'm unable to provide a response for this request. Please contact support or try rephrasing."
  const NoConfidentAnswer: string := "I don't have a confident answer for this. I've escalated your request to the team."
  const EscalatedMessage: string := "Your request has been escalated for further assistance."

  /** The if/elif table choosing the final response from the policy result. */
  function FinalChoice(result: GuardrailsResult, draft: string): (final: string)
    ensures !result.safe ==> final == SafeFallback
    ensures result.safe && result.escalate && result.noAnswer ==> final == NoConfidentAnswer
    ensures result.safe && result.escalate && !result.noAnswer ==> final == EscalatedMessage
    ensures result.safe && !result.escalate ==> final == draft
  {
    if !result.safe then SafeFallback
    else if result.escalate && result.noAnswer then NoConfidentAnswer
    else if result.escalate then EscalatedMessage
    else draft
  }

  function DraftOf(s: State): string
  {
    if s.draftResponse.Some? then s.draftResponse.value else ""
  }

  /** `guardrails_agent`. */
  function GuardrailsAgent(s: State, sv: Services): (r: StageResult)
    ensures Escalated(s) ==>
              r == StageResult(Empty.(guardrailsResult := Some(Preempted(Some(false), "input_guardrails")),
                                      finalResponse := Some(SafeFallback)), [])
    ensures !Escalated(s) && DraftOf(s) == "" ==>
              r == StageResult(Empty.(guardrailsResult := Some(Preempted(None, "no_draft")),
                                      finalResponse := Some(SafeFallback)), [])
  {
    if Escalated(s) then
      StageResult(Empty.(guardrailsResult := Some(Preempted(Some(false), "input_guardrails")),
                         finalResponse := Some(SafeFallback)), [])
    else
      var draft := DraftOf(s);
      if draft == "" then
        StageResult(Empty.(guardrailsResult := Some(Preempted(None, "no_draft")), finalResponse := Some(SafeFallback)), [])
      else
        var result := sv.policy(draft, "output");
        StageResult(Empty.(guardrailsResult := Some(Checked(result)), escalate := Some(!result.safe || result.escalate),
                           finalResponse := Some(FinalChoice(result, draft))),
                    [PolicyCall(draft, "output")])
  }

  /**
   * With a draft: one output policy call on the draft, its result stored
   * verbatim, escalation exactly when the draft is unsafe or the policy says
   * so, and the draft itself as the final response exactly in the case that
   * does not escalate (the other cases answer with one of the three fixed
   * messages).
   */
  lemma {:induction false} GuardrailsDecision(s: State, sv: Services)
    requires !Escalated(s) && DraftOf(s) != ""
    ensures var r := GuardrailsAgent(s, sv);
            var result := sv.policy(DraftOf(s), "output");
            var final := r.update.finalResponse.value;
            && r.calls == [PolicyCall(DraftOf(s), "output")]
            && r.update == Empty.(guardrailsResult := Some(Checked(result)), escalate := r.update.escalate,
                                  finalResponse := Some(final))
            && (r.update.escalate == Some(true) <==> !result.safe || result.escalate)
            && r.update.escalate.Some?
            && (r.update.escalate == Some(false) ==> final == DraftOf(s))
            && (r.update.escalate == Some(true) ==> final in {SafeFallback, NoConfidentAnswer, EscalatedMessage})
  {
  }

  /**
   * With the policy tool of the guardrails layer, which never sets escalate
   * on an output check, the stage escalates exactly when the draft is found
   * unsafe, and then answers with the fallback; otherwise the draft goes out
   * unchanged.
   */
  lemma {:induction false} OutputEscalatesOnlyWhenUnsafe(s: State, sv: Services, apiKey: Option<string>,
                                                        settings: Option<Settings>, service: ModerationService,
                                                        search: RegexSearch)
    requires forall t, c :: sv.policy(t, c) == PolicyCheck(t, c, None, apiKey, settings, service, search)
    requires !Escalated(s) && DraftOf(s) != ""
    ensures var r := GuardrailsAgent(s, sv);
            var result := sv.policy(DraftOf(s), "output");
            && r.update.escalate == Some(!result.safe)
            && r.update.finalResponse == Some(if result.safe then DraftOf(s) else SafeFallback)
  {
    var result := sv.policy(DraftOf(s), "output");
    assert !result.escalate;
  }
}
