/**
 * The QA agent's assertion engine (agents/qa_validation.py): how a response
 * is read off the graph's final state or the HTTP API's reply, the mandatory
 * assertions run against each test case, the pass/fail verdict of one test
 * and the summary over a whole test file.
 *
 * Invoking the agent is an oracle: the i-th invocation either yields a
 * response or raises, with the exception's message.
 */
module QaValidation {
  import opened Common
  import opened PipelineState
  import AgentGraph

  // ---------------------------------------------------------------------------
  // Reading a response

  /** The phrases that mark an answer as "I cannot answer this". */
  const NoAnswerPhrases: seq<string> := [
    "i don't have information",
    "i don't know",
    "outside my knowledge base",
    "not in my knowledge base",
    "i can't help",
    "outside our scope",
    "not related to"
  ]

  /** Whether `s` contains one of `phrases`. */
  predicate AnyPhrase(s: string, phrases: seq<string>)
  {
    phrases != [] && (Contains(s, phrases[0]) || AnyPhrase(s, phrases[1..]))
  }

  lemma {:induction false} AnyPhraseSpec(s: string, phrases: seq<string>)
    ensures AnyPhrase(s, phrases) <==> exists i :: 0 <= i < |phrases| && Contains(s, phrases[i])
  {
    if phrases != [] {
      AnyPhraseSpec(s, phrases[1..]);
      if AnyPhrase(s, phrases[1..]) {
        var j :| 0 <= j < |phrases| - 1 && Contains(s, phrases[1..][j]);
        assert phrases[1..][j] == phrases[j + 1];
      }
      if exists i :: 0 <= i < |phrases| && Contains(s, phrases[i]) {
        var i :| 0 <= i < |phrases| && Contains(s, phrases[i]);
        if i != 0 {
          assert phrases[1..][i - 1] == phrases[i];
        }
      }
    }
  }

  /** `_is_no_answer_response`. */
  predicate IsNoAnswer(response: string)
  {
    AnyPhrase(Lower(response), NoAnswerPhrases)
  }

  /** A response is a no-answer exactly when, lower-cased, it contains one of the phrases. */
  lemma IsNoAnswerSpec(response: string)
    ensures IsNoAnswer(response) <==> exists i :: 0 <= i < |NoAnswerPhrases| && Contains(Lower(response), NoAnswerPhrases[i])
  {
    AnyPhraseSpec(Lower(response), NoAnswerPhrases);
  }

  /** A string occurs in any text that has it somewhere in the middle. */
  lemma {:induction false} ContainsInfix(pre: string, p: string, post: string)
    ensures Contains(pre + p + post, p)
    decreases |pre|
  {
    if pre == [] {
      assert (pre + p + post)[..|p|] == p;
    } else {
      assert (pre + p + post)[1..] == pre[1..] + p + post;
      ContainsInfix(pre[1..], p, post);
    }
  }

  /** Lower-casing distributes over concatenation. */
  lemma LowerConcat(a: string, b: string)
    ensures Lower(a + b) == Lower(a) + Lower(b)
  {
  }

  /** The phrases are already lower case. */
  lemma PhrasesLower(i: nat)
    requires i < |NoAnswerPhrases|
    ensures Lower(NoAnswerPhrases[i]) == NoAnswerPhrases[i]
  {
    var p := NoAnswerPhrases[i];
    if i == 0 { LowerUnchanged(p); }
    else if i == 1 { LowerUnchanged(p); }
    else if i == 2 { LowerUnchanged(p); }
    else if i == 3 { LowerUnchanged(p); }
    else if i == 4 { LowerUnchanged(p); }
    else if i == 5 { LowerUnchanged(p); }
    else { LowerUnchanged(p); }
  }

  /** Text without capital letters is its own lower case. */
  lemma LowerUnchanged(s: string)
    requires forall k :: 0 <= k < |s| ==> !('A' <= s[k] <= 'Z')
    ensures Lower(s) == s
  {
  }

  /** A reply that quotes a phrase, in whatever case around it, is a no-answer. */
  lemma NoAnswerWherever(pre: string, i: nat, post: string)
    requires i < |NoAnswerPhrases|
    ensures IsNoAnswer(pre + NoAnswerPhrases[i] + post)
  {
    var p := NoAnswerPhrases[i];
    PhrasesLower(i);
    LowerConcat(pre + p, post);
    LowerConcat(pre, p);
    ContainsInfix(Lower(pre), p, Lower(post));
    IsNoAnswerSpec(pre + p + post);
  }

  /** What a reply did, and what a test case expects: the test file may name anything. */
  datatype Behavior = Answer | NoAnswer | Escalate | Other(name: string)

  /** The behaviour's name in the test file and the report. */
  function BehaviorName(b: Behavior): string
  {
    match b
    case Answer => "answer"
    case NoAnswer => "no_answer"
    case Escalate => "escalate"
    case Other(name) => name
  }

  /** The behaviour a test file's `expected_behavior` names. */
  function ParseBehavior(name: string): (b: Behavior)
  {
    if name == "answer" then Answer
    else if name == "no_answer" then NoAnswer
    else if name == "escalate" then Escalate
    else Other(name)
  }

  /** Reading a name gives back the name, so comparing behaviours is comparing their names. */
  lemma ParseBehaviorName(name: string, action: Behavior)
    requires !action.Other?
    ensures BehaviorName(ParseBehavior(name)) == name
    ensures action == ParseBehavior(name) <==> BehaviorName(action) == name
  {
  }

  /**
   * The final action of a reply: escalate when the reply escalates, else
   * no-answer when it is empty or a no-answer, else answer.
   */
  function FinalAction(escalate: bool, finalResponse: string): (action: Behavior)
    ensures !action.Other?
    ensures action == Escalate <==> escalate
    ensures action == Answer <==> !escalate && finalResponse != "" && !IsNoAnswer(finalResponse)
  {
    if escalate then Escalate
    else if finalResponse == "" || IsNoAnswer(finalResponse) then NoAnswer
    else Answer
  }

  /** The stages the QA agent can see in the final state. */
  datatype Agent =
    | IngestionAgent | IntentAgent | RagAgent | MemoryAgent | ReasoningAgent | SynthesisAgent | GuardrailsAgent

  /** What the QA agent records about one reply. */
  datatype AgentResponse = AgentResponse(
    finalAnswer: string,
    finalAction: Behavior,
    ragDocsUsed: nat,
    memoryUsed: bool,
    guardrailsTriggered: bool,
    agentsRan: seq<Agent>)

  /** `state.get(key, "")` for a string key. */
  function OrEmpty(v: Option<string>): string
  {
    if v.Some? then v.value else ""
  }

  /** Whether `retrieval_result` is a non-empty list. */
  predicate Retrieved(s: State)
  {
    s.retrievalResult.Some? && s.retrievalResult.value != []
  }

  /** The stages whose output key is truthy in the final state, in graph order. */
  function AgentsRan(s: State): seq<Agent>
  {
    (if Truthy(s.normalizedQuery) then [IngestionAgent] else [])
    + (if s.intentResult.Some? then [IntentAgent] else [])
    + (if Retrieved(s) then [RagAgent] else [])
    + (if s.memoryResult.Some? then [MemoryAgent] else [])
    + (if Truthy(s.reasoningResult) then [ReasoningAgent] else [])
    + (if Truthy(s.draftResponse) then [SynthesisAgent] else [])
    + (if s.guardrailsResult.Some? then [GuardrailsAgent] else [])
  }

  /** The stages the planning rule asks for are listed exactly when their outputs are present. */
  lemma AgentsRanSpec(s: State)
    ensures IntentAgent in AgentsRan(s) <==> s.intentResult.Some?
    ensures RagAgent in AgentsRan(s) <==> Retrieved(s)
  {
  }

  /** Whether the memory result holds any working, episodic or semantic entry. */
  predicate MemoryUsed(s: State)
  {
    s.memoryResult.Some?
    && (s.memoryResult.value.working != [] || s.memoryResult.value.episodic != [] || s.memoryResult.value.semantic != [])
  }

  /** The reply read off the graph's final state. */
  function FromGraphState(s: State): (r: AgentResponse)
    ensures r.finalAnswer == OrEmpty(s.finalResponse)
    ensures r.finalAction == FinalAction(Escalated(s), r.finalAnswer)
    ensures r.ragDocsUsed == (if s.retrievalResult.Some? then |s.retrievalResult.value| else 0)
    ensures r.ragDocsUsed > 0 <==> Retrieved(s)
    ensures r.memoryUsed <==> MemoryUsed(s)
    ensures r.guardrailsTriggered <==> s.guardrailsResult.Some?
    ensures r.agentsRan == AgentsRan(s)
  {
    var answer := OrEmpty(s.finalResponse);
    var docs := if s.retrievalResult.Some? then s.retrievalResult.value else [];
    AgentResponse(answer, FinalAction(s.escalate == Some(true), answer), |docs|, MemoryUsed(s),
                  s.guardrailsResult.Some?, AgentsRan(s))
  }

  /** The fields of the HTTP API's JSON reply the QA agent reads. */
  datatype ApiReply = ApiReply(finalResponse: Option<string>, escalate: Option<bool>, guardrailsResult: bool)

  /** The reply read off the HTTP API: retrieval, memory and stages are unknown there. */
  function FromApiReply(data: ApiReply): (r: AgentResponse)
    ensures r.finalAction == FinalAction(data.escalate == Some(true), OrEmpty(data.finalResponse))
    ensures r.ragDocsUsed == 0 && !r.memoryUsed && r.agentsRan == []
    ensures r.guardrailsTriggered == data.guardrailsResult
  {
    var answer := OrEmpty(data.finalResponse);
    AgentResponse(answer, FinalAction(data.escalate == Some(true), answer), 0, false, data.guardrailsResult, [])
  }

  /** Both ways of invoking the agent decide the final action by the same rule. */
  lemma BothPathsAgree(s: State)
    ensures FromGraphState(s).finalAction
         == FromApiReply(ApiReply(s.finalResponse, s.escalate, s.guardrailsResult.Some?)).finalAction
  {
  }

  /**
   * On a full graph run the reply is never empty, so a no-answer verdict
   * always comes from a no-answer phrase, and the verdict is escalate exactly
   * when the run took the escalation terminal.
   */
  lemma {:induction false} GraphRunAction(query: string, sessionId: Option<string>, sv: Services)
    ensures var run := AgentGraph.RunGraph(query, sessionId, sv);
            var r := FromGraphState(run.state);
            && (r.finalAction == NoAnswer <==> !Escalated(run.state) && IsNoAnswer(r.finalAnswer))
            && (r.finalAction == Escalate <==> run.steps[|run.steps| - 1] == [AgentGraph.EscalateNode])
  {
    AgentGraph.RunEndsAnswered(query, sessionId, sv);
  }

  // ---------------------------------------------------------------------------
  // Assertions

  /** A test case of the QA test file. */
  datatype TestCase = TestCase(
    id: string,
    query: string,
    expectedBehavior: Behavior,
    expectedGuardrail: Option<string>,
    shouldUseRag: Option<bool>,
    shouldUseMemory: Option<bool>)

  /** The mandatory rules, and the rule an invocation that raised is reported under. */
  datatype Rule =
    | RagGroundingAnswer | RagGroundingNoAnswer | HallucinationPrevention | OutOfScopeEnforcement
    | GuardrailsEscalation | MemoryUsage | AgenticPlanning | ExpectedBehaviorMatch | ExecutionError

  /** The rule's name in the report. */
  function Name(rule: Rule): string
  {
    match rule
    case RagGroundingAnswer => "RAG_Grounding_Answer"
    case RagGroundingNoAnswer => "RAG_Grounding_NoAnswer"
    case HallucinationPrevention => "Hallucination_Prevention"
    case OutOfScopeEnforcement => "Out_of_Scope_Enforcement"
    case GuardrailsEscalation => "Guardrails_Escalation"
    case MemoryUsage => "Memory_Usage"
    case AgenticPlanning => "Agentic_Planning"
    case ExpectedBehaviorMatch => "Expected_Behavior_Match"
    case ExecutionError => "EXECUTION_ERROR"
  }

  /** One assertion's outcome; its message and expected/actual values are report text. */
  datatype AssertionResult = AssertionResult(rule: Rule, passed: bool)

  /** Whether the rule is run for this test case and reply. */
  predicate Applies(rule: Rule, tc: TestCase, r: AgentResponse)
  {
    match rule
    case RagGroundingAnswer => tc.expectedBehavior == Answer
    case RagGroundingNoAnswer => tc.expectedBehavior == NoAnswer
    case HallucinationPrevention => r.ragDocsUsed == 0
    case OutOfScopeEnforcement => tc.expectedBehavior == NoAnswer
    case GuardrailsEscalation => Truthy(tc.expectedGuardrail)
    case MemoryUsage => tc.shouldUseMemory == Some(true)
    case AgenticPlanning => tc.expectedBehavior == Answer && tc.shouldUseRag == Some(true)
    case ExpectedBehaviorMatch => true
    case ExecutionError => false
  }

  /** Whether the rule passes for this test case and reply. */
  predicate Verdict(rule: Rule, tc: TestCase, r: AgentResponse)
  {
    match rule
    case RagGroundingAnswer => r.ragDocsUsed > 0
    case RagGroundingNoAnswer => r.ragDocsUsed == 0
    case HallucinationPrevention => r.finalAction == NoAnswer && IsNoAnswer(r.finalAnswer)
    case OutOfScopeEnforcement => r.finalAction == NoAnswer
    case GuardrailsEscalation => r.guardrailsTriggered && r.finalAction == Escalate
    case MemoryUsage => r.memoryUsed
    case AgenticPlanning => IntentAgent in r.agentsRan && RagAgent in r.agentsRan
    case ExpectedBehaviorMatch => r.finalAction == tc.expectedBehavior
    case ExecutionError => false
  }

  /** The rule's assertion when it applies, else none. */
  function Check(rule: Rule, tc: TestCase, r: AgentResponse): seq<AssertionResult>
  {
    if Applies(rule, tc, r) then [AssertionResult(rule, Verdict(rule, tc, r))] else []
  }

  /** `run_assertions`: the assertions of one test case, in the order they are appended. */
  function Assertions(tc: TestCase, r: AgentResponse): seq<AssertionResult>
  {
    Check(RagGroundingAnswer, tc, r) + Check(RagGroundingNoAnswer, tc, r) + Check(HallucinationPrevention, tc, r)
    + Check(OutOfScopeEnforcement, tc, r) + Check(GuardrailsEscalation, tc, r) + Check(MemoryUsage, tc, r)
    + Check(AgenticPlanning, tc, r) + Check(ExpectedBehaviorMatch, tc, r)
  }

  /** Whether an assertion of this rule was run. */
  predicate HasRule(results: seq<AssertionResult>, rule: Rule)
  {
    exists i :: 0 <= i < |results| && results[i].rule == rule
  }

  /** Every assertion of this rule has outcome `verdict`. */
  predicate RuleVerdict(results: seq<AssertionResult>, rule: Rule, verdict: bool)
  {
    forall i :: 0 <= i < |results| && results[i].rule == rule ==> results[i].passed == verdict
  }

  /** A rule is run by a concatenation exactly when one of its parts runs it, with the parts' outcome. */
  lemma HasRuleConcat(a: seq<AssertionResult>, b: seq<AssertionResult>, rule: Rule, verdict: bool)
    ensures HasRule(a + b, rule) <==> HasRule(a, rule) || HasRule(b, rule)
    ensures RuleVerdict(a, rule, verdict) && RuleVerdict(b, rule, verdict) ==> RuleVerdict(a + b, rule, verdict)
  {
    if HasRule(a, rule) {
      var i :| 0 <= i < |a| && a[i].rule == rule;
      assert (a + b)[i] == a[i];
    }
    if HasRule(b, rule) {
      var i :| 0 <= i < |b| && b[i].rule == rule;
      assert (a + b)[|a| + i] == b[i];
    }
    if HasRule(a + b, rule) {
      var i :| 0 <= i < |a + b| && (a + b)[i].rule == rule;
      if i >= |a| {
        assert b[i - |a|] == (a + b)[i];
      }
    }
    forall i | 0 <= i < |a + b| && (a + b)[i].rule == rule && i >= |a|
      ensures b[i - |a|] == (a + b)[i]
    {
    }
  }

  /** A rule's own check runs it exactly when it applies, and no other check runs it. */
  lemma CheckRule(other: Rule, tc: TestCase, r: AgentResponse, rule: Rule)
    ensures HasRule(Check(other, tc, r), rule) <==> other == rule && Applies(rule, tc, r)
    ensures RuleVerdict(Check(other, tc, r), rule, Verdict(rule, tc, r))
  {
    if Applies(other, tc, r) {
      assert Check(other, tc, r)[0].rule == other;
    }
  }

  /** Each rule, other than EXECUTION_ERROR, is run exactly when it applies, and passes exactly when its verdict holds. */
  lemma {:induction false} RuleInAssertions(tc: TestCase, r: AgentResponse, rule: Rule)
    ensures HasRule(Assertions(tc, r), rule) <==> Applies(rule, tc, r)
    ensures RuleVerdict(Assertions(tc, r), rule, Verdict(rule, tc, r))
  {
    var v := Verdict(rule, tc, r);
    var p0, p1, p2, p3 := Check(RagGroundingAnswer, tc, r), Check(RagGroundingNoAnswer, tc, r),
                          Check(HallucinationPrevention, tc, r), Check(OutOfScopeEnforcement, tc, r);
    var p4, p5, p6, p7 := Check(GuardrailsEscalation, tc, r), Check(MemoryUsage, tc, r),
                          Check(AgenticPlanning, tc, r), Check(ExpectedBehaviorMatch, tc, r);
    CheckRule(RagGroundingAnswer, tc, r, rule);
    CheckRule(RagGroundingNoAnswer, tc, r, rule);
    CheckRule(HallucinationPrevention, tc, r, rule);
    CheckRule(OutOfScopeEnforcement, tc, r, rule);
    CheckRule(GuardrailsEscalation, tc, r, rule);
    CheckRule(MemoryUsage, tc, r, rule);
    CheckRule(AgenticPlanning, tc, r, rule);
    CheckRule(ExpectedBehaviorMatch, tc, r, rule);
    HasRuleConcat(p0, p1, rule, v);
    HasRuleConcat(p0 + p1, p2, rule, v);
    HasRuleConcat(p0 + p1 + p2, p3, rule, v);
    HasRuleConcat(p0 + p1 + p2 + p3, p4, rule, v);
    HasRuleConcat(p0 + p1 + p2 + p3 + p4, p5, rule, v);
    HasRuleConcat(p0 + p1 + p2 + p3 + p4 + p5, p6, rule, v);
    HasRuleConcat(p0 + p1 + p2 + p3 + p4 + p5 + p6, p7, rule, v);
  }

  /**
   * Grounding: an "answer" test asks for documents and a "no_answer" test
   * forbids them; any other expectation has no grounding rule.
   */
  lemma GroundingRules(tc: TestCase, r: AgentResponse)
    ensures HasRule(Assertions(tc, r), RagGroundingAnswer) <==> tc.expectedBehavior == Answer
    ensures HasRule(Assertions(tc, r), RagGroundingNoAnswer) <==> tc.expectedBehavior == NoAnswer
    ensures RuleVerdict(Assertions(tc, r), RagGroundingAnswer, r.ragDocsUsed > 0)
    ensures RuleVerdict(Assertions(tc, r), RagGroundingNoAnswer, r.ragDocsUsed == 0)
  {
    RuleInAssertions(tc, r, RagGroundingAnswer);
    RuleInAssertions(tc, r, RagGroundingNoAnswer);
  }

  /**
   * Hallucination prevention runs exactly when no document was used, and it
   * passes exactly when the reply is a no-answer with a no-answer phrase.
   */
  lemma HallucinationRules(tc: TestCase, r: AgentResponse)
    ensures HasRule(Assertions(tc, r), HallucinationPrevention) <==> r.ragDocsUsed == 0
    ensures RuleVerdict(Assertions(tc, r), HallucinationPrevention, r.finalAction == NoAnswer && IsNoAnswer(r.finalAnswer))
  {
    RuleInAssertions(tc, r, HallucinationPrevention);
  }

  /** The behaviour match is always run, always last and only last, and passes exactly when the action is the expected one. */
  lemma BehaviorMatchLast(tc: TestCase, r: AgentResponse)
    ensures var a := Assertions(tc, r);
            && a[|a| - 1] == AssertionResult(ExpectedBehaviorMatch, r.finalAction == tc.expectedBehavior)
            && forall i :: 0 <= i < |a| - 1 ==> a[i].rule != ExpectedBehaviorMatch
  {
    var m := ExpectedBehaviorMatch;
    var v := Verdict(m, tc, r);
    var p0, p1, p2, p3 := Check(RagGroundingAnswer, tc, r), Check(RagGroundingNoAnswer, tc, r),
                          Check(HallucinationPrevention, tc, r), Check(OutOfScopeEnforcement, tc, r);
    var p4, p5, p6 := Check(GuardrailsEscalation, tc, r), Check(MemoryUsage, tc, r), Check(AgenticPlanning, tc, r);
    CheckRule(RagGroundingAnswer, tc, r, m);
    CheckRule(RagGroundingNoAnswer, tc, r, m);
    CheckRule(HallucinationPrevention, tc, r, m);
    CheckRule(OutOfScopeEnforcement, tc, r, m);
    CheckRule(GuardrailsEscalation, tc, r, m);
    CheckRule(MemoryUsage, tc, r, m);
    CheckRule(AgenticPlanning, tc, r, m);
    HasRuleConcat(p0, p1, m, v);
    HasRuleConcat(p0 + p1, p2, m, v);
    HasRuleConcat(p0 + p1 + p2, p3, m, v);
    HasRuleConcat(p0 + p1 + p2 + p3, p4, m, v);
    HasRuleConcat(p0 + p1 + p2 + p3 + p4, p5, m, v);
    HasRuleConcat(p0 + p1 + p2 + p3 + p4 + p5, p6, m, v);
    var front := p0 + p1 + p2 + p3 + p4 + p5 + p6;
    assert Assertions(tc, r) == front + [AssertionResult(m, v)];
    assert !HasRule(front, m);
  }

  /** An escalation test is not judged on grounding, scope or planning, and fails unless the reply escalates. */
  lemma EscalationTest(tc: TestCase, r: AgentResponse)
    requires tc.expectedBehavior == Escalate
    ensures !HasRule(Assertions(tc, r), RagGroundingAnswer) && !HasRule(Assertions(tc, r), RagGroundingNoAnswer)
    ensures !HasRule(Assertions(tc, r), OutOfScopeEnforcement) && !HasRule(Assertions(tc, r), AgenticPlanning)
    ensures r.finalAction != Escalate ==> exists i :: 0 <= i < |Assertions(tc, r)| && !Assertions(tc, r)[i].passed
  {
    GroundingRules(tc, r);
    RuleInAssertions(tc, r, OutOfScopeEnforcement);
    RuleInAssertions(tc, r, AgenticPlanning);
    BehaviorMatchLast(tc, r);
  }

  // ---------------------------------------------------------------------------
  // One test case

  /** The rules of the failed assertions, in order. */
  function FailedRules(results: seq<AssertionResult>): seq<Rule>
  {
    if results == [] then []
    else (if results[0].passed then [] else [results[0].rule]) + FailedRules(results[1..])
  }

  /** A rule is listed exactly when an assertion of that rule failed. */
  lemma {:induction false} FailedRulesSpec(results: seq<AssertionResult>, rule: Rule)
    ensures rule in FailedRules(results) <==> exists i :: 0 <= i < |results| && !results[i].passed && results[i].rule == rule
    ensures FailedRules(results) == [] <==> forall i :: 0 <= i < |results| ==> results[i].passed
  {
    if results != [] {
      var rest := results[1..];
      FailedRulesSpec(rest, rule);
      assert forall i :: 1 <= i < |results| ==> results[i] == rest[i - 1];
      if exists i :: 0 <= i < |results| && !results[i].passed && results[i].rule == rule {
        var i :| 0 <= i < |results| && !results[i].passed && results[i].rule == rule;
        if i > 0 {
          assert !rest[i - 1].passed && rest[i - 1].rule == rule;
        }
      }
      if exists i :: 0 <= i < |rest| && !rest[i].passed && rest[i].rule == rule {
        var i :| 0 <= i < |rest| && !rest[i].passed && rest[i].rule == rule;
        assert results[i + 1] == rest[i];
      }
    }
  }

  /** The part of the reply kept in the report. */
  datatype ActualResponse = ActualResponse(
    finalAnswer: string,
    finalAction: Behavior,
    ragDocsUsed: nat,
    memoryUsed: bool,
    guardrailsTriggered: bool,
    agentsRan: seq<Agent>)

  datatype TestResult = TestResult(
    testId: string,
    query: string,
    expectedBehavior: Behavior,
    passed: bool,
    failedRules: seq<Rule>,
    assertionResults: seq<AssertionResult>,
    actual: Option<ActualResponse>)

  /**
   * `run_test_case`: the test passes exactly when no assertion failed; an
   * invocation that raised gives one failed EXECUTION_ERROR assertion.
   */
  function RunTestCase(tc: TestCase, outcome: Result<AgentResponse, string>): (t: TestResult)
    ensures t.testId == tc.id && t.query == tc.query && t.expectedBehavior == tc.expectedBehavior
    ensures t.failedRules == FailedRules(t.assertionResults)
    ensures t.passed <==> t.failedRules == []
    ensures outcome.Ok? ==> t.assertionResults == Assertions(tc, outcome.value) && t.actual.Some?
    ensures outcome.Err? ==> t.assertionResults == [AssertionResult(ExecutionError, false)] && t.actual == None
  {
    match outcome
    case Ok(r) =>
      var results := Assertions(tc, r);
      var failed := FailedRules(results);
      var actual := ActualResponse(Take(r.finalAnswer, 500), r.finalAction, r.ragDocsUsed, r.memoryUsed,
                                   r.guardrailsTriggered, r.agentsRan);
      TestResult(tc.id, tc.query, tc.expectedBehavior, |failed| == 0, failed, results, Some(actual))
    case Err(_) =>
      var results := [AssertionResult(ExecutionError, false)];
      assert FailedRules(results) == [ExecutionError];
      TestResult(tc.id, tc.query, tc.expectedBehavior, false, [ExecutionError], results, None)
  }

  /** A test passes exactly when the agent answered and every assertion passed. */
  lemma TestPassesIff(tc: TestCase, outcome: Result<AgentResponse, string>)
    ensures var t := RunTestCase(tc, outcome);
            t.passed <==> outcome.Ok? && forall i :: 0 <= i < |t.assertionResults| ==> t.assertionResults[i].passed
  {
    FailedRulesSpec(RunTestCase(tc, outcome).assertionResults, ExecutionError);
  }

  /** EXECUTION_ERROR is reported exactly when the invocation raised. */
  lemma ErrorIffRaised(tc: TestCase, outcome: Result<AgentResponse, string>)
    ensures ExecutionError in RunTestCase(tc, outcome).failedRules <==> outcome.Err?
  {
    if outcome.Ok? {
      FailedRulesSpec(Assertions(tc, outcome.value), ExecutionError);
      RuleInAssertions(tc, outcome.value, ExecutionError);
    }
  }

  // ---------------------------------------------------------------------------
  // The whole test file

  datatype Breakdown = Breakdown(
    hallucination: nat,
    ragMissing: nat,
    outOfScopeViolation: nat,
    guardrailFailure: nat,
    memoryFailure: nat,
    executionError: nat)

  const NoFailures: Breakdown := Breakdown(0, 0, 0, 0, 0, 0)

  datatype Summary = Summary(total: nat, passed: nat, failed: nat, breakdown: Breakdown)

  /** Some failed rule's name contains `key` (the report searches the printed list). */
  predicate Mentions(rules: seq<Rule>, key: string)
  {
    exists i :: 0 <= i < |rules| && Contains(Name(rules[i]), key)
  }

  /** The breakdown after counting one more result in the first category it matches. */
  function Count(b: Breakdown, t: TestResult): Breakdown
  {
    if t.passed then b
    else if ExecutionError in t.failedRules then b.(executionError := b.executionError + 1)
    else if HallucinationPrevention in t.failedRules then b.(hallucination := b.hallucination + 1)
    else if Mentions(t.failedRules, "RAG_Grounding") then b.(ragMissing := b.ragMissing + 1)
    else if Mentions(t.failedRules, "Out_of_Scope") then b.(outOfScopeViolation := b.outOfScopeViolation + 1)
    else if Mentions(t.failedRules, "Guardrails") then b.(guardrailFailure := b.guardrailFailure + 1)
    else if Mentions(t.failedRules, "Memory") then b.(memoryFailure := b.memoryFailure + 1)
    else b
  }

  function BreakdownOf(results: seq<TestResult>): Breakdown
  {
    if results == [] then NoFailures
    else Count(BreakdownOf(results[..|results| - 1]), results[|results| - 1])
  }

  function Total(b: Breakdown): nat
  {
    b.hallucination + b.ragMissing + b.outOfScopeViolation + b.guardrailFailure + b.memoryFailure + b.executionError
  }

  /** How many results passed. */
  function PassedCount(results: seq<TestResult>): (n: nat)
    ensures n <= |results|
  {
    if results == [] then 0
    else PassedCount(results[..|results| - 1]) + (if results[|results| - 1].passed then 1 else 0)
  }

  /** Each failed result is counted in at most one category, and a passed one in none. */
  lemma {:induction false} BreakdownAtMostFailed(results: seq<TestResult>)
    ensures Total(BreakdownOf(results)) <= |results| - PassedCount(results)
  {
    if results != [] {
      BreakdownAtMostFailed(results[..|results| - 1]);
    }
  }

  /** The test loop of `run_all_tests`: every case in order, the i-th with the i-th invocation. */
  method RunCases(cases: seq<TestCase>, invoke: nat -> Result<AgentResponse, string>)
    returns (results: seq<TestResult>)
    ensures |results| == |cases|
    ensures forall i :: 0 <= i < |cases| ==> results[i] == RunTestCase(cases[i], invoke(i))
  {
    results := [];
    for i := 0 to |cases|
      invariant |results| == i
      invariant forall j :: 0 <= j < i ==> results[j] == RunTestCase(cases[j], invoke(j))
    {
      results := results + [RunTestCase(cases[i], invoke(i))];
    }
  }

  /** The categorising loop of `run_all_tests`. */
  method CountFailures(results: seq<TestResult>) returns (breakdown: Breakdown)
    ensures breakdown == BreakdownOf(results)
    ensures Total(breakdown) <= |results| - PassedCount(results)
  {
    breakdown := NoFailures;
    for i := 0 to |results|
      invariant breakdown == BreakdownOf(results[..i])
    {
      assert results[..i + 1][..i] == results[..i];
      breakdown := Count(breakdown, results[i]);
    }
    assert results[..|results|] == results;
    BreakdownAtMostFailed(results);
  }

  /**
   * `run_all_tests`: runs every case in order, then counts the passes and
   * the failure categories.
   */
  method RunAllTests(cases: seq<TestCase>, invoke: nat -> Result<AgentResponse, string>)
    returns (results: seq<TestResult>, summary: Summary)
    ensures |results| == |cases|
    ensures forall i :: 0 <= i < |cases| ==> results[i] == RunTestCase(cases[i], invoke(i))
    ensures summary.total == |cases| && summary.passed == PassedCount(results)
    ensures summary.passed + summary.failed == summary.total
    ensures summary.breakdown == BreakdownOf(results)
    ensures Total(summary.breakdown) <= summary.failed
  {
    results := RunCases(cases, invoke);
    var passed := PassedCount(results);
    var breakdown := CountFailures(results);
    summary := Summary(|results|, passed, |results| - passed, breakdown);
  }
}
