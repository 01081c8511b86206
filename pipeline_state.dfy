/**
 * The state the agent graph passes between stages (agents/state.py), the
 * partial updates stages return, and the outgoing calls a stage makes.
 *
 * Every key of the state is optional: `None` stands for a key that is not
 * in the dict.  A stage returns a partial update of the same shape, and the
 * graph merges it into the state key by key, the update winning.
 */
module PipelineState {
  import opened Common
  import opened JsonValue
  import opened Guardrails
  import opened VectorIndex
  import opened MemoryTable
  import opened Observability

  /** `intent_result`: three strings. */
  datatype Intent = Intent(intent: string, urgency: string, slaRisk: string)

  const DefaultIntent: Intent := Intent("unknown", "medium", "low")

  /** `memory_result`: the working messages as (role, content), then the recent episodic and semantic records. */
  datatype MemoryResult = MemoryResult(working: seq<(Value, Value)>, episodic: seq<Record>, semantic: seq<Record>)

  /** One entry of `recommended_actions`. */
  datatype Action = Action(action: string, description: string, executeStub: bool)

  /**
   * `guardrails_result`: either the policy result, or the short dict the
   * guardrails stage writes when it skips the check (always escalating).
   */
  datatype GuardrailsOutcome =
    | Checked(result: GuardrailsResult)
    | Preempted(safe: Option<bool>, reason: string)

  datatype State = State(
    query: Option<string>,
    sessionId: Option<string>,
    normalizedQuery: Option<string>,
    inputGuardrailsResult: Option<GuardrailsResult>,
    escalate: Option<bool>,
    intentResult: Option<Intent>,
    retrievalResult: Option<seq<SearchResult>>,
    memoryResult: Option<MemoryResult>,
    reasoningResult: Option<string>,
    draftResponse: Option<string>,
    guardrailsResult: Option<GuardrailsOutcome>,
    finalResponse: Option<string>,
    recommendedActions: Option<seq<Action>>)

  /** The empty dict `{}`. */
  const Empty: State := State(None, None, None, None, None, None, None, None, None, None, None, None, None)

  /** The state a request starts from: the query and, when given, the session. */
  function Initial(query: string, sessionId: Option<string>): State
  {
    Empty.(query := Some(query), sessionId := sessionId)
  }

  datatype Key =
    | KQuery | KSessionId | KNormalizedQuery | KInputGuardrailsResult | KEscalate | KIntentResult
    | KRetrievalResult | KMemoryResult | KReasoningResult | KDraftResponse | KGuardrailsResult
    | KFinalResponse | KRecommendedActions

  /** Whether a state or update has the key. */
  predicate Has(u: State, k: Key)
  {
    match k
    case KQuery => u.query.Some?
    case KSessionId => u.sessionId.Some?
    case KNormalizedQuery => u.normalizedQuery.Some?
    case KInputGuardrailsResult => u.inputGuardrailsResult.Some?
    case KEscalate => u.escalate.Some?
    case KIntentResult => u.intentResult.Some?
    case KRetrievalResult => u.retrievalResult.Some?
    case KMemoryResult => u.memoryResult.Some?
    case KReasoningResult => u.reasoningResult.Some?
    case KDraftResponse => u.draftResponse.Some?
    case KGuardrailsResult => u.guardrailsResult.Some?
    case KFinalResponse => u.finalResponse.Some?
    case KRecommendedActions => u.recommendedActions.Some?
  }

  /** Two updates that write no key in common. */
  predicate Disjoint(a: State, b: State)
  {
    && (a.query.None? || b.query.None?)
    && (a.sessionId.None? || b.sessionId.None?)
    && (a.normalizedQuery.None? || b.normalizedQuery.None?)
    && (a.inputGuardrailsResult.None? || b.inputGuardrailsResult.None?)
    && (a.escalate.None? || b.escalate.None?)
    && (a.intentResult.None? || b.intentResult.None?)
    && (a.retrievalResult.None? || b.retrievalResult.None?)
    && (a.memoryResult.None? || b.memoryResult.None?)
    && (a.reasoningResult.None? || b.reasoningResult.None?)
    && (a.draftResponse.None? || b.draftResponse.None?)
    && (a.guardrailsResult.None? || b.guardrailsResult.None?)
    && (a.finalResponse.None? || b.finalResponse.None?)
    && (a.recommendedActions.None? || b.recommendedActions.None?)
  }

  /** Disjoint updates share no key. */
  lemma {:induction false} DisjointKeys(a: State, b: State, k: Key)
    requires Disjoint(a, b)
    ensures !(Has(a, k) && Has(b, k))
  {
  }

  function Over<T>(old_: Option<T>, upd: Option<T>): Option<T>
  {
    if upd.Some? then upd else old_
  }

  /** Applying a stage's update: every key the update has replaces the state's value. */
  function Merge(s: State, u: State): State
  {
    State(Over(s.query, u.query), Over(s.sessionId, u.sessionId), Over(s.normalizedQuery, u.normalizedQuery),
          Over(s.inputGuardrailsResult, u.inputGuardrailsResult), Over(s.escalate, u.escalate),
          Over(s.intentResult, u.intentResult), Over(s.retrievalResult, u.retrievalResult),
          Over(s.memoryResult, u.memoryResult), Over(s.reasoningResult, u.reasoningResult),
          Over(s.draftResponse, u.draftResponse), Over(s.guardrailsResult, u.guardrailsResult),
          Over(s.finalResponse, u.finalResponse), Over(s.recommendedActions, u.recommendedActions))
  }

  /** After a merge a key is present when it was in the state or in the update, and takes the update's value when there. */
  lemma {:induction false} MergeHas(s: State, u: State, k: Key)
    ensures Has(Merge(s, u), k) <==> Has(s, k) || Has(u, k)
  {
  }

  /** The input, ingestion and branch keys of disjoint updates commute. */
  lemma {:induction false} MergeCommutesInputs(s: State, a: State, b: State)
    requires Disjoint(a, b)
    ensures Merge(Merge(s, a), b).query == Merge(Merge(s, b), a).query
    ensures Merge(Merge(s, a), b).sessionId == Merge(Merge(s, b), a).sessionId
    ensures Merge(Merge(s, a), b).normalizedQuery == Merge(Merge(s, b), a).normalizedQuery
    ensures Merge(Merge(s, a), b).inputGuardrailsResult == Merge(Merge(s, b), a).inputGuardrailsResult
    ensures Merge(Merge(s, a), b).escalate == Merge(Merge(s, b), a).escalate
    ensures Merge(Merge(s, a), b).intentResult == Merge(Merge(s, b), a).intentResult
    ensures Merge(Merge(s, a), b).retrievalResult == Merge(Merge(s, b), a).retrievalResult
  {
  }

  /** The later keys of disjoint updates commute. */
  lemma {:induction false} MergeCommutesOutputs(s: State, a: State, b: State)
    requires Disjoint(a, b)
    ensures Merge(Merge(s, a), b).memoryResult == Merge(Merge(s, b), a).memoryResult
    ensures Merge(Merge(s, a), b).reasoningResult == Merge(Merge(s, b), a).reasoningResult
    ensures Merge(Merge(s, a), b).draftResponse == Merge(Merge(s, b), a).draftResponse
    ensures Merge(Merge(s, a), b).guardrailsResult == Merge(Merge(s, b), a).guardrailsResult
    ensures Merge(Merge(s, a), b).finalResponse == Merge(Merge(s, b), a).finalResponse
    ensures Merge(Merge(s, a), b).recommendedActions == Merge(Merge(s, b), a).recommendedActions
  {
  }

  /** Updates that write disjoint keys can be applied in either order. */
  lemma {:induction false} MergeCommutes(s: State, a: State, b: State)
    requires Disjoint(a, b)
    ensures Merge(Merge(s, a), b) == Merge(Merge(s, b), a)
  {
    MergeCommutesInputs(s, a, b);
    MergeCommutesOutputs(s, a, b);
  }

  /** Merging is associative, and the empty update changes nothing. */
  lemma {:induction false} MergeAssociative(s: State, a: State, b: State)
    ensures Merge(Merge(s, a), b) == Merge(s, Merge(a, b))
    ensures Merge(s, Empty) == s
  {
    var l, r := Merge(Merge(s, a), b), Merge(s, Merge(a, b));
    assert l.query == r.query && l.sessionId == r.sessionId && l.normalizedQuery == r.normalizedQuery;
    assert l.inputGuardrailsResult == r.inputGuardrailsResult && l.escalate == r.escalate;
    assert l.intentResult == r.intentResult && l.retrievalResult == r.retrievalResult;
    assert l.memoryResult == r.memoryResult && l.reasoningResult == r.reasoningResult;
    assert l.draftResponse == r.draftResponse && l.guardrailsResult == r.guardrailsResult;
    assert l.finalResponse == r.finalResponse && l.recommendedActions == r.recommendedActions;
  }

  /** `state.get("escalate")` is truthy. */
  predicate Escalated(s: State)
  {
    s.escalate == Some(true)
  }

  /** A non-empty string value (`state.get(key)` truthy). */
  predicate Truthy(v: Option<string>)
  {
    v.Some? && v.value != ""
  }

  /** `state.get("normalized_query") or state.get("query") or ""`. */
  function QueryText(s: State): (q: string)
    ensures q != "" ==> Some(q) == s.normalizedQuery || Some(q) == s.query
    ensures q == "" <==> !Truthy(s.normalizedQuery) && !Truthy(s.query)
  {
    if Truthy(s.normalizedQuery) then s.normalizedQuery.value
    else if Truthy(s.query) then s.query.value
    else ""
  }

  /** An outgoing call a stage makes, in the order made. */
  datatype Call =
    | PolicyCall(text: string, checkType: string)
    | LlmCall(prompt: string, system: string)
    | RetrievalCall(q: string, k: nat)
    | MemoryRead(session: Option<string>, kind: MemoryType, limit: nat, offset: nat)
    | MemoryWrite(wkind: MemoryType, content: string, wsession: Option<string>, metadata: Metadata)
    | Emit(event: ToolCallEvent)

  predicate IsLlmCall(c: Call)
  {
    c.LlmCall?
  }

  /**
   * The services the stages call, each a parameter of the model: the policy
   * tool, the three LLM clients (each with its own fallback text built in),
   * the retrieval tool, the JSON codec, `str()` of a value, and the rows of
   * the memory table the memory stage reads.
   */
  datatype Services = Services(
    policy: (string, string) -> GuardrailsResult,
    intentLlm: (string, string) -> string,
    reasoningLlm: (string, string) -> string,
    synthesisLlm: (string, string) -> string,
    retrieval: (string, nat) -> seq<SearchResult>,
    codec: Codec,
    show: Value -> string,
    table: seq<Record>)

  /** What a stage returns: its partial update and the calls it made. */
  datatype StageResult = StageResult(update: State, calls: seq<Call>)

  const Nothing: StageResult := StageResult(Empty, [])
}
