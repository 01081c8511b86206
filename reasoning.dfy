/**
 * The reasoning stage (agents/reasoning.py): builds a prompt from the query,
 * the intent, the first retrieved chunks and the recent working messages,
 * asks the LLM once, and records the exchange as an episodic memory.
 */
module ReasoningStage {
  import opened Common
  import opened JsonValue
  import opened VectorIndex
  import opened MemoryTable
  import opened WorkingMemory
  import opened PipelineState
  import IntentStage

  const MaxChunks: nat := 5
  const MaxChunkText: nat := 300
  const MaxWorking: nat := 10
  const MaxWorkingText: nat := 100
  const MaxStoredReasoning: nat := 500
  const NoContext: string := "No retrieved context."
  const NoWorking: string := "No working memory."
  const ReasoningSystem: string :=
    "You are a support reasoning agent. Connect the current issue with history, identify patterns and root causes. Be concise."

  /** One retrieved chunk as the prompt shows it. */
  function ChunkLine(c: SearchResult): string
  {
    "[" + c.sourceFile + "]: " + Take(c.text, MaxChunkText) + "..."
  }

  /** The retrieved-context block: the first five chunks, one paragraph each. */
  function RetrievalText(chunks: seq<SearchResult>): (t: string)
    ensures chunks == [] ==> t == NoContext
    ensures chunks != [] ==> |t| > 0 && t[0] == '['
  {
    if chunks == [] then NoContext
    else
      var shown := Take(chunks, MaxChunks);
      var lines := seq(|shown|, i requires 0 <= i < |shown| => ChunkLine(shown[i]));
      JoinStarts(lines, "\n\n");
      assert lines[0][0] == '[';
      assert Join(lines, "\n\n")[0] == Join(lines, "\n\n")[..|lines[0]|][0];
      Join(lines, "\n\n")
  }

  /** A join of non-empty parts starts with the first part. */
  lemma {:induction false} JoinStarts(parts: seq<string>, sep: string)
    requires parts != []
    ensures |Join(parts, sep)| >= |parts[0]| && Join(parts, sep)[..|parts[0]|] == parts[0]
  {
  }

  /** One working message as the prompt shows it. */
  function WorkingLine(m: (Value, Value), show: Value -> string): string
  {
    Render(m.0, show) + ": " + Take(Render(m.1, show), MaxWorkingText)
  }

  /** The working-memory block: the first ten messages, one line each. */
  function WorkingText(working: seq<(Value, Value)>, show: Value -> string): (t: string)
    ensures working == [] ==> t == NoWorking
  {
    var shown := Take(working, MaxWorking);
    if shown == [] then NoWorking
    else Join(seq(|shown|, i requires 0 <= i < |shown| => WorkingLine(shown[i], show)), "\n")
  }

  /** Chunk lists that agree on what the prompt shows of their first five chunks give the same block. */
  lemma {:induction false} RetrievalTextShowsPrefix(a: seq<SearchResult>, b: seq<SearchResult>)
    requires (a == []) == (b == [])
    requires |Take(a, MaxChunks)| == |Take(b, MaxChunks)|
    requires forall i :: 0 <= i < |Take(a, MaxChunks)| ==>
               a[i].sourceFile == b[i].sourceFile && Take(a[i].text, MaxChunkText) == Take(b[i].text, MaxChunkText)
    ensures RetrievalText(a) == RetrievalText(b)
  {
    if a != [] {
      var sa := Take(a, MaxChunks);
      var sb := Take(b, MaxChunks);
      var la := seq(|sa|, i requires 0 <= i < |sa| => ChunkLine(sa[i]));
      var lb := seq(|sb|, i requires 0 <= i < |sb| => ChunkLine(sb[i]));
      assert la == lb;
    }
  }

  /** Message lists that agree on their first ten roles and the first 100 characters of each content give the same block. */
  lemma {:induction false} WorkingTextShowsPrefix(a: seq<(Value, Value)>, b: seq<(Value, Value)>, show: Value -> string)
    requires |Take(a, MaxWorking)| == |Take(b, MaxWorking)|
    requires forall i :: 0 <= i < |Take(a, MaxWorking)| ==>
               Render(a[i].0, show) == Render(b[i].0, show)
               && Take(Render(a[i].1, show), MaxWorkingText) == Take(Render(b[i].1, show), MaxWorkingText)
    ensures WorkingText(a, show) == WorkingText(b, show)
  {
    var sa := Take(a, MaxWorking);
    var sb := Take(b, MaxWorking);
    if sa != [] {
      var la := seq(|sa|, i requires 0 <= i < |sa| => WorkingLine(sa[i], show));
      var lb := seq(|sb|, i requires 0 <= i < |sb| => WorkingLine(sb[i], show));
      assert la == lb;
    }
  }

  /** `state.get("intent_result") or {}` as a JSON value. */
  function IntentValue(s: State): Value
  {
    if s.intentResult.Some? then
      IntentStage.IntentObject(s.intentResult.value.intent, s.intentResult.value.urgency, s.intentResult.value.slaRisk)
    else Dict([])
  }

  function WorkingOf(s: State): seq<(Value, Value)>
  {
    if s.memoryResult.Some? then s.memoryResult.value.working else []
  }

  function ChunksOf(s: State): seq<SearchResult>
  {
    if s.retrievalResult.Some? then s.retrievalResult.value else []
  }

  /** The opening line of both the reasoning and the synthesis prompts. */
  function QueryLine(s: State): string
  {
    "Query: " + QueryText(s)
  }

  function ReasoningBody(s: State, show: Value -> string): string
  {
    "\nIntent: " + show(IntentValue(s)) + "\n\nRetrieved context:\n" + RetrievalText(ChunksOf(s)) + "\n\nWorking memory:\n"
  }

  function ReasoningClose(s: State, show: Value -> string): string
  {
    WorkingText(WorkingOf(s), show) + "\n\nProvide reasoning and root cause analysis:"
  }

  function ReasoningPrompt(s: State, show: Value -> string): string
  {
    QueryLine(s) + ReasoningBody(s, show) + ReasoningClose(s, show)
  }

  /**
   * The reasoning prompt opens with the whole query (unlike the classifier's
   * 500-character cut) and closes with the working-memory block and the
   * instruction.
   */
  lemma {:induction false} ReasoningPromptShows(s: State, show: Value -> string)
    ensures var p := ReasoningPrompt(s, show);
            |p| >= |QueryLine(s)| + |ReasoningClose(s, show)|
            && p[..|QueryLine(s)|] == "Query: " + QueryText(s)
            && p[|p| - |ReasoningClose(s, show)|..] == WorkingText(WorkingOf(s), show) + "\n\nProvide reasoning and root cause analysis:"
  {
    Framed(QueryLine(s), ReasoningBody(s, show), ReasoningClose(s, show));
  }

  /** The episodic record written after reasoning. */
  function EpisodicNote(q: string, reasoning: string): string
  {
    "Query: " + q + "\nReasoning: " + Take(reasoning, MaxStoredReasoning)
  }

  /**
   * `reasoning_agent`.  The memory write is a call in the log; whether it
   * fails has no bearing on the update, as the stage swallows the failure.
   */
  function Reasoning(s: State, sv: Services): (r: StageResult)
    ensures Escalated(s) ==> r == Nothing
    ensures !Escalated(s) ==> |r.calls| == 2 && IsLlmCall(r.calls[0]) && r.calls[1].MemoryWrite?
  {
    if Escalated(s) then Nothing
    else
      var prompt := ReasoningPrompt(s, sv.show);
      var reasoning := sv.reasoningLlm(prompt, ReasoningSystem);
      StageResult(Empty.(reasoningResult := Some(reasoning)),
                  [LlmCall(prompt, ReasoningSystem),
                   MemoryWrite(Episodic, EpisodicNote(QueryText(s), reasoning), s.sessionId,
                               [("agent", Str("reasoning"))])])
  }

  /**
   * A non-escalated run writes exactly `reasoning_result`, the LLM's reply;
   * it stores one episodic record for the state's session, tagged as coming
   * from this stage, holding the query and at most 500 characters of the
   * reply.
   */
  lemma {:induction false} ReasoningSpec(s: State, sv: Services)
    requires !Escalated(s)
    ensures var r := Reasoning(s, sv);
            var reply := sv.reasoningLlm(r.calls[0].prompt, ReasoningSystem);
            && r.update == Empty.(reasoningResult := Some(reply))
            && r.calls[1].wkind == Episodic && r.calls[1].wsession == s.sessionId
            && Lookup(r.calls[1].metadata, "agent") == Some(Str("reasoning"))
            && StartsWith(r.calls[1].content, "Query: " + QueryText(s) + "\nReasoning: ")
            && |r.calls[1].content| <= |"Query: " + QueryText(s) + "\nReasoning: "| + MaxStoredReasoning
  {
    var r := Reasoning(s, sv);
    var prefix := "Query: " + QueryText(s) + "\nReasoning: ";
    assert r.calls[1].content[..|prefix|] == prefix;
  }
}
