/**
 * The response-synthesis stage (agents/response_synthesis.py): drafts the
 * answer with one LLM call from the reasoning and the first retrieved chunks,
 * names its sources, attaches the stub recommendation and reports a tool
 * event.
 */
module ResponseSynthesisStage {
  import opened Common
  import opened JsonValue
  import opened VectorIndex
  import opened Observability
  import opened PipelineState
  import ReasoningStage

  const MaxRefChunks: nat := 5
  const MaxContextChunks: nat := 3
  const MaxContextText: nat := 400
  const NoSources: string := "No sources."
  const SynthesisSystem: string :=
    "You are a support agent. Give a clear, human-readable answer. Always reference the retrieved sources. If you don't know, say 'I don't know' clearly. Do not make up information."

  /** The stub recommendation every draft carries. */
  const StubActions: seq<Action> := [Action("recommend", "Review and recommend next steps", true)]

  /** The non-empty source files of the chunks, in order. */
  function Refs(chunks: seq<SearchResult>): (refs: seq<string>)
    ensures |refs| <= |chunks|
    ensures forall i :: 0 <= i < |refs| ==> refs[i] != ""
    ensures refs == [] <==> forall i :: 0 <= i < |chunks| ==> chunks[i].sourceFile == ""
  {
    if chunks == [] then []
    else if chunks[0].sourceFile == "" then
      assert forall i :: 1 <= i < |chunks| ==> chunks[i] == chunks[1..][i - 1];
      Refs(chunks[1..])
    else
      [chunks[0].sourceFile] + Refs(chunks[1..])
  }

  /** Every named source of the chunks is among the refs, and every ref names one of them. */
  lemma {:induction false} RefsMembers(chunks: seq<SearchResult>)
    ensures forall i :: 0 <= i < |chunks| && chunks[i].sourceFile != "" ==> chunks[i].sourceFile in Refs(chunks)
    ensures forall f :: f in Refs(chunks) ==> exists i :: 0 <= i < |chunks| && chunks[i].sourceFile == f
  {
    if chunks != [] {
      RefsMembers(chunks[1..]);
      forall f | f in Refs(chunks[1..])
        ensures exists i :: 0 <= i < |chunks| && chunks[i].sourceFile == f
      {
        var j :| 0 <= j < |chunks[1..]| && chunks[1..][j].sourceFile == f;
        assert chunks[j + 1].sourceFile == f;
      }
    }
  }

  /** `retrieval_summary`. */
  function Summary(refs: seq<string>): (t: string)
    ensures t == NoSources <==> refs == []
  {
    if refs != [] then
      assert ("Based on: " + Join(refs, ", "))[0] != NoSources[0];
      "Based on: " + Join(refs, ", ")
    else NoSources
  }

  function ContextLine(c: SearchResult): string
  {
    "From " + c.sourceFile + ":\n" + Take(c.text, MaxContextText)
  }

  /** `context_block`: the first three chunks, one paragraph each. */
  function ContextBlock(chunks: seq<SearchResult>): (t: string)
    ensures t == ReasoningStage.NoContext <==> chunks == []
  {
    if chunks == [] then ReasoningStage.NoContext
    else
      var shown := Take(chunks, MaxContextChunks);
      var lines := seq(|shown|, i requires 0 <= i < |shown| => ContextLine(shown[i]));
      ReasoningStage.JoinStarts(lines, "\n\n");
      assert Join(lines, "\n\n")[0] == lines[0][0] == 'F';
      Join(lines, "\n\n")
  }

  /** Chunk lists that agree on the first three chunks' source files and first 400 characters give the same block. */
  lemma {:induction false} ContextBlockShowsPrefix(a: seq<SearchResult>, b: seq<SearchResult>)
    requires (a == []) == (b == [])
    requires |Take(a, MaxContextChunks)| == |Take(b, MaxContextChunks)|
    requires forall i :: 0 <= i < |Take(a, MaxContextChunks)| ==>
               a[i].sourceFile == b[i].sourceFile && Take(a[i].text, MaxContextText) == Take(b[i].text, MaxContextText)
    ensures ContextBlock(a) == ContextBlock(b)
  {
    if a != [] {
      var sa := Take(a, MaxContextChunks);
      var sb := Take(b, MaxContextChunks);
      var la := seq(|sa|, i requires 0 <= i < |sa| => ContextLine(sa[i]));
      var lb := seq(|sb|, i requires 0 <= i < |sb| => ContextLine(sb[i]));
      assert la == lb;
    }
  }

  function ReasoningOf(s: State): string
  {
    if s.reasoningResult.Some? then s.reasoningResult.value else ""
  }

  function SynthesisBody(s: State, show: Value -> string): string
  {
    "\nIntent: " + show(ReasoningStage.IntentValue(s)) + "\n\nReasoning:\n" + ReasoningOf(s)
    + "\n\nRetrieved context:\n" + ContextBlock(ReasoningStage.ChunksOf(s))
    + "\n\nProvide a helpful response that references the above. End with: "
  }

  /** The closing sources line. */
  function SourcesLine(s: State): string
  {
    "[Sources: " + Summary(Refs(Take(ReasoningStage.ChunksOf(s), MaxRefChunks))) + "]"
  }

  function SynthesisPrompt(s: State, show: Value -> string): string
  {
    ReasoningStage.QueryLine(s) + SynthesisBody(s, show) + SourcesLine(s)
  }

  /**
   * The synthesis prompt opens with the whole query and closes with the
   * mandatory sources line: the references of the first five chunks, or
   * "No sources.".
   */
  lemma {:induction false} SynthesisPromptShows(s: State, show: Value -> string)
    ensures var p := SynthesisPrompt(s, show);
            |p| >= |ReasoningStage.QueryLine(s)| + |SourcesLine(s)|
            && p[..|ReasoningStage.QueryLine(s)|] == "Query: " + QueryText(s)
            && p[|p| - |SourcesLine(s)|..] == "[Sources: " + Summary(Refs(Take(ReasoningStage.ChunksOf(s), MaxRefChunks))) + "]"
  {
    Framed(ReasoningStage.QueryLine(s), SynthesisBody(s, show), SourcesLine(s));
  }

  function Strs(xs: seq<string>): (vs: seq<Value>)
    ensures |vs| == |xs| && forall i :: 0 <= i < |xs| ==> vs[i] == Str(xs[i])
  {
    seq(|xs|, i requires 0 <= i < |xs| => Str(xs[i]))
  }

  /** The tool event the stage reports. */
  function SynthesisEvent(q: string, chunks: seq<SearchResult>, draft: string): ToolCallEvent
  {
    ToolCallEvent("response_synthesis", [("query_len", Int(|q|)), ("retrieval_count", Int(|chunks|))],
                  Dict([("draft_len", Int(|draft|)), ("sources", List(Strs(Refs(Take(chunks, MaxRefChunks)))))]), None)
  }

  /** `response_synthesis_agent`; a failing event report is swallowed and changes nothing. */
  function ResponseSynthesis(s: State, sv: Services): (r: StageResult)
    ensures Escalated(s) ==> r == Nothing
  {
    if Escalated(s) then Nothing
    else
      var prompt := SynthesisPrompt(s, sv.show);
      var draft := sv.synthesisLlm(prompt, SynthesisSystem);
      StageResult(Empty.(draftResponse := Some(draft), recommendedActions := Some(StubActions)),
                  [LlmCall(prompt, SynthesisSystem), Emit(SynthesisEvent(QueryText(s), ReasoningStage.ChunksOf(s), draft))])
  }

  /**
   * Whenever the state is not escalated, even with nothing retrieved: one
   * LLM call, whose reply is the draft verbatim; the update holds exactly
   * the draft and the one stub action; the event reports the draft's length
   * and the sources, with no error.
   */
  lemma {:induction false} ResponseSynthesisSpec(s: State, sv: Services)
    requires !Escalated(s)
    ensures var r := ResponseSynthesis(s, sv);
            var draft := sv.synthesisLlm(r.calls[0].prompt, SynthesisSystem);
            && |r.calls| == 2 && IsLlmCall(r.calls[0])
            && r.update == Empty.(draftResponse := Some(draft), recommendedActions := Some(StubActions))
            && r.calls[1].Emit? && r.calls[1].event.error.None?
            && Lookup(r.calls[1].event.result.entries, "draft_len") == Some(Int(|draft|))
            && Lookup(r.calls[1].event.result.entries, "sources")
               == Some(List(Strs(Refs(Take(ReasoningStage.ChunksOf(s), MaxRefChunks)))))
  {
    var r := ResponseSynthesis(s, sv);
    var e := r.calls[1].event.result.entries;
    assert Lookup(e[1..], "sources") == Some(e[1].1);
  }
}
