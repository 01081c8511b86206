/**
 * The knowledge-retrieval stage (agents/knowledge_retrieval.py): one call to
 * the retrieval tool for the query, then, when that finds nothing and the
 * query mentions an education-loan keyword, up to three reworded queries
 * tried in order until one finds something.
 */
module KnowledgeRetrievalStage {
  import opened Common
  import opened VectorIndex
  import opened PipelineState

  const TopK: nat := 8

  const Keywords: seq<string> := ["loan", "policy", "eligibility", "student", "education", "abroad", "international"]

  /** `any(keyword in query.lower() for keyword in ...)`. */
  predicate MentionsKeyword(q: string)
  {
    exists i :: 0 <= i < |Keywords| && Contains(Lower(q), Keywords[i])
  }

  /** The reworded queries, in the order tried; the ones equal to the query are skipped. */
  function Expansions(q: string): (e: seq<string>)
    ensures |e| == 4 && e[0] == q
  {
    [q, q + " education loan eligibility",
     Replace(Replace(q, "12th", "12th grade"), "science", "science field"),
     "education loan policy " + q]
  }

  /**
   * Trying `cands` in order: each candidate other than the query is sent to
   * the retrieval tool, and the first non-empty answer ends the search.
   * Returns that answer (or [] when none) and the calls made.
   */
  function TryExpanded(q: string, cands: seq<string>, retrieval: (string, nat) -> seq<SearchResult>)
    : (r: (seq<SearchResult>, seq<Call>))
    ensures |r.1| <= |cands|
    decreases |cands|
  {
    if cands == [] then ([], [])
    else if cands[0] == q then TryExpanded(q, cands[1..], retrieval)
    else
      var found := retrieval(cands[0], TopK);
      if found != [] then (found, [RetrievalCall(cands[0], TopK)])
      else
        var rest := TryExpanded(q, cands[1..], retrieval);
        (rest.0, [RetrievalCall(cands[0], TopK)] + rest.1)
  }

  /**
   * What the search does: every call asks the tool for 8 results with a
   * candidate different from the query; every call before the last found
   * nothing; the answer is the last call's result, or [] when every call
   * found nothing.
   */
  lemma {:induction false} TryExpandedSpec(q: string, cands: seq<string>, retrieval: (string, nat) -> seq<SearchResult>)
    ensures var r := TryExpanded(q, cands, retrieval);
            && (forall i :: 0 <= i < |r.1| ==> r.1[i].RetrievalCall? && r.1[i].k == TopK && r.1[i].q != q
                                               && r.1[i].q in cands)
            && (forall i :: 0 <= i < |r.1| - 1 ==> retrieval(r.1[i].q, TopK) == [])
            && (r.0 == [] ==> forall i :: 0 <= i < |r.1| ==> retrieval(r.1[i].q, TopK) == [])
            && (r.0 != [] ==> r.1 != [] && r.0 == retrieval(r.1[|r.1| - 1].q, TopK))
    decreases |cands|
  {
    if cands != [] {
      TryExpandedSpec(q, cands[1..], retrieval);
    }
  }

  /** The expansion loop over the reworded queries, with its early exit. */
  method ExpandQuery(q: string, cands: seq<string>, retrieval: (string, nat) -> seq<SearchResult>)
    returns (results: seq<SearchResult>, calls: seq<Call>)
    ensures (results, calls) == TryExpanded(q, cands, retrieval)
  {
    results := [];
    calls := [];
    for i := 0 to |cands|
      invariant results == []
      invariant TryExpanded(q, cands, retrieval).0 == TryExpanded(q, cands[i..], retrieval).0
      invariant TryExpanded(q, cands, retrieval).1 == calls + TryExpanded(q, cands[i..], retrieval).1
    {
      var expanded := cands[i];
      assert cands[i..][1..] == cands[i + 1..];
      if expanded != q {
        var temp := retrieval(expanded, TopK);
        calls := calls + [RetrievalCall(expanded, TopK)];
        if temp != [] {
          assert TryExpanded(q, cands[i..], retrieval) == (temp, [RetrievalCall(expanded, TopK)]);
          results := temp;
          assert (results, calls) == TryExpanded(q, cands, retrieval);
          break;
        }
      }
    }
    assert cands[|cands|..] == [];
    assert TryExpanded(q, cands[|cands|..], retrieval) == ([], []);
    assert calls + [] == calls;
  }

  /** `knowledge_retrieval_agent`, as the update it returns and the calls it makes. */
  function KnowledgeRetrieval(s: State, sv: Services): (r: StageResult)
    ensures Escalated(s) ==> r == Nothing
    ensures !Escalated(s) && QueryText(s) == "" ==> r == StageResult(Empty.(retrievalResult := Some([])), [])
  {
    if Escalated(s) then Nothing
    else
      var q := QueryText(s);
      if q == "" then StageResult(Empty.(retrievalResult := Some([])), [])
      else
        var first := sv.retrieval(q, TopK);
        if first == [] && MentionsKeyword(q) then
          var expanded := TryExpanded(q, Expansions(q), sv.retrieval);
          StageResult(Empty.(retrievalResult := Some(expanded.0)), [RetrievalCall(q, TopK)] + expanded.1)
        else StageResult(Empty.(retrievalResult := Some(first)), [RetrievalCall(q, TopK)])
  }

  /** `knowledge_retrieval_agent` as written: the guards, the first call, then the expansion loop. */
  method KnowledgeRetrievalAgent(s: State, sv: Services) returns (r: StageResult)
    ensures r == KnowledgeRetrieval(s, sv)
  {
    if Escalated(s) {
      return Nothing;
    }
    var q := QueryText(s);
    if q == "" {
      return StageResult(Empty.(retrievalResult := Some([])), []);
    }
    var results := sv.retrieval(q, TopK);
    var calls := [RetrievalCall(q, TopK)];
    if results == [] && MentionsKeyword(q) {
      var more;
      results, more := ExpandQuery(q, Expansions(q), sv.retrieval);
      calls := calls + more;
    }
    r := StageResult(Empty.(retrievalResult := Some(results)), calls);
  }

  /**
   * A query with text: the first call asks for 8 results for the query
   * itself, and a non-empty answer is returned unchanged with no other call;
   * further calls happen exactly when that answer is empty and the query
   * mentions a keyword; at most four calls are made, all for 8 results; the
   * result is the first non-empty answer, or [] when all were empty; only
   * `retrieval_result` is written.
   */
  lemma {:induction false} KnowledgeRetrievalSpec(s: State, sv: Services)
    requires !Escalated(s) && QueryText(s) != ""
    ensures var q := QueryText(s);
            var r := KnowledgeRetrieval(s, sv);
            var res := r.update.retrievalResult.value;
            && r.update == Empty.(retrievalResult := Some(res))
            && 1 <= |r.calls| <= 4
            && r.calls[0] == RetrievalCall(q, TopK)
            && (forall i :: 0 <= i < |r.calls| ==> r.calls[i].RetrievalCall? && r.calls[i].k == TopK)
            && (sv.retrieval(q, TopK) != [] ==> res == sv.retrieval(q, TopK) && |r.calls| == 1)
            && (|r.calls| > 1 <==> sv.retrieval(q, TopK) == [] && MentionsKeyword(q))
            && (forall i :: 0 <= i < |r.calls| - 1 ==> sv.retrieval(r.calls[i].q, TopK) == [])
            && (res != [] ==> res == sv.retrieval(r.calls[|r.calls| - 1].q, TopK))
            && (res == [] ==> forall i :: 0 <= i < |r.calls| ==> sv.retrieval(r.calls[i].q, TopK) == [])
  {
    var q := QueryText(s);
    TryExpandedSpec(q, Expansions(q), sv.retrieval);
    ExpansionsDiffer(q);
  }

  /** The second and fourth rewordings always differ from the query, so an expansion always makes a call. */
  lemma {:induction false} ExpansionsDiffer(q: string)
    ensures Expansions(q)[1] != q && Expansions(q)[3] != q
  {
    assert |Expansions(q)[1]| > |q|;
    assert |Expansions(q)[3]| > |q|;
  }

  /** The third rewording is skipped exactly when the query contains neither "12th" nor "science". */
  lemma {:induction false} ThirdExpansionSkipped(q: string)
    ensures Expansions(q)[2] == q <==> !Contains(q, "12th") && !Contains(q, "science")
  {
    var once := Replace(q, "12th", "12th grade");
    ReplaceNotShorter(q, "12th", "12th grade");
    ReplaceNotShorter(once, "science", "science field");
    if Contains(q, "12th") {
      ReplaceLengthens(q, "12th", "12th grade");
    } else if Contains(q, "science") {
      assert once == q;
      ReplaceLengthens(once, "science", "science field");
    }
  }
}
