/**
 * The ingestion stage (agents/ingestion.py): normalises the query, runs the
 * input policy check once, and raises the escalate flag when the check says
 * so or finds the input unsafe.
 */
module IngestionStage {
  import opened Common
  import opened Config
  import opened Guardrails
  import opened PipelineState

  const MaxQueryLength: nat := 2000

  /** `(state.get("query") or "").strip() or ""`. */
  function RawQuery(s: State): string
  {
    Strip(if s.query.Some? then s.query.value else "")
  }

  /** The normalised query: stripped, lower-cased, cut to 2000 characters, with its fallback when that is empty. */
  function Normalized(q: string): string
  {
    var n := Take(Lower(Strip(q)), MaxQueryLength);
    if n == "" && q != "" then Take(Strip(q), MaxQueryLength) else n
  }

  /** `normalized or query`: the text checked and stored. */
  function CheckedText(q: string): string
  {
    var n := Normalized(q);
    if n != "" then n else q
  }

  /** `ingestion_agent`. */
  function Ingestion(s: State, sv: Services): (r: StageResult)
    ensures r.calls == [PolicyCall(CheckedText(RawQuery(s)), "input")]
  {
    var q := RawQuery(s);
    var text := CheckedText(q);
    var result := sv.policy(text, "input");
    var escalate := result.escalate || !result.safe;
    StageResult(Empty.(normalizedQuery := Some(text), inputGuardrailsResult := Some(result), escalate := Some(escalate)),
                calls := [PolicyCall(text, "input")])
  }

  /** The fallback for an empty normalised query is never taken: lower-casing keeps a stripped non-empty query non-empty. */
  lemma {:induction false} NormalizedFallbackUnused(q: string)
    requires q == Strip(q)
    ensures Normalized(q) == Take(Lower(Strip(q)), MaxQueryLength)
    ensures CheckedText(q) == Normalized(q)
  {
    if q != "" {
      StripEnds(q);
      assert !IsBlank(q);
      StripEmptyIffBlank(q);
      assert |Lower(Strip(q))| > 0;
    }
  }

  /**
   * What the stage stores: exactly the normalised query, the policy result
   * as returned and the escalate flag; the normalised query is at most 2000
   * characters, has no upper-case ASCII letter and no leading whitespace, and
   * is empty exactly when the query is missing or blank.
   */
  lemma {:induction false} IngestionSpec(s: State, sv: Services)
    ensures var r := Ingestion(s, sv);
            var nq := r.update.normalizedQuery.value;
            var result := sv.policy(nq, "input");
            && r.update == Empty.(normalizedQuery := Some(nq), inputGuardrailsResult := Some(result),
                                  escalate := Some(result.escalate || !result.safe))
            && |nq| <= MaxQueryLength
            && (forall i :: 0 <= i < |nq| ==> !('A' <= nq[i] <= 'Z'))
            && (nq != "" ==> !IsSpace(nq[0]))
            && (nq == "" <==> s.query.None? || IsBlank(s.query.value))
  {
    var raw := if s.query.Some? then s.query.value else "";
    var q := RawQuery(s);
    StripEnds(raw);
    StripEmptyIffBlank(raw);
    assert q == Strip(q) by {
      StripEnds(q);
      if q != "" {
        StripIdentity(q);
      }
    }
    NormalizedFallbackUnused(q);
    var nq := Normalized(q);
    if nq != "" {
      StripEnds(q);
      assert nq[0] == LowerChar(q[0]);
    }
  }

  /** A string without whitespace at either end is its own strip. */
  lemma {:induction false} StripIdentity(q: string)
    requires q != "" && !IsSpace(q[0]) && !IsSpace(q[|q| - 1])
    ensures Strip(q) == q
  {
    assert LeadingSpaces(q) == 0;
    assert TrailingSpaces(q) == 0;
  }

  /**
   * With the policy tool of the guardrails layer, ingestion escalates exactly
   * when moderation flags the normalised query: the input check itself never
   * escalates.
   */
  lemma {:induction false} UnsafeInputEscalates(s: State, sv: Services, apiKey: Option<string>,
                                               settings: Option<Settings>, service: ModerationService,
                                               search: RegexSearch)
    requires forall t, c :: sv.policy(t, c) == PolicyCheck(t, c, None, apiKey, settings, service, search)
    ensures var r := Ingestion(s, sv);
            var text := CheckedText(RawQuery(s));
            var mod := CallModerationApi(text, ResolveKey(apiKey, settings), service);
            r.update.escalate == Some(mod.Some? && mod.value.flagged)
  {
  }
}
