/**
 * The guardrails layer (guardrails/layer.py) and the policy tool that
 * dispatches to it (tools/policy_tool.py).
 *
 * The moderation service, the JSON parser of the escalation policy and the
 * case-insensitive regular-expression search are parameters: what they
 * answer is outside the model, what the layer decides from their answers
 * is inside it.
 */
module Guardrails {
  import opened Common
  import opened Config

  /** What `_call_moderation_api` returns when the service answers. */
  datatype Moderation = Moderation(flagged: bool, categories: map<string, bool>, categoryScores: map<string, real>)

  /** The moderation service, called with the text and the stripped API key. */
  type ModerationService = (string, string) -> Option<Moderation>

  /** The answer of `re.search(pattern, text, re.IGNORECASE)`. */
  datatype RegexOutcome = Matched | NoMatch | BadPattern

  type RegexSearch = (string, string) -> RegexOutcome

  /** `GuardrailsResult`, which `to_dict` turns into a dict with the same six keys. */
  datatype GuardrailsResult = GuardrailsResult(
    safe: bool,
    escalate: bool,
    confidence: real,
    reason: string,
    noAnswer: bool,
    details: Option<Moderation>)

  const DefaultNoAnswerPatterns: seq<string> := [
    "\\bI don't know\\b",
    "\\bI do not know\\b",
    "\\bno_answer\\b",
    "\\bN/A\\b",
    "\\[no_answer\\]",
    "\\[escalate\\]"
  ]

  // ---------------------------------------------------------------------------
  // Moderation

  /** `_call_moderation_api`: no call at all unless the key has a non-whitespace character. */
  function CallModerationApi(text: string, apiKey: string, service: ModerationService): (mod: Option<Moderation>)
    ensures IsBlank(apiKey) ==> mod.None?
    ensures !IsBlank(apiKey) ==> mod == service(text, Strip(apiKey))
  {
    StripEmptyIffBlank(apiKey);
    if Strip(apiKey) == [] then None else service(text, Strip(apiKey))
  }

  /** `_confidence_from_moderation`: 0.0 for a flagged result, else 1.0 (`None` is the empty result). */
  function ConfidenceFromModeration(result: Option<Moderation>): (c: real)
    ensures c == 0.0 <==> result.Some? && result.value.flagged
    ensures c == 1.0 <==> !(result.Some? && result.value.flagged)
  {
    if result.None? then 1.0
    else if !result.value.flagged then 1.0
    else 0.0
  }

  /** The key both checks use: the argument, else the configured key, else "". */
  function ResolveKey(apiKey: Option<string>, settings: Option<Settings>): (key: string)
    ensures apiKey.Some? && apiKey.value != [] ==> key == apiKey.value
    ensures (apiKey.None? || apiKey.value == []) && settings.Some? ==> key == settings.value.llmApiKey
    ensures (apiKey.None? || apiKey.value == []) && settings.None? ==> key == []
  {
    if apiKey.Some? && apiKey.value != [] then apiKey.value
    else if settings.Some? && settings.value.llmApiKey != [] then settings.value.llmApiKey
    else ""
  }

  // ---------------------------------------------------------------------------
  // No-answer detection

  /** Some pattern of `patterns`, tried in order, matches `text`; malformed ones are skipped. */
  predicate AnyPatternMatches(patterns: seq<string>, text: string, search: RegexSearch)
  {
    if patterns == [] then false
    else if search(patterns[0], text) == Matched then true
    else AnyPatternMatches(patterns[1..], text, search)
  }

  lemma {:induction false} AnyPatternMatchesSpec(patterns: seq<string>, text: string, search: RegexSearch)
    ensures AnyPatternMatches(patterns, text, search) <==>
      exists i :: 0 <= i < |patterns| && search(patterns[i], text) == Matched
  {
    if patterns != [] {
      AnyPatternMatchesSpec(patterns[1..], text, search);
      if search(patterns[0], text) != Matched {
        assert forall i :: 1 <= i < |patterns| ==> patterns[i] == patterns[1..][i - 1];
      }
    }
  }

  /** The patterns `_detect_no_answer` uses: the given ones, or the defaults when none are given. */
  function PatternsInUse(patterns: Option<seq<string>>): (use: seq<string>)
    ensures use != []
  {
    if patterns.None? || patterns.value == [] then DefaultNoAnswerPatterns else patterns.value
  }

  /** `_detect_no_answer`. */
  function DetectNoAnswer(text: string, patterns: Option<seq<string>>, search: RegexSearch): (found: bool)
  {
    !IsBlank(text) && AnyPatternMatches(PatternsInUse(patterns), text, search)
  }

  /**
   * A blank text is never a no-answer; any other text is one exactly when
   * one of the patterns in use (the defaults when none are given) matches.
   */
  lemma {:induction false} DetectNoAnswerSpec(text: string, patterns: Option<seq<string>>, search: RegexSearch)
    ensures IsBlank(text) ==> !DetectNoAnswer(text, patterns, search)
    ensures DetectNoAnswer(text, patterns, search) <==>
      !IsBlank(text) && exists p :: p in PatternsInUse(patterns) && search(p, text) == Matched
  {
    var use := PatternsInUse(patterns);
    AnyPatternMatchesSpec(use, text, search);
    if exists p :: p in use && search(p, text) == Matched {
      var p :| p in use && search(p, text) == Matched;
      var i :| 0 <= i < |use| && use[i] == p;
    }
  }

  // ---------------------------------------------------------------------------
  // Escalation policy (`_should_escalate_by_policy`, which nothing calls)

  /** The `threshold` entry of a rule. */
  datatype Threshold = Missing | Num(value: real) | NotANumber

  /** One element of the parsed policy list: a dict (its `when`, `then` and `threshold` entries), or anything `.get` fails on. */
  datatype PolicyRule = RuleDict(when: Option<string>, action: Option<string>, threshold: Threshold) | NotADict

  /** `rule.get("threshold", 0)` compared with the confidence, when it can be. */
  predicate BelowThreshold(confidence: real, t: Threshold)
  {
    match t
      case Missing => confidence < 0.0
      case Num(x) => confidence < x
      case NotANumber => false
  }

  /** The rule makes the scan return `True`. */
  predicate Fires(rule: PolicyRule, noAnswer: bool, confidence: real)
  {
    rule.RuleDict? &&
    ((rule.when == Some("no_answer") && noAnswer && rule.action == Some("escalate"))
     || (rule.when == Some("confidence_below") && BelowThreshold(confidence, rule.threshold)))
  }

  /** The rule raises, which ends the scan with `False`. */
  predicate Aborts(rule: PolicyRule, noAnswer: bool, confidence: real)
  {
    rule.NotADict? ||
    (!(rule.when == Some("no_answer") && noAnswer && rule.action == Some("escalate"))
     && rule.when == Some("confidence_below") && rule.threshold.NotANumber?)
  }

  /** The `for rule in rules` scan. */
  function ScanRules(rules: seq<PolicyRule>, noAnswer: bool, confidence: real): bool
  {
    if rules == [] then false
    else if Fires(rules[0], noAnswer, confidence) then true
    else if Aborts(rules[0], noAnswer, confidence) then false
    else ScanRules(rules[1..], noAnswer, confidence)
  }

  /** Rule `i` fires and no rule before it raises. */
  predicate FiresFirst(rules: seq<PolicyRule>, i: int, noAnswer: bool, confidence: real)
  {
    0 <= i < |rules| && Fires(rules[i], noAnswer, confidence) &&
    forall j :: 0 <= j < i ==> !Aborts(rules[j], noAnswer, confidence)
  }

  /** A scan that answers `True` has found a rule that fires before any rule raises. */
  lemma {:induction false} ScanRulesFound(rules: seq<PolicyRule>, noAnswer: bool, confidence: real) returns (i: nat)
    requires ScanRules(rules, noAnswer, confidence)
    ensures FiresFirst(rules, i, noAnswer, confidence)
  {
    if Fires(rules[0], noAnswer, confidence) {
      i := 0;
    } else {
      var k := ScanRulesFound(rules[1..], noAnswer, confidence);
      i := k + 1;
      forall j | 0 <= j < i ensures !Aborts(rules[j], noAnswer, confidence) {
        if j > 0 {
          assert rules[j] == rules[1..][j - 1];
        }
      }
    }
  }

  /** A rule that fires before any rule raises makes the scan answer `True`. */
  lemma {:induction false} ScanRulesComplete(rules: seq<PolicyRule>, i: nat, noAnswer: bool, confidence: real)
    requires FiresFirst(rules, i, noAnswer, confidence)
    ensures ScanRules(rules, noAnswer, confidence)
  {
    if i > 0 && !Fires(rules[0], noAnswer, confidence) {
      var tail := rules[1..];
      assert !Aborts(rules[0], noAnswer, confidence);
      forall j | 0 <= j < i - 1 ensures !Aborts(tail[j], noAnswer, confidence) {
        assert tail[j] == rules[j + 1];
      }
      assert tail[i - 1] == rules[i];
      ScanRulesComplete(tail, i - 1, noAnswer, confidence);
    }
  }

  /** The scan answers `True` exactly when some rule fires before any rule raises. */
  lemma {:induction false} ScanRulesSpec(rules: seq<PolicyRule>, noAnswer: bool, confidence: real)
    ensures ScanRules(rules, noAnswer, confidence) <==> exists i :: FiresFirst(rules, i, noAnswer, confidence)
  {
    if ScanRules(rules, noAnswer, confidence) {
      var i := ScanRulesFound(rules, noAnswer, confidence);
    }
    if exists i :: FiresFirst(rules, i, noAnswer, confidence) {
      var i :| FiresFirst(rules, i, noAnswer, confidence);
      ScanRulesComplete(rules, i, noAnswer, confidence);
    }
  }

  /**
   * `_should_escalate_by_policy`; `parsePolicy` stands for `json.loads` and
   * answers `None` when that raises or yields something the loop cannot
   * scan (which, like an empty list, means no rule applies).
   */
  function ShouldEscalateByPolicy(noAnswer: bool, confidence: real, escalationPolicyJson: string,
                                  escalateOnNoAnswer: bool, confidenceThreshold: real,
                                  parsePolicy: string -> Option<seq<PolicyRule>>): (escalate: bool)
    ensures noAnswer && escalateOnNoAnswer ==> escalate
    ensures confidence < confidenceThreshold ==> escalate
    ensures escalate && !(noAnswer && escalateOnNoAnswer) && confidence >= confidenceThreshold ==>
      parsePolicy(if escalationPolicyJson == [] then "[]" else escalationPolicyJson).Some?
  {
    if noAnswer && escalateOnNoAnswer then true
    else if confidence < confidenceThreshold then true
    else
      match parsePolicy(if escalationPolicyJson == [] then "[]" else escalationPolicyJson)
        case None => false
        case Some(rules) => ScanRules(rules, noAnswer, confidence)
  }

  /**
   * The policy escalates exactly when a no-answer is configured to escalate,
   * when the confidence is under the threshold, or when the parsed rules
   * hold one that fires before any rule raises.
   */
  lemma {:induction false} ShouldEscalateByPolicySpec(noAnswer: bool, confidence: real, escalationPolicyJson: string,
                                                      escalateOnNoAnswer: bool, confidenceThreshold: real,
                                                      parsePolicy: string -> Option<seq<PolicyRule>>)
    ensures var parsed := parsePolicy(if escalationPolicyJson == [] then "[]" else escalationPolicyJson);
      ShouldEscalateByPolicy(noAnswer, confidence, escalationPolicyJson, escalateOnNoAnswer, confidenceThreshold, parsePolicy)
      <==>
      (noAnswer && escalateOnNoAnswer) || confidence < confidenceThreshold ||
      (parsed.Some? && exists i :: FiresFirst(parsed.value, i, noAnswer, confidence))
  {
    var parsed := parsePolicy(if escalationPolicyJson == [] then "[]" else escalationPolicyJson);
    if parsed.Some? {
      ScanRulesSpec(parsed.value, noAnswer, confidence);
    }
  }

  // ---------------------------------------------------------------------------
  // The two checks

  /** `check_input`: moderation only; never escalates, never a no-answer. */
  function CheckInput(text: string, apiKey: Option<string>, settings: Option<Settings>,
                      service: ModerationService): (r: GuardrailsResult)
    ensures var mod := CallModerationApi(text, ResolveKey(apiKey, settings), service);
      && (r.safe <==> mod.None? || !mod.value.flagged)
      && !r.escalate && !r.noAnswer
      && r.details == mod
      && (r.confidence == 1.0 <==> r.safe)
      && (r.confidence == 0.0 <==> !r.safe)
  {
    var key := ResolveKey(apiKey, settings);
    var mod := CallModerationApi(text, key, service);
    var safe := !(mod.Some? && mod.value.flagged);
    var confidence := if mod.Some? then ConfidenceFromModeration(mod) else 1.0;
    var reason :=
      if mod.None? && key == [] then "moderation_skipped_no_key"
      else if mod.Some? && mod.value.flagged then "content_safety_flagged"
      else "ok";
    GuardrailsResult(safe, false, confidence, reason, false, mod)
  }

  /** The input check's reason: no key, flagged, or ok. */
  lemma {:induction false} CheckInputReason(text: string, apiKey: Option<string>, settings: Option<Settings>,
                                            service: ModerationService)
    ensures var r := CheckInput(text, apiKey, settings, service);
      && (ResolveKey(apiKey, settings) == [] <==> r.reason == "moderation_skipped_no_key")
      && (r.reason == "content_safety_flagged" <==> !r.safe)
      && (r.reason == "ok" <==> r.safe && ResolveKey(apiKey, settings) != [])
  {
    var key := ResolveKey(apiKey, settings);
    if key == [] {
      assert IsBlank(key);
    }
  }

  /**
   * `check_output`: moderation decides `safe`, the override (when given)
   * decides the confidence, the no-answer patterns decide `no_answer`, and
   * the reason gives precedence to an unsafe text.  Never escalates.
   */
  function CheckOutput(text: string, confidenceOverride: Option<real>, apiKey: Option<string>,
                       settings: Option<Settings>, service: ModerationService, search: RegexSearch): (r: GuardrailsResult)
    ensures var mod := CallModerationApi(text, ResolveKey(apiKey, settings), service);
      && (r.safe <==> mod.None? || !mod.value.flagged)
      && !r.escalate
      && r.noAnswer == DetectNoAnswer(text, None, search)
      && (confidenceOverride.Some? ==> r.confidence == confidenceOverride.value)
      && (confidenceOverride.None? ==> (r.confidence == 1.0 <==> r.safe))
      && (r.reason == "content_safety_flagged" <==> !r.safe)
      && (r.reason == "no_answer" <==> r.safe && r.noAnswer)
      && (r.reason == "ok" <==> r.safe && !r.noAnswer)
      && r.details == mod
  {
    var key := ResolveKey(apiKey, settings);
    var mod := CallModerationApi(text, key, service);
    var safe := !(mod.Some? && mod.value.flagged);
    var confidence :=
      if confidenceOverride.Some? then confidenceOverride.value
      else if mod.Some? then ConfidenceFromModeration(mod) else 1.0;
    var noAnswer := DetectNoAnswer(text, None, search);
    var reason := if !safe then "content_safety_flagged" else if noAnswer then "no_answer" else "ok";
    GuardrailsResult(safe, false, confidence, reason, noAnswer, mod)
  }

  /**
   * Without a usable key the moderation service is never consulted: both
   * checks come out safe with full confidence (unless overridden), whatever
   * the service would have answered.
   */
  lemma {:induction false} BlankKeyFailsOpen(text: string, confidenceOverride: Option<real>, apiKey: Option<string>,
                                             settings: Option<Settings>, service1: ModerationService,
                                             service2: ModerationService, search: RegexSearch)
    requires IsBlank(ResolveKey(apiKey, settings))
    ensures CheckInput(text, apiKey, settings, service1) == CheckInput(text, apiKey, settings, service2)
    ensures CheckInput(text, apiKey, settings, service1).safe
    ensures CheckInput(text, apiKey, settings, service1).confidence == 1.0
    ensures CheckOutput(text, confidenceOverride, apiKey, settings, service1, search) ==
            CheckOutput(text, confidenceOverride, apiKey, settings, service2, search)
    ensures CheckOutput(text, confidenceOverride, apiKey, settings, service1, search).safe
    ensures confidenceOverride.None? ==> CheckOutput(text, confidenceOverride, apiKey, settings, service1, search).confidence == 1.0
  {
  }

  // ---------------------------------------------------------------------------
  // The policy tool

  /** `policy_check`: the output check for `check_type == "output"`, the input check for anything else. */
  function PolicyCheck(inputText: string, checkType: string, confidenceOverride: Option<real>,
                       apiKey: Option<string>, settings: Option<Settings>,
                       service: ModerationService, search: RegexSearch): (r: GuardrailsResult)
    ensures checkType == "output" ==> r == CheckOutput(inputText, confidenceOverride, apiKey, settings, service, search)
    ensures checkType != "output" ==> r == CheckInput(inputText, apiKey, settings, service)
    ensures !r.escalate
  {
    if checkType == "output" then CheckOutput(inputText, confidenceOverride, apiKey, settings, service, search)
    else CheckInput(inputText, apiKey, settings, service)
  }
}
