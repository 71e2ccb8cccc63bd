/**
 * The task classifier and the tier cascade.
 *
 * The classifier infers a task type from the caller's hint, else from the
 * built-in intent phrases, else from the policy's keywords, else falls back
 * to summarization. The cascade starts from the type's default tier and runs
 * four escalation steps; each step moves the tier only while it is not yet
 * `Strong` and records a reason code when it fires. The final tier is then
 * resolved to a model name.
 *
 * `DecideRoute` is the imperative cascade as written; `Decision` states its
 * outcome in closed form (which steps fire, and what the tier ends up as).
 */
module Router {
  import opened Common
  import opened Text
  import opened Schemas
  import opened Rules

  const HardReasoningKeywords: seq<string> := [
    "compare", "trade-off", "recommend", "decide", "why", "pros and cons",
    "strategy", "prioritize", "diagnose", "root cause"
  ]

  /** The built-in intent phrases, per task type, in declaration order. */
  const IntentVerbs: seq<(TaskType, seq<string>)> := [
    (ReasoningDecision, [
      "should we", "what should", "decide", "recommend", "trade-off",
      "pros and cons", "is it worth", "which option", "next step", "best next"]),
    (PlanningChecklist, [
      "plan", "roadmap", "steps", "how would you", "approach", "rollout",
      "ship", "milestones"]),
    (RewriteFormatting, [
      "rewrite", "rephrase", "clean this", "fix this", "make this", "polish",
      "professional"]),
    (ExtractionStructuring, [
      "extract", "pull out", "key info", "structure", "turn this into",
      "convert to", "json", "table"])
  ]

  const NoMatchReason: string := "no_intent_or_keyword_match"
  const UnknownModel: string := "UNKNOWN_MODEL"

  // ---------------------------------------------------------------------------
  // Matching
  // ---------------------------------------------------------------------------

  /** `_contains_any`: some keyword, lower-cased, occurs in the lower-cased text. */
  predicate ContainsAny(text: string, keywords: seq<string>) {
    exists i | 0 <= i < |keywords| :: Contains(Lower(text), Lower(keywords[i]))
  }

  /** Matching ignores the case of the text. */
  lemma ContainsAnyIgnoresCase(text: string, keywords: seq<string>)
    ensures ContainsAny(Lower(text), keywords) == ContainsAny(text, keywords)
  {
    LowerOfLower(text);
  }

  /** Matching is by substring: a keyword found in a text is still found once the text is embedded in a longer one. */
  lemma ContainsAnyGrows(before: string, text: string, after: string, keywords: seq<string>)
    requires ContainsAny(text, keywords)
    ensures ContainsAny(before + text + after, keywords)
  {
    var k :| 0 <= k < |keywords| && Contains(Lower(text), Lower(keywords[k]));
    var p := Lower(keywords[k]);
    var j :| 0 <= j <= |Lower(text)| - |p| && MatchesAt(Lower(text), p, j);
    LowerAppend(before + text, after);
    LowerAppend(before, text);
    var big := Lower(before) + Lower(text) + Lower(after);
    assert big[|before| + j..|before| + j + |p|] == Lower(text)[j..j + |p|];
    assert MatchesAt(Lower(before + text + after), p, |before| + j);
  }

  /** Phrase p occurs in the (already lower-cased) text t; with `fold` the phrase is lower-cased first. */
  predicate Hit(t: string, p: string, fold: bool) {
    Contains(t, if fold then Lower(p) else p)
  }

  /** A group's phrases, each paired with the group's key. */
  function Tag<K>(k: K, phrases: seq<string>): (r: seq<(K, string)>)
    ensures |r| == |phrases|
    ensures forall i | 0 <= i < |r| :: r[i] == (k, phrases[i])
  {
    seq(|phrases|, i requires 0 <= i < |phrases| => (k, phrases[i]))
  }

  /** All (key, phrase) pairs of a grouped table, in declaration order. */
  function Flatten<K>(groups: seq<(K, seq<string>)>): seq<(K, string)> {
    if groups == [] then [] else Tag(groups[0].0, groups[0].1) + Flatten(groups[1..])
  }

  /** The index of the first candidate whose phrase hits t, or |cands| when none does. */
  function FirstHit<K>(cands: seq<(K, string)>, t: string, fold: bool): (i: nat)
    ensures i <= |cands|
    ensures i < |cands| ==> Hit(t, cands[i].1, fold)
    ensures forall j | 0 <= j < i :: !Hit(t, cands[j].1, fold)
  {
    if cands == [] then 0
    else if Hit(t, cands[0].1, fold) then 0
    else 1 + FirstHit(cands[1..], t, fold)
  }

  /** FirstHit is the only index with its three properties. */
  lemma FirstHitUnique<K>(cands: seq<(K, string)>, t: string, fold: bool, i: nat)
    requires i <= |cands|
    requires i < |cands| ==> Hit(t, cands[i].1, fold)
    requires forall j | 0 <= j < i :: !Hit(t, cands[j].1, fold)
    ensures FirstHit(cands, t, fold) == i
  {
  }

  /** The first hit of a concatenation is the first hit of its left part, if any, else one of the right part. */
  lemma FirstHitAppend<K>(a: seq<(K, string)>, b: seq<(K, string)>, t: string, fold: bool)
    ensures FirstHit(a + b, t, fold) ==
      (var i := FirstHit(a, t, fold); if i < |a| then i else |a| + FirstHit(b, t, fold))
  {
    var i := FirstHit(a, t, fold);
    var expected := if i < |a| then i else |a| + FirstHit(b, t, fold);
    assert forall j | 0 <= j < |a| :: (a + b)[j] == a[j];
    assert forall j | |a| <= j < |a| + |b| :: (a + b)[j] == b[j - |a|];
    FirstHitUnique(a + b, t, fold, expected);
  }

  /**
   * The nested `for group: for phrase:` scan with early return. The result is
   * the first (key, phrase) pair of the flattened table whose phrase hits t,
   * so groups are tried in declaration order and, within a group, phrases are.
   */
  function ScanGroups<K>(groups: seq<(K, seq<string>)>, t: string, fold: bool): (r: Option<(K, string)>)
    ensures var flat := Flatten(groups);
            var i := FirstHit(flat, t, fold);
            r == if i < |flat| then Some(flat[i]) else None
  {
    if groups == [] then None
    else
      var phrases := groups[0].1;
      var tagged := Tag(groups[0].0, phrases);
      var j := FirstHit(tagged, t, fold);
      FirstHitAppend(tagged, Flatten(groups[1..]), t, fold);
      if j < |phrases| then Some((groups[0].0, phrases[j])) else ScanGroups(groups[1..], t, fold)
  }

  /** No candidate phrase hits t. */
  predicate NoHit<K>(cands: seq<(K, string)>, t: string, fold: bool) {
    forall i | 0 <= i < |cands| :: !Hit(t, cands[i].1, fold)
  }

  // ---------------------------------------------------------------------------
  // Task classifier
  // ---------------------------------------------------------------------------

  /**
   * `_infer_from_intent_verbs`: the first intent phrase, in declaration order,
   * that occurs in the lower-cased task (the phrases themselves are compared
   * as written), reported as `intent:<phrase>`.
   */
  function InferFromIntentVerbs(task: string): (r: Option<(TaskType, string)>)
    ensures var flat := Flatten(IntentVerbs);
            var i := FirstHit(flat, Lower(task), false);
            r == if i < |flat| then Some((flat[i].0, "intent:" + flat[i].1)) else None
    ensures r.None? <==> NoHit(Flatten(IntentVerbs), Lower(task), false)
  {
    match ScanGroups(IntentVerbs, Lower(task), false)
    case Some(m) => Some((m.0, "intent:" + m.1))
    case None => None
  }

  /** The policy's `task_types` keyword lists, in declaration order. */
  function KeywordGroups(policy: Policy): seq<(TaskType, seq<string>)> {
    seq(|policy.taskTypes|, i requires 0 <= i < |policy.taskTypes| =>
      (policy.taskTypes[i].0, policy.taskTypes[i].1.keywords))
  }

  /**
   * `_infer_task_type`: intent phrases first, then the policy's keywords
   * (lower-cased on both sides), then the fallback to summarization.
   */
  function InferTaskType(task: string, policy: Policy): (r: (TaskType, string))
    ensures InferFromIntentVerbs(task).Some? ==> r == InferFromIntentVerbs(task).value
    ensures InferFromIntentVerbs(task).None? ==>
      var flat := Flatten(KeywordGroups(policy));
      var i := FirstHit(flat, Lower(task), true);
      i < |flat| ==> r == (flat[i].0, "keyword:" + flat[i].1)
    ensures StartsWith(r.1, "intent:") <==> InferFromIntentVerbs(task).Some?
    ensures StartsWith(r.1, "keyword:") <==>
      InferFromIntentVerbs(task).None? && !NoHit(Flatten(KeywordGroups(policy)), Lower(task), true)
    ensures r.1 == NoMatchReason <==>
      NoHit(Flatten(IntentVerbs), Lower(task), false) && NoHit(Flatten(KeywordGroups(policy)), Lower(task), true)
    ensures r.1 == NoMatchReason ==> r.0 == Summarization
  {
    match InferFromIntentVerbs(task)
    case Some(m) =>
      PrefixesDiffer("intent:", "keyword:", m.1[7..], "");
      assert m.1 == "intent:" + m.1[7..];
      PrefixesDiffer("intent:", NoMatchReason, m.1[7..], "");
      assert NoMatchReason == NoMatchReason + "";
      m
    case None =>
      match ScanGroups(KeywordGroups(policy), Lower(task), true)
      case Some(hit) =>
        PrefixesDiffer("keyword:", "intent:", hit.1, "");
        PrefixesDiffer("keyword:", NoMatchReason, hit.1, "");
        assert NoMatchReason == NoMatchReason + "";
        (hit.0, "keyword:" + hit.1)
      case None =>
        PrefixesDiffer(NoMatchReason, "intent:", "", "");
        PrefixesDiffer(NoMatchReason, "keyword:", "", "");
        assert NoMatchReason + "" == NoMatchReason;
        (Summarization, NoMatchReason)
  }

  // ---------------------------------------------------------------------------
  // The cascade, in closed form
  // ---------------------------------------------------------------------------

  /** The escalation steps of the cascade, in the order they run. */
  datatype Step = HardReasoning | TypeKeywords | LongText | HighRisk

  /** The classification reason code chosen from the classifier's reason text. */
  function ClassificationCode(matchReason: string): ReasonCode {
    if StartsWith(matchReason, "intent:") then RuleIntentMatch
    else if StartsWith(matchReason, "keyword:") then RuleKeywordMatch
    else FallbackDefault
  }

  /** The task type, the first reason code and the start of the routing explanation. */
  function Classify(req: RouteRequest, policy: Policy): (TaskType, ReasonCode, string) {
    match req.taskTypeHint
    case Some(h) => (h, RuleTaskTypeDefault, "Used task_type_hint=" + h.Value())
    case None =>
      var (t, why) := InferTaskType(req.task, policy);
      (t, ClassificationCode(why), "Inferred task_type=" + t.Value() + " (" + why + ")")
  }

  /** The type's `default_tier`, else the policy's `default_model_tier`, else cheap. */
  function StartTier(policy: Policy, t: TaskType): ModelTier {
    var fallback := policy.defaultModelTier.GetOr(Cheap);
    match TaskTypeRulesOf(policy, t)
    case Some(cfg) => cfg.defaultTier.GetOr(fallback)
    case None => fallback
  }

  function EscalationKeywords(policy: Policy, t: TaskType): seq<string> {
    match TaskTypeRulesOf(policy, t)
    case Some(cfg) => cfg.escalateIfKeywords
    case None => []
  }

  predicate HardHit(task: string) {
    ContainsAny(task, HardReasoningKeywords)
  }

  predicate TypeHit(task: string, policy: Policy, t: TaskType) {
    var esc := EscalationKeywords(policy, t);
    |esc| > 0 && ContainsAny(task, esc)
  }

  predicate LongHit(task: string, policy: Policy) {
    |task| >= LongTextThreshold(policy)
  }

  /** The cascade reaches strong by a keyword step (or starts there). */
  predicate KeywordStrong(req: RouteRequest, policy: Policy, t: TaskType) {
    StartTier(policy, t) == Strong || HardHit(req.task) || TypeHit(req.task, policy, t)
  }

  /** Steps 3 and 4: at most one of the two keyword steps fires, and none from a strong start. */
  function KeywordSteps(req: RouteRequest, policy: Policy, t: TaskType): seq<Step> {
    if StartTier(policy, t) == Strong then []
    else if HardHit(req.task) then [HardReasoning]
    else if TypeHit(req.task, policy, t) then [TypeKeywords]
    else []
  }

  /** Steps 5 and 6 from a cheap tier: the risk step is skipped when the long-text step already reached strong. */
  function HeuristicSteps(req: RouteRequest, policy: Policy): seq<Step> {
    var long := LongHit(req.task, policy);
    (if long then [LongText] else [])
    + (if req.constraints.riskLevel == High && !(long && LongTextTarget(policy) == Strong) then [HighRisk] else [])
  }

  /**
   * The steps that fire, in order, when the cascade starts from `StartTier`:
   * a step fires only while the tier is not yet strong, so nothing fires from
   * a strong start, and only the long-text step can be followed by another
   * (when its configured target is cheap).
   */
  function Fired(req: RouteRequest, policy: Policy, t: TaskType): (steps: seq<Step>)
    ensures StartTier(policy, t) == Strong ==> steps == []
    ensures |steps| <= 2
    ensures forall i | 0 <= i < |steps| - 1 :: steps[i] == LongText && LongTextTarget(policy) == Cheap
  {
    if KeywordStrong(req, policy, t) then KeywordSteps(req, policy, t) else HeuristicSteps(req, policy)
  }

  /** The tier the cascade ends at: strong exactly when it starts strong or some strong-bound step applies. */
  function FinalTier(req: RouteRequest, policy: Policy, t: TaskType): ModelTier {
    var task := req.task;
    if StartTier(policy, t) == Strong || HardHit(task) || TypeHit(task, policy, t)
       || (LongHit(task, policy) && LongTextTarget(policy) == Strong)
       || req.constraints.riskLevel == High
    then Strong
    else Cheap
  }

  function StepCode(s: Step): ReasonCode {
    match s
    case HardReasoning => RuleKeywordMatch
    case TypeKeywords => RuleKeywordMatch
    case LongText => HeuristicLongText
    case HighRisk => RuleTaskTypeDefault
  }

  function StepNote(s: Step, policy: Policy): string {
    match s
    case HardReasoning => " | Escalated due to HARD_REASONING_KEYWORDS"
    case TypeKeywords => " | Escalated due to task_type escalation keywords"
    case LongText => " | Escalated due to long_text_chars>=" + IntToString(LongTextThreshold(policy))
    case HighRisk => " | Escalated due to risk_level=high"
  }

  function Codes(steps: seq<Step>): seq<ReasonCode> {
    if steps == [] then [] else [StepCode(steps[0])] + Codes(steps[1..])
  }

  function Notes(steps: seq<Step>, policy: Policy): string {
    if steps == [] then "" else StepNote(steps[0], policy) + Notes(steps[1..], policy)
  }

  /** `models.get(tier, {}).get("name", "UNKNOWN_MODEL")`. */
  function ResolveModelName(policy: Policy, tier: ModelTier): string {
    ModelName(policy, tier).GetOr(UnknownModel)
  }

  /** What `decide_route` returns, stated in closed form: one classification code, then one code per fired step. */
  function Decision(req: RouteRequest, policy: Policy): RouteDecision {
    var (t, code, prefix) := Classify(req, policy);
    var steps := Fired(req, policy, t);
    var tier := FinalTier(req, policy, t);
    RouteDecision(tier, ResolveModelName(policy, tier), t, [code] + Codes(steps), prefix + Notes(steps, policy))
  }

  /** A decision carries one to three reason codes. */
  lemma DecisionCodeCount(req: RouteRequest, policy: Policy)
    ensures 1 <= |Decision(req, policy).reasonCodes| <= 3
  {
    var d := Decision(req, policy);
    var steps := Fired(req, policy, d.taskType);
    CodesNotesOfFired(steps, policy);
  }

  /** A hint is used as given: it becomes the task type, reported with the default-rule code. */
  lemma DecisionUsesHint(req: RouteRequest, policy: Policy)
    requires req.taskTypeHint.Some?
    ensures var d := Decision(req, policy);
            d.taskType == req.taskTypeHint.value && d.reasonCodes[0] == RuleTaskTypeDefault
            && StartsWith(d.routingReason, "Used task_type_hint=" + d.taskType.Value())
  {
    var d := Decision(req, policy);
    var p := "Used task_type_hint=" + d.taskType.Value();
    assert d.routingReason == p + Notes(Fired(req, policy, d.taskType), policy);
    assert d.routingReason[..|p|] == p;
  }

  /** Without a hint, an intent phrase decides the type before any policy keyword is looked at. */
  lemma DecisionIntentFirst(req: RouteRequest, policy: Policy)
    requires req.taskTypeHint.None? && InferFromIntentVerbs(req.task).Some?
    ensures var d := Decision(req, policy);
            d.taskType == InferFromIntentVerbs(req.task).value.0 && d.reasonCodes[0] == RuleIntentMatch
  {
  }

  /**
   * Without a hint and with no intent phrase, the first policy keyword that
   * hits, groups and keywords taken in declaration order, decides the type,
   * with the keyword-match code and the keyword named in the explanation.
   */
  lemma DecisionKeyword(req: RouteRequest, policy: Policy)
    requires req.taskTypeHint.None? && InferFromIntentVerbs(req.task).None?
    requires FirstHit(Flatten(KeywordGroups(policy)), Lower(req.task), true) < |Flatten(KeywordGroups(policy))|
    ensures var flat := Flatten(KeywordGroups(policy));
            var hit := flat[FirstHit(flat, Lower(req.task), true)];
            var d := Decision(req, policy);
            d.taskType == hit.0 && d.reasonCodes[0] == RuleKeywordMatch
            && StartsWith(d.routingReason, "Inferred task_type=" + hit.0.Value() + " (keyword:" + hit.1 + ")")
  {
    var flat := Flatten(KeywordGroups(policy));
    var hit := flat[FirstHit(flat, Lower(req.task), true)];
    var why := "keyword:" + hit.1;
    assert InferTaskType(req.task, policy) == (hit.0, why);
    PrefixesDiffer("keyword:", "intent:", hit.1, "");
    assert StartsWith(why, "keyword:") by { assert why[..8] == "keyword:"; }
    var p := "Inferred task_type=" + hit.0.Value() + " (" + why + ")";
    assert "Inferred task_type=" + hit.0.Value() + " (keyword:" + hit.1 + ")" == p;
    assert Classify(req, policy) == (hit.0, RuleKeywordMatch, p);
    var d := Decision(req, policy);
    assert d.routingReason == p + Notes(Fired(req, policy, hit.0), policy);
    assert d.routingReason[..|p|] == p;
  }

  /** Without a hint and with nothing matching, the request is summarization with the fallback code. */
  lemma DecisionFallback(req: RouteRequest, policy: Policy)
    requires req.taskTypeHint.None?
    requires NoHit(Flatten(IntentVerbs), Lower(req.task), false)
    requires NoHit(Flatten(KeywordGroups(policy)), Lower(req.task), true)
    ensures var d := Decision(req, policy);
            d.taskType == Summarization && d.reasonCodes[0] == FallbackDefault
  {
    var why := InferTaskType(req.task, policy).1;
    assert why == NoMatchReason;
    assert !StartsWith(why, "intent:") && !StartsWith(why, "keyword:");
  }

  /** A type whose default tier is strong stays strong and gains no escalation code. */
  lemma DecisionStrongStart(req: RouteRequest, policy: Policy)
    requires StartTier(policy, Decision(req, policy).taskType) == Strong
    ensures Decision(req, policy).chosenTier == Strong
    ensures |Decision(req, policy).reasonCodes| == 1
  {
    var d := Decision(req, policy);
    assert Fired(req, policy, d.taskType) == [];
  }

  /** Hard-reasoning keywords and high risk always end on the strong tier. */
  lemma DecisionEscalates(req: RouteRequest, policy: Policy)
    requires HardHit(req.task) || req.constraints.riskLevel == High
    ensures Decision(req, policy).chosenTier == Strong
  {
  }

  /**
   * The tier is cheap only when the type starts cheap and no step that moves
   * to strong applies; then the codes after the classification code are at
   * most the long-text one (with a cheap target).
   */
  lemma DecisionCheap(req: RouteRequest, policy: Policy)
    requires Decision(req, policy).chosenTier == Cheap
    ensures var d := Decision(req, policy);
            StartTier(policy, d.taskType) == Cheap && !HardHit(req.task)
            && !TypeHit(req.task, policy, d.taskType) && req.constraints.riskLevel != High
            && d.reasonCodes[1..] == (if LongHit(req.task, policy) then [HeuristicLongText] else [])
            && (LongHit(req.task, policy) ==> LongTextTarget(policy) == Cheap)
  {
    var d := Decision(req, policy);
    var steps := Fired(req, policy, d.taskType);
    CodesNotesOfFired(steps, policy);
  }

  /** The model name is the policy's name for the final tier, or `UNKNOWN_MODEL` when it has none. */
  lemma DecisionModelName(req: RouteRequest, policy: Policy)
    ensures var d := Decision(req, policy);
            d.chosenModelName == (if ModelName(policy, d.chosenTier).Some? then ModelName(policy, d.chosenTier).value
                                  else UnknownModel)
  {
  }

  /** The comparison task the repository's smoke test sends as its "strong model" case. */
  const CompareExample: string :=
    "Compare" + " two LLM routing strategies and recommend one for production, explaining trade-offs."

  /** That task goes to the strong tier under every policy: it opens with a hard-reasoning keyword. */
  lemma CompareExampleIsStrong(policy: Policy)
    ensures Decision(RouteRequest(CompareExample, constraints := RouteConstraints(riskLevel := Medium),
                                  execute := false), policy).chosenTier == Strong
  {
    var head := "Compare";
    var rest := " two LLM routing strategies and recommend one for production, explaining trade-offs.";
    assert Lower(head) == HardReasoningKeywords[0];
    assert MatchesAt(Lower(head), Lower(HardReasoningKeywords[0]), 0);
    ContainsAnyGrows("", head, rest, HardReasoningKeywords);
    assert "" + head + rest == CompareExample;
    DecisionEscalates(RouteRequest(CompareExample, constraints := RouteConstraints(riskLevel := Medium),
                                   execute := false), policy);
  }

  // ---------------------------------------------------------------------------
  // The cascade, as written
  // ---------------------------------------------------------------------------

  /** Step 1 of `decide_route`: the hint if given, else the classifier, with the matching reason code and text. */
  method ClassifyTask(req: RouteRequest, policy: Policy) returns (taskType: TaskType, code: ReasonCode, routingReason: string)
    ensures (taskType, code, routingReason) == Classify(req, policy)
  {
    if req.taskTypeHint.Some? {
      taskType := req.taskTypeHint.value;
      code := RuleTaskTypeDefault;
      routingReason := "Used task_type_hint=" + taskType.Value();
    } else {
      var inferred := InferTaskType(req.task, policy);
      var matchReason := inferred.1;
      taskType := inferred.0;
      if StartsWith(matchReason, "intent:") {
        code := RuleIntentMatch;
      } else if StartsWith(matchReason, "keyword:") {
        code := RuleKeywordMatch;
      } else {
        code := FallbackDefault;
      }
      routingReason := "Inferred task_type=" + taskType.Value() + " (" + matchReason + ")";
    }
  }

  /** Steps 3 and 4 of `decide_route`: the generic hard-reasoning keywords, then the type's escalation keywords. */
  method EscalateOnKeywords(req: RouteRequest, policy: Policy, taskType: TaskType, ttCfg: Option<TaskTypeRules>,
                            tierIn: ModelTier, codesIn: seq<ReasonCode>, reasonIn: string)
    returns (chosenTier: ModelTier, reasonCodes: seq<ReasonCode>, routingReason: string)
    requires ttCfg == TaskTypeRulesOf(policy, taskType) && tierIn == StartTier(policy, taskType)
    ensures chosenTier == (if KeywordStrong(req, policy, taskType) then Strong else tierIn)
    ensures reasonCodes == codesIn + Codes(KeywordSteps(req, policy, taskType))
    ensures routingReason == reasonIn + Notes(KeywordSteps(req, policy, taskType), policy)
  {
    var taskText := req.task;
    chosenTier, reasonCodes, routingReason := tierIn, codesIn, reasonIn;
    // At most one of the two steps fires: the first one already reaches the strong tier.
    ghost var steps: seq<Step> := [];

    // 3) Hard-reasoning keywords
    if ContainsAny(taskText, HardReasoningKeywords) && chosenTier != Strong {
      chosenTier := Strong;
      reasonCodes := reasonCodes + [RuleKeywordMatch];
      routingReason := routingReason + " | Escalated due to HARD_REASONING_KEYWORDS";
      steps := [HardReasoning];
    }

    // 4) Task-type escalation keywords
    var escKeywords := if ttCfg.Some? then ttCfg.value.escalateIfKeywords else [];
    assert escKeywords == EscalationKeywords(policy, taskType);
    if |escKeywords| > 0 && ContainsAny(taskText, escKeywords) && chosenTier != Strong {
      chosenTier := Strong;
      reasonCodes := reasonCodes + [RuleKeywordMatch];
      routingReason := routingReason + " | Escalated due to task_type escalation keywords";
      steps := [TypeKeywords];
    }
    assert steps == KeywordSteps(req, policy, taskType);
    if steps == [] {
      assert reasonCodes == codesIn + Codes(steps) && routingReason == reasonIn + Notes(steps, policy);
    } else {
      CodesNotesOfFired(steps, policy);
    }
  }

  /** Steps 5 and 6 of `decide_route`: the long-text heuristic, then the risk level. */
  method EscalateOnHeuristics(req: RouteRequest, policy: Policy,
                              tierIn: ModelTier, codesIn: seq<ReasonCode>, reasonIn: string)
    returns (chosenTier: ModelTier, reasonCodes: seq<ReasonCode>, routingReason: string)
    ensures tierIn == Strong ==> chosenTier == Strong && reasonCodes == codesIn && routingReason == reasonIn
    ensures tierIn == Cheap ==>
      chosenTier == (if (LongHit(req.task, policy) && LongTextTarget(policy) == Strong)
                        || req.constraints.riskLevel == High then Strong else Cheap)
      && reasonCodes == codesIn + Codes(HeuristicSteps(req, policy))
      && routingReason == reasonIn + Notes(HeuristicSteps(req, policy), policy)
  {
    var taskText := req.task;
    chosenTier, reasonCodes, routingReason := tierIn, codesIn, reasonIn;
    ghost var steps: seq<Step> := [];
    assert reasonCodes == codesIn + Codes(steps) && routingReason == reasonIn + Notes(steps, policy);

    // 5) Long text
    var threshold := LongTextThreshold(policy);
    if |taskText| >= threshold && chosenTier != Strong {
      chosenTier := LongTextTarget(policy);
      reasonCodes := reasonCodes + [HeuristicLongText];
      routingReason := routingReason + " | Escalated due to long_text_chars>=" + IntToString(threshold);
      CodesNotesSnoc(steps, LongText, policy);
      AppendAssoc(codesIn, Codes(steps), [StepCode(LongText)]);
      AppendAssoc(reasonIn, Notes(steps, policy), StepNote(LongText, policy));
      steps := steps + [LongText];
    }
    assert reasonCodes == codesIn + Codes(steps) && routingReason == reasonIn + Notes(steps, policy);

    // 6) Risk level
    if req.constraints.riskLevel == High && chosenTier != Strong {
      chosenTier := Strong;
      reasonCodes := reasonCodes + [RuleTaskTypeDefault];
      routingReason := routingReason + " | Escalated due to risk_level=high";
      CodesNotesSnoc(steps, HighRisk, policy);
      AppendAssoc(codesIn, Codes(steps), [StepCode(HighRisk)]);
      AppendAssoc(reasonIn, Notes(steps, policy), StepNote(HighRisk, policy));
      steps := steps + [HighRisk];
    }
    assert tierIn == Cheap ==> steps == HeuristicSteps(req, policy);
  }

  /** Steps 2 to 6 of `decide_route`: the type's start tier, then the keyword and the heuristic escalations. */
  method Escalate(req: RouteRequest, policy: Policy, taskType: TaskType, codesIn: seq<ReasonCode>, reasonIn: string)
    returns (chosenTier: ModelTier, reasonCodes: seq<ReasonCode>, routingReason: string)
    ensures chosenTier == FinalTier(req, policy, taskType)
    ensures reasonCodes == codesIn + Codes(Fired(req, policy, taskType))
    ensures routingReason == reasonIn + Notes(Fired(req, policy, taskType), policy)
  {
    // 2) Default tier by task type
    var ttCfg := TaskTypeRulesOf(policy, taskType);
    var fallback := policy.defaultModelTier.GetOr(Cheap);
    chosenTier := if ttCfg.Some? then ttCfg.value.defaultTier.GetOr(fallback) else fallback;

    chosenTier, reasonCodes, routingReason :=
      EscalateOnKeywords(req, policy, taskType, ttCfg, chosenTier, codesIn, reasonIn);
    if !KeywordStrong(req, policy, taskType) {
      assert KeywordSteps(req, policy, taskType) == [];
      assert reasonCodes == codesIn && routingReason == reasonIn;
    }
    chosenTier, reasonCodes, routingReason :=
      EscalateOnHeuristics(req, policy, chosenTier, reasonCodes, routingReason);
  }

  /** `decide_route`: the classification, then the escalation cascade, then the model name. */
  method DecideRoute(req: RouteRequest, policy: Policy) returns (d: RouteDecision)
    ensures d == Decision(req, policy)
  {
    var reasonCodes: seq<ReasonCode> := [];

    // 1) Task type
    var taskType, firstCode, routingReason := ClassifyTask(req, policy);
    reasonCodes := reasonCodes + [firstCode];
    assert reasonCodes == [firstCode];
    ghost var prefix := routingReason;

    // 2) to 6) Start tier and escalation
    var chosenTier;
    chosenTier, reasonCodes, routingReason := Escalate(req, policy, taskType, reasonCodes, routingReason);

    // 7) Tier to model name
    var chosenModelName := match Lookup(policy.models, chosenTier)
      case Some(m) => m.name.GetOr(UnknownModel)
      case None => UnknownModel;
    assert chosenModelName == ResolveModelName(policy, chosenTier);

    d := RouteDecision(chosenTier, chosenModelName, taskType, reasonCodes, routingReason);
    ghost var steps := Fired(req, policy, taskType);
    assert d == RouteDecision(FinalTier(req, policy, taskType), ResolveModelName(policy, FinalTier(req, policy, taskType)),
                              taskType, [firstCode] + Codes(steps), prefix + Notes(steps, policy));
  }

  lemma AppendAssoc<T>(a: seq<T>, b: seq<T>, c: seq<T>)
    ensures (a + b) + c == a + (b + c)
  {
  }

  lemma {:induction false} CodesSnoc(steps: seq<Step>, s: Step)
    ensures Codes(steps + [s]) == Codes(steps) + [StepCode(s)]
  {
    if steps == [] {
      assert [] + [s] == [s];
    } else {
      assert (steps + [s])[1..] == steps[1..] + [s];
      CodesSnoc(steps[1..], s);
    }
  }

  lemma {:induction false} NotesSnoc(steps: seq<Step>, s: Step, policy: Policy)
    ensures Notes(steps + [s], policy) == Notes(steps, policy) + StepNote(s, policy)
  {
    if steps == [] {
      assert [] + [s] == [s];
      assert Notes([s], policy) == StepNote(s, policy) + Notes([], policy);
    } else {
      assert (steps + [s])[1..] == steps[1..] + [s];
      NotesSnoc(steps[1..], s, policy);
    }
  }

  lemma CodesNotesSnoc(steps: seq<Step>, s: Step, policy: Policy)
    ensures Codes(steps + [s]) == Codes(steps) + [StepCode(s)]
    ensures Notes(steps + [s], policy) == Notes(steps, policy) + StepNote(s, policy)
  {
    CodesSnoc(steps, s);
    NotesSnoc(steps, s, policy);
  }

  /** Codes and notes of the step sequences the cascade can produce, spelled out. */
  lemma CodesNotesOfFired(steps: seq<Step>, policy: Policy)
    requires |steps| <= 2
    ensures |steps| == 0 ==> Codes(steps) == [] && Notes(steps, policy) == ""
    ensures |steps| == 1 ==> Codes(steps) == [StepCode(steps[0])] && Notes(steps, policy) == StepNote(steps[0], policy)
    ensures |steps| == 2 ==>
      Codes(steps) == [StepCode(steps[0]), StepCode(steps[1])] && Notes(steps, policy) == StepNote(steps[0], policy) + StepNote(steps[1], policy)
  {
    if |steps| >= 1 {
      assert Codes(steps) == [StepCode(steps[0])] + Codes(steps[1..]);
      assert Notes(steps, policy) == StepNote(steps[0], policy) + Notes(steps[1..], policy);
    }
    if |steps| == 2 {
      assert steps[1..][1..] == [];
      assert Codes(steps[1..]) == [StepCode(steps[1])] + Codes(steps[1..][1..]);
      assert Notes(steps[1..], policy) == StepNote(steps[1], policy) + Notes(steps[1..][1..], policy);
    }
  }
}
