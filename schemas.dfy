/**
 * The request, decision and response records of the routing service, with
 * the defaults and constraints their schema declares. Every closed string
 * literal set of the schema is a datatype here, so an unhandled case is a
 * resolution error rather than a silent default.
 */
module Schemas {
  import opened Common

  datatype TaskType =
    | Summarization
    | ExtractionStructuring
    | RewriteFormatting
    | PlanningChecklist
    | ReasoningDecision
  {
    /** The enum's string value (`TaskType.value`). */
    function Value(): string {
      match this
      case Summarization => "summarization"
      case ExtractionStructuring => "extraction_structuring"
      case RewriteFormatting => "rewrite_formatting"
      case PlanningChecklist => "planning_checklist"
      case ReasoningDecision => "reasoning_decision"
    }
  }

  /** The two cost/quality tiers; `Strong` is the top of the order. */
  datatype ModelTier = Cheap | Strong

  datatype ExecutionMode = Direct | CheapFirstVerify

  datatype RiskLevel = Low | Medium | High

  datatype OutputFormat = TextFormat | JsonFormat

  /** A task text: the schema rejects an empty one before any routing happens. */
  type TaskText = s: string | |s| >= 1 witness "?"

  datatype OutputSpec = OutputSpec(
    outputFormat: OutputFormat := TextFormat,
    requiredJsonKeys: seq<string> := [],
    maxWords: Option<int> := None)

  /** The cost and latency caps are advisory: nothing in the core reads them. */
  datatype RouteConstraints = RouteConstraints(
    maxCost: Option<real> := None,
    maxLatencyMs: Option<int> := None,
    riskLevel: RiskLevel := Low)

  datatype RouteRequest = RouteRequest(
    task: TaskText,
    taskTypeHint: Option<TaskType> := None,
    constraints: RouteConstraints := RouteConstraints(),
    execute: bool := true,
    executionMode: ExecutionMode := Direct,
    outputSpec: OutputSpec := OutputSpec())

  /** The reason codes a decision may carry (`reason_codes` entries). */
  datatype ReasonCode =
    | RuleTaskTypeDefault
    | RuleIntentMatch
    | RuleKeywordMatch
    | FallbackDefault
    | HeuristicLongText
  {
    function Name(): string {
      match this
      case RuleTaskTypeDefault => "RULE_TASK_TYPE_DEFAULT"
      case RuleIntentMatch => "RULE_INTENT_MATCH"
      case RuleKeywordMatch => "RULE_KEYWORD_MATCH"
      case FallbackDefault => "FALLBACK_DEFAULT"
      case HeuristicLongText => "HEURISTIC_LONG_TEXT"
    }
  }

  datatype RouteDecision = RouteDecision(
    chosenTier: ModelTier,
    chosenModelName: string,
    taskType: TaskType,
    reasonCodes: seq<ReasonCode>,
    routingReason: string)

  datatype UsageStats = UsageStats(
    inputTokens: Option<int> := None,
    outputTokens: Option<int> := None,
    totalTokens: Option<int> := None)

  datatype RouteResponse = RouteResponse(
    requestId: string,
    decision: RouteDecision,
    answer: Option<string> := None,
    latencyMs: Option<int> := None,
    usage: Option<UsageStats> := None,
    escalated: bool := false,
    escalationReason: Option<string> := None,
    finalModelName: Option<string> := None)

  /** A request that gives only its task text gets the schema's defaults for every other field. */
  function MinimalRequest(task: TaskText): (r: RouteRequest)
    ensures r.task == task && r.taskTypeHint.None?
    ensures r.constraints.riskLevel == Low && r.constraints.maxCost.None? && r.constraints.maxLatencyMs.None?
    ensures r.execute && r.executionMode == Direct
    ensures r.outputSpec.outputFormat == TextFormat && r.outputSpec.requiredJsonKeys == []
    ensures r.outputSpec.maxWords.None?
  {
    RouteRequest(task)
  }

  /** The fields a response takes when the handler sets only its identifier and decision. */
  function BareResponse(requestId: string, decision: RouteDecision): (r: RouteResponse)
    ensures r.requestId == requestId && r.decision == decision
    ensures r.answer.None? && r.latencyMs.None? && r.usage.None?
    ensures !r.escalated && r.escalationReason.None? && r.finalModelName.None?
  {
    RouteResponse(requestId, decision)
  }
}
