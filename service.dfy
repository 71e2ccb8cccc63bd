/**
 * The `/route` request handler: decide, then (unless only the decision is
 * asked for) call the chosen model through the cache, validate the answer in
 * the cheap-first-verify mode, escalate once to the strong model when the
 * answer fails, log one record and build the response.
 *
 * `RouteSpec` states the whole effect of one request on the world the
 * handler sees (the cache store, the calls the backend received, the log);
 * `Route` is the handler as written, over the cache, backend and log
 * objects, and is proved to have exactly that effect. The unique request
 * identifier, the hash function, the JSON parser, the current time and the
 * elapsed time of the request are parameters.
 */
module Service {
  import opened Common
  import opened Schemas
  import opened Rules
  import opened Router
  import opened Cache
  import opened Validators
  import opened Effects

  const SystemText: string :=
    "You are a reliable assistant. Follow instructions carefully. "
    + "If the user asks for structured output, comply strictly."

  /** The task types the cheap-first-verify mode starts on the cheap model. */
  const CheapFirstTypes: set<TaskType> := {Summarization, ExtractionStructuring, RewriteFormatting}

  /** What the cache holds for one model call. */
  datatype CachedReply = CachedReply(answer: string, usage: UsageStats)

  /** What `call_with_cache` returns. */
  datatype CallResult = CallResult(answer: string, latencyMs: nat, usage: UsageStats, hit: bool)

  /** Why a request ends in a server error: the backend gave up, or the policy lacks a model the handler looks up strictly. */
  datatype RouteError = BackendFailure | MissingModelName(tier: ModelTier)

  /** Everything one request can change. */
  datatype World = World(items: seq<Entry<CachedReply>>, calls: seq<ChatCall>, records: seq<AuditRecord>)

  /** Everything one request reads but cannot change. */
  datatype Env = Env(
    ttl: int,
    maxItems: int,
    script: (nat, ChatCall) -> ChatOutcome,
    sha256: string -> string,
    loads: string -> Option<Json>)

  /** The result of the model-calling part of a request, before it is logged. */
  datatype Outcome = Outcome(
    answer: string,
    llmLatencyMs: nat,
    usage: UsageStats,
    finalModel: string,
    escalated: bool,
    escalationReason: Option<string>,
    hitFirst: bool,
    hitEscalation: bool)

  // ---------------------------------------------------------------------------
  // Specification
  // ---------------------------------------------------------------------------

  function CacheKey(env: Env, model: string, task: string): string {
    MakeKey(model, SystemText, task, env.sha256)
  }

  /**
   * `call_with_cache(model)`: a fresh cache entry answers with zero latency;
   * otherwise the backend is called, its reply is cached, and a stale entry
   * the lookup found is gone either way.
   */
  function CachedCall(env: Env, w: World, model: string, task: string, now: real): (Result<CallResult, RouteError>, World) {
    var key := CacheKey(env, model, task);
    var items := AfterGet(w.items, key, now, env.ttl);
    match Fetch(w.items, key, now, env.ttl)
    case Some(c) => (Ok(CallResult(c.answer, 0, c.usage, true)), w.(items := items))
    case None =>
      var call := ChatCall(model, task, SystemText);
      var w1 := w.(items := items, calls := w.calls + [call]);
      match env.script(|w.calls|, call)
      case Failed => (Err(BackendFailure), w1)
      case Replied(a, l, u) =>
        (Ok(CallResult(a, l, u, false)), w1.(items := AfterSet(items, key, CachedReply(a, u), now, env.maxItems)))
  }

  /** The first model: the decision's, except that cheap-first-verify starts the cheap-first types on the cheap model. */
  function InitialModel(policy: Policy, req: RouteRequest, decision: RouteDecision): Result<string, RouteError> {
    if req.executionMode == CheapFirstVerify && decision.taskType in CheapFirstTypes then
      match ModelName(policy, Cheap)
      case Some(n) => Ok(n)
      case None => Err(MissingModelName(Cheap))
    else
      Ok(decision.chosenModelName)
  }

  function Validate(env: Env, req: RouteRequest, answer: string): (bool, string) {
    ValidateOutput(answer, req.outputSpec.outputFormat, req.outputSpec.requiredJsonKeys,
                   req.outputSpec.maxWords, env.loads)
  }

  /**
   * After a first answer `c1` from model `m`: cheap-first-verify validates it,
   * and a failing answer is re-asked once of the strong model unless `m`
   * already is that model.
   */
  function AfterFirst(env: Env, policy: Policy, req: RouteRequest, m: string, c1: CallResult, w1: World, now: real)
    : (Result<Outcome, RouteError>, World)
  {
    var plain := Outcome(c1.answer, c1.latencyMs, c1.usage, m, false, None, c1.hit, false);
    if req.executionMode != CheapFirstVerify then (Ok(plain), w1)
    else
      var (ok, reason) := Validate(env, req, c1.answer);
      if ok then (Ok(plain), w1)
      else
        match ModelName(policy, Strong)
        case None => (Err(MissingModelName(Strong)), w1)
        case Some(strong) =>
          if m == strong then (Ok(plain), w1)
          else
            var (second, w2) := CachedCall(env, w1, strong, req.task, now);
            match second
            case Err(e) => (Err(e), w2)
            case Ok(c2) =>
              (Ok(Outcome(c2.answer, c2.latencyMs, c2.usage, strong, true, Some(reason), c1.hit, c2.hit)), w2)
  }

  /** The model calls of an executing request: the first call, then at most one escalation. */
  function Execute(env: Env, policy: Policy, req: RouteRequest, decision: RouteDecision, w: World, now: real)
    : (Result<Outcome, RouteError>, World)
  {
    match InitialModel(policy, req, decision)
    case Err(e) => (Err(e), w)
    case Ok(m) =>
      var (first, w1) := CachedCall(env, w, m, req.task, now);
      match first
      case Err(e) => (Err(e), w1)
      case Ok(c1) => AfterFirst(env, policy, req, m, c1, w1, now)
  }

  function ExecuteRecordOf(req: RouteRequest, decision: RouteDecision, requestId: string, total: int, o: Outcome)
    : AuditRecord
  {
    ExecuteRecord(requestId, req.executionMode, |req.task|, req.taskTypeHint, req.constraints.riskLevel,
                  decision, o.finalModel, o.escalated, o.escalationReason, o.hitFirst, o.hitEscalation,
                  o.llmLatencyMs, total, o.usage, |o.answer|)
  }

  function ExecuteResponse(decision: RouteDecision, requestId: string, total: int, o: Outcome): RouteResponse {
    RouteResponse(requestId, decision, Some(o.answer), Some(total), Some(o.usage),
                  o.escalated, o.escalationReason, Some(o.finalModel))
  }

  /**
   * The effect of one `/route` request whose routing decision is `decision`:
   * its response (or error) and the world after it.
   */
  function RouteSpec(env: Env, policy: Policy, req: RouteRequest, decision: RouteDecision, w: World,
                     requestId: string, now: real, elapsedMs: nat): (Result<RouteResponse, RouteError>, World)
  {
    if !req.execute then
      var rec := DecisionOnlyRecord(requestId, |req.task|, req.taskTypeHint, req.constraints.riskLevel,
                                    decision, elapsedMs);
      (Ok(RouteResponse(requestId, decision, None, Some(elapsedMs), None, false, None, None)),
       w.(records := w.records + [rec]))
    else
      var (o, w1) := Execute(env, policy, req, decision, w, now);
      match o
      case Err(e) => (Err(e), w1)
      case Ok(out) =>
        var total := Max(1, elapsedMs);
        (Ok(ExecuteResponse(decision, requestId, total, out)),
         w1.(records := w1.records + [ExecuteRecordOf(req, decision, requestId, total, out)]))
  }

  // ---------------------------------------------------------------------------
  // The handler
  // ---------------------------------------------------------------------------

  /** `call_with_cache(model_name)` over the cache and backend objects. */
  method CallWithCache(cache: TTLCache<CachedReply>, client: ChatClient, model: string, task: string,
                       now: real, sha256: string -> string, ghost loads: string -> Option<Json>,
                       ghost records: seq<AuditRecord>)
    returns (r: Result<CallResult, RouteError>)
    requires cache.Valid()
    modifies cache, client
    ensures cache.Valid()
    ensures var env := Env(cache.ttl, cache.maxItems, client.script, sha256, loads);
            (r, World(cache.items, client.calls, records))
            == CachedCall(env, World(old(cache.items), old(client.calls), records), model, task, now)
  {
    var cacheKey := MakeKey(model, SystemText, task, sha256);
    var cached := cache.Get(cacheKey, now);
    if cached.Some? {
      return Ok(CallResult(cached.value.answer, 0, cached.value.usage, true));
    }
    var outcome := client.Chat(model, task, SystemText);
    if outcome.Failed? {
      return Err(BackendFailure);
    }
    cache.Set(cacheKey, CachedReply(outcome.answer, outcome.usage), now);
    return Ok(CallResult(outcome.answer, outcome.latencyMs, outcome.usage, false));
  }

  /** Validation and escalation in `route(req)`, after the first answer `first` from `model`. */
  method ValidateAndEscalate(req: RouteRequest, policy: Policy, model: string, first: CallResult,
                             cache: TTLCache<CachedReply>, client: ChatClient, now: real,
                             sha256: string -> string, loads: string -> Option<Json>, ghost records: seq<AuditRecord>)
    returns (r: Result<Outcome, RouteError>)
    requires cache.Valid()
    modifies cache, client
    ensures cache.Valid()
    ensures var env := Env(cache.ttl, cache.maxItems, client.script, sha256, loads);
            (r, World(cache.items, client.calls, records))
            == AfterFirst(env, policy, req, model, first, World(old(cache.items), old(client.calls), records), now)
  {
    ghost var env := Env(cache.ttl, cache.maxItems, client.script, sha256, loads);
    ghost var w1 := World(cache.items, client.calls, records);
    var escalated := false;
    var escalationReason: Option<string> := None;
    var cacheHitEscalation := false;
    var answer, llmLatencyMs, usage := first.answer, first.latencyMs, first.usage;
    var finalModel := model;
    if req.executionMode == CheapFirstVerify {
      var verdict := ValidateOutput(answer, req.outputSpec.outputFormat, req.outputSpec.requiredJsonKeys,
                                    req.outputSpec.maxWords, loads);
      assert verdict == Validate(env, req, answer);
      var ok, reason := verdict.0, verdict.1;
      if !ok {
        var strong := ModelName(policy, Strong);
        if strong.None? {
          return Err(MissingModelName(Strong));
        }
        if finalModel != strong.value {
          escalated := true;
          escalationReason := Some(reason);
          var second := CallWithCache(cache, client, strong.value, req.task, now, sha256, loads, records);
          assert (second, World(cache.items, client.calls, records))
                 == CachedCall(env, w1, strong.value, req.task, now);
          if second.Err? {
            return Err(second.error);
          }
          answer, llmLatencyMs, usage, cacheHitEscalation :=
            second.value.answer, second.value.latencyMs, second.value.usage, second.value.hit;
          finalModel := strong.value;
        }
      }
    }
    r := Ok(Outcome(answer, llmLatencyMs, usage, finalModel, escalated, escalationReason,
                    first.hit, cacheHitEscalation));
  }

  /** The model-calling part of `route(req)`: the initial model, the first call, and the escalation. */
  method ExecuteCalls(req: RouteRequest, policy: Policy, decision: RouteDecision,
                      cache: TTLCache<CachedReply>, client: ChatClient, now: real,
                      sha256: string -> string, loads: string -> Option<Json>, ghost records: seq<AuditRecord>)
    returns (r: Result<Outcome, RouteError>)
    requires cache.Valid()
    modifies cache, client
    ensures cache.Valid()
    ensures var env := Env(cache.ttl, cache.maxItems, client.script, sha256, loads);
            (r, World(cache.items, client.calls, records))
            == Execute(env, policy, req, decision, World(old(cache.items), old(client.calls), records), now)
  {
    ghost var env := Env(cache.ttl, cache.maxItems, client.script, sha256, loads);
    ghost var w0 := World(cache.items, client.calls, records);

    // Initial model
    var initialModel := decision.chosenModelName;
    if req.executionMode == CheapFirstVerify {
      if decision.taskType in CheapFirstTypes {
        var cheap := ModelName(policy, Cheap);
        if cheap.None? {
          return Err(MissingModelName(Cheap));
        }
        initialModel := cheap.value;
      }
    }
    assert InitialModel(policy, req, decision) == Ok(initialModel);

    // First call
    var first := CallWithCache(cache, client, initialModel, req.task, now, sha256, loads, records);
    assert (first, World(cache.items, client.calls, records)) == CachedCall(env, w0, initialModel, req.task, now);
    if first.Err? {
      return Err(first.error);
    }
    r := ValidateAndEscalate(req, policy, initialModel, first.value, cache, client, now, sha256, loads, records);
  }

  /** `route(req)`: the handler as written, over the cache, the backend and the log. */
  method Route(req: RouteRequest, policy: Policy, cache: TTLCache<CachedReply>, client: ChatClient, log: AuditLog,
               requestId: string, now: real, elapsedMs: nat,
               sha256: string -> string, loads: string -> Option<Json>)
    returns (r: Result<RouteResponse, RouteError>)
    requires cache.Valid()
    modifies cache, client, log
    ensures cache.Valid()
    ensures var env := Env(cache.ttl, cache.maxItems, client.script, sha256, loads);
            (r, World(cache.items, client.calls, log.records))
            == RouteSpec(env, policy, req, Decision(req, policy),
                         World(old(cache.items), old(client.calls), old(log.records)), requestId, now, elapsedMs)
  {
    var decision := DecideRoute(req, policy);

    // Decision-only mode
    if !req.execute {
      var latencyMs := elapsedMs;
      log.Append(DecisionOnlyRecord(requestId, |req.task|, req.taskTypeHint, req.constraints.riskLevel,
                                    decision, latencyMs));
      return Ok(RouteResponse(requestId, decision, None, Some(latencyMs), None, false, None, None));
    }

    var outcome := ExecuteCalls(req, policy, decision, cache, client, now, sha256, loads, log.records);
    if outcome.Err? {
      return Err(outcome.error);
    }
    var o := outcome.value;
    var totalLatencyMs := Max(1, elapsedMs);

    // Log and respond
    log.Append(ExecuteRecord(requestId, req.executionMode, |req.task|, req.taskTypeHint, req.constraints.riskLevel,
                             decision, o.finalModel, o.escalated, o.escalationReason, o.hitFirst, o.hitEscalation,
                             o.llmLatencyMs, totalLatencyMs, o.usage, |o.answer|));
    r := Ok(RouteResponse(requestId, decision, Some(o.answer), Some(totalLatencyMs), Some(o.usage),
                          o.escalated, o.escalationReason, Some(o.finalModel)));
  }
}
