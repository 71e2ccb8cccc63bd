/**
 * What one `/route` request does to the world, as consequences of `RouteSpec`:
 * which backend calls it makes, when it escalates, what it logs, that it keeps
 * the cache store well formed, and when the cache spares a backend call.
 */
module RouteProperties {
  import opened Common
  import opened Schemas
  import opened Rules
  import opened Router
  import opened Cache
  import opened Validators
  import opened Effects
  import opened Service

  /** `after` is `before` plus at most `n` calls, each asking about `task` with the handler's system text. */
  predicate CallsExtend(before: seq<ChatCall>, after: seq<ChatCall>, task: string, n: nat) {
    |before| <= |after| <= |before| + n
    && after[..|before|] == before
    && forall i | |before| <= i < |after| :: after[i].userText == task && after[i].systemText == SystemText
  }

  lemma CallsExtendTrans(a: seq<ChatCall>, b: seq<ChatCall>, c: seq<ChatCall>, task: string, m: nat, n: nat)
    requires CallsExtend(a, b, task, m) && CallsExtend(b, c, task, n)
    ensures CallsExtend(a, c, task, m + n)
  {
    assert c[..|a|] == c[..|b|][..|a|];
  }

  // ---------------------------------------------------------------------------
  // One cached call
  // ---------------------------------------------------------------------------

  /** Every entry of the store was stamped no later than `now`. */
  predicate StampedBy(s: seq<Entry<CachedReply>>, now: real) {
    forall i | 0 <= i < |s| :: s[i].ts <= now
  }

  /**
   * `call_with_cache` calls the backend exactly when the cache has no fresh
   * entry for the key, and then once, with the task and the system text; a
   * hit is reported exactly when no call was made; the log is untouched.
   */
  lemma CachedCallShape(env: Env, w: World, model: string, task: string, now: real)
    ensures var (r, w1) := CachedCall(env, w, model, task, now);
            var hit := Fetch(w.items, CacheKey(env, model, task), now, env.ttl);
            w1.records == w.records
            && (hit.Some? ==> w1.calls == w.calls && r == Ok(CallResult(hit.value.answer, 0, hit.value.usage, true)))
            && (hit.None? ==> w1.calls == w.calls + [ChatCall(model, task, SystemText)] && (r.Ok? ==> !r.value.hit))
            && CallsExtend(w.calls, w1.calls, task, 1)
  {
    var (r, w1) := CachedCall(env, w, model, task, now);
    if Fetch(w.items, CacheKey(env, model, task), now, env.ttl).None? {
      assert w1.calls == w.calls + [ChatCall(model, task, SystemText)];
      assert w1.calls[..|w.calls|] == w.calls;
    } else {
      assert w1.calls[..|w.calls|] == w.calls;
    }
  }

  /** The lookup and the store of `call_with_cache` keep the store's keys distinct and within capacity. */
  lemma CachedCallKeepsStoreValid(env: Env, w: World, model: string, task: string, now: real)
    requires ValidStore(w.items, env.maxItems)
    ensures ValidStore(CachedCall(env, w, model, task, now).1.items, env.maxItems)
  {
    var key := CacheKey(env, model, task);
    AfterGetValid(w.items, key, now, env.ttl, env.maxItems);
    var items := AfterGet(w.items, key, now, env.ttl);
    match Fetch(w.items, key, now, env.ttl)
    case Some(_) =>
    case None =>
      var call := ChatCall(model, task, SystemText);
      match env.script(|w.calls|, call)
      case Failed =>
      case Replied(a, l, u) =>
        AfterSetValid(items, key, CachedReply(a, u), now, env.maxItems);
  }

  /** The lookup drops at most one entry, so every entry left was stamped by `now` if every entry was. */
  lemma AfterGetStamped(s: seq<Entry<CachedReply>>, k: string, now: real, ttl: int)
    requires StampedBy(s, now)
    ensures StampedBy(AfterGet(s, k, now, ttl), now)
  {
  }

  /**
   * A backend reply is stored under the call's key, so the same call made
   * again within the time-to-live is answered from the cache.
   */
  lemma CachedCallRemembers(env: Env, w: World, model: string, task: string, now: real, later: real)
    requires ValidStore(w.items, env.maxItems) && Capacity(env.maxItems) >= 1
    requires StampedBy(w.items, now)
    requires !Expired(now, later, env.ttl)
    ensures var (r, w1) := CachedCall(env, w, model, task, now);
            r.Ok? ==>
              Fetch(w1.items, CacheKey(env, model, task), later, env.ttl)
              == Some(CachedReply(r.value.answer, r.value.usage))
              || r.value.hit
  {
    var key := CacheKey(env, model, task);
    var items := AfterGet(w.items, key, now, env.ttl);
    AfterGetValid(w.items, key, now, env.ttl, env.maxItems);
    AfterGetStamped(w.items, key, now, env.ttl);
    match Fetch(w.items, key, now, env.ttl)
    case Some(_) =>
    case None =>
      var call := ChatCall(model, task, SystemText);
      match env.script(|w.calls|, call)
      case Failed =>
      case Replied(a, l, u) =>
        SetThenGet(items, key, CachedReply(a, u), now, later, env.ttl, env.maxItems);
  }

  // ---------------------------------------------------------------------------
  // The model calls of one request
  // ---------------------------------------------------------------------------

  /** After the first answer, at most one more call is made, and none in the direct mode. */
  lemma AfterFirstShape(env: Env, policy: Policy, req: RouteRequest, m: string, c1: CallResult, w1: World, now: real)
    ensures var w2 := AfterFirst(env, policy, req, m, c1, w1, now).1;
            w2.records == w1.records
            && CallsExtend(w1.calls, w2.calls, req.task, if req.executionMode == Direct then 0 else 1)
            && (ValidStore(w1.items, env.maxItems) ==> ValidStore(w2.items, env.maxItems))
  {
    assert w1.calls[..|w1.calls|] == w1.calls;
    if req.executionMode == CheapFirstVerify && !Validate(env, req, c1.answer).0 {
      match ModelName(policy, Strong) {
        case None =>
        case Some(strong) =>
          if m != strong {
            CachedCallShape(env, w1, strong, req.task, now);
            if ValidStore(w1.items, env.maxItems) {
              CachedCallKeepsStoreValid(env, w1, strong, req.task, now);
            }
          }
      }
    }
  }

  /** An executing request makes at most one call in the direct mode and at most two otherwise, and leaves the log alone. */
  lemma ExecuteShape(env: Env, policy: Policy, req: RouteRequest, d: RouteDecision, w: World, now: real)
    ensures var (o, w1) := Execute(env, policy, req, d, w, now);
            w1.records == w.records
            && CallsExtend(w.calls, w1.calls, req.task, if req.executionMode == Direct then 1 else 2)
            && (ValidStore(w.items, env.maxItems) ==> ValidStore(w1.items, env.maxItems))
  {
    match InitialModel(policy, req, d) {
      case Err(_) =>
        assert w.calls[..|w.calls|] == w.calls;
      case Ok(m) =>
        var (first, w1) := CachedCall(env, w, m, req.task, now);
        CachedCallShape(env, w, m, req.task, now);
        if ValidStore(w.items, env.maxItems) {
          CachedCallKeepsStoreValid(env, w, m, req.task, now);
        }
        match first {
          case Err(_) =>
          case Ok(c1) =>
            AfterFirstShape(env, policy, req, m, c1, w1, now);
            var w2 := AfterFirst(env, policy, req, m, c1, w1, now).1;
            CallsExtendTrans(w.calls, w1.calls, w2.calls, req.task, 1,
                             if req.executionMode == Direct then 0 else 1);
        }
    }
  }

  /** The outcome a first answer `c1` from model `m` stands as, when it is not escalated. */
  function Plain(m: string, c1: CallResult): Outcome {
    Outcome(c1.answer, c1.latencyMs, c1.usage, m, false, None, c1.hit, false)
  }

  /**
   * After the first answer: either it stands, and then in the cheap-first-verify
   * mode it passed validation or came from the strong model, and nothing
   * else changes; or it failed validation on a model other than the strong
   * one, and the strong model's cached call decides the rest: its answer,
   * usage, latency and hit flag are returned, with the failure's reason.
   */
  lemma AfterFirstCases(env: Env, policy: Policy, req: RouteRequest, m: string, c1: CallResult, w1: World, now: real)
    ensures var (o, w2) := AfterFirst(env, policy, req, m, c1, w1, now);
            var (ok, reason) := Validate(env, req, c1.answer);
            o.Ok? ==>
              (o.value == Plain(m, c1) && w2 == w1
               && (req.executionMode == CheapFirstVerify ==> ok || ModelName(policy, Strong) == Some(m)))
              || (req.executionMode == CheapFirstVerify && !ok
                  && ModelName(policy, Strong) == Some(o.value.finalModel) && m != o.value.finalModel
                  && o.value.escalated && o.value.escalationReason == Some(reason) && o.value.hitFirst == c1.hit
                  && CachedCall(env, w1, o.value.finalModel, req.task, now)
                     == (Ok(CallResult(o.value.answer, o.value.llmLatencyMs, o.value.usage, o.value.hitEscalation)), w2))
  {
    var (ok, reason) := Validate(env, req, c1.answer);
    if req.executionMode == CheapFirstVerify && !ok {
      match ModelName(policy, Strong) {
        case None =>
        case Some(strong) =>
          if m != strong {
            var (second, w2) := CachedCall(env, w1, strong, req.task, now);
            match second {
              case Err(_) =>
              case Ok(c2) =>
                assert AfterFirst(env, policy, req, m, c1, w1, now).0
                       == Ok(Outcome(c2.answer, c2.latencyMs, c2.usage, strong, true, Some(reason), c1.hit, c2.hit));
            }
          }
      }
    }
  }

  /**
   * Escalation happens only in the cheap-first-verify mode, only after the
   * first answer failed validation on a model other than the strong one, and
   * it ends on the strong model; a cheap-first-verify answer that was not
   * escalated passed validation or came from the strong model; the direct
   * mode answers from the decision's model.
   */
  lemma ExecuteEscalation(env: Env, policy: Policy, req: RouteRequest, d: RouteDecision, w: World, now: real)
    ensures var (o, w1) := Execute(env, policy, req, d, w, now);
            o.Ok? ==>
              (o.value.escalated ==>
                 req.executionMode == CheapFirstVerify
                 && Some(o.value.finalModel) == ModelName(policy, Strong)
                 && InitialModel(policy, req, d).Ok? && InitialModel(policy, req, d).value != o.value.finalModel
                 && o.value.escalationReason.Some? && o.value.escalationReason.value != "ok")
              && (!o.value.escalated ==>
                    o.value.escalationReason == None && !o.value.hitEscalation
                    && InitialModel(policy, req, d) == Ok(o.value.finalModel)
                    && (req.executionMode == CheapFirstVerify ==>
                          Validate(env, req, o.value.answer).0 || Some(o.value.finalModel) == ModelName(policy, Strong)))
              && (req.executionMode == Direct ==> !o.value.escalated && o.value.finalModel == d.chosenModelName)
  {
    match InitialModel(policy, req, d) {
      case Err(_) =>
      case Ok(m) =>
        var (first, w1) := CachedCall(env, w, m, req.task, now);
        match first {
          case Err(_) =>
          case Ok(c1) =>
            AfterFirstCases(env, policy, req, m, c1, w1, now);
            var (ok, reason) := Validate(env, req, c1.answer);
            assert ok <==> reason == "ok";
        }
    }
  }

  /**
   * The models the backend is asked: each new call goes to the initial model
   * or to the policy's strong model, and when two are made, the first is the
   * initial model's and the second, the escalation, the strong model's.
   */
  lemma ExecuteCallModels(env: Env, policy: Policy, req: RouteRequest, d: RouteDecision, w: World, now: real)
    ensures var w1 := Execute(env, policy, req, d, w, now).1;
            (forall i | |w.calls| <= i < |w1.calls| ::
               InitialModel(policy, req, d) == Ok(w1.calls[i].model) || ModelName(policy, Strong) == Some(w1.calls[i].model))
            && (|w1.calls| == |w.calls| + 2 ==>
                  InitialModel(policy, req, d) == Ok(w1.calls[|w.calls|].model)
                  && ModelName(policy, Strong) == Some(w1.calls[|w.calls| + 1].model))
  {
    match InitialModel(policy, req, d) {
      case Err(_) =>
      case Ok(m) =>
        var (first, w1) := CachedCall(env, w, m, req.task, now);
        CachedCallShape(env, w, m, req.task, now);
        match first {
          case Err(_) =>
            CallModelsChain(w.calls, w1.calls, w1.calls, m, ModelName(policy, Strong));
          case Ok(c1) =>
            var w2 := AfterFirst(env, policy, req, m, c1, w1, now).1;
            assert Execute(env, policy, req, d, w, now).1 == w2;
            AfterFirstModels(env, policy, req, m, c1, w1, now);
            CallModelsChain(w.calls, w1.calls, w2.calls, m, ModelName(policy, Strong));
        }
    }
  }

  /** Two steps that each add at most one call, the first to model `m`, the second to model `strong`. */
  lemma CallModelsChain(a: seq<ChatCall>, b: seq<ChatCall>, c: seq<ChatCall>, m: string, strong: Option<string>)
    requires |a| <= |b| <= |a| + 1 && b[..|a|] == a && (|b| > |a| ==> b[|a|].model == m)
    requires |b| <= |c| <= |b| + 1 && c[..|b|] == b && (|c| > |b| ==> strong == Some(c[|b|].model))
    ensures forall i | |a| <= i < |c| :: c[i].model == m || strong == Some(c[i].model)
    ensures |c| == |a| + 2 ==> c[|a|].model == m && strong == Some(c[|a| + 1].model)
  {
    if |b| > |a| {
      assert c[|a|] == c[..|b|][|a|];
    }
  }

  /** After the first answer, the only call that can follow is to the strong model. */
  lemma AfterFirstModels(env: Env, policy: Policy, req: RouteRequest, m: string, c1: CallResult, w1: World, now: real)
    ensures var w2 := AfterFirst(env, policy, req, m, c1, w1, now).1;
            |w1.calls| <= |w2.calls| <= |w1.calls| + 1 && w2.calls[..|w1.calls|] == w1.calls
            && (|w2.calls| > |w1.calls| ==> ModelName(policy, Strong) == Some(w2.calls[|w1.calls|].model))
  {
    assert w1.calls[..|w1.calls|] == w1.calls;
    if req.executionMode == CheapFirstVerify && !Validate(env, req, c1.answer).0 {
      match ModelName(policy, Strong) {
        case None =>
        case Some(strong) =>
          if m != strong {
            CachedCallShape(env, w1, strong, req.task, now);
          }
      }
    }
  }

  // ---------------------------------------------------------------------------
  // One request
  // ---------------------------------------------------------------------------

  /** A decision-only request calls no model, leaves the cache alone, and logs one decision-only record. */
  lemma RouteDecisionOnly(env: Env, policy: Policy, req: RouteRequest, d: RouteDecision, w: World,
                          requestId: string, now: real, elapsedMs: nat)
    requires !req.execute
    ensures var (r, w1) := RouteSpec(env, policy, req, d, w, requestId, now, elapsedMs);
            w1.items == w.items && w1.calls == w.calls
            && |w1.records| == |w.records| + 1 && w1.records[..|w.records|] == w.records
            && w1.records[|w.records|].DecisionOnlyRecord?
            && w1.records[|w.records|].latencyMsTotal == elapsedMs
            && r.Ok? && r.value.answer == None && r.value.usage == None && r.value.finalModelName == None
            && !r.value.escalated && r.value.latencyMs == Some(elapsedMs)
  {
    var w1 := RouteSpec(env, policy, req, d, w, requestId, now, elapsedMs).1;
    assert w1.records[..|w.records|] == w.records;
  }

  /**
   * Every request makes at most two backend calls (one in the direct mode,
   * none when only the decision is asked for), all about the request's task;
   * it keeps the cache store well formed; a request that succeeds appends
   * exactly one log record carrying its identifier and decision, and one
   * that fails logs nothing.
   */
  lemma RouteEffects(env: Env, policy: Policy, req: RouteRequest, d: RouteDecision, w: World,
                     requestId: string, now: real, elapsedMs: nat)
    ensures var (r, w1) := RouteSpec(env, policy, req, d, w, requestId, now, elapsedMs);
            CallsExtend(w.calls, w1.calls, req.task, if !req.execute then 0 else if req.executionMode == Direct then 1 else 2)
            && (ValidStore(w.items, env.maxItems) ==> ValidStore(w1.items, env.maxItems))
            && (r.Ok? ==>
                  r.value.requestId == requestId && r.value.decision == d
                  && |w1.records| == |w.records| + 1 && w1.records[..|w.records|] == w.records
                  && w1.records[|w.records|].requestId == requestId && w1.records[|w.records|].decision == d)
            && (r.Err? ==> req.execute && w1.records == w.records)
  {
    var w1 := RouteSpec(env, policy, req, d, w, requestId, now, elapsedMs).1;
    if !req.execute {
      RouteDecisionOnly(env, policy, req, d, w, requestId, now, elapsedMs);
      assert w1.calls[..|w.calls|] == w.calls;
    } else {
      ExecuteShape(env, policy, req, d, w, now);
      assert w1.records[..|w.records|] == w.records;
    }
  }

  /**
   * An executed request that succeeds answers, reports usage and a total
   * latency of at least one millisecond, and names its final model; it is
   * escalated only under cheap-first-verify, after a failed validation, onto
   * the strong model; otherwise its answer passed validation or came from the
   * strong model; in the direct mode it is never escalated and answers from
   * the decision's model. The log record agrees with the response.
   */
  lemma RouteOutcome(env: Env, policy: Policy, req: RouteRequest, d: RouteDecision, w: World,
                     requestId: string, now: real, elapsedMs: nat)
    requires req.execute
    ensures var (r, w1) := RouteSpec(env, policy, req, d, w, requestId, now, elapsedMs);
            r.Ok? ==>
              r.value.answer.Some? && r.value.usage.Some? && r.value.finalModelName.Some?
              && r.value.latencyMs == Some(Max(1, elapsedMs)) && r.value.latencyMs.value >= 1
              && (r.value.escalated ==>
                    req.executionMode == CheapFirstVerify
                    && r.value.finalModelName == ModelName(policy, Strong)
                    && r.value.escalationReason.Some? && r.value.escalationReason.value != "ok")
              && (!r.value.escalated ==>
                    r.value.escalationReason == None
                    && (req.executionMode == CheapFirstVerify ==>
                          Validate(env, req, r.value.answer.value).0
                          || r.value.finalModelName == ModelName(policy, Strong)))
              && (req.executionMode == Direct ==>
                    !r.value.escalated && r.value.finalModelName == Some(d.chosenModelName))
              && |w1.records| == |w.records| + 1 && w1.records[..|w.records|] == w.records
              && w1.records[|w.records|].ExecuteRecord?
              && w1.records[|w.records|].finalModelName == r.value.finalModelName.value
              && w1.records[|w.records|].escalated == r.value.escalated
              && w1.records[|w.records|].escalationReason == r.value.escalationReason
              && w1.records[|w.records|].latencyMsTotal == r.value.latencyMs.value
              && w1.records[|w.records|].answerLenChars == |r.value.answer.value|
  {
    ExecuteEscalation(env, policy, req, d, w, now);
    ExecuteShape(env, policy, req, d, w, now);
  }

  /** In the direct mode, a fresh cache entry for the decision's model answers the request without a backend call. */
  lemma RouteDirectCacheHit(env: Env, policy: Policy, req: RouteRequest, d: RouteDecision, w: World,
                            requestId: string, now: real, elapsedMs: nat, c: CachedReply)
    requires req.execute && req.executionMode == Direct
    requires Fetch(w.items, CacheKey(env, d.chosenModelName, req.task), now, env.ttl) == Some(c)
    ensures var (r, w1) := RouteSpec(env, policy, req, d, w, requestId, now, elapsedMs);
            w1.calls == w.calls
            && r.Ok? && r.value.answer == Some(c.answer) && r.value.usage == Some(c.usage)
            && |w1.records| == |w.records| + 1
            && w1.records[|w.records|].ExecuteRecord?
            && w1.records[|w.records|].cacheHitFirst && w1.records[|w.records|].latencyMsLlm == 0
  {
    CachedCallShape(env, w, d.chosenModelName, req.task, now);
  }

  /**
   * A direct request that reached the backend and succeeded is answered
   * from the cache when it is repeated within the time-to-live: the repeat
   * makes no backend call and returns the same answer and usage.
   */
  lemma RepeatWithinTtlIsCached(env: Env, policy: Policy, req: RouteRequest, d: RouteDecision, w: World,
                                id1: string, now: real, e1: nat, id2: string, later: real, e2: nat)
    requires req.execute && req.executionMode == Direct
    requires ValidStore(w.items, env.maxItems) && Capacity(env.maxItems) >= 1
    requires StampedBy(w.items, now)
    requires !Expired(now, later, env.ttl)
    ensures var (r1, w1) := RouteSpec(env, policy, req, d, w, id1, now, e1);
            var (r2, w2) := RouteSpec(env, policy, req, d, w1, id2, later, e2);
            r1.Ok? && |w1.calls| > |w.calls| ==>
              w2.calls == w1.calls && r2.Ok? && r2.value.answer == r1.value.answer && r2.value.usage == r1.value.usage
  {
    var m := d.chosenModelName;
    var (r1, w1) := RouteSpec(env, policy, req, d, w, id1, now, e1);
    var (first, wf) := CachedCall(env, w, m, req.task, now);
    CachedCallShape(env, w, m, req.task, now);
    CachedCallRemembers(env, w, m, req.task, now, later);
    if r1.Ok? && |w1.calls| > |w.calls| {
      assert first.Ok? && !first.value.hit;
      var c := CachedReply(first.value.answer, first.value.usage);
      assert Fetch(w1.items, CacheKey(env, m, req.task), later, env.ttl) == Some(c);
      RouteDirectCacheHit(env, policy, req, d, w1, id2, later, e2, c);
    }
  }
}
