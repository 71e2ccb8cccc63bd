# LLM router: a Dafny model

This project models the core of an LLM request router. The router is a small HTTP service. Its `/route` endpoint takes a task text and:

- classifies the task into one of five task types, from intent phrases, policy keywords or a fallback;
- picks a cost tier (`cheap` or `strong`) through a fixed cascade of escalation rules driven by a policy;
- optionally calls the chosen model through a time-to-live cache;
- in the *cheap-first-verify* mode, validates the answer and escalates once to the strong model;
- writes one audit record and returns the decision, the answer and telemetry.

The model has one module per part of the program:

| module | file | what it holds |
|---|---|---|
| `Common` | common.dfy | `Option`, `Result`, `Max` |
| `Text` | text.dfy | the Python string operations the code relies on: ASCII `lower()`, substring `in`, `startswith`, `strip()`, `split()`, `find`/`rfind`, `str(int)`, and `repr` of a string list |
| `Schemas` | schemas.dfy | the request and response records, with their defaults |
| `Rules` | rules.dfy | the policy (`rules.yaml` once loaded), with maps kept as sequences of pairs in declaration order |
| `Router` | router.dfy | the classifier and the tier cascade |
| `Cache` | cache.dfy | the TTL cache |
| `Validators` | validators.dfy | the answer validator |
| `Effects` | effects.dfy | the chat backend and the audit log, as classes whose state is the calls received and the records written |
| `Service` | service.dfy | the `/route` handler |
| `RouteProperties` | route_properties.dfy | what one request does, as lemmas |

How the pieces fit together:

- **Each imperative part is proved against a pure specification.**
  - `DecideRoute` is proved equal to the closed-form `Decision`.
  - The methods of `TTLCache` are proved equal to store functions (`Fetch`, `AfterGet`, `AfterSet`, `Evict`) over its entry sequence.
  - `Route` is proved equal to `RouteSpec`. `RouteSpec` is a function of the decision and of the world: the cache entries, the backend calls so far and the log records.
- **The properties are lemmas on those specifications.**
- **What the program gets from outside is a parameter:**
  - the SHA-256 function;
  - `json.loads`;
  - the backend's replies: a script from (call index, call) to a reply or a failure;
  - the current time, in real seconds;
  - the request's elapsed milliseconds;
  - the generated request id.
- **Dictionaries that Python iterates in insertion order are sequences.**
  - The cache store is a sequence of entries in insertion order. A re-set key keeps its place, and `min` breaks ties at the first entry.
  - The policy's task types and models are sequences of pairs.
  - `INTENT_VERBS` is a sequence of (type, phrases) groups.

## Model

| member | source | states |
|---|---|---|
| `Schemas.MinimalRequest` | app/schemas.py:18-41 | A request that gives only its task gets these defaults: no hint, low risk, no cost or latency bound, execute in direct mode, text output, no required keys, no word limit. |
| `Schemas.BareResponse` | app/schemas.py:56-64 | A response's optional fields default to absent, and `escalated` defaults to false. |
| `Rules.Lookup` | app/router.py:106-107 | `dict.get` on the policy's maps: `Some` only for a value stored under the key, and `None` exactly when no pair has the key. |
| `Router.ContainsAnyIgnoresCase` | app/router.py:54-56 | `_contains_any` gives the same answer for a text and its lower-cased form. |
| `Router.ContainsAnyGrows` | app/router.py:54-56 | `_contains_any` matches substrings: a keyword found in a text is still found once text is added before and after it. |
| `Router.ScanGroups` | app/router.py:58-64 | The nested scan with early return yields the first (type, phrase) pair that hits, in declaration order of the flattened table, or `None` when no phrase hits. |
| `Router.InferFromIntentVerbs` | app/router.py:58-64 | The first intent phrase found in the lower-cased task, in declaration order, as `intent:<phrase>` with its type; `None` exactly when no intent phrase occurs. |
| `Router.InferTaskType` | app/router.py:66-81 | An intent match takes precedence. Otherwise the first policy keyword that hits, groups and keywords in declaration order (both sides lower-cased), gives its type and `keyword:<kw>`. The reason starts with `intent:` iff an intent phrase matched. It starts with `keyword:` iff no intent phrase matched and some policy keyword did. It is `no_intent_or_keyword_match` iff neither matched, and then the type is summarization. |
| `Router.Fired` | app/router.py:105-134 | The escalation steps that fire: none from a strong start, at most two, and only the long-text step (when it targets cheap) can be followed by another. |
| `Router.DecisionCodeCount` | app/router.py:85-134 | A decision has one to three reason codes. |
| `Router.DecisionUsesHint` | app/router.py:90-93 | A hint is used as the task type, with `RULE_TASK_TYPE_DEFAULT` first and the `Used task_type_hint=` explanation. |
| `Router.DecisionIntentFirst` | app/router.py:94-103 | Without a hint, an intent match decides the type, and the first code is `RULE_INTENT_MATCH`. |
| `Router.DecisionKeyword` | app/router.py:72-78 | Without a hint or an intent match, the first keyword hit in policy order decides the type, the first code is `RULE_KEYWORD_MATCH`, and the explanation names that keyword as `keyword:<kw>`. |
| `Router.DecisionFallback` | app/router.py:66-103 | Without a hint and with neither intent nor keyword matches, the request is summarization with `FALLBACK_DEFAULT`. |
| `Router.DecisionStrongStart` | app/router.py:105-134 | A type whose starting tier is strong stays strong and collects no escalation code. |
| `Router.DecisionEscalates` | app/router.py:109-134 | A hard-reasoning keyword or high risk always ends on the strong tier. |
| `Router.DecisionCheap` | app/router.py:105-134 | A cheap decision means: a cheap start, no hard-reasoning keyword, no type escalation keyword, risk not high, at most the long-text code after the first, and long text only when its target is cheap. |
| `Router.DecisionModelName` | app/router.py:136-138 | The model name is the policy's name for the chosen tier, or `UNKNOWN_MODEL` when the policy gives none. |
| `Router.CompareExampleIsStrong` | test_router.py:20-25 | The smoke test's "Compare two LLM routing strategies…" request is routed to the strong tier under every policy. |
| `Router.EscalateOnKeywords` | app/router.py:109-120 | Steps 3-4 as written end strong iff the start is strong or a keyword step fires. They append exactly the codes and notes of the keyword steps. |
| `Router.EscalateOnHeuristics` | app/router.py:122-134 | Steps 5-6 as written change nothing from strong. From cheap they end strong iff long text targets strong or the risk is high, and they append the codes and notes of the heuristic steps. |
| `Router.Escalate` | app/router.py:105-134 | Steps 2-6 as written reach `FinalTier` and append the codes and notes of `Fired`. |
| `Router.DecideRoute` | app/router.py:85-146 | `decide_route` as written (step 1 in `ClassifyTask`, steps 2-6 in `Escalate`) returns exactly `Decision(req, policy)`, the closed form the `Decision*` lemmas describe. |
| `Cache.OldestIndex` | app/cache.py:15 | The entry `min(..., key=stamp)` picks: a smallest stamp, with no earlier entry as small. |
| `Cache.OldestUnique` | app/cache.py:15 | Only one entry is the oldest in that sense. |
| `Cache.EvictShape` | app/cache.py:11-16 | Within the limit nothing is evicted; over it, exactly the oldest entry is removed. |
| `Cache.HashInputInjective` | app/cache.py:18-26 | When model and system text contain no newline, equal hash inputs mean equal (model, system text, user text). |
| `Cache.HashInputCollision` | app/cache.py:18-26 | Newlines inside the fields make distinct triples share one key. |
| `Cache.AfterGetValid` | app/cache.py:28-36 | A lookup keeps the store's keys distinct and its size within the limit. |
| `Cache.GetIsStable` | app/cache.py:28-36 | Dropping an expired entry during a lookup changes the answer to no lookup made at the same time. |
| `Cache.PutDistinct` | app/cache.py:38-39 | Storing keeps keys distinct. It grows the store by one only for a new key. |
| `Cache.PutFetch` | app/cache.py:38-39 | After storing `k`, looking up `k` gives the value unless the stamp has already expired. Other keys are unaffected. |
| `Cache.AfterSetValid` | app/cache.py:38-40 | Storing, then the single eviction, keeps keys distinct and the size within the limit. |
| `Cache.SetThenGet` | app/cache.py:28-40 | When the cache can hold at least one entry and no stored stamp is later than the write's, a value just stored is found by any lookup within the time-to-live, even when storing it evicted an entry. |
| `Cache.SetLeavesOthers` | app/cache.py:11-40 | Storing one key leaves another key's lookup unchanged, except that it becomes absent exactly when the store overflows and that key's entry is the oldest, the one eviction removes. |
| `Cache.TTLCache.constructor` | app/cache.py:6-9 | A new cache has the given time-to-live and limit (3600 s and 500 by default) and an empty store. |
| `Cache.TTLCache.FindOldest` | app/cache.py:15 | The loop finds the oldest entry, the one `OldestIndex` names. |
| `Cache.TTLCache.EvictIfNeeded` | app/cache.py:11-16 | The store becomes `Evict` of the old store. |
| `Cache.TTLCache.Get` | app/cache.py:28-36 | Returns `Fetch` (the value only if present and not expired), drops an expired entry, and keeps the cache valid. |
| `Cache.TTLCache.Set` | app/cache.py:38-40 | The store becomes `AfterSet` (store, then evict the oldest if over the limit). The cache stays valid. |
| `Text.StripEmptyIffAllSpace` | app/validators.py:44-45 | `strip()` is empty exactly when the answer is all whitespace. |
| `Text.SplitKeepsNonSpace` | app/validators.py:48 | `split()` loses only whitespace: its words concatenate to the text's non-space characters. |
| `Text.SplitSpace` | app/validators.py:48 | `split()` skips a leading whitespace character. |
| `Text.SplitWord` | app/validators.py:48 | A non-empty run without whitespace, ended by a whitespace character, is exactly one word, and splitting continues after it. |
| `Text.SplitLastWord` | app/validators.py:48 | A non-empty text without whitespace is one word. With the empty case and the two rows above, this fixes `split()` on every text. |
| `Text.SplitEmptyIffAllSpace` | app/validators.py:48 | `split()` gives no words exactly when the text is all whitespace. |
| `Text.NatToStringRoundTrip` | app/validators.py:50 | The word count written into `too_long:` reads back as the same number. |
| `Validators.UncertaintyNeedsPhrase` | app/validators.py:6-12 | Uncertainty is only reported when one of the five phrases occurs in the lower-cased answer. |
| `Validators.UncertaintyDetectsStandalone` | app/validators.py:6-12 | Each phrase, set off by non-word characters or the ends of the text, is always reported. |
| `Validators.UncertaintyIgnoresCase` | app/validators.py:10-12 | Detection gives the same answer for a text and its lower-cased form. |
| `Validators.UncertaintyNeedsWordBoundary` | app/validators.py:6-8 | `unknowns` is not hedging (no word boundary after the phrase); `unknown.` is. |
| `Validators.BraceSpan` | app/validators.py:25-27 | The span from the first `{` to the last `}`, present exactly when both exist and the last comes after the first. |
| `Validators.ExtractJsonBlock` | app/validators.py:14-32 | A whole-text parse wins. Otherwise, when a `{` comes before the last `}`, the result is the parse of the slice from the first `{` to the last `}`; when not, there is no result. |
| `Validators.ExtractEmbedded` | app/validators.py:24-29 | One object embedded in prose that has no other braces is recovered as that object's parse. |
| `Validators.MissingKeys` | app/validators.py:35 | Every listed key is required and absent, and every absent required key is listed. |
| `Validators.MissingKeysAppend` | app/validators.py:35 | The missing keys of a concatenation are those of each part, in order, so the list follows `required_keys` order and repeats. |
| `Validators.MissingKeysOne` | app/validators.py:35 | A single required key is listed exactly when it is absent. |
| `Validators.ValidateRequiredKeys` | app/validators.py:34-38 | Passes iff every required key is present, with reason `ok`; otherwise the reason is `missing_keys:` plus the Python list display of the missing keys. |
| `Validators.ValidateOutput` | app/validators.py:40-64 | Passes iff the reason is `ok`, iff the answer is non-blank, within the word limit, free of hedging and, for JSON, an object with the required keys. Each failure gives its own reason: `empty_answer` iff blank; `too_long:<n>><max>`; `uncertainty_language` and `invalid_json` each iff the earlier checks passed and that check failed; the required-keys reason otherwise. |
| `Effects.ChatClient.Chat` | app/main.py:86-90 | One call is recorded, with model, user text and system text, and is answered by the backend's script for that call's position. |
| `Effects.AuditLog.Append` | app/logging_utils.py:11-16 | One record is appended at the end of the log. |
| `Service.CallWithCache` | app/main.py:76-93 | `call_with_cache` as written has exactly the effect and result of `CachedCall` on the cache and backend, and keeps the cache valid. |
| `Service.ValidateAndEscalate` | app/main.py:107-126 | Validation and the single escalation as written equal `AfterFirst`. |
| `Service.ExecuteCalls` | app/main.py:95-126 | Initial model, first call and escalation as written equal `Execute`. |
| `Service.Route` | app/main.py:34-159 | The handler as written has exactly the response and effect on cache, backend and log of `RouteSpec` for the decision `decide_route` makes. |
| `RouteProperties.CachedCallShape` | app/main.py:76-93 | A fresh cache entry answers with zero latency and no backend call. Otherwise exactly one call is made, with the task and the handler's system text, and the result is not marked a hit. The log is untouched. |
| `RouteProperties.CachedCallKeepsStoreValid` | app/main.py:76-93 | `call_with_cache` keeps the store's keys distinct and its size within the limit. |
| `RouteProperties.CachedCallRemembers` | app/main.py:76-93 | When the cache can hold at least one entry and no stored stamp is later than now, a backend reply is cached, so the same call within the time-to-live finds it. |
| `RouteProperties.AfterFirstShape` | app/main.py:107-126 | After the first answer, at most one more call is made, and none in direct mode. |
| `RouteProperties.AfterFirstCases` | app/main.py:107-126 | Either the first answer stands, and under cheap-first-verify it passed validation or came from the strong model. Or it failed validation on another model, and the strong model's cached call decides the rest: its answer, usage, latency and hit flag, and the world after it, marked escalated with the failure's reason. |
| `RouteProperties.AfterFirstModels` | app/main.py:116-121 | After the first answer, the only call that can follow goes to the policy's strong model. |
| `RouteProperties.ExecuteShape` | app/main.py:95-126 | An executing request makes at most one backend call in direct mode and at most two otherwise. All are about the task, and the log is untouched. |
| `RouteProperties.ExecuteEscalation` | app/main.py:95-126 | Escalation only under cheap-first-verify, after the first answer's validation failed ("ok" is never the reason), from the initial model to the strong model. No escalation means the initial model answered. Direct mode answers from the decision's model. |
| `RouteProperties.ExecuteCallModels` | app/main.py:95-121 | Each backend call of a request goes to the initial model or the strong model. When two are made, the first is the initial model's and the second the strong model's. |
| `RouteProperties.RouteDecisionOnly` | app/main.py:42-62 | Decision-only requests call no model, leave the cache alone, log one decision-only record and answer with no answer, usage or final model. |
| `RouteProperties.RouteEffects` | app/main.py:34-159 | A request makes at most two calls (one in direct mode, none for decision only), all about its task, and keeps the cache valid. Success appends exactly one record with its id and decision; an error logs nothing and happens only when executing. |
| `RouteProperties.RouteOutcome` | app/main.py:104-159 | A successful executed request has an answer, usage, a final model and total latency `max(1, elapsed)` ≥ 1. Escalation only under cheap-first-verify, onto the strong model, with a non-`ok` reason. Without escalation, under cheap-first-verify, the answer passed validation or came from the strong model. Direct mode never escalates. The log record agrees with the response. |
| `RouteProperties.RouteDirectCacheHit` | app/main.py:76-105 | A fresh entry for the decision's model answers a direct request from the cache, with no backend call, and logs a first-call hit with zero model latency. |
| `RouteProperties.RepeatWithinTtlIsCached` | app/main.py:76-105 | When the cache can hold at least one entry and no stored stamp is later than the first request's time, a direct request that reached the backend and succeeded is answered from the cache when repeated within the time-to-live: no call, same answer and usage. |

## Left out

- HTTP itself: FastAPI, request parsing and the response model's serialisation.
- The `/health`, `/models` and `/warmup` endpoints, and loading `rules.yaml` from disk. The policy is a parameter.
- Policies are not required to have distinct keys in `task_types` and `models`, as a parsed YAML mapping always does. For such a policy, `Rules.Lookup` takes the first pair while `Router.KeywordGroups` scans every pair; for a policy with distinct keys both agree with the dict.
- The request's `metadata` field: nothing in the core reads it.
- The advisory `max_cost` and `max_latency_ms` fields are carried but, as in the code, never read.
- Time:
  - the current time is a real-seconds parameter, with one instant per request for both the cache lookup and the store;
  - the elapsed milliseconds are a parameter, so `int()` truncation (decision-only mode) and `round()` (execute mode) of the perf counter are not modelled.
- The backend:
  - HTTP, its retries and its timeouts are not modelled;
  - a call that ends in an exception after the retries is the `Failed` outcome, and it ends the request with `BackendFailure`;
  - the client always returns a usage dict with three empty counts, so the `or {...}` default for cached usage cannot fire and is not modelled.
- The log: both its file I/O and the `ts` field it adds are not modelled. `AuditLog` keeps the records in order.
- Concurrency between requests: the service is modelled one request at a time.
- `sha256` and `json.loads` are parameters. JSON values are reduced to "object with these keys", `null`, or something else.
- `Text.Lower` folds ASCII letters only, and the `\w` of the uncertainty pattern is ASCII word characters. Python's Unicode case folding and Unicode `\w` are not modelled.
- `Text.ReprList` quotes and escapes like Python's `repr` for `'`, `"` and `\`. The `\x`/`\u` escapes of unprintable characters are not modelled.
- Policy shapes the model's types exclude:
  - a task-type name that is not one of the five (`TaskType(tt_name)` raises `ValueError`);
  - a tier other than `cheap`/`strong` in `default_tier`, `default_model_tier` or `long_text_escalate_to`;
  - a non-integer threshold.
- A policy without the `cheap` or `strong` model entry: the handler's strict `RULES["models"][...]["name"]` lookups become the `MissingModelName` error, standing for the `KeyError` (HTTP 500).
- `Text.Split`: its relation to `strip()` (splitting a stripped text gives the same words) is not proved. The validator splits the stripped answer, as the code does.
