/**
 * The routing policy: the parsed rules file, loaded once and never changed.
 * Every mapping of the file is an ordered sequence of pairs, because the
 * classifier's first-match-wins scan depends on declaration order. A key the
 * file leaves out is an empty sequence or `None`, which is what the source's
 * `.get(..., default)` calls fall back on.
 */
module Rules {
  import opened Common
  import opened Schemas

  /** One `task_types` entry. */
  datatype TaskTypeRules = TaskTypeRules(
    keywords: seq<string>,
    defaultTier: Option<ModelTier>,
    escalateIfKeywords: seq<string>)

  /** One `models` entry. */
  datatype ModelRules = ModelRules(name: Option<string>)

  datatype Heuristics = Heuristics(
    longTextCharsThreshold: Option<int>,
    longTextEscalateTo: Option<ModelTier>)

  datatype Policy = Policy(
    taskTypes: seq<(TaskType, TaskTypeRules)>,
    models: seq<(ModelTier, ModelRules)>,
    defaultModelTier: Option<ModelTier>,
    heuristics: Heuristics)

  /** `dict.get(k)` on a mapping given in declaration order: the value of the first pair with key k. */
  function Lookup<K(==), V>(pairs: seq<(K, V)>, k: K): (r: Option<V>)
    ensures r.Some? ==> exists i | 0 <= i < |pairs| :: pairs[i] == (k, r.value)
    ensures r.None? <==> forall i | 0 <= i < |pairs| :: pairs[i].0 != k
  {
    if pairs == [] then None
    else if pairs[0].0 == k then Some(pairs[0].1)
    else Lookup(pairs[1..], k)
  }

  /** The `task_types` entry of one task type, if the policy has one. */
  function TaskTypeRulesOf(policy: Policy, t: TaskType): Option<TaskTypeRules> {
    Lookup(policy.taskTypes, t)
  }

  /** `rules["models"][tier]["name"]`: `None` where the strict lookup would raise `KeyError`. */
  function ModelName(policy: Policy, tier: ModelTier): Option<string> {
    match Lookup(policy.models, tier)
    case Some(m) => m.name
    case None => None
  }

  const DefaultLongTextThreshold: int := 2500

  function LongTextThreshold(policy: Policy): int {
    policy.heuristics.longTextCharsThreshold.GetOr(DefaultLongTextThreshold)
  }

  function LongTextTarget(policy: Policy): ModelTier {
    policy.heuristics.longTextEscalateTo.GetOr(Strong)
  }
}
