/** `ModelRegistry`: an insertion-ordered dictionary from model names to
    model records, with registration, lookup, best-model selection by a
    metric and performance updates. Persistence to the JSON file and
    model deserialization are outside the model. */
module Registry {
  import opened Options
  import opened Text

  /** The record `register_model` stores; `last_updated` only appears once
      the performance has been updated. */
  datatype ModelInfo = ModelInfo(
    modelPath: string,
    performance: map<string, real>,
    features: seq<string>,
    metadata: map<string, string>,
    registeredAt: string,
    version: string,
    lastUpdated: Option<string>)

  /** The two exceptions the registry raises: `ValueError` for an unknown
      name and `FileNotFoundError` for a missing model file. */
  datatype RegistryError = ModelNotFound(name: string) | ModelFileNotFound(path: string)

  const DefaultMetric := "auc_roc"

  /** `f"v{n}.0"`. */
  function Version(n: nat): string
  {
    "v" + NatToString(n) + ".0"
  }

  /** `info['performance'].get(metric, -1)`. */
  function Score(info: ModelInfo, metric: string): real
  {
    if metric in info.performance then info.performance[metric] else -1.0
  }

  predicate Distinct(names: seq<string>)
  {
    forall i, j :: 0 <= i < j < |names| ==> names[i] != names[j]
  }

  class ModelRegistry {
    /** The dictionary's keys in insertion order. */
    var order: seq<string>
    /** The dictionary itself. */
    var entries: map<string, ModelInfo>

    /** The key order lists each key of the dictionary exactly once. */
    ghost predicate Valid()
      reads this
    {
      Distinct(order) && (forall name :: name in entries <==> name in order)
    }

    /** A registry for which no registry file exists yet. */
    constructor()
      ensures Valid()
      ensures order == [] && entries == map[]
    {
      order := [];
      entries := map[];
    }

    /** `register_model`: stores the record under the name, replacing any
        earlier one (which keeps its place in the order); the version counts
        the models present before the call, plus one. */
    method RegisterModel(name: string, modelPath: string, performance: map<string, real>,
                         features: seq<string>, metadata: Option<map<string, string>>, now: string)
      requires Valid()
      modifies this
      ensures Valid()
      ensures entries == old(entries)[name := ModelInfo(modelPath, performance, features,
        metadata.GetOr(map[]), now, Version(|old(entries)| + 1), None)]
      ensures order == if name in old(entries) then old(order) else old(order) + [name]
    {
      var info := ModelInfo(modelPath, performance, features, metadata.GetOr(map[]), now,
                            Version(|entries| + 1), None);
      if name !in entries {
        order := order + [name];
      }
      entries := entries[name := info];
    }

    /** `get_model`: the record stored under the name, if any. */
    function GetModel(name: string): (r: Option<ModelInfo>)
      reads this
      ensures r.Some? <==> name in entries
      ensures r.Some? ==> r.value == entries[name]
    {
      if name in entries then Some(entries[name]) else None
    }

    /** `load_model` up to the deserialization: an unknown name is a
        `ValueError`, a missing file a `FileNotFoundError`, otherwise the
        stored path is the one loaded. */
    function LoadModel(name: string, fileExists: string -> bool): (r: Result<string, RegistryError>)
      reads this
      ensures name !in entries <==> r == Failure(ModelNotFound(name))
      ensures r.Success? <==> name in entries && fileExists(entries[name].modelPath)
      ensures r.Success? ==> r.value == entries[name].modelPath
      ensures r.Failure? && r.error.ModelFileNotFound? ==>
        name in entries && r.error.path == entries[name].modelPath
      ensures name in entries && !fileExists(entries[name].modelPath) ==>
        r == Failure(ModelFileNotFound(entries[name].modelPath))
    {
      if name !in entries then Failure(ModelNotFound(name))
      else if !fileExists(entries[name].modelPath) then Failure(ModelFileNotFound(entries[name].modelPath))
      else Success(entries[name].modelPath)
    }

    /** `get_best_model`: the first model, in insertion order, with the
        strictly highest score above -1; none when the registry is empty or
        no model scores above -1 (a missing metric scores -1). The source's
        default metric is `DefaultMetric`. */
    method GetBestModel(metric: string) returns (best: Option<string>)
      requires Valid()
      ensures best.None? <==> forall i :: 0 <= i < |order| ==> Score(entries[order[i]], metric) <= -1.0
      ensures best.Some? ==>
        exists k :: 0 <= k < |order| && order[k] == best.value
          && Score(entries[order[k]], metric) > -1.0
          && (forall i :: 0 <= i < |order| ==> Score(entries[order[i]], metric) <= Score(entries[order[k]], metric))
          && (forall i :: 0 <= i < k ==> Score(entries[order[i]], metric) < Score(entries[order[k]], metric))
    {
      if entries == map[] {
        return None;
      }
      best := None;
      var bestScore := -1.0;
      ghost var bestIndex := 0;
      var i := 0;
      while i < |order|
        invariant 0 <= i <= |order|
        invariant best.None? ==> bestScore == -1.0
        invariant best.None? ==> forall j :: 0 <= j < i ==> Score(entries[order[j]], metric) <= -1.0
        invariant best.Some? ==>
          0 <= bestIndex < i && order[bestIndex] == best.value
          && bestScore == Score(entries[order[bestIndex]], metric) && bestScore > -1.0
          && (forall j :: 0 <= j < bestIndex ==> Score(entries[order[j]], metric) < bestScore)
        invariant forall j :: 0 <= j < i ==> Score(entries[order[j]], metric) <= bestScore
      {
        var name := order[i];
        var score := Score(entries[name], metric);
        if score > bestScore {
          bestScore := score;
          best := Some(name);
          bestIndex := i;
        }
        i := i + 1;
      }
      if best.Some? {
        assert order[bestIndex] == best.value;
      }
    }

    /** `update_model_performance`: merges the new metrics into the stored
        ones, new values winning, and stamps the update time; an unknown name
        is a `ValueError` and leaves the registry as it was. */
    method UpdateModelPerformance(name: string, performance: map<string, real>, now: string)
      returns (outcome: Option<RegistryError>)
      requires Valid()
      modifies this
      ensures Valid()
      ensures order == old(order)
      ensures name !in old(entries) ==> outcome == Some(ModelNotFound(name)) && entries == old(entries)
      ensures name in old(entries) ==> outcome.None? && entries == old(entries)[name :=
        old(entries)[name].(performance := old(entries)[name].performance + performance,
                            lastUpdated := Some(now))]
    {
      if name in entries {
        var info := entries[name];
        entries := entries[name := info.(performance := info.performance + performance,
                                         lastUpdated := Some(now))];
        outcome := None;
      } else {
        outcome := Some(ModelNotFound(name));
      }
    }
  }
}
