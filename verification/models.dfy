/** lib/models.ts: the model registry, read from the `MODELS` environment
    variable. The variable's value and `JSON.parse` are inputs: the parser
    is a function giving `None` where `JSON.parse` throws. */
module Models {
  import opened Wrappers
  import opened ChatTypes

  /** `getModelsConfig`: an unset or empty variable, or one that does not
      parse, degrades to the empty list. */
  function GetModelsConfig(modelsEnv: Option<string>, parseJson: string -> Option<seq<ModelConfig>>): (models: seq<ModelConfig>)
    ensures modelsEnv == None || modelsEnv == Some("") ==> models == []
    ensures modelsEnv.Some? && modelsEnv.value != "" && parseJson(modelsEnv.value).None? ==> models == []
    ensures modelsEnv.Some? && modelsEnv.value != "" && parseJson(modelsEnv.value).Some? ==>
      models == parseJson(modelsEnv.value).value
  {
    if modelsEnv == None || modelsEnv == Some("") then []
    else
      match parseJson(modelsEnv.value)
      case Some(models) => models
      case None => []
  }

  /** `models.find(model => model.id === modelId) || null`: the first entry
      whose id equals `modelId` exactly, or nothing. */
  function FindModel(models: seq<ModelConfig>, modelId: string): (r: Option<ModelConfig>)
    ensures r.None? <==> forall i :: 0 <= i < |models| ==> models[i].id != modelId
    ensures r.Some? ==> r.value.id == modelId
    ensures r.Some? ==> exists k :: (0 <= k < |models| && models[k] == r.value &&
      forall j :: 0 <= j < k ==> models[j].id != modelId)
  {
    if models == [] then None
    else if models[0].id == modelId then Some(models[0])
    else
      FindModel(models[1..], modelId)
  }

  /** `getModelConfig`: look the id up in the freshly loaded configuration. */
  function GetModelConfig(modelsEnv: Option<string>, parseJson: string -> Option<seq<ModelConfig>>, modelId: string): (r: Option<ModelConfig>)
    ensures r.Some? ==> r.value.id == modelId && r.value in GetModelsConfig(modelsEnv, parseJson)
    ensures r.None? <==> forall m :: m in GetModelsConfig(modelsEnv, parseJson) ==> m.id != modelId
  {
    FindModel(GetModelsConfig(modelsEnv, parseJson), modelId)
  }

  /** With duplicate ids the earlier entry wins. */
  lemma FirstMatchWins(models: seq<ModelConfig>, i: int, j: int)
    requires 0 <= i < j < |models| && models[i].id == models[j].id
    requires forall k :: 0 <= k < i ==> models[k].id != models[i].id
    ensures FindModel(models, models[j].id) == Some(models[i])
  {
    var r := FindModel(models, models[j].id);
    var k :| 0 <= k < |models| && models[k] == r.value && forall m :: 0 <= m < k ==> models[m].id != models[j].id;
    assert k == i;
  }

  /** An unset, empty or unparsable `MODELS` leaves every id unknown. */
  lemma UnconfiguredKnowsNoModel(modelsEnv: Option<string>, parseJson: string -> Option<seq<ModelConfig>>, modelId: string)
    requires modelsEnv == None || modelsEnv == Some("") || parseJson(modelsEnv.value).None?
    ensures GetModelConfig(modelsEnv, parseJson, modelId) == None
  {
  }
}
