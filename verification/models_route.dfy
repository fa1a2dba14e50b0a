/** app/api/models/route.ts: the `GET /api/models` listing. Loading the
    configuration is an input that may have thrown. */
module ModelsRoute {
  import opened Wrappers
  import opened ChatTypes
  import opened Models

  const ModelsUnavailable := "Failed to get models configuration"

  /** The public face of a model: its id and display label, nothing more. */
  datatype ModelSummary = ModelSummary(id: string, displayLabel: string)

  datatype ModelsBody = ModelList(models: seq<ModelSummary>) | ModelsError(error: string)

  datatype ModelsReply = ModelsReply(status: nat, body: ModelsBody)

  /** `models.map(model => ({id, label}))`. */
  function Summaries(models: seq<ModelConfig>): (r: seq<ModelSummary>)
    ensures |r| == |models|
    ensures forall i :: 0 <= i < |models| ==>
      r[i].id == models[i].id && r[i].displayLabel == models[i].displayLabel
  {
    seq(|models|, i requires 0 <= i < |models| => ModelSummary(models[i].id, models[i].displayLabel))
  }

  /** `GET`: the listing with the default status, or 500 with a fixed
      message when loading the configuration threw. */
  function Get(loaded: Result<seq<ModelConfig>, Exception>): (r: ModelsReply)
    ensures loaded.Success? ==> r.status == 200 && r.body.ModelList? && r.body.models == Summaries(loaded.value)
    ensures loaded.Failure? ==> r == ModelsReply(500, ModelsError(ModelsUnavailable))
  {
    match loaded
    case Success(models) => ModelsReply(200, ModelList(Summaries(models)))
    case Failure(_) => ModelsReply(500, ModelsError(ModelsUnavailable))
  }

  /** The listing depends on ids and labels only: mode, URL and credentials
      never influence it. */
  lemma ListingExposesOnlyIdAndLabel(a: seq<ModelConfig>, b: seq<ModelConfig>)
    requires |a| == |b|
    requires forall i :: 0 <= i < |a| ==> a[i].id == b[i].id && a[i].displayLabel == b[i].displayLabel
    ensures Get(Success(a)) == Get(Success(b))
  {
    assert Summaries(a) == Summaries(b);
  }

  /** With the typed configuration loader nothing throws: the listing always
      succeeds, and is empty when `MODELS` is unset, empty or unparsable. */
  lemma ListingFromEnvironment(modelsEnv: Option<string>, parseJson: string -> Option<seq<ModelConfig>>)
    ensures var r := Get(Success(GetModelsConfig(modelsEnv, parseJson)));
      && r.status == 200
      && (modelsEnv == None || modelsEnv == Some("") || parseJson(modelsEnv.value).None? ==> r.body == ModelList([]))
  {
  }

  /** Every listed model resolves in the chat gateway's lookup, so a model
      picked from the listing is never reported as not found. */
  lemma ListedModelsResolve(models: seq<ModelConfig>, i: int)
    requires 0 <= i < |models|
    ensures var found := FindModel(models, Summaries(models)[i].id);
      found.Some? && found.value.id == models[i].id
  {
  }
}
