/** lib/ai/model-config.js: which language model the assistant uses. The environment
    override `OPENROUTER_MODEL` is a parameter. */
module ModelConfig {
  import opened Common
  import opened JsText
  import opened GlobalSettings

  const DefaultModel := "openai/gpt-oss-20b"
  const SettingKey := "openrouter_model"

  /** `FALLBACK_MODEL`: the override when set, the built-in default otherwise. */
  function FallbackModel(envModel: Option<string>): (r: string)
    ensures Truthy(envModel) ==> r == envModel.value
    ensures !Truthy(envModel) ==> r == DefaultModel
  {
    OrElse(envModel, DefaultModel)
  }

  /** `getModel()`. `lookupFails` stands for a settings query that throws; it is caught,
      so the result is always a model id. */
  function GetModel(envModel: Option<string>, settings: map<string, Option<string>>, lookupFails: bool): (r: string)
    ensures Truthy(envModel) ==> r == envModel.value
    ensures !Truthy(envModel) && !lookupFails && GetSetting(settings, SettingKey).Some? ==>
      r == settings[SettingKey].value
    ensures !Truthy(envModel) && (lookupFails || GetSetting(settings, SettingKey).None?) ==> r == DefaultModel
    ensures r != []
  {
    if Truthy(envModel) then envModel.value
    else if lookupFails then FallbackModel(envModel)
    else OrElse(GetSetting(settings, SettingKey), FallbackModel(envModel))
  }

  /** `setModel(modelId)`: a write under 'openrouter_model'. */
  method SetModel(store: SettingsStore, modelId: Option<string>) returns (r: Option<string>)
    modifies store
    ensures store.values == old(store.values)[SettingKey := modelId]
    ensures r == modelId
  {
    r := store.SetSetting(SettingKey, modelId);
  }

  /** Without the override, the model last set (if truthy) is the one in use, and an
      empty one brings back the default. */
  lemma SetThenGetModel(settings: map<string, Option<string>>, modelId: Option<string>)
    ensures Truthy(modelId) ==> GetModel(None, settings[SettingKey := modelId], false) == modelId.value
    ensures !Truthy(modelId) ==> GetModel(None, settings[SettingKey := modelId], false) == DefaultModel
  {
  }
}
