/** Resolution of the AI configuration (src/config/aiConfig.ts).  The
    environment variables and the configuration-file loader are inputs: the
    loader's module is not part of this model, so its three entry points are
    the fields of `Loader`. */
module AiConfig {
  import opened Types
  import opened AiModels

  /** The import.meta.env variables read here; `Some("")` is set but falsy. */
  datatype Env = Env(key: Option<string>, modelId: Option<string>, provider: Option<string>,
                     model: Option<string>, url: Option<string>)

  /** `x || fallback` on an optional string. */
  function OrElse(x: Option<string>, fallback: string): (r: string)
    ensures x.Some? && x.value != "" ==> r == x.value
    ensures x.None? || x.value == "" ==> r == fallback
  {
    if x.Some? && x.value != "" then x.value else fallback
  }

  predicate Truthy(x: Option<string>) { x.Some? && x.value != "" }

  /** A model entry of the configuration file. */
  datatype ModelConfig = ModelConfig(id: string, provider: Provider, model: string, apiUrl: string,
                                     temperature: Option<real>, maxTokens: Option<int>)

  datatype PromptConfig = PromptConfig(temperature: Option<real>, maxTokens: Option<int>)

  /** getModelConfigById, getDefaultModelConfig and getPromptConfig. */
  datatype Loader = Loader(byId: string -> Option<ModelConfig>, defaultModel: Option<ModelConfig>,
                           prompt: PromptConfig)

  datatype AIConfig = AIConfig(provider: Provider, apiKey: string, model: string, apiUrl: string,
                               temperature: Option<real>, maxTokens: Option<int>,
                               modelId: Option<string>)

  function OrOption<T>(x: Option<T>, y: Option<T>): (r: Option<T>)
    ensures x.Some? ==> r == x
    ensures x.None? ==> r == y
  {
    if x.Some? then x else y
  }

  /** getProviderUrl: fixed URLs for the two hosted providers, VITE_AI_URL for
      custom, and SiliconFlow for anything else. */
  function GetProviderUrl(env: Env, provider: Provider): (url: string)
    ensures provider == OpenAI ==> url == OpenAIUrl
    ensures provider == Custom ==> url == OrElse(env.url, "")
    ensures provider != OpenAI && provider != Custom ==> url == SiliconFlowUrl
  {
    match provider
    case SiliconFlow => SiliconFlowUrl
    case OpenAI => OpenAIUrl
    case Custom => OrElse(env.url, "")
    case UnknownProvider(_) => SiliconFlowUrl
  }

  /** The model chosen by the priority order: a truthy VITE_AI_MODEL_ID that
      the loader knows, else the loader's default. */
  function ChosenModel(env: Env, loader: Loader): (m: Option<ModelConfig>)
    ensures Truthy(env.modelId) && loader.byId(env.modelId.value).Some? ==>
              m == loader.byId(env.modelId.value)
    ensures !(Truthy(env.modelId) && loader.byId(env.modelId.value).Some?) ==>
              m == loader.defaultModel
  {
    var fromEnv := if Truthy(env.modelId) then loader.byId(env.modelId.value) else None;
    if fromEnv.Some? then fromEnv else loader.defaultModel
  }

  /** getAIConfig */
  function GetAIConfig(env: Env, loader: Loader): (c: AIConfig)
    ensures c.apiKey == OrElse(env.key, "")
    ensures ChosenModel(env, loader).None? ==>
              && c.provider == ProviderOf(OrElse(env.provider, "siliconflow"))
              && c.model == OrElse(env.model, "Qwen/Qwen2.5-72B-Instruct")
              && c.apiUrl == GetProviderUrl(env, c.provider)
              && c.temperature == Some(0.8) && c.maxTokens == Some(2000)
              && c.modelId.None?
    ensures ChosenModel(env, loader).Some? ==>
              var m := ChosenModel(env, loader).value;
              && c.provider == m.provider && c.model == m.model && c.apiUrl == m.apiUrl
              && c.temperature == OrOption(m.temperature, loader.prompt.temperature)
              && c.maxTokens == OrOption(m.maxTokens, loader.prompt.maxTokens)
              && c.modelId == Some(m.id)
  {
    var apiKey := OrElse(env.key, "");
    var modelConfig := ChosenModel(env, loader);
    if modelConfig.None? then
      var envProvider := ProviderOf(OrElse(env.provider, "siliconflow"));
      var envModel := OrElse(env.model, "Qwen/Qwen2.5-72B-Instruct");
      AIConfig(envProvider, apiKey, envModel, GetProviderUrl(env, envProvider),
               Some(0.8), Some(2000), None)
    else
      var m := modelConfig.value;
      var promptConfig := loader.prompt;
      AIConfig(m.provider, apiKey, m.model, m.apiUrl,
               OrOption(m.temperature, promptConfig.temperature),
               OrOption(m.maxTokens, promptConfig.maxTokens), Some(m.id))
  }

  /** validateAIConfig: both the key and the URL are non-empty. */
  function ValidateAIConfig(env: Env, loader: Loader): (ok: bool)
    ensures ok <==> GetAIConfig(env, loader).apiKey != "" && GetAIConfig(env, loader).apiUrl != ""
  {
    var config := GetAIConfig(env, loader);
    config.apiKey != "" && config.apiUrl != ""
  }

  /** Without a truthy VITE_AI_KEY the configuration is never valid. */
  lemma {:induction false} NoKeyNeverValid(env: Env, loader: Loader)
    requires !Truthy(env.key)
    ensures !ValidateAIConfig(env, loader)
  {
  }

  /** With no file configuration, a key and a hosted provider the
      configuration is valid: only the custom provider can lack a URL. */
  lemma {:induction false} EnvFallbackValidUnlessCustom(env: Env, loader: Loader)
    requires Truthy(env.key) && ChosenModel(env, loader).None?
    ensures ValidateAIConfig(env, loader) <==>
              ProviderOf(OrElse(env.provider, "siliconflow")) != Custom || Truthy(env.url)
  {
  }

  /** A model id unknown to the loader falls back to the file's default, just
      as if no id were given. */
  lemma {:induction false} UnknownModelIdFallsBack(env: Env, loader: Loader)
    requires Truthy(env.modelId) && loader.byId(env.modelId.value).None?
    ensures GetAIConfig(env, loader) == GetAIConfig(env.(modelId := None), loader)
  {
  }
}
