/** The preset model catalog (src/config/aiModels.ts) and its lookups. */
module AiModels {
  import opened Types
  import opened Seqs

  /** An AI provider; a name outside the three known ones can reach the
      configuration through an unchecked cast of an environment string. */
  datatype Provider = SiliconFlow | OpenAI | Custom | UnknownProvider(name: string)

  function ProviderName(p: Provider): string {
    match p
    case SiliconFlow => "siliconflow"
    case OpenAI => "openai"
    case Custom => "custom"
    case UnknownProvider(n) => n
  }

  /** The provider that a string names once cast to AIProvider. */
  function ProviderOf(s: string): (p: Provider)
    ensures ProviderName(p) == s
  {
    if s == "siliconflow" then SiliconFlow
    else if s == "openai" then OpenAI
    else if s == "custom" then Custom
    else UnknownProvider(s)
  }

  const SiliconFlowUrl := "https://api.siliconflow.cn/v1/chat/completions"
  const OpenAIUrl := "https://api.openai.com/v1/chat/completions"

  datatype AIModel = AIModel(id: string, name: string, provider: Provider, model: string,
                             apiUrl: string, description: string,
                             temperature: Option<real>, maxTokens: Option<int>)

  /** AI_MODELS */
  const Catalog: seq<AIModel> := [
    AIModel("qwen-72b", "Qwen 2.5 72B", SiliconFlow, "Qwen/Qwen2.5-72B-Instruct", SiliconFlowUrl,
            "通义千问 72B 模型，性能强大，适合复杂场景", Some(0.8), Some(2000)),
    AIModel("deepseek-v3", "DeepSeek V3", SiliconFlow, "deepseek-ai/DeepSeek-V3", SiliconFlowUrl,
            "DeepSeek V3 模型，推理能力强", Some(0.7), Some(2000)),
    AIModel("qwen-32b", "Qwen 2.5 32B", SiliconFlow, "Qwen/Qwen2.5-32B-Instruct", SiliconFlowUrl,
            "通义千问 32B 模型，平衡性能和速度", Some(0.8), Some(2000)),
    AIModel("qwen-14b", "Qwen 2.5 14B", SiliconFlow, "Qwen/Qwen2.5-14B-Instruct", SiliconFlowUrl,
            "通义千问 14B 模型，速度快，成本低", Some(0.8), Some(2000)),
    AIModel("llama-70b", "Llama 3 70B", SiliconFlow, "meta-llama/Llama-3-70B-Instruct", SiliconFlowUrl,
            "Llama 3 70B 模型，Meta 开源大模型", Some(0.7), Some(2000)),
    AIModel("glm-4", "GLM-4", SiliconFlow, "THUDM/glm-4-9b-chat", SiliconFlowUrl,
            "GLM-4 模型，智谱 AI 开发", Some(0.8), Some(2000)),
    AIModel("gpt-4", "GPT-4", OpenAI, "gpt-4", OpenAIUrl,
            "OpenAI GPT-4，性能最强", Some(0.8), Some(2000)),
    AIModel("gpt-4-turbo", "GPT-4 Turbo", OpenAI, "gpt-4-turbo-preview", OpenAIUrl,
            "OpenAI GPT-4 Turbo，更快更强", Some(0.8), Some(2000)),
    AIModel("gpt-3.5-turbo", "GPT-3.5 Turbo", OpenAI, "gpt-3.5-turbo", OpenAIUrl,
            "OpenAI GPT-3.5 Turbo，性价比高", Some(0.8), Some(2000)),
    AIModel("o1-preview", "O1 Preview", OpenAI, "o1-preview", OpenAIUrl,
            "OpenAI O1，推理能力极强", Some(0.8), Some(2000))
  ]

  /** The position of the first entry with that id, or -1. */
  function FindIndex(models: seq<AIModel>, id: string): (k: int)
    ensures -1 <= k < |models|
    ensures k >= 0 ==> models[k].id == id && forall j :: 0 <= j < k ==> models[j].id != id
    ensures k == -1 ==> forall j :: 0 <= j < |models| ==> models[j].id != id
  {
    if models == [] then -1
    else if models[0].id == id then 0
    else
      var k := FindIndex(models[1..], id);
      if k == -1 then -1 else k + 1
  }

  /** getModelById */
  function GetModelById(id: string): (r: Option<AIModel>)
    ensures r.None? <==> forall i :: 0 <= i < |Catalog| ==> Catalog[i].id != id
    ensures r.Some? ==> r.value in Catalog && r.value.id == id
  {
    var k := FindIndex(Catalog, id);
    if k < 0 then None else Some(Catalog[k])
  }

  /** The catalog's ids are pairwise distinct, so a lookup is unambiguous. */
  lemma CatalogIdsDistinct()
    ensures forall i, j :: 0 <= i < j < |Catalog| ==> Catalog[i].id != Catalog[j].id
  {
  }

  /** Every catalog entry is found again by its own id. */
  lemma {:induction false} LookupFindsEveryEntry(i: nat)
    requires i < |Catalog|
    ensures GetModelById(Catalog[i].id) == Some(Catalog[i])
  {
    CatalogIdsDistinct();
    var k := FindIndex(Catalog, Catalog[i].id);
    assert k == i;
  }

  /** getModelsByProvider: the entries of one provider, in catalog order. */
  function GetModelsByProvider(provider: Provider): (r: seq<AIModel>)
    ensures forall m :: m in r <==> m in Catalog && m.provider == provider
    ensures IsSubsequence(r, Catalog)
  {
    FilterIsSubsequence(Catalog, (m: AIModel) => m.provider == provider);
    Filter(Catalog, (m: AIModel) => m.provider == provider)
  }

  /** getDefaultModel: the first entry, Qwen 2.5 72B. */
  function GetDefaultModel(): (m: AIModel)
    ensures m == Catalog[0] && m.id == "qwen-72b"
  {
    Catalog[0]
  }

  /** getModelDisplayName: the name followed by the provider in parentheses. */
  function GetModelDisplayName(m: AIModel): (s: string)
    ensures |s| == |m.name| + |ProviderName(m.provider)| + 3
    ensures s[..|m.name|] == m.name
    ensures s[|m.name|..] == " (" + ProviderName(m.provider) + ")"
  {
    m.name + " (" + ProviderName(m.provider) + ")"
  }

  /** The entry is a SiliconFlow or an OpenAI model with that provider's URL. */
  predicate CarriesProviderUrl(m: AIModel) {
    || (m.provider == SiliconFlow && m.apiUrl == SiliconFlowUrl)
    || (m.provider == OpenAI && m.apiUrl == OpenAIUrl)
  }

  /** Each entry's URL is that of its provider. */
  lemma CatalogUrlsMatchProvider()
    ensures forall m :: m in Catalog ==> CarriesProviderUrl(m)
  {
    forall i | 0 <= i < |Catalog|
      ensures CarriesProviderUrl(Catalog[i])
    {
    }
  }
}
