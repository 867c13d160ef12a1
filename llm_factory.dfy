/** Provider selection (backend/app/llm/factory.py): `LLMFactory.get_client` dispatches on the
    lower-cased `LLM_PROVIDER` environment variable, and `get_llm_client` memoises the first client.
    The environment is given as a map from variable names to values. */
module LlmFactory {
  import opened Wrappers
  import opened Text

  const ProviderVariable := "LLM_PROVIDER"
  const DefaultRegion := "eu-central-1"
  const DefaultBedrockModelId := "anthropic.claude-3-5-sonnet-20240620-v1:0"
  const DefaultMistralModelId := "mistral-large-latest"

  /** Which client `get_client` constructs, with the settings it passes. */
  datatype ClientConfig =
    | BedrockConfig(region: string, modelId: string)
    | MistralConfig(apiKey: string, modelId: string)
    | OpenAiConfig
    | MockConfig

  /** `os.getenv(key, default)` */
  function GetEnv(env: map<string, string>, key: string, default: string): string {
    if key in env then env[key] else default
  }

  /** `os.getenv("LLM_PROVIDER", "mock").lower()` */
  function ProviderName(env: map<string, string>): (r: string)
    ensures ProviderVariable !in env ==> r == "mock"
    ensures ProviderVariable in env ==> |r| == |env[ProviderVariable]|
    ensures ProviderVariable in env ==> forall i :: 0 <= i < |r| ==> r[i] == LowerChar(env[ProviderVariable][i])
  {
    Lower(GetEnv(env, ProviderVariable, "mock"))
  }

  /** `LLMFactory.get_client`. */
  function ClientFor(env: map<string, string>): (c: ClientConfig)
    ensures ProviderVariable !in env ==> c == MockConfig
    ensures c.BedrockConfig? <==> ProviderName(env) == "aws"
    ensures c.MistralConfig? <==> ProviderName(env) == "mistral"
    ensures c.OpenAiConfig? <==> ProviderName(env) == "openai"
    ensures c.MockConfig? <==> ProviderName(env) !in {"aws", "mistral", "openai"}
    ensures c.BedrockConfig? ==> c.region == GetEnv(env, "AWS_REGION", DefaultRegion)
                                 && c.modelId == GetEnv(env, "AWS_BEDROCK_MODEL_ID", DefaultBedrockModelId)
    ensures c.MistralConfig? ==> c.apiKey == GetEnv(env, "MISTRAL_API_KEY", "")
                                 && c.modelId == GetEnv(env, "MISTRAL_MODEL_ID", DefaultMistralModelId)
  {
    var provider := ProviderName(env);
    if provider == "aws" then
      BedrockConfig(GetEnv(env, "AWS_REGION", DefaultRegion), GetEnv(env, "AWS_BEDROCK_MODEL_ID", DefaultBedrockModelId))
    else if provider == "mistral" then
      MistralConfig(GetEnv(env, "MISTRAL_API_KEY", ""), GetEnv(env, "MISTRAL_MODEL_ID", DefaultMistralModelId))
    else if provider == "openai" then
      OpenAiConfig
    else
      MockConfig
  }

  /** Provider names that differ only in ASCII case select the same client. */
  lemma ProviderCaseInsensitive(env: map<string, string>, a: string, b: string)
    requires Lower(a) == Lower(b)
    ensures ClientFor(env[ProviderVariable := a]) == ClientFor(env[ProviderVariable := b])
  {
    assert ProviderName(env[ProviderVariable := a]) == Lower(a);
    assert ProviderName(env[ProviderVariable := b]) == Lower(b);
  }

  /** A constructed client object. */
  class LlmClient {
    const config: ClientConfig

    constructor (config: ClientConfig)
      ensures this.config == config
    {
      this.config := config;
    }
  }

  /** The `lru_cache` behind `get_llm_client`: empty until the first call, then the first client forever. */
  class ClientCache {
    var cached: Option<LlmClient>

    constructor ()
      ensures cached == None
    {
      cached := None;
    }

    /** `get_llm_client()`: the first call builds a client from the environment of that moment; every later
        call returns that same object, whatever the environment has become. */
    method GetLlmClient(env: map<string, string>) returns (c: LlmClient)
      modifies this
      ensures old(cached).Some? ==> c == old(cached).value && cached == old(cached)
      ensures old(cached).None? ==> fresh(c) && c.config == ClientFor(env) && cached == Some(c)
    {
      if cached.Some? {
        c := cached.value;
      } else {
        c := new LlmClient(ClientFor(env));
        cached := Some(c);
      }
    }
  }

  /** Two calls hand out one and the same instance. */
  method RepeatedCallsShareClient(cache: ClientCache, env1: map<string, string>, env2: map<string, string>)
    returns (first: LlmClient, second: LlmClient)
    modifies cache
    ensures first == second
    ensures old(cache.cached).None? ==> first.config == ClientFor(env1)
  {
    first := cache.GetLlmClient(env1);
    second := cache.GetLlmClient(env2);
  }
}
