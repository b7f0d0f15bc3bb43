/** AIModelResolver: which model object and which AI service a model
    configuration resolves to. */
module ModelResolver {
  import opened Wrappers

  /** The ConfigService ModelConfigs row fields the resolver reads. */
  datatype ModelConfig = ModelConfig(id: string, provider: string, modelName: string)

  /** The only model class the resolver builds. */
  datatype AIModel = SAPAICoreGemini20(modelConfigs: ModelConfig)

  /** The AI services the resolver can hand out; the dummy one is
      referenced only in commented-out code. */
  datatype AIService = SAPGeminiAIService | DummyAIService

  const GEMINI_PROVIDER: string := "SAPAICore-Gemini"
  const OPENAI_PROVIDER: string := "SAPAICore-OpenAI"
  const CLAUDE_PROVIDER: string := "SAPAICore-Claude"
  const GEMINI_20: string := "gemini-2.0"

  function UnsupportedModel(c: ModelConfig): Failure {
    IllegalArgument("Unsupported model: " + c.provider + "/" + c.modelName)
  }

  /** resolveAIModel(ModelConfigs): the nested switch.  A Gemini provider
      with another model name breaks out of the inner switch; OpenAI and
      Claude fall through to the end of the outer one; all of these reach
      the final throw. */
  function ResolveAIModel(c: ModelConfig): (r: Result<AIModel>)
    ensures r.Ok? ==> r.value.modelConfigs == c
  {
    if c.provider == GEMINI_PROVIDER then
      if c.modelName == GEMINI_20 then Ok(SAPAICoreGemini20(c))
      else Err(UnsupportedModel(c))
    else if c.provider == OPENAI_PROVIDER || c.provider == CLAUDE_PROVIDER then
      Err(UnsupportedModel(c))
    else
      Err(UnsupportedModel(c))
  }

  /** Exactly the Gemini 2.0 configuration resolves; every other one is
      rejected with its provider and model name in the message. */
  lemma ResolveOnlyGemini20(c: ModelConfig)
    ensures ResolveAIModel(c).Ok? <==> c.provider == GEMINI_PROVIDER && c.modelName == GEMINI_20
    ensures ResolveAIModel(c).Err? ==> ResolveAIModel(c).error == UnsupportedModel(c)
  {
  }

  /** The model's name, as SAPAICoreGemini20.getModelName gives it. */
  function ModelName(m: AIModel): string {
    m.modelConfigs.modelName
  }

  /** resolveAIModel(String): the configuration row by ID, then the
      switch.  The older GenericCqnService's getModelConfig leaves its
      not-found throw commented out, so a missing row fails in
      `result.single` with CAP's empty-result exception. */
  function ResolveAIModelById(configs: map<string, ModelConfig>, modelConfigId: string): (r: Result<AIModel>)
    ensures modelConfigId !in configs ==> r == Err(EmptyResult(modelConfigId))
    ensures modelConfigId in configs ==> r == ResolveAIModel(configs[modelConfigId])
  {
    if modelConfigId !in configs then Err(EmptyResult(modelConfigId))
    else ResolveAIModel(configs[modelConfigId])
  }

  /** A resolved model always answers "gemini-2.0" for its name. */
  lemma ResolvedModelName(c: ModelConfig)
    requires ResolveAIModel(c).Ok?
    ensures ModelName(ResolveAIModel(c).value) == GEMINI_20
  {
  }

  /** resolveAIService: every provider, known or not, gets the Gemini
      service. */
  function ResolveAIService(c: ModelConfig): (r: AIService)
    ensures r == SAPGeminiAIService
  {
    match c.provider
    case "SAPAICore-Gemini" => SAPGeminiAIService
    case "SAPAICore-OpenAI" => SAPGeminiAIService
    case "SAPAICore-Claude" => SAPGeminiAIService
    case _ => SAPGeminiAIService
  }
}
