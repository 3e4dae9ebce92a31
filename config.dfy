/** The older per-provider configuration record (src/config.rs). */
module Configs {

  datatype OpenAIConfig = OpenAIConfig(model: string, baseUrl: string, apiKey: string)

  /** One provider variant. */
  datatype ModelConfig = OpenAI(config: OpenAIConfig)
}
