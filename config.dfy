/**
 * The application settings the pipeline reads (api/config.py).  Loading them
 * from the environment is not modelled: a run receives either the loaded
 * `Settings` or `None` when loading raised.
 */
module Config {

  datatype Settings = Settings(
    llmApiKey: string,
    ragMaxDistance: real,
    ragConfidenceMaxDistance: real,
    guardrailsConfidenceThreshold: real,
    guardrailsEscalateOnNoAnswer: bool,
    guardrailsEscalationPolicy: string)

  /** The field defaults, used when the environment sets nothing. */
  const DefaultSettings: Settings := Settings("", 1.2, 1.1, 0.7, true, "[]")
}
