// Default-model selection (crates/web_service/src/model_config_helper.rs):
// which model a request uses when it names none, by provider.
module ModelConfig {
  import opened Wrappers

  /** The part of a provider section that matters here. */
  datatype ProviderSection = ProviderSection(apiKey: string, model: Option<string>)

  datatype ProviderConfigs = ProviderConfigs(
    openai: Option<ProviderSection>, anthropic: Option<ProviderSection>,
    gemini: Option<ProviderSection>, copilot: Option<ProviderSection>)

  /** The application configuration, reduced to the fields the selection reads. */
  datatype Config = Config(provider: string, providers: ProviderConfigs, model: Option<string>)

  datatype LlmError = Auth(message: string)

  /** The model Copilot uses when none is configured. */
  const COPILOT_DEFAULT_MODEL := "gpt-4o"

  /** The providers whose own section must name the model. */
  predicate NeedsSection(provider: string)
  {
    provider == "openai" || provider == "anthropic" || provider == "gemini"
  }

  /** How messages name those providers. */
  function DisplayName(provider: string): string
  {
    if provider == "openai" then "OpenAI" else if provider == "anthropic" then "Anthropic" else "Gemini"
  }

  function SectionOf(providers: ProviderConfigs, provider: string): Option<ProviderSection>
  {
    if provider == "openai" then providers.openai
    else if provider == "anthropic" then providers.anthropic
    else if provider == "gemini" then providers.gemini
    else providers.copilot
  }

  /** `get_default_model_from_config` */
  function DefaultModel(config: Config): (r: Result<string, LlmError>)
    ensures config.provider == "copilot" ==> r == Ok(config.model.UnwrapOr(COPILOT_DEFAULT_MODEL))
    ensures NeedsSection(config.provider) ==>
              var section := SectionOf(config.providers, config.provider);
              && (section.None? ==> r == Err(Auth(DisplayName(config.provider) + " configuration required")))
              && (section.Some? && section.value.model.None? ==>
                    r == Err(Auth(DisplayName(config.provider) + " model must be specified in config")))
              && (section.Some? && section.value.model.Some? ==> r == Ok(section.value.model.value))
    ensures config.provider != "copilot" && !NeedsSection(config.provider) ==>
              r == Err(Auth("Unknown provider: " + config.provider))
  {
    match config.provider
    case "copilot" => Ok(config.model.UnwrapOr(COPILOT_DEFAULT_MODEL))
    case "openai" => ModelOfSection(config.providers.openai, "OpenAI")
    case "anthropic" => ModelOfSection(config.providers.anthropic, "Anthropic")
    case "gemini" => ModelOfSection(config.providers.gemini, "Gemini")
    case _ => Err(Auth("Unknown provider: " + config.provider))
  }

  function ModelOfSection(section: Option<ProviderSection>, name: string): Result<string, LlmError>
  {
    match section
    case None => Err(Auth(name + " configuration required"))
    case Some(s) =>
      match s.model
      case None => Err(Auth(name + " model must be specified in config"))
      case Some(m) => Ok(m)
  }

  /**
   * The selected model always comes from the configuration, except for
   * Copilot's fallback: the root `model` is read only for Copilot, and a
   * provider section only for its own provider.
   */
  lemma DefaultModelSource(config: Config)
    requires DefaultModel(config).Ok?
    ensures var m := DefaultModel(config).value;
            || (config.provider == "copilot" && (config.model == Some(m) || (config.model.None? && m == COPILOT_DEFAULT_MODEL)))
            || (NeedsSection(config.provider) && SectionOf(config.providers, config.provider).value.model == Some(m))
  {
  }

  /** The outcome for a provider depends on nothing but the root model (Copilot) or that provider's own section. */
  lemma DefaultModelIgnoresOtherSections(c1: Config, c2: Config)
    requires c1.provider == c2.provider
    requires c1.provider == "copilot" ==> c1.model == c2.model
    requires NeedsSection(c1.provider) ==> SectionOf(c1.providers, c1.provider) == SectionOf(c2.providers, c2.provider)
    ensures DefaultModel(c1) == DefaultModel(c2)
  {
  }

  /** A known provider with a configured model always resolves; only the provider name and missing sections or models fail. */
  lemma DefaultModelFailsOnlyWhenUnconfigured(config: Config)
    requires DefaultModel(config).Err?
    ensures || (config.provider != "copilot" && !NeedsSection(config.provider))
            || (NeedsSection(config.provider) &&
                (SectionOf(config.providers, config.provider).None? || SectionOf(config.providers, config.provider).value.model.None?))
  {
  }
}
