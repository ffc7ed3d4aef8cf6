/**
 * The configuration checker script. Instead of printing, it returns a
 * report: the status line shown for each service and the final verdict with
 * the provider it announces.
 */
module Validator {
  import opened Environment
  import Advisor

  /** The line printed for the Alpha Vantage key. */
  datatype AlphaStatus = AlphaMissing | AlphaInvalidFormat | AlphaConfigured

  /** The line printed for a language-model provider; a configured one names its model. */
  datatype ProviderStatus = NotConfigured | InvalidFormat | Configured(model: string)

  /** The final verdict, decided in this order. */
  datatype Verdict = AlphaCritical | ProviderCritical | Valid(provider: string)

  datatype Report = Report(alpha: AlphaStatus, openAI: ProviderStatus, azure: ProviderStatus, verdict: Verdict)

  const AzureProviderName := "Azure OpenAI"
  const OpenAIProviderName := "OpenAI"
  const PlaceholderPrefix := "your_"

  /** A present Alpha Vantage key that is not a placeholder and has at least 10 characters. */
  predicate AlphaKeyWellFormed(key: string) {
    !StartsWith(key, PlaceholderPrefix) && |key| >= 10
  }

  /** An OpenAI key starts with "sk-" and has more than 20 characters. */
  predicate OpenAIKeyWellFormed(key: string) {
    StartsWith(key, "sk-") && |key| > 20
  }

  /** An HTTPS endpoint, a key of more than 20 characters, a deployment that is not a placeholder. */
  predicate AzureWellFormed(endpoint: string, key: string, deployment: string) {
    StartsWith(endpoint, "https://") && |key| > 20 && !StartsWith(deployment, PlaceholderPrefix)
  }

  /** The Alpha Vantage line: missing when unset, configured when well formed, invalid otherwise. */
  function CheckAlpha(env: Env): (r: AlphaStatus)
    ensures r == AlphaMissing <==> !IsSet(env, AlphaVantageApiKey)
    ensures r == AlphaInvalidFormat <==>
      IsSet(env, AlphaVantageApiKey) && (StartsWith(env[AlphaVantageApiKey], "your_") || |env[AlphaVantageApiKey]| < 10)
  {
    if !IsSet(env, AlphaVantageApiKey) then AlphaMissing
    else if AlphaKeyWellFormed(env[AlphaVantageApiKey]) then AlphaConfigured
    else AlphaInvalidFormat
  }

  /** The OpenAI line; a configured provider reports the model variable, or "gpt-4o-mini" when it is absent. */
  function CheckOpenAI(env: Env): (r: ProviderStatus)
    ensures r.NotConfigured? <==> !IsSet(env, OpenAIApiKey)
    ensures r.Configured? <==>
      IsSet(env, OpenAIApiKey) && StartsWith(env[OpenAIApiKey], "sk-") && |env[OpenAIApiKey]| > 20
    ensures r.Configured? ==> r.model == if OpenAIModel in env then env[OpenAIModel] else "gpt-4o-mini"
  {
    if !IsSet(env, OpenAIApiKey) then NotConfigured
    else if OpenAIKeyWellFormed(env[OpenAIApiKey]) then Configured(LookupOr(env, OpenAIModel, Advisor.DefaultOpenAIModel))
    else InvalidFormat
  }

  /**
   * The Azure line: not configured unless all four variables are set; a
   * configured provider reports the model variable, or "gpt-4o" when it is
   * absent.
   */
  function CheckAzure(env: Env): (r: ProviderStatus)
    ensures r.NotConfigured? <==> exists v :: v in AzureVariables && !IsSet(env, v)
    ensures r.Configured? <==>
      && Advisor.AzureComplete(env)
      && StartsWith(env[AzureEndpoint], "https://") && |env[AzureApiKey]| > 20
      && !StartsWith(env[AzureDeployment], "your_")
    ensures r.Configured? ==> r.model == if AzureModel in env then env[AzureModel] else "gpt-4o"
  {
    if !Advisor.AzureComplete(env) then NotConfigured
    else if AzureWellFormed(env[AzureEndpoint], env[AzureApiKey], env[AzureDeployment]) then
      Configured(LookupOr(env, AzureModel, Advisor.DefaultAzureModel))
    else InvalidFormat
  }

  /**
   * The final check: only a missing key or a placeholder key is critical for
   * Alpha Vantage; then one of the providers must be configured; Azure is
   * announced when it is.
   */
  function FinalVerdict(env: Env, openAIConfigured: bool, azureConfigured: bool): (r: Verdict)
    ensures r == AlphaCritical <==>
      !IsSet(env, AlphaVantageApiKey) || StartsWith(env[AlphaVantageApiKey], "your_")
    ensures r == ProviderCritical <==> r != AlphaCritical && !openAIConfigured && !azureConfigured
    ensures r.Valid? ==> (r.provider == "Azure OpenAI" <==> azureConfigured)
    ensures r.Valid? ==> (r.provider == "OpenAI" <==> !azureConfigured)
  {
    if !IsSet(env, AlphaVantageApiKey) || StartsWith(env[AlphaVantageApiKey], PlaceholderPrefix) then AlphaCritical
    else if !(openAIConfigured || azureConfigured) then ProviderCritical
    else Valid(if azureConfigured then AzureProviderName else OpenAIProviderName)
  }

  /**
   * `test_configuration`: the three status lines, each decided from the
   * environment alone, and a verdict decided in order: Alpha Vantage first,
   * then the providers, then success naming Azure whenever Azure is
   * configured.
   */
  function TestConfiguration(env: Env): (r: Report)
    ensures r.alpha == AlphaMissing <==> !IsSet(env, AlphaVantageApiKey)
    ensures r.alpha == AlphaInvalidFormat <==>
      IsSet(env, AlphaVantageApiKey)
      && (StartsWith(env[AlphaVantageApiKey], "your_") || |env[AlphaVantageApiKey]| < 10)
    ensures r.openAI.Configured? <==>
      IsSet(env, OpenAIApiKey) && StartsWith(env[OpenAIApiKey], "sk-") && |env[OpenAIApiKey]| > 20
    ensures r.openAI.Configured? ==> r.openAI.model == LookupOr(env, OpenAIModel, "gpt-4o-mini")
    ensures r.azure.Configured? <==>
      && IsSet(env, AzureEndpoint) && IsSet(env, AzureApiKey)
      && IsSet(env, AzureDeployment) && IsSet(env, AzureApiVersion)
      && StartsWith(env[AzureEndpoint], "https://")
      && |env[AzureApiKey]| > 20
      && !StartsWith(env[AzureDeployment], "your_")
    ensures r.verdict == AlphaCritical <==>
      !IsSet(env, AlphaVantageApiKey) || StartsWith(env[AlphaVantageApiKey], "your_")
    ensures r.verdict == ProviderCritical <==>
      r.verdict != AlphaCritical && !r.openAI.Configured? && !r.azure.Configured?
    ensures r.verdict.Valid? ==> r.verdict.provider in {AzureProviderName, OpenAIProviderName}
    ensures r.verdict.Valid? ==> (r.verdict.provider == AzureProviderName <==> r.azure.Configured?)
    ensures r.verdict.Valid? ==> r.openAI.Configured? || r.azure.Configured?
  {
    var openAI := CheckOpenAI(env);
    var azure := CheckAzure(env);
    Report(CheckAlpha(env), openAI, azure, FinalVerdict(env, openAI.Configured?, azure.Configured?))
  }
}
