/**
 * How the three "is it configured?" rules relate: the provider selection
 * the advisor actually performs, the web service's health verdict, and the
 * configuration checker's verdict. Where they agree this is proved for every
 * environment; where they disagree a concrete environment exhibits it.
 */
module Consistency {
  import opened Wrappers
  import opened Environment
  import Advisor
  import Web
  import Validator
  import Ticker
  import Transcript

  // ---------------------------------------------------------------------
  // Health check versus provider selection

  /**
   * Whenever the advisor can build a client and fetch data, the health
   * check reports healthy; a health error therefore means analysis cannot
   * start.
   */
  lemma HealthWeakerThanSelection(env: Env)
    requires IsSet(env, AlphaVantageApiKey) && Advisor.CreateModelClient(env).Success?
    ensures Web.HealthCheck(env).status == Web.StatusHealthy
  {
    Advisor.SelectionOutcomes(env);
  }

  /** The exact gap: healthy, yet no client, precisely when Azure is incomplete and only its endpoint stands in for a provider. */
  lemma HealthSelectionGap(env: Env)
    ensures Web.HealthCheck(env).status == Web.StatusHealthy && Advisor.CreateModelClient(env).Failure?
      <==> IsSet(env, AlphaVantageApiKey) && IsSet(env, AzureEndpoint)
           && !Advisor.AzureComplete(env) && !IsSet(env, OpenAIApiKey)
  {
    Advisor.SelectionOutcomes(env);
  }

  /** An environment with the Alpha Vantage key and only the Azure endpoint. */
  const EndpointOnly: Env := map[AlphaVantageApiKey := "ABCDEFGHIJ", AzureEndpoint := "https://example.openai.azure.com/"]

  /** The gap is real: the endpoint alone reports healthy while provider selection raises. */
  lemma EndpointAloneIsHealthyButUnselectable()
    ensures Web.HealthCheck(EndpointOnly).status == Web.StatusHealthy
    ensures Advisor.CreateModelClient(EndpointOnly) == Failure(Advisor.NoConfigurationMessage)
  {
    assert !IsSet(EndpointOnly, AzureApiKey);
    assert !IsSet(EndpointOnly, OpenAIApiKey);
  }

  /** `/analyze` only ever succeeds in an environment the health check calls healthy. */
  lemma AnalysisSuccessImpliesHealthy<V>(env: Env, raw: string, out: Web.Outside<V>)
    ensures Web.AnalyzeStock(env, raw, out).Success? ==> Web.HealthCheck(env).status == Web.StatusHealthy
  {
    if Web.AnalyzeStock(env, raw, out).Success? {
      Web.ValidTickerIsAnalysed(env, raw, out);
      assert Web.RunStockAnalysis(env, out).Success?;
      HealthWeakerThanSelection(env);
    }
  }

  /** The health check's Alpha Vantage test is exactly the guard in front of every data fetch. */
  lemma HealthAlphaMatchesFetchGuard(env: Env)
    ensures Web.HealthCheck(env).message == Web.AlphaNotConfigured <==> Advisor.AlphaVantageKey(env).Failure?
  {
  }

  // ---------------------------------------------------------------------
  // Configuration checker versus provider selection

  /** A verdict naming Azure agrees with the advisor, which selects Azure too. */
  lemma ValidatorAzureAgreesWithSelection(env: Env)
    requires Validator.TestConfiguration(env).verdict == Validator.Valid(Validator.AzureProviderName)
    ensures Advisor.CreateModelClient(env).Success? && Advisor.CreateModelClient(env).value.AzureClient?
  {
  }

  /**
   * A verdict naming OpenAI is contradicted by the advisor exactly when all
   * four Azure variables are set: the checker found them malformed, the
   * advisor does not check their format.
   */
  lemma ValidatorOpenAIVersusSelection(env: Env)
    requires Validator.TestConfiguration(env).verdict == Validator.Valid(Validator.OpenAIProviderName)
    ensures Advisor.CreateModelClient(env).Success?
    ensures Advisor.CreateModelClient(env).value.AzureClient? <==> Advisor.AzureComplete(env)
    ensures Advisor.AzureComplete(env) ==> Validator.TestConfiguration(env).azure == Validator.InvalidFormat
  {
  }

  /** Azure variables that are all set but fail the checker's format rules, beside a valid OpenAI key. */
  const MalformedAzure: Env := map[
    AlphaVantageApiKey := "ABCDEFGHIJ",
    OpenAIApiKey := "sk-abcdefghijklmnopqrstuvwxyz",
    AzureEndpoint := "http://example.openai.azure.com/",
    AzureApiKey := "0123456789abcdefghijk",
    AzureDeployment := "gpt-4o",
    AzureApiVersion := "2024-02-01"]

  /** The disagreement is real: the checker announces OpenAI while the advisor builds an Azure client. */
  lemma ValidatorAndSelectionDisagree()
    ensures Validator.TestConfiguration(MalformedAzure).verdict == Validator.Valid(Validator.OpenAIProviderName)
    ensures Advisor.CreateModelClient(MalformedAzure).Success?
    ensures Advisor.CreateModelClient(MalformedAzure).value.AzureClient?
  {
    var env := MalformedAzure;
    assert Advisor.AzureComplete(env);
    assert !StartsWith(env[AzureEndpoint], "https://") by {
      assert env[AzureEndpoint][4] == ':';
    }
    assert StartsWith(env[OpenAIApiKey], "sk-");
    assert !StartsWith(env[AlphaVantageApiKey], "your_") by {
      assert env[AlphaVantageApiKey][0] == 'A';
    }
    assert Validator.CheckOpenAI(env).Configured?;
    assert !Validator.CheckAzure(env).Configured?;
  }

  /** Whatever provider the checker announces, the advisor can build a client and fetch data. */
  lemma ValidatorSuccessImpliesUsable(env: Env)
    requires Validator.TestConfiguration(env).verdict.Valid?
    ensures Advisor.CreateModelClient(env).Success?
    ensures Advisor.AlphaVantageKey(env).Success?
    ensures Web.HealthCheck(env).status == Web.StatusHealthy
  {
    Advisor.SelectionOutcomes(env);
  }

  /** The converse fails: a placeholder Alpha Vantage key passes the health check but is critical for the checker. */
  lemma HealthyButValidatorCritical()
    ensures Web.HealthCheck(map[AlphaVantageApiKey := "your_alpha_vantage_key", OpenAIApiKey := "x"]).status
            == Web.StatusHealthy
    ensures Validator.TestConfiguration(map[AlphaVantageApiKey := "your_alpha_vantage_key", OpenAIApiKey := "x"]).verdict
            == Validator.AlphaCritical
  {
    var env := map[AlphaVantageApiKey := "your_alpha_vantage_key", OpenAIApiKey := "x"];
    assert StartsWith(env[AlphaVantageApiKey], "your_");
  }

  // ---------------------------------------------------------------------
  // The checker against itself

  /**
   * The Alpha Vantage status line and the final check disagree exactly on a
   * short key that is not a placeholder: it is reported as malformed yet
   * passes the final check.
   */
  lemma AlphaLineVersusFinalCheck(env: Env)
    ensures var r := Validator.TestConfiguration(env);
      r.alpha == Validator.AlphaInvalidFormat && r.verdict != Validator.AlphaCritical
      <==> IsSet(env, AlphaVantageApiKey)
           && !StartsWith(env[AlphaVantageApiKey], "your_") && |env[AlphaVantageApiKey]| < 10
  {
  }

  /** A short key with a valid OpenAI key: "Invalid API key format" for Alpha Vantage, and still success. */
  lemma ShortAlphaKeyStillSucceeds()
    ensures Validator.TestConfiguration(map[AlphaVantageApiKey := "demo", OpenAIApiKey := "sk-abcdefghijklmnopqrstuvwxyz"]).alpha
            == Validator.AlphaInvalidFormat
    ensures Validator.TestConfiguration(map[AlphaVantageApiKey := "demo", OpenAIApiKey := "sk-abcdefghijklmnopqrstuvwxyz"]).verdict
            == Validator.Valid(Validator.OpenAIProviderName)
  {
    var env := map[AlphaVantageApiKey := "demo", OpenAIApiKey := "sk-abcdefghijklmnopqrstuvwxyz"];
    assert !StartsWith(env[AlphaVantageApiKey], "your_") by {
      assert env[AlphaVantageApiKey][0] == 'd';
    }
    assert StartsWith(env[OpenAIApiKey], "sk-");
    assert !Advisor.AzureComplete(env);
  }
}
