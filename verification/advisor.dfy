/**
 * The deterministic part of the command-line advisor: choosing the language
 * model provider from the environment and the Alpha Vantage key guard that
 * precedes every market-data request.
 */
module Advisor {
  import opened Wrappers
  import opened Environment

  /** The chat-completion client `create_model_client` builds. */
  datatype ModelClient =
    | AzureClient(model: string, deployment: string, endpoint: string, apiKey: string, apiVersion: string)
    | OpenAIClient(model: string, apiKey: string)

  const DefaultAzureModel := "gpt-4o"
  const DefaultOpenAIModel := "gpt-4o-mini"

  const NoConfigurationMessage :=
    "No valid OpenAI configuration found. Please set either:\n"
    + "For Azure OpenAI: AZURE_OPENAI_ENDPOINT, AZURE_OPENAI_API_KEY, AZURE_OPENAI_DEPLOYMENT, AZURE_OPENAI_API_VERSION\n"
    + "For OpenAI: OPENAI_API_KEY"

  const AlphaKeyMissingMessage := "ALPHA_VANTAGE_API_KEY not set in environment."

  /** The `all([...])` test over the four Azure variables: each present and non-empty. */
  predicate AzureComplete(env: Env)
    ensures AzureComplete(env) <==> forall v :: v in AzureVariables ==> IsSet(env, v)
  {
    && IsSet(env, AzureEndpoint)
    && IsSet(env, AzureApiKey)
    && IsSet(env, AzureDeployment)
    && IsSet(env, AzureApiVersion)
  }

  /**
   * `create_model_client`: Azure OpenAI when its four variables are all set,
   * otherwise OpenAI when its key is set, otherwise a `ValueError`. Every
   * credential handed to a client is the environment's own, non-empty value.
   */
  function CreateModelClient(env: Env): (r: Result<ModelClient, string>)
    ensures r.Failure? ==> r.error == NoConfigurationMessage
    ensures r.Success? && r.value.AzureClient? ==>
      && Lookup(env, AzureEndpoint) == Some(r.value.endpoint) && r.value.endpoint != ""
      && Lookup(env, AzureApiKey) == Some(r.value.apiKey) && r.value.apiKey != ""
      && Lookup(env, AzureDeployment) == Some(r.value.deployment) && r.value.deployment != ""
      && Lookup(env, AzureApiVersion) == Some(r.value.apiVersion) && r.value.apiVersion != ""
    ensures r.Success? && r.value.OpenAIClient? ==>
      Lookup(env, OpenAIApiKey) == Some(r.value.apiKey) && r.value.apiKey != ""
  {
    if AzureComplete(env) then
      Success(AzureClient(
        model := LookupOr(env, AzureModel, DefaultAzureModel),
        deployment := env[AzureDeployment],
        endpoint := env[AzureEndpoint],
        apiKey := env[AzureApiKey],
        apiVersion := env[AzureApiVersion]))
    else if IsSet(env, OpenAIApiKey) then
      Success(OpenAIClient(model := LookupOr(env, OpenAIModel, DefaultOpenAIModel), apiKey := env[OpenAIApiKey]))
    else
      Failure(NoConfigurationMessage)
  }

  /**
   * The guard at the top of `fetch_stock_data`: the Alpha Vantage key, or the
   * `ValueError` raised when it is absent or empty.
   */
  function AlphaVantageKey(env: Env): (r: Result<string, string>)
    ensures r.Success? <==> IsSet(env, AlphaVantageApiKey)
    ensures r.Success? ==> r.value == env[AlphaVantageApiKey]
    ensures r.Failure? ==> r.error == AlphaKeyMissingMessage
  {
    if IsSet(env, AlphaVantageApiKey) then Success(env[AlphaVantageApiKey]) else Failure(AlphaKeyMissingMessage)
  }

  /**
   * `fetch_stock_data`: the key guard, then the Alpha Vantage download and
   * the indicator arithmetic over it, whose outcome for this key and ticker
   * is `downloaded`. The download is only reached with a non-empty key.
   */
  function FetchStockData<R>(env: Env, downloaded: Result<R, string>): (r: Result<R, string>)
    ensures !IsSet(env, AlphaVantageApiKey) ==> r == Failure(AlphaKeyMissingMessage)
    ensures IsSet(env, AlphaVantageApiKey) ==> r == downloaded
  {
    var _ :- AlphaVantageKey(env);
    downloaded
  }

  // ---------------------------------------------------------------------
  // Provider priority

  /** A complete Azure configuration wins whatever `OPENAI_API_KEY` holds, or whether it is present at all. */
  lemma AzureHasPriority(env: Env, openAIKey: Option<string>)
    requires AzureComplete(env)
    ensures CreateModelClient(env).Success? && CreateModelClient(env).value.AzureClient?
    ensures openAIKey.Some? ==> CreateModelClient(env[OpenAIApiKey := openAIKey.value]) == CreateModelClient(env)
    ensures openAIKey.None? ==> CreateModelClient(env - {OpenAIApiKey}) == CreateModelClient(env)
  {
    if openAIKey.Some? {
      var env' := env[OpenAIApiKey := openAIKey.value];
      assert LookupOr(env', AzureModel, DefaultAzureModel) == LookupOr(env, AzureModel, DefaultAzureModel);
    } else {
      var env' := env - {OpenAIApiKey};
      assert LookupOr(env', AzureModel, DefaultAzureModel) == LookupOr(env, AzureModel, DefaultAzureModel);
    }
  }

  /**
   * An incomplete Azure configuration (some of the four variables missing, or
   * any of them empty) is indistinguishable from having none at all.
   */
  lemma IncompleteAzureIsIgnored(env: Env)
    requires !AzureComplete(env)
    ensures CreateModelClient(env) == CreateModelClient(env - AzureVariables)
  {
    var env' := env - AzureVariables;
    assert !AzureComplete(env');
    assert IsSet(env', OpenAIApiKey) == IsSet(env, OpenAIApiKey);
    assert LookupOr(env', OpenAIModel, DefaultOpenAIModel) == LookupOr(env, OpenAIModel, DefaultOpenAIModel);
  }

  /** The three outcomes of provider selection, each characterised by the environment alone. */
  lemma SelectionOutcomes(env: Env)
    ensures CreateModelClient(env).Success? && CreateModelClient(env).value.AzureClient? <==> AzureComplete(env)
    ensures CreateModelClient(env).Success? && CreateModelClient(env).value.OpenAIClient?
      <==> !AzureComplete(env) && IsSet(env, OpenAIApiKey)
    ensures CreateModelClient(env).Failure? <==> !AzureComplete(env) && !IsSet(env, OpenAIApiKey)
  {
  }

  /**
   * Model names: "gpt-4o" for Azure and "gpt-4o-mini" for OpenAI when the
   * model variable is absent; a variable that is present overrides the
   * default, even when it holds the empty string.
   */
  lemma DefaultModelNames(env: Env)
    ensures AzureComplete(env) && AzureModel !in env ==> CreateModelClient(env).value.model == "gpt-4o"
    ensures AzureComplete(env) && AzureModel in env ==> CreateModelClient(env).value.model == env[AzureModel]
    ensures !AzureComplete(env) && IsSet(env, OpenAIApiKey) && OpenAIModel !in env ==>
      CreateModelClient(env).value.model == "gpt-4o-mini"
    ensures !AzureComplete(env) && IsSet(env, OpenAIApiKey) && OpenAIModel in env ==>
      CreateModelClient(env).value.model == env[OpenAIModel]
  {
  }

  /**
   * Without a usable Alpha Vantage key `fetch_stock_data` raises before any
   * request: the outcome is the same whatever the download would have done.
   */
  lemma MissingKeyRaisesBeforeRequest<R>(env: Env, d1: Result<R, string>, d2: Result<R, string>)
    requires !IsSet(env, AlphaVantageApiKey)
    ensures FetchStockData(env, d1) == FetchStockData(env, d2) == Failure(AlphaKeyMissingMessage)
  {
  }
}
