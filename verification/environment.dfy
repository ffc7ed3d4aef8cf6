/**
 * The process environment as the configuration logic sees it: a finite map
 * from variable names to string values. A variable that is absent and one
 * that is present with the empty string are different entries of the map,
 * but Python's truthiness (`if not value:`) treats both as "unset"; the
 * predicate `IsSet` is that truthiness test.
 */
module Environment {
  import opened Wrappers

  /**
   * The environment variables the configuration logic reads. No other
   * variable influences it, so the model's environment maps these names
   * only; `Name` gives each one's spelling in the process environment.
   */
  datatype Variable =
    | AlphaVantageApiKey
    | OpenAIApiKey
    | OpenAIModel
    | AzureEndpoint
    | AzureApiKey
    | AzureDeployment
    | AzureApiVersion
    | AzureModel

  function Name(v: Variable): string {
    match v
    case AlphaVantageApiKey => "ALPHA_VANTAGE_API_KEY"
    case OpenAIApiKey => "OPENAI_API_KEY"
    case OpenAIModel => "OPENAI_MODEL"
    case AzureEndpoint => "AZURE_OPENAI_ENDPOINT"
    case AzureApiKey => "AZURE_OPENAI_API_KEY"
    case AzureDeployment => "AZURE_OPENAI_DEPLOYMENT"
    case AzureApiVersion => "AZURE_OPENAI_API_VERSION"
    case AzureModel => "AZURE_OPENAI_MODEL"
  }

  type Env = map<Variable, string>

  /** The four variables that together make up an Azure OpenAI configuration. */
  const AzureVariables: set<Variable> := {AzureEndpoint, AzureApiKey, AzureDeployment, AzureApiVersion}

  /** `os.environ.get(name)`: the value, or `None` when the variable is absent. */
  function Lookup(env: Env, name: Variable): (r: Option<string>)
    ensures r.Some? <==> name in env
    ensures r.Some? ==> r.value == env[name]
  {
    if name in env then Some(env[name]) else None
  }

  /**
   * `os.environ.get(name, default)`: the default replaces an ABSENT variable
   * only; a variable set to the empty string yields the empty string.
   */
  function LookupOr(env: Env, name: Variable, default: string): (r: string)
    ensures name in env ==> r == env[name]
    ensures name !in env ==> r == default
  {
    Lookup(env, name).GetOr(default)
  }

  /** Python truthiness of `os.environ.get(name)`: present and non-empty. */
  predicate IsSet(env: Env, name: Variable) {
    name in env && env[name] != ""
  }

  /** `s.startswith(prefix)`. */
  predicate StartsWith(s: string, prefix: string)
    ensures StartsWith(s, prefix) <==> |prefix| <= |s| && forall k :: 0 <= k < |prefix| ==> s[k] == prefix[k]
  {
    |prefix| <= |s| && s[..|prefix|] == prefix
  }
}
