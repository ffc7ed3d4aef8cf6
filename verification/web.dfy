/**
 * The request logic of the HTTP service: the health verdict, ticker
 * validation, the projection of fetched market data onto the response, and
 * how failures become HTTP errors. The language-model team, the Alpha
 * Vantage download and chart rendering are parameters: the model only says
 * in which order they are consulted and what is done with their outcome.
 */
module Web {
  import opened Wrappers
  import opened Environment
  import Advisor
  import Ticker
  import Transcript

  datatype HealthResponse = HealthResponse(status: string, message: string)

  const StatusHealthy := "healthy"
  const StatusError := "error"
  const AlphaNotConfigured := "Alpha Vantage API key not configured"
  const NoProviderConfigured := "No OpenAI or Azure OpenAI configuration found"
  const ServiceRunning := "Financial Advisor API is running"

  /** An `HTTPException`: status code and detail. */
  datatype HttpError = HttpError(statusCode: int, detail: string)

  const TickerRequired := "Ticker symbol is required"
  const AnalysisFailedPrefix := "Analysis failed: "

  /** An exception escaping the analysis: an `HTTPException` or any other exception, by its message. */
  datatype Raised = HttpRaised(error: HttpError) | OtherRaised(message: string)

  /** The body of a successful `/analyze` response. */
  datatype AnalysisResponse<V> = AnalysisResponse(
    ticker: string,
    analysis: string,
    data: map<DataKey, V>,
    chartImage: Option<string>,
    error: Option<string>)

  /** The nine entries of fetched market data that are sent to the client. */
  datatype DataKey =
    | CurrentPrice | MarketCap | PeRatio | Eps | Ma50 | Ma200 | Rsi | BollingerUpper | BollingerLower

  /** The key of each sent entry in the fetched data and in the response. */
  function KeyName(k: DataKey): string {
    match k
    case CurrentPrice => "current_price"
    case MarketCap => "market_cap"
    case PeRatio => "pe_ratio"
    case Eps => "eps"
    case Ma50 => "50d_ma"
    case Ma200 => "200d_ma"
    case Rsi => "rsi"
    case BollingerUpper => "bollinger_upper"
    case BollingerLower => "bollinger_lower"
  }

  /** The sent entries in the order they are read. */
  const DataKeys: seq<DataKey> :=
    [CurrentPrice, MarketCap, PeRatio, Eps, Ma50, Ma200, Rsi, BollingerUpper, BollingerLower]

  /** Entries of the fetched data that hold whole price series and are never sent. */
  const SeriesKeys: set<string> := {"hist", "close_prices"}

  /** The response data carries every one of the nine entries. */
  predicate AllSent<V>(data: map<DataKey, V>) {
    forall k: DataKey :: k in data
  }

  /**
   * `health_check`: the Alpha Vantage key is checked first; then at least
   * one of `OPENAI_API_KEY` and `AZURE_OPENAI_ENDPOINT` must be set.
   */
  function HealthCheck(env: Env): (h: HealthResponse)
    ensures h.status == StatusHealthy <==>
      IsSet(env, AlphaVantageApiKey) && (IsSet(env, OpenAIApiKey) || IsSet(env, AzureEndpoint))
    ensures h.status != StatusHealthy ==> h.status == StatusError
    ensures !IsSet(env, AlphaVantageApiKey) ==> h.message == AlphaNotConfigured
    ensures IsSet(env, AlphaVantageApiKey) && h.status == StatusError ==> h.message == NoProviderConfigured
  {
    if !IsSet(env, AlphaVantageApiKey) then
      HealthResponse(StatusError, AlphaNotConfigured)
    else if !IsSet(env, OpenAIApiKey) && !IsSet(env, AzureEndpoint) then
      HealthResponse(StatusError, NoProviderConfigured)
    else
      HealthResponse(StatusHealthy, ServiceRunning)
  }

  /**
   * `request.ticker.upper().strip()` and the 400 for a ticker that is left
   * empty, which happens exactly when the ticker is whitespace only.
   */
  function ValidateTicker(raw: string): (r: Result<string, HttpError>)
    ensures r.Failure? <==> Ticker.AllSpace(raw)
    ensures r.Failure? ==> r.error == HttpError(400, TickerRequired)
    ensures r.Success? ==> r.value == Ticker.Normalise(raw) != ""
  {
    Ticker.NormaliseEmptyIffBlank(raw);
    var ticker := Ticker.Normalise(raw);
    if ticker == "" then Failure(HttpError(400, TickerRequired)) else Success(ticker)
  }

  /** The `except Exception` of `run_stock_analysis`: any failure becomes a 500 carrying its message. */
  function AnalysisFailure(message: string): (e: HttpError)
    ensures e.statusCode == 500
    ensures StartsWith(e.detail, AnalysisFailedPrefix) && e.detail[|AnalysisFailedPrefix|..] == message
  {
    HttpError(500, AnalysisFailedPrefix + message)
  }

  /**
   * The `except` chain of `analyze_stock`: an `HTTPException` is re-raised
   * as it is, anything else becomes a 500 "Analysis failed: ...".
   */
  function ReraiseOrWrap(ex: Raised): (e: HttpError)
    ensures ex.HttpRaised? ==> e == ex.error
    ensures ex.OtherRaised? ==> e == AnalysisFailure(ex.message)
  {
    match ex
    case HttpRaised(error) => error
    case OtherRaised(message) => AnalysisFailure(message)
  }

  /** The first of `keys` whose name `m` lacks, if any. */
  function FirstMissing<V>(m: map<string, V>, keys: seq<DataKey>): (r: Option<nat>)
    ensures r.None? <==> forall k :: k in keys ==> KeyName(k) in m
    ensures r.Some? ==> r.value < |keys| && KeyName(keys[r.value]) !in m && forall k :: 0 <= k < r.value ==> KeyName(keys[k]) in m
  {
    if keys == [] then None
    else if KeyName(keys[0]) !in m then Some(0)
    else match FirstMissing(m, keys[1..])
      case None => None
      case Some(i) => Some(i + 1)
  }

  /**
   * The `clean_data` dictionary: the nine sent entries of the fetched data,
   * or the `KeyError` (its message is the quoted key) for the first one
   * missing, in reading order.
   */
  function CleanData<V>(stock: map<string, V>): (r: Result<map<DataKey, V>, string>)
    ensures r.Success? <==> forall k: DataKey :: KeyName(k) in stock
    ensures r.Success? ==> AllSent(r.value) && forall k :: k in r.value ==> r.value[k] == stock[KeyName(k)]
    ensures r.Failure? ==>
      exists i :: && 0 <= i < |DataKeys| && KeyName(DataKeys[i]) !in stock
                  && (forall j :: 0 <= j < i ==> KeyName(DataKeys[j]) in stock)
                  && r.error == "'" + KeyName(DataKeys[i]) + "'"
  {
    DataKeysMembership();
    match FirstMissing(stock, DataKeys)
    case Some(i) => Failure("'" + KeyName(DataKeys[i]) + "'")
    case None => Success(map k: DataKey | k in DataKeys :: stock[KeyName(k)])
  }

  /**
   * What the parts outside the model yield for one request: the team's
   * conversation stream for the task (or the exception it raised), the
   * outcome of the analysis's own Alpha Vantage download, that of the
   * second download made for the chart, and the rendered chart, if any.
   */
  datatype Outside<V> = Outside(
    conversation: Result<seq<Transcript.StreamItem>, string>,
    download: Result<map<string, V>, string>,
    chartDownload: Result<map<string, V>, string>,
    chartImage: Option<string>)

  /**
   * The transcript is the assembled conversation and the data is the
   * projection of the analysis's own download (not the one made for the
   * chart).
   */
  ghost predicate ProducedBy<V>(out: Outside<V>, analysis: string, data: map<DataKey, V>) {
    && out.conversation.Success?
    && Transcript.AssembleTranscript(out.conversation.value) == Success(analysis)
    && out.download.Success?
    && CleanData(out.download.value) == Success(data)
  }

  /** Running the team and assembling the transcript of its conversation. */
  function Transcribe(conversation: Result<seq<Transcript.StreamItem>, string>): (r: Result<string, string>)
    ensures conversation.Failure? ==> r == Failure(conversation.error)
    ensures conversation.Success? ==> r == Transcript.AssembleTranscript(conversation.value)
  {
    match conversation
    case Failure(m) => Failure(m)
    case Success(stream) => Transcript.AssembleTranscript(stream)
  }

  /** Fetching the market data and projecting it onto the nine sent entries. */
  function FetchCleanData<V>(env: Env, downloaded: Result<map<string, V>, string>): (r: Result<map<DataKey, V>, string>)
    ensures !IsSet(env, AlphaVantageApiKey) ==> r == Failure(Advisor.AlphaKeyMissingMessage)
    ensures IsSet(env, AlphaVantageApiKey) && downloaded.Failure? ==> r == Failure(downloaded.error)
    ensures IsSet(env, AlphaVantageApiKey) && downloaded.Success? ==> r == CleanData(downloaded.value)
    ensures r.Success? ==> AllSent(r.value)
  {
    match Advisor.FetchStockData(env, downloaded)
    case Failure(m) => Failure(m)
    case Success(stock) => CleanData(stock)
  }

  /** The first failure of two steps run in order, or both results. */
  function Both<A, B>(first: Result<A, string>, second: Result<B, string>): (r: Result<(A, B), string>)
    ensures r.Success? <==> first.Success? && second.Success?
    ensures r.Success? ==> r.value == (first.value, second.value)
    ensures first.Failure? ==> r == Failure(first.error)
    ensures first.Success? && second.Failure? ==> r == Failure(second.error)
  {
    if first.Failure? then Failure(first.error)
    else if second.Failure? then Failure(second.error)
    else Success((first.value, second.value))
  }

  /**
   * The steps of `run_stock_analysis`, each of which may raise, in order:
   * build the model client, run the team and assemble the transcript, fetch
   * and project the market data.
   */
  function AnalysisSteps<V>(env: Env, out: Outside<V>): (r: Result<(string, map<DataKey, V>), string>)
    ensures !Advisor.CreateModelClient(env).Success? ==> r == Failure(Advisor.NoConfigurationMessage)
    ensures r.Success? ==> Advisor.CreateModelClient(env).Success? && IsSet(env, AlphaVantageApiKey)
    ensures r.Success? ==> AllSent(r.value.1) && ProducedBy(out, r.value.0, r.value.1)
    ensures Advisor.CreateModelClient(env).Success? && Transcribe(out.conversation).Failure? ==>
      r == Failure(Transcribe(out.conversation).error)
    ensures Advisor.CreateModelClient(env).Success? && Transcribe(out.conversation).Success?
            && FetchCleanData(env, out.download).Failure? ==>
      r == Failure(FetchCleanData(env, out.download).error)
    ensures Advisor.CreateModelClient(env).Success? && Transcribe(out.conversation).Success?
            && FetchCleanData(env, out.download).Success? ==>
      r == Success((Transcribe(out.conversation).value, FetchCleanData(env, out.download).value))
  {
    match Advisor.CreateModelClient(env)
    case Failure(m) => Failure(m)
    case Success(_) => Both(Transcribe(out.conversation), FetchCleanData(env, out.download))
  }

  /**
   * `run_stock_analysis`: it succeeds only with a selectable provider and a
   * usable Alpha Vantage key, returning the joined transcript and all nine
   * data entries; every failure is a 500 "Analysis failed: ...".
   */
  function RunStockAnalysis<V>(env: Env, out: Outside<V>): (r: Result<(string, map<DataKey, V>), HttpError>)
    ensures r.Failure? ==> r.error.statusCode == 500 && StartsWith(r.error.detail, AnalysisFailedPrefix)
    ensures !Advisor.CreateModelClient(env).Success? ==> r == Failure(AnalysisFailure(Advisor.NoConfigurationMessage))
    ensures r.Success? ==> Advisor.CreateModelClient(env).Success? && IsSet(env, AlphaVantageApiKey)
    ensures r.Success? ==> AllSent(r.value.1) && ProducedBy(out, r.value.0, r.value.1)
    ensures AnalysisSteps(env, out).Success? ==> r == Success(AnalysisSteps(env, out).value)
    ensures AnalysisSteps(env, out).Failure? ==> r == Failure(AnalysisFailure(AnalysisSteps(env, out).error))
  {
    match AnalysisSteps(env, out)
    case Success(v) => Success(v)
    case Failure(m) => Failure(AnalysisFailure(m))
  }

  /**
   * The `try` block of `analyze_stock` for a ticker that passed validation:
   * run the analysis, fetch the data a second time for the chart and render
   * it (a rendering failure only loses the chart).
   */
  function AnalyzeTicker<V>(env: Env, ticker: string, out: Outside<V>): (r: Result<AnalysisResponse<V>, HttpError>)
    ensures r.Failure? ==> r.error.statusCode == 500 && StartsWith(r.error.detail, AnalysisFailedPrefix)
    ensures r.Success? ==> r.value.ticker == ticker && AllSent(r.value.data) && r.value.error.None?
    ensures r.Success? ==> ProducedBy(out, r.value.analysis, r.value.data) && r.value.chartImage == out.chartImage
    ensures RunStockAnalysis(env, out).Failure? ==> r == Failure(RunStockAnalysis(env, out).error)
    ensures RunStockAnalysis(env, out).Success? ==> (r.Success? <==> out.chartDownload.Success?)
  {
    match RunStockAnalysis(env, out)
    case Failure(e) => Failure(ReraiseOrWrap(HttpRaised(e)))
    case Success(result) =>
      match Advisor.FetchStockData(env, out.chartDownload)
      case Failure(m) => Failure(ReraiseOrWrap(OtherRaised(m)))
      case Success(_) => Success(AnalysisResponse(ticker, result.0, result.1, out.chartImage, None))
  }

  /** `analyze_stock`: a blank ticker is refused with 400 before the analysis is attempted. */
  function AnalyzeStock<V>(env: Env, raw: string, out: Outside<V>): (r: Result<AnalysisResponse<V>, HttpError>)
    ensures r.Failure? && r.error.statusCode == 400 <==> Ticker.Normalise(raw) == ""
    ensures r.Failure? && Ticker.Normalise(raw) != "" ==>
      r.error.statusCode == 500 && StartsWith(r.error.detail, AnalysisFailedPrefix)
    ensures r.Success? ==> r.value.ticker == Ticker.Normalise(raw) && r.value.ticker != ""
    ensures r.Success? ==> AllSent(r.value.data) && r.value.error.None?
    ensures r.Success? ==> ProducedBy(out, r.value.analysis, r.value.data) && r.value.chartImage == out.chartImage
    ensures Ticker.Normalise(raw) != "" && AnalysisSteps(env, out).Success? && out.chartDownload.Success? ==> r.Success?
  {
    match ValidateTicker(raw)
    case Failure(e) => Failure(e)
    case Success(ticker) => AnalyzeTicker(env, ticker, out)
  }

  // ---------------------------------------------------------------------
  // Lemmas

  /** The response data has nine distinct keys and never a price series. */
  lemma DataKeysDistinct()
    ensures forall k1: DataKey, k2: DataKey :: k1 != k2 ==> KeyName(k1) != KeyName(k2)
    ensures forall k: DataKey :: KeyName(k) !in SeriesKeys
    ensures |DataKeys| == 9 && forall i, j :: 0 <= i < j < |DataKeys| ==> DataKeys[i] != DataKeys[j]
  {
  }

  /** The reading order lists every sent entry. */
  lemma DataKeysMembership()
    ensures forall k: DataKey :: k in DataKeys
  {
    forall k: DataKey ensures k in DataKeys {
      match k
      case CurrentPrice => assert DataKeys[0] == k;
      case MarketCap => assert DataKeys[1] == k;
      case PeRatio => assert DataKeys[2] == k;
      case Eps => assert DataKeys[3] == k;
      case Ma50 => assert DataKeys[4] == k;
      case Ma200 => assert DataKeys[5] == k;
      case Rsi => assert DataKeys[6] == k;
      case BollingerUpper => assert DataKeys[7] == k;
      case BollingerLower => assert DataKeys[8] == k;
    }
  }

  /** A missing Alpha Vantage key is reported before, and regardless of, the provider configuration. */
  lemma HealthAlphaKeyFirst(env: Env, openAIKey: string, endpoint: string)
    requires !IsSet(env, AlphaVantageApiKey)
    ensures HealthCheck(env[OpenAIApiKey := openAIKey][AzureEndpoint := endpoint])
         == HealthCheck(env)
         == HealthResponse(StatusError, AlphaNotConfigured)
  {
  }

  /**
   * A blank ticker is refused with 400 before anything runs: the outcome is
   * the same whatever the environment and whatever the team, the downloads
   * and the chart renderer would yield.
   */
  lemma BlankTickerRejectedFirst<V>(env: Env, raw: string, out: Outside<V>)
    requires Ticker.AllSpace(raw)
    ensures AnalyzeStock(env, raw, out) == Failure(HttpError(400, TickerRequired))
  {
  }

  /**
   * A failure inside `run_stock_analysis` reaches the client as the 500 it
   * raised: the `HTTPException` is re-raised unchanged, so the detail carries
   * the "Analysis failed: " prefix once.
   */
  lemma AnalysisFailureReraisedOnce<V>(env: Env, raw: string, out: Outside<V>, m: string)
    requires !Ticker.AllSpace(raw)
    requires AnalysisSteps(env, out) == Failure(m)
    ensures AnalyzeStock(env, raw, out) == Failure(HttpError(500, AnalysisFailedPrefix + m))
  {
  }

  /** A failure of the second data fetch, made for the chart, becomes a 500 "Analysis failed: ..." too. */
  lemma ChartFetchFailureWrapped<V>(env: Env, raw: string, out: Outside<V>)
    requires !Ticker.AllSpace(raw)
    requires AnalysisSteps(env, out).Success?
    requires out.chartDownload.Failure?
    ensures AnalyzeStock(env, raw, out) == Failure(HttpError(500, AnalysisFailedPrefix + out.chartDownload.error))
  {
    ValidTickerIsAnalysed(env, raw, out);
    ChartFetchFailureAfterRun(env, Ticker.Normalise(raw), out);
  }

  /** Once the analysis has run, a failed chart download decides the outcome of the `try` block. */
  lemma ChartFetchFailureAfterRun<V>(env: Env, ticker: string, out: Outside<V>)
    requires AnalysisSteps(env, out).Success?
    requires out.chartDownload.Failure?
    ensures AnalyzeTicker(env, ticker, out) == Failure(AnalysisFailure(out.chartDownload.error))
  {
    var run := RunStockAnalysis(env, out);
    assert IsSet(env, AlphaVantageApiKey);
    var chart := Advisor.FetchStockData(env, out.chartDownload);
    assert chart == Failure(out.chartDownload.error);
    assert AnalyzeTicker(env, ticker, out) == Failure(ReraiseOrWrap(OtherRaised(out.chartDownload.error)));
  }

  /**
   * When every step succeeds and the chart's download does too, `/analyze`
   * answers with the normalised ticker, the transcript and data the steps
   * computed, the rendered chart and no error.
   */
  lemma AnalysisResponseOnSuccess<V>(env: Env, raw: string, out: Outside<V>)
    requires !Ticker.AllSpace(raw)
    requires AnalysisSteps(env, out).Success?
    requires out.chartDownload.Success?
    ensures AnalyzeStock(env, raw, out) == Success(AnalysisResponse(
      Ticker.Normalise(raw), AnalysisSteps(env, out).value.0, AnalysisSteps(env, out).value.1, out.chartImage, None))
  {
    ValidTickerIsAnalysed(env, raw, out);
    var run := RunStockAnalysis(env, out);
    assert IsSet(env, AlphaVantageApiKey);
    var chart := Advisor.FetchStockData(env, out.chartDownload);
    assert chart == out.chartDownload;
  }

  /** A download holding all nine entries, for the sample request below. */
  const SampleDownload: map<string, int> :=
    map["current_price" := 1, "market_cap" := 2, "pe_ratio" := 3, "eps" := 4, "50d_ma" := 5,
        "200d_ma" := 6, "rsi" := 7, "bollinger_upper" := 8, "bollinger_lower" := 9]

  /** A team that says nothing, the sample download twice and no chart. */
  const SampleOutside: Outside<int> :=
    Outside(Success([]), Success(SampleDownload), Success(SampleDownload), None)

  /** An Alpha Vantage key and an OpenAI key, nothing else. */
  const SampleEnv: Env := map[AlphaVantageApiKey := "demo", OpenAIApiKey := "sk-x"]

  /** The sample download carries every name the projection reads. */
  lemma SampleDownloadComplete()
    ensures CleanData(SampleDownload).Success?
  {
    forall k: DataKey ensures KeyName(k) in SampleDownload {
      match k
      case CurrentPrice =>
      case MarketCap =>
      case PeRatio =>
      case Eps =>
      case Ma50 =>
      case Ma200 =>
      case Rsi =>
      case BollingerUpper =>
      case BollingerLower =>
    }
  }

  /** The sample request runs every step of the analysis successfully. */
  lemma SampleAnalysisSucceeds()
    ensures AnalysisSteps(SampleEnv, SampleOutside).Success?
  {
    assert Advisor.CreateModelClient(SampleEnv).Success?;
    assert Transcribe(SampleOutside.conversation) == Success("");
    SampleDownloadComplete();
    assert FetchCleanData(SampleEnv, SampleOutside.download).Success?;
  }

  /** `/analyze` answers the sample request for "AAPL" with a response. */
  lemma SampleRequestAnswered()
    ensures AnalyzeStock(SampleEnv, "AAPL", SampleOutside).Success?
  {
    SampleAnalysisSucceeds();
    SampleTickerNotBlank();
    AnalysisResponseOnSuccess(SampleEnv, "AAPL", SampleOutside);
  }

  /** "AAPL" is not blank. */
  lemma SampleTickerNotBlank()
    ensures !Ticker.AllSpace("AAPL")
  {
    assert !Ticker.IsSpace("AAPL"[0]);
  }

  /** A ticker that is not blank goes on to the analysis, normalised. */
  lemma ValidTickerIsAnalysed<V>(env: Env, raw: string, out: Outside<V>)
    requires !Ticker.AllSpace(raw)
    ensures AnalyzeStock(env, raw, out) == AnalyzeTicker(env, Ticker.Normalise(raw), out)
  {
    assert ValidateTicker(raw) == Success(Ticker.Normalise(raw));
  }
}
