# Financial Advisor: configuration and request logic in Dafny

The Financial Advisor analyses a stock with a team of four language-model
agents: a data fetcher, a fundamental analyst, a technical analyst and a
recommender. It runs either from the command line or behind an HTTP service.
This project models the deterministic decisions around that team:

- **Provider selection** (`create_model_client`). Azure OpenAI is used when
  all four of its variables are set. Otherwise OpenAI is used when its key is
  set. Otherwise selection raises. Default model names apply.
- **The Alpha Vantage key guard** at the top of `fetch_stock_data`.
- **The configuration checker** (`test_configuration`). It applies format
  rules to each key and gives a three-way final verdict that names a
  provider.
- **The web layer**: the health verdict, ticker normalisation and the
  empty-ticker 400, transcript assembly from the conversation stream, the
  nine-entry data projection, and how failures become HTTP 500 responses.

The environment is a map from the eight variables the code reads
(`Environment.Variable`) to string values. As in Python, a variable is
"set" only when it is present and non-empty (`Environment.IsSet`). But
`os.environ.get(name, default)` falls back to the default only when the
variable is absent: a variable set to `""` yields `""`
(`Environment.LookupOr`). The language-model team, the Alpha Vantage
downloads and chart rendering are outside the model. What they yield for a
request is given as a `Web.Outside` record: the conversation stream or the
exception the team raised, the outcome of each download, and the chart
image. The model fixes when each outcome is consulted and what happens to
it.

Modules:

- `Wrappers`: `Option` and `Result`.
- `Environment`: environment lookups and variable names.
- `Advisor`: covers `main.py`.
- `Ticker`: ASCII `upper` and `strip`.
- `Transcript`: stream filtering and `"\n\n".join`.
- `Web`: covers `app.py`.
- `Validator`: covers `test_config.py`.
- `Consistency`: lemmas that relate the three files.

The three "is it configured?" rules disagree, and the `Consistency` lemmas
state exactly where:

- The health check accepts an Azure endpoint on its own. Provider selection
  needs all four Azure variables.
- The checker validates the format of the Azure values. Provider selection
  does not.
- The checker's Alpha Vantage status line rejects short keys. Its final
  check does not.

## Model

| member | source | states |
|---|---|---|
| Advisor.CreateModelClient | main.py:99-137 | every credential given to the chosen client is the environment's own non-empty value; failure carries the fixed "No valid OpenAI configuration found" message |
| Advisor.AzureHasPriority | main.py:111-120 | with all four Azure variables set, Azure is selected, and changing, setting or removing `OPENAI_API_KEY` does not change the result |
| Advisor.IncompleteAzureIsIgnored | main.py:111 | with some Azure variable missing or empty, selection gives the same result as with no Azure variables at all |
| Advisor.SelectionOutcomes | main.py:111-137 | Azure iff Azure is complete; OpenAI iff Azure is incomplete and the OpenAI key is set; an error iff neither holds |
| Advisor.DefaultModelNames | main.py:111-130 | the model is "gpt-4o" for Azure and "gpt-4o-mini" for OpenAI when the model variable is absent; a present model variable wins, even an empty one |
| Advisor.AzureComplete | main.py:111 | Azure counts as configured iff each of its four variables is present and non-empty |
| Advisor.AlphaVantageKey | main.py:22-24 | gives the key exactly when `ALPHA_VANTAGE_API_KEY` is set, and otherwise the fixed `ValueError` message |
| Advisor.FetchStockData | main.py:20-24 | without a usable key the result is the key error; with one, it is the outcome of the download |
| Advisor.MissingKeyRaisesBeforeRequest | main.py:22-24 | without a usable key the outcome does not depend on the download, so no request is made |
| Environment.LookupOr | main.py:113-126 | `os.environ.get(name, default)`: the present value, even an empty one, and the default only when the variable is absent |
| Environment.StartsWith | test_config.py:21-65 | `str.startswith`: the prefix is no longer than the string and agrees with it at every position |
| Ticker.UpperChar | app.py:165 | maps `a`..`z` to `A`..`Z` and leaves every other character as it is, whitespace included |
| Ticker.Upper | app.py:165 | the result has the input's length, and each character is the upper-cased input character at the same place |
| Ticker.StripLeft | app.py:165 | the result is a suffix of the input; everything removed is whitespace; the result does not start with whitespace |
| Ticker.StripRight | app.py:165 | the result is a prefix of the input; everything removed is whitespace; the result does not end with whitespace |
| Ticker.Strip | app.py:165 | the result is a slice of the input; everything outside it is whitespace; its own ends are not whitespace |
| Ticker.StripUnique | app.py:165 | a string meets that description exactly when it equals `Strip` of the input, so the description fixes the result |
| Ticker.StripKeepsTrimmed | app.py:165 | a string with no whitespace at either end is returned unchanged by strip |
| Ticker.Normalise | app.py:165 | the normalised ticker is the strip of the upper-cased input: a slice of it with only whitespace outside and no whitespace at either end; it has no lower-case ASCII letter and is no longer than the input |
| Ticker.NormaliseIdempotent | app.py:165 | normalising twice gives the same result as normalising once |
| Ticker.NormaliseEmptyIffBlank | app.py:165-167 | the normalised ticker is empty exactly when the raw ticker is all whitespace |
| Web.ValidateTicker | app.py:165-168 | 400 "Ticker symbol is required" exactly for an all-whitespace ticker; otherwise the non-empty normalised ticker |
| Web.HealthCheck | app.py:131-155 | "healthy" iff the Alpha Vantage key is set and the OpenAI key or the Azure endpoint is set; otherwise "error" with the Alpha message when that key is missing, else the provider message |
| Web.HealthAlphaKeyFirst | app.py:140-150 | a missing Alpha Vantage key gives the Alpha message whatever the OpenAI key and the Azure endpoint hold |
| Web.AnalysisFailure | app.py:128-129 | status 500; the detail is "Analysis failed: " followed by exactly the original message |
| Web.ReraiseOrWrap | app.py:185-188 | an `HTTPException` passes through unchanged; any other exception becomes the 500 "Analysis failed: " error |
| Web.FirstMissing | app.py:114-124 | gives the first key, in reading order, whose name the data lacks; gives none exactly when every name is present |
| Web.CleanData | app.py:114-124 | succeeds iff all nine names are present in the fetched data, and then carries every one of the nine entries with the fetched value under that name; otherwise a `KeyError` quoting the first missing name in reading order |
| Web.DataKeysDistinct | app.py:114-124 | the nine response keys have distinct names, are read in a list of nine without repetition, and neither `hist` nor `close_prices` is among them |
| Web.DataKeysMembership | app.py:114-124 | the reading order lists every one of the nine entries |
| Web.Transcribe | app.py:96-108 | a failing team run gives its own error; otherwise the result is the assembled transcript of the stream |
| Web.FetchCleanData | app.py:111-124 | without a usable Alpha key the result is the key error; with one, a failed download gives its own error and a successful one gives exactly the nine-entry projection of the downloaded data |
| Web.AnalysisSteps | app.py:86-126 | failures come in program order: provider selection first, then the team run or the transcript join, then the data fetch, each giving its own error; when all three succeed the result is the transcript and the nine-entry data they produced; a success implies a selectable provider and a usable Alpha key, its text is the assembled transcript of the conversation, and its data is the projection of the analysis's own download |
| Web.RunStockAnalysis | app.py:84-129 | successful steps are returned unchanged and a failing step's message m becomes the 500 "Analysis failed: " + m; so a success implies a selectable provider and a usable Alpha key, and carries the assembled transcript and the projection of the analysis's own download with all nine entries |
| Web.AnalyzeTicker | app.py:170-188 | an analysis failure is passed on unchanged; after a successful analysis the response succeeds exactly when the chart's download does; a failure is always a 500 with the "Analysis failed: " prefix; a success returns the given ticker, the assembled transcript as the analysis, the projection of the analysis's own download (not the chart's) as data, the rendered chart image and no error |
| Web.AnalyzeStock | app.py:162-188 | a failure is 400 iff the ticker normalises to empty, and otherwise 500 with the prefix; a non-blank ticker whose analysis steps and chart download succeed gets a response; a success returns the normalised ticker, the assembled transcript, the projection of the analysis's own download with all nine entries, the rendered chart image and no error |
| Web.BlankTickerRejectedFirst | app.py:165-168 | an all-whitespace ticker gives the 400 whatever the environment, team, downloads and renderer would do, so nothing runs first |
| Web.AnalysisFailureReraisedOnce | app.py:185-186 | a failure inside the analysis reaches the client as one 500 with a single prefix before the original message |
| Web.ValidTickerIsAnalysed | app.py:165-172 | a ticker that is not all whitespace goes on to the analysis, normalised |
| Web.AnalysisResponseOnSuccess | app.py:165-183 | a non-blank ticker whose analysis steps and chart download succeed gets exactly the response of app.py:178-183: the normalised ticker, the steps' transcript and data, the rendered chart and no error |
| Web.SampleDownloadComplete | app.py:114-124 | a concrete download with the nine names projects successfully |
| Web.SampleAnalysisSucceeds | app.py:84-126 | a concrete environment with an Alpha key and an OpenAI key, a silent team and a complete download runs every analysis step successfully |
| Web.SampleRequestAnswered | app.py:162-183 | that concrete request for "AAPL" is answered with a response, not an error |
| Web.ChartFetchFailureWrapped | app.py:175-188 | if the second data fetch, the one made for the chart, fails with message m, the response is 500 "Analysis failed: " + m |
| Web.ChartFetchFailureAfterRun | app.py:175-188 | once the analysis has succeeded, a failed chart download decides the outcome of the `try` block: 500 "Analysis failed: " + its message |
| Transcript.PieceOf | app.py:100-105 | an item gives its `content` if it has one, else its `text`, else itself if it is a string, else nothing |
| Transcript.Collect | app.py:99-105 | keeps no more pieces than stream items; every piece an item yields is kept, and every kept piece is one that some item yields |
| Transcript.AssembleTranscript | app.py:99-108 | an empty stream gives the empty transcript; assembly succeeds iff every piece the stream yields is a string |
| Transcript.CollectAppend | app.py:99-105 | collecting a concatenated stream gives the concatenation of the collected parts, so pieces keep stream order |
| Transcript.CollectDropsBareEvents | app.py:99-105 | an item with neither `content` nor `text` contributes nothing |
| Transcript.CollectTranscript | app.py:99-108 | the drain-and-join loop computes the same result as the functional reference `AssembleTranscript`; it fails exactly when a kept piece is not a string |
| Transcript.Join | app.py:108 | joining n ≥ 1 pieces gives the total length of the pieces plus n - 1 separators; joining nothing gives "" |
| Transcript.OffsetStep | app.py:108 | consecutive pieces start exactly one piece and one separator apart |
| Transcript.JoinPieceAt | app.py:108 | piece i appears unchanged at its offset, and the last piece ends the output |
| Transcript.JoinSeparatorAfter | app.py:108 | every piece except the last is followed by exactly one "\n\n" |
| Transcript.NatToString | app.py:108 | a non-empty string of decimal digits, without a leading zero unless it is "0", whose value is the index, as Python prints it in the `TypeError` |
| Transcript.JoinTypeErrorNamesIndex | app.py:108 | `TypeError` messages for different item indices differ, so the message identifies the offending item |
| Transcript.TextsFrom | app.py:108 | succeeds iff every piece is a string, keeping them in order; otherwise the `TypeError` names the first non-string item's index and type |
| Transcript.JoinPieces | app.py:108 | the join fails iff some piece is not a string, and then the `TypeError` names the first such item; otherwise it is the join of the strings, in order, with "\n\n" |
| Validator.CheckAlpha | test_config.py:19-26 | the Alpha line reads missing iff the key is not set, invalid iff it is set and starts with "your_" or has fewer than 10 characters, and valid otherwise |
| Validator.CheckOpenAI | test_config.py:29-41 | OpenAI is not configured iff its key is not set, configured iff the key starts with "sk-" and has more than 20 characters, and then reports `OPENAI_MODEL` when present, else "gpt-4o-mini" |
| Validator.CheckAzure | test_config.py:44-61 | Azure is not configured iff some of the four variables is not set, configured iff all are set with an https endpoint, a key longer than 20 characters and a deployment not starting with "your_", and then reports `AZURE_OPENAI_MODEL` when present, else "gpt-4o" |
| Validator.FinalVerdict | test_config.py:63-74 | Alpha-critical iff the key is missing or starts with "your_"; otherwise provider-critical iff neither provider is configured; a success names "Azure OpenAI" iff Azure is configured and "OpenAI" otherwise |
| Validator.TestConfiguration | test_config.py:10-80 | the Alpha line is missing iff the key is not set and invalid iff it is set and starts with "your_" or has fewer than 10 characters; OpenAI is configured iff its key is set, starts with "sk-" and has more than 20 characters, reporting `OPENAI_MODEL` or "gpt-4o-mini"; Azure is configured iff all four variables are set with an https endpoint, a key longer than 20 characters and a deployment not starting with "your_"; the verdict is Alpha-critical iff the key is missing or starts with "your_", otherwise provider-critical iff neither provider is configured, otherwise a success naming "Azure OpenAI" iff Azure is configured and "OpenAI" otherwise |
| Consistency.HealthWeakerThanSelection | app.py:140-155 | wherever the advisor can select a provider and has an Alpha key, the health check says "healthy" |
| Consistency.HealthSelectionGap | app.py:146 | "healthy" while selection fails happens exactly with an Alpha key, an Azure endpoint, incomplete Azure and no OpenAI key |
| Consistency.EndpointAloneIsHealthyButUnselectable | main.py:111-137 | a concrete environment with only the Alpha key and the Azure endpoint is healthy, yet selection raises |
| Consistency.AnalysisSuccessImpliesHealthy | app.py:162-188 | a successful `/analyze` implies the health check says "healthy" |
| Consistency.HealthAlphaMatchesFetchGuard | app.py:140-144 | the health check gives the Alpha message exactly when the data-fetch key guard raises |
| Consistency.ValidatorAzureAgreesWithSelection | test_config.py:73 | when the checker names Azure, the advisor selects Azure |
| Consistency.ValidatorOpenAIVersusSelection | test_config.py:50-73 | when the checker names OpenAI, the advisor selects a client, and it is Azure iff all four Azure variables are set, which the checker then reports as malformed |
| Consistency.ValidatorAndSelectionDisagree | test_config.py:51-57 | a concrete environment for which the checker names OpenAI while the advisor selects Azure |
| Consistency.ValidatorSuccessImpliesUsable | test_config.py:65-74 | any checker success implies provider selection succeeds, the Alpha key guard passes, and health is "healthy" |
| Consistency.HealthyButValidatorCritical | test_config.py:65 | a placeholder Alpha key passes the health check but is Alpha-critical for the checker |
| Consistency.AlphaLineVersusFinalCheck | test_config.py:21-65 | the checker reports the Alpha key as invalid yet does not make it critical exactly when the key is set, does not start with "your_", and is shorter than 10 characters |
| Consistency.ShortAlphaKeyStillSucceeds | test_config.py:21-74 | a concrete 4-character Alpha key with a valid OpenAI key is reported invalid, and the checker still succeeds |

## Left out

- The indicator arithmetic and the Alpha Vantage requests in `fetch_stock_data` (main.py:25-68) are left out. They are floating-point pandas work over network I/O. The download's outcome is a parameter of `Advisor.FetchStockData`, and data values have an abstract type.
- The `float(...)` conversions in the data projection (app.py:115-123) are taken as the identity, because the values are abstract.
- Chart plotting and base64 encoding (`plot_stock_data`, `create_stock_chart`) are left out. The rendered image is a field of `Web.Outside`. It may be absent, which is what `create_stock_chart` returns when it catches an error.
- The agent team (main.py:140-194) is left out. Round-robin dispatch, tool calls and the turn limit belong to an external agent library whose code is not part of this model. The team's composition, its turn limit and the task text are therefore not modelled either. The conversation stream is a field of `Web.Outside`.
- The construction of the chat-completion clients is left out. It is assumed to succeed once the provider is chosen, because the client constructors belong to the external library.
- Asynchronous streaming, the event loop, FastAPI routing, pydantic models, the root endpoint, uvicorn startup and the HTTP test client are left out. They are concurrency and I/O.
- The `except` branch of `health_check` (app.py:156-160) is left out. Nothing in its `try` body can raise for a map-based environment.
- `load_dotenv` and all console output are left out. The checker returns its report instead of printing it.
- The command-line `main` (main.py:217-223) is left out. It normalises with `strip().upper()` and does not reject an empty ticker.
- Ticker.Normalise: models `str.upper` only for ASCII letters and `str.strip` only for ASCII whitespace (including 0x1C-0x1F, which Python also treats as whitespace). Non-ASCII input is passed through unchanged, whereas Python upper-cases letters such as `ß` to `SS` and also strips Unicode spaces such as U+00A0.
- Transcript.PieceOf: the `content` or `text` of a stream item is modelled as either a string or a value of some other type, given by its type name. Python's `hasattr` lookups on arbitrary objects are not modelled beyond that.
- Web.Outside: the team run and the downloads are given as outcomes, not as functions of their inputs. The model therefore does not state that the team receives the selected client and the task text, or that each download receives the key and the ticker. Both downloads in `analyze_stock` are independent requests, so the model lets their outcomes differ.
