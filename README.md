# finance-bro: the analysis orchestrator and the language-model bridge, in Dafny

This project models the bookkeeping of the finance-bro trading assistant:

- **`FinancialAgent`** (module `Agent`, file `agent.dfy`). It analyses stock symbols one at a
  time. For each symbol it fetches a price frame for the configured number of days and asks
  the trading engine for a signal dictionary. When both succeed, it builds a timestamped
  `AnalysisResult` and appends it to its append-only `results` list. Missing fields default to
  `'HOLD'` and `0.0`. Every exception, and every empty or missing frame, becomes `None`. A batch
  keeps the successful records in input order. The BUY and SELL views are order-preserving
  filters. The export projects each record onto seven keys.
- **`LLMAnalyst`** (module `LlmAnalyst`, file `llm_analyst.dfy`). It keeps a running
  conversation. Every call appends the user prompt, sends the whole conversation to the
  text-generation client, and appends the reply. It then cuts the reply from the first `{`
  through the last `}` (module `ResponseSpan`, file `response_span.dfy`) and parses that span.
  When there is no usable span, or the parser rejects it, the call returns an error record
  that keeps the raw reply. `reset_conversation` empties the conversation.
- **`TradingConfig`** (module `Config`, file `config.dfy`): the configuration record. The
  constant `DEFAULT` holds the dataclass defaults (`analysis_period_days = 60`, and so on).
  Of these fields, the modelled code reads only `analysisPeriodDays` (agent.py:45).

The collaborators are inputs to the model:

- The market-data fetch is `Collaborators.fetch(symbol, periodDays)`. It can raise, return
  `None`, or return a frame.
- The trading engine is `Collaborators.evaluate(symbol, frame)`. It can raise, return `None`,
  or return a dictionary.
- The clock is a `Timestamp` argument. A batch takes one timestamp per symbol.
- ISO formatting is a function argument `iso` of the export.
- The language-model client is a function `Request -> Option<string>`. `None` means the call
  raised. The request records the model name, the per-call token budget and the exact message
  list sent.
- `json.loads` is a partial parser `string -> Option<Dict>`.

JSON and Python dictionaries are the datatype `Json.Value` and the type `Json.Dict`.
`dict.get` is `Json.Get`.

Behaviour of the code that a reader might not expect, and that the model keeps:

- The code does not isolate the first balanced `{...}` object. It takes everything from the
  first `{` to the last `}`. For a reply holding two objects, the span therefore joins them
  (`ResponseSpan.SpanJoinsTwoObjects`), and the parser will usually reject it.
- The conversation is mutable object state, not a parameter of each call, and the model keeps
  it that way (`LLMAnalyst.conversationHistory`).
- Confidence is not checked against [0, 1]. The orchestrator copies whatever the engine
  returned, including a non-numeric value, and the model does the same.
- A call whose client raises has already appended its user entry. Such a call leaves the
  history with an unanswered prompt (`LlmAnalyst.ClientFailureLeavesPromptUnanswered`).

## Model

| member | source | states |
|---|---|---|
| `Config.DefaultsAreDataclassDefaults` | config.py:11-39 | `DEFAULT` holds every dataclass default, from `analysis_period_days = 60` to `rsi_weight = 0.25`. The defaults are coherent: oversold below overbought, non-empty volatility and price bands, positive periods. |
| `Agent.Analyze` | agent.py:41-71 | A record is returned exactly when the fetch with the configured period gave a non-empty frame and the engine returned a non-empty dictionary for it. Every other outcome gives `None`: a raising fetch, a `None` or empty frame, a raising engine, or a `None` or empty dictionary. |
| `Agent.AnalyzeRecord` | agent.py:55-65 | A successful record has the given symbol and timestamp and keeps the engine's dictionary as `analysis_data`. Its signal defaults to `HOLD`, its confidence to `0.0` and its three prices to null when the key is missing; otherwise each is copied. |
| `Agent.Batch` | agent.py:83-89 | A batch returns at most one record per symbol. |
| `Agent.Positions` | agent.py:83-89 | The batch is exactly the successful analyses, in input order. Its j-th record is the analysis of an input position, these positions strictly increase, and every position whose analysis succeeds is among them. |
| `Agent.BatchAppend` | agent.py:84-87 | Analysing two symbol lists one after the other gives the two batches concatenated. No symbol's outcome affects another's. |
| `Agent.BatchSkipsFailure` | agent.py:69-89 | A failing symbol only drops out. The batch is the batch of the symbols before it followed by the batch of those after it. |
| `Agent.BatchAllSucceed` | agent.py:83-89 | When every symbol succeeds, the batch has one record per symbol, for that symbol, in input order. |
| `Agent.SignalsOf` | agent.py:93 | The filter keeps exactly the records whose signal equals the requested one, and never more records than it was given. |
| `Agent.SignalsOfAppend` | agent.py:91-97 | Filtering distributes over concatenation, so insertion order is preserved. Filtering the results after an append extends the earlier filter. |
| `Agent.BuyAndSellDisjoint` | agent.py:91-97 | No record is both a BUY and a SELL signal. The two lists together are at most as long as the results. |
| `Agent.ExportRows` | agent.py:106-117 | There is one exported dictionary per result, in the same order. Each has exactly the seven keys symbol, timestamp, signal, confidence, entry_price, stop_loss and take_profit. The values are copied from the record, with the timestamp in its ISO text. |
| `Agent.ExportRowsAppend` | agent.py:106-117 | Exporting after an append gives the earlier export followed by the export of the new records. |
| `Agent.FinancialAgent.constructor` | agent.py:19-29 | A given configuration is kept, and a missing one is replaced by the defaults. The results start empty. |
| `Agent.FinancialAgent.AnalyzeSymbol` | agent.py:31-71 | The call returns what `Analyze` describes. It appends exactly that record when there is one and otherwise leaves `results` unchanged. |
| `Agent.FinancialAgent.AnalyzeSymbols` | agent.py:73-89 | The call returns the batch of successes. The new `results` is the old `results` followed by exactly the returned records. |
| `Agent.FinancialAgent.GetBuySignals` | agent.py:91-93 | Returns exactly the BUY records of `results`. It reads the state and changes nothing. |
| `Agent.FinancialAgent.GetSellSignals` | agent.py:95-97 | Returns exactly the SELL records of `results`. It reads the state and changes nothing. |
| `Agent.FinancialAgent.ExportData` | agent.py:99-117 | The export has one seven-key dictionary per result, with that result's symbol. The results are not changed. |
| `ResponseSpan.Find` | llm_analyst.py:101 | `find` returns -1 exactly when the character is absent. Otherwise it returns the position of its first occurrence. |
| `ResponseSpan.RFind` | llm_analyst.py:102 | `rfind` returns -1 exactly when the character is absent. Otherwise it returns the position of its last occurrence. |
| `ResponseSpan.Span` | llm_analyst.py:101-106 | A span exists exactly when some `{` comes before some `}`. A span starts with `{`, ends with `}` and has length at least 2. |
| `ResponseSpan.SpanIsFirstToLast` | llm_analyst.py:101-104 | The span runs from the first `{` to the last `}`, inclusive. |
| `ResponseSpan.SpanLocation` | llm_analyst.py:101-104 | The span is a contiguous slice of the reply. No `{` comes before it and no `}` comes after it. |
| `ResponseSpan.SpanDropsSurroundingProse` | llm_analyst.py:99-104 | For a reply with prose around one object, the span is exactly that object. |
| `ResponseSpan.SpanJoinsTwoObjects` | llm_analyst.py:101-104 | For a reply with two objects, the span covers both objects and the text between them. |
| `LlmAnalyst.Interpret` | llm_analyst.py:99-108 | The extraction never fails. Its result is either the parser's object for the span, or an error record with exactly the keys `error` and the kind's raw key, which holds the unchanged reply. |
| `LlmAnalyst.InterpretWithoutSpan` | llm_analyst.py:103-106 | When no `{` comes before a `}`, the result is the "Could not parse" record with the raw reply. The parser is not consulted. |
| `LlmAnalyst.InterpretSpan` | llm_analyst.py:103-108 | Exactly the first-`{`-to-last-`}` slice is parsed. An accepted slice yields its object. A rejected slice yields the "Invalid JSON" record with the raw reply. |
| `LlmAnalyst.ErrorRecordKeys` | llm_analyst.py:106-234 | Error records of `analyze_signal` keep the reply under `raw_response`. Those of the other two calls keep it under `raw`. |
| `LlmAnalyst.WithTimestamp` | llm_analyst.py:179 | `timestamp` is set to the given text. All other keys keep their values. |
| `LlmAnalyst.ResolveApiKey` | llm_analyst.py:28-33 | A missing SDK is refused first, as `SdkMissing` (the `ImportError`). A non-empty explicit key wins; otherwise the environment's key is used. With the SDK installed, the call fails exactly when neither key is present and non-empty, and then as `MissingApiKey` (the `ValueError`). |
| `LlmAnalyst.ExchangeKeepsAlternating` | llm_analyst.py:82-97 | A completed call adds exactly two entries, and an alternating user/assistant conversation stays alternating. |
| `LlmAnalyst.ClientFailureLeavesPromptUnanswered` | llm_analyst.py:82-93 | When the client raises, only the user entry was appended, and the conversation stops alternating. |
| `LlmAnalyst.LLMAnalyst.constructor` | llm_analyst.py:31-37 | It takes a non-empty key, as the check before it guarantees, and keeps the key and the model. The conversation starts empty. |
| `LlmAnalyst.LLMAnalyst.Create` | llm_analyst.py:20-37 | The constructor raises exactly when `ResolveApiKey` fails. Otherwise it gives a fresh analyst with the resolved key, the given model (`DEFAULT_MODEL` when the argument is omitted) and an empty conversation. |
| `LlmAnalyst.LLMAnalyst.Exchange` | llm_analyst.py:82-97 | The request holds the whole earlier conversation plus the new user prompt. The new conversation is the old one, then the user entry, then the assistant entry when the client answered. An answered call keeps an alternating conversation alternating. |
| `LlmAnalyst.LLMAnalyst.AnalyzeSignal` | llm_analyst.py:39-110 | The call sends the conversation with a 1500-token budget and records the exchange. It returns the interpretation of the reply, with the raw reply kept under `raw_response` on the error paths. |
| `LlmAnalyst.LLMAnalyst.GenerateTradeSuggestion` | llm_analyst.py:112-180 | As above with a 1200-token budget and `raw`. Every returned record, the error records included, carries `timestamp`. |
| `LlmAnalyst.LLMAnalyst.AssessMarketConditions` | llm_analyst.py:182-236 | As above with a 1000-token budget and `raw`. |
| `LlmAnalyst.LLMAnalyst.ResetConversation` | llm_analyst.py:238-240 | The conversation is empty again, and therefore trivially alternating. |

## Left out

- The signal-scoring engine (`trading_engine.py`) is not part of this model. Its source ends
  after the constructor's docstring, so its scoring, thresholds and price derivation are
  unknown. `evaluate_signal` is an arbitrary function of the symbol and the frame.
- The indicator library (`technical_analysis.py`) is a wrapper over a foreign floating-point
  library and is not part of this model.
- The market-data fetch (`data_fetcher.py`) is a network call and is not part of this model.
  It is an arbitrary function of the symbol and the period.
- `example_usage.py` is a demo that only prints. It also calls members that the shown
  `FinancialAgent` does not have.
- Prompts are taken already rendered. The f-string formatting and `json.dumps` are not
  modelled.
- `json.loads` is an arbitrary partial parser. Its exceptions other than `JSONDecodeError`
  are not modelled.
- The Anthropic client is a deterministic function of the request. The cases where it raises,
  or where the response has no text block, are folded into `None`.
- `datetime.now()` and `isoformat()` are given as arguments. The clock itself is not modelled.
- `export_results` is modelled up to the list it hands to `json.dump`. The file write and its
  I/O errors are not modelled. Neither is the JSON text format: numbers and `null` stay
  `Json.Value`s.
- Logging is not modelled.
- Floats (confidence, prices, thresholds) are `real`s that are only copied. No floating-point
  arithmetic happens in the modelled code.
- `AnalysisResult` holds a reference to the engine's dictionary (`analysis_data`). The model
  stores a value copy, so aliasing with a later mutation of that dictionary is not captured.
- Agent.Analyze: only the fetch and the engine are modelled as raising. The source's
  `except Exception` also covers faults that cannot occur for a dictionary built this way.
- `AnalysisResult` is imported from `config.py`, but the shown file ends before its
  definition. Its fields are taken from the constructor call at agent.py:56-65.
- The data fetcher and trading engine objects that `FinancialAgent` owns are collaborators
  passed to each call, not fields of the class.
