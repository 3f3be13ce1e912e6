/** The analysis orchestrator (`FinancialAgent`): for each symbol it fetches a
    price frame, asks the signal engine for a verdict, wraps the verdict into a
    timestamped `AnalysisResult` and appends it to an in-memory, append-only
    list of results. The market-data fetch, the engine and the clock are
    collaborators whose outcomes are inputs of the model. */
module Agent {
  import opened Wrappers
  import opened Json
  import opened Config

  /** One daily OHLCV bar of a price frame. */
  datatype Bar = Bar(date: int, open: real, high: real, low: real, close: real, volume: real)

  /** A price frame: its rows, oldest first. The frame is `empty` when it has no rows. */
  type PriceFrame = seq<Bar>

  /** What `get_historical_data` does: raise, or return a frame or `None`. */
  datatype FetchOutcome = FetchRaised | Fetched(frame: Option<PriceFrame>)

  /** What `evaluate_signal` does: raise, or return a signal dictionary or `None`. */
  datatype EngineOutcome = EngineRaised | Evaluated(signal: Option<Dict>)

  /** The agent's collaborators: the data fetcher (symbol and period in days)
      and the trading engine (symbol and frame). */
  datatype Collaborators = Collaborators(
    fetch: (string, int) -> FetchOutcome,
    evaluate: (string, PriceFrame) -> EngineOutcome)

  /** A reading of `datetime.now()`. */
  type Timestamp = int

  /** The record built from a truthy engine result. `analysisData` is
      the engine's dictionary itself. */
  datatype AnalysisResult = AnalysisResult(
    symbol: string,
    timestamp: Timestamp,
    signal: Value,
    confidence: Value,
    entryPrice: Value,
    stopLoss: Value,
    takeProfit: Value,
    analysisData: Dict)

  const BUY: Value := JStr("BUY")
  const SELL: Value := JStr("SELL")
  const HOLD: Value := JStr("HOLD")

  /** The frame the fetch delivered, when it delivered a frame with rows. */
  function UsableFrame(f: FetchOutcome): Option<PriceFrame> {
    if f.Fetched? && f.frame.Some? && |f.frame.value| > 0 then Some(f.frame.value) else None
  }

  /** The engine's dictionary, when the engine returned a truthy one (a
      Python `dict` is falsy exactly when it is empty). */
  function TruthySignal(e: EngineOutcome): Option<Dict> {
    if e.Evaluated? && e.signal.Some? && e.signal.value != map[] then Some(e.signal.value) else None
  }

  /** The `AnalysisResult(...)` call built from the engine's dictionary. */
  function MakeRecord(symbol: string, now: Timestamp, sr: Dict): AnalysisResult {
    AnalysisResult(
      symbol := symbol,
      timestamp := now,
      signal := Get(sr, "signal", HOLD),
      confidence := Get(sr, "confidence", JNum(0.0)),
      entryPrice := Get(sr, "entry_price", JNull),
      stopLoss := Get(sr, "stop_loss", JNull),
      takeProfit := Get(sr, "take_profit", JNull),
      analysisData := sr)
  }

  /** What one `analyze_symbol` call returns: a record exactly when the fetch
      (for the configured period) delivered a non-empty frame and the engine
      returned a non-empty dictionary for it; `None` for every exception,
      missing or empty frame and falsy engine result. The record itself is
      described by `AnalyzeRecord`. */
  function Analyze(cfg: TradingConfig, env: Collaborators, symbol: string, now: Timestamp): (r: Option<AnalysisResult>)
    ensures r.Some? <==>
      && UsableFrame(env.fetch(symbol, cfg.analysisPeriodDays)).Some?
      && TruthySignal(env.evaluate(symbol, UsableFrame(env.fetch(symbol, cfg.analysisPeriodDays)).value)).Some?
  {
    match UsableFrame(env.fetch(symbol, cfg.analysisPeriodDays))
    case None => None
    case Some(df) =>
      match TruthySignal(env.evaluate(symbol, df))
      case None => None
      case Some(sr) => Some(MakeRecord(symbol, now, sr))
  }

  /** The record of a successful `analyze_symbol` call: the given symbol and
      timestamp, the engine's (non-empty) dictionary as `analysis_data`, and each
      field copied from that dictionary, with `HOLD`, `0.0` and null for the
      missing ones. */
  lemma AnalyzeRecord(cfg: TradingConfig, env: Collaborators, symbol: string, now: Timestamp)
    requires Analyze(cfg, env, symbol, now).Some?
    ensures var r := Analyze(cfg, env, symbol, now).value;
      var data := TruthySignal(env.evaluate(symbol, UsableFrame(env.fetch(symbol, cfg.analysisPeriodDays)).value)).value;
      && r.analysisData == data
      && data != map[]
      && r.symbol == symbol
      && r.timestamp == now
      && r.signal == (if "signal" in data then data["signal"] else HOLD)
      && r.confidence == (if "confidence" in data then data["confidence"] else JNum(0.0))
      && r.entryPrice == (if "entry_price" in data then data["entry_price"] else JNull)
      && r.stopLoss == (if "stop_loss" in data then data["stop_loss"] else JNull)
      && r.takeProfit == (if "take_profit" in data then data["take_profit"] else JNull)
  {
  }

  /** What `analyze_symbols` returns for `symbols`, the k-th symbol being
      analysed at clock reading `nows[k]`: the successful records, in order. */
  function Batch(cfg: TradingConfig, env: Collaborators, symbols: seq<string>, nows: seq<Timestamp>): (rs: seq<AnalysisResult>)
    requires |nows| == |symbols|
    ensures |rs| <= |symbols|
    decreases |symbols|
  {
    if |symbols| == 0 then []
    else
      var n := |symbols| - 1;
      Batch(cfg, env, symbols[..n], nows[..n]) + OptionToSeq(Analyze(cfg, env, symbols[n], nows[n]))
  }

  ghost predicate Increasing(s: seq<nat>) {
    forall a, b :: 0 <= a < b < |s| ==> s[a] < s[b]
  }

  /** The input positions whose analysis succeeded, in increasing order: the
      j-th record of the batch is the analysis of symbol `Positions(..)[j]`,
      and every successful position is listed, so the batch is exactly the
      successes, in input order. */
  ghost function Positions(cfg: TradingConfig, env: Collaborators, symbols: seq<string>, nows: seq<Timestamp>): (idx: seq<nat>)
    requires |nows| == |symbols|
    ensures |idx| == |Batch(cfg, env, symbols, nows)|
    ensures Increasing(idx)
    ensures forall j :: 0 <= j < |idx| ==>
      idx[j] < |symbols| && Analyze(cfg, env, symbols[idx[j]], nows[idx[j]]) == Some(Batch(cfg, env, symbols, nows)[j])
    ensures forall k :: 0 <= k < |symbols| && Analyze(cfg, env, symbols[k], nows[k]).Some? ==> k in idx
    decreases |symbols|
  {
    if |symbols| == 0 then []
    else
      var n := |symbols| - 1;
      var prefix := Positions(cfg, env, symbols[..n], nows[..n]);
      assert forall k :: 0 <= k < n ==> symbols[..n][k] == symbols[k] && nows[..n][k] == nows[k];
      if Analyze(cfg, env, symbols[n], nows[n]).Some? then prefix + [n] else prefix
  }

  /** Appending a batch of symbols to another gives the two batches appended:
      one symbol's outcome never disturbs another's. */
  lemma {:induction false} BatchAppend(cfg: TradingConfig, env: Collaborators,
                                       s1: seq<string>, t1: seq<Timestamp>, s2: seq<string>, t2: seq<Timestamp>)
    requires |t1| == |s1| && |t2| == |s2|
    ensures Batch(cfg, env, s1 + s2, t1 + t2) == Batch(cfg, env, s1, t1) + Batch(cfg, env, s2, t2)
    decreases |s2|
  {
    if |s2| == 0 {
      assert s1 + s2 == s1 && t1 + t2 == t1;
    } else {
      var n := |s2| - 1;
      var s, t := s1 + s2, t1 + t2;
      var m := |s| - 1;
      assert s[..m] == s1 + s2[..n];
      assert t[..m] == t1 + t2[..n];
      var last := OptionToSeq(Analyze(cfg, env, s2[n], t2[n]));
      calc {
        Batch(cfg, env, s, t);
        Batch(cfg, env, s[..m], t[..m]) + last;
        Batch(cfg, env, s1 + s2[..n], t1 + t2[..n]) + last;
        { BatchAppend(cfg, env, s1, t1, s2[..n], t2[..n]); }
        Batch(cfg, env, s1, t1) + Batch(cfg, env, s2[..n], t2[..n]) + last;
        Batch(cfg, env, s1, t1) + Batch(cfg, env, s2, t2);
      }
    }
  }

  /** A single failing symbol contributes nothing. */
  lemma BatchOfFailure(cfg: TradingConfig, env: Collaborators, x: string, t: Timestamp)
    requires Analyze(cfg, env, x, t).None?
    ensures Batch(cfg, env, [x], [t]) == []
  {
    assert [x][..0] == [] && [t][..0] == [];
  }

  /** A symbol whose analysis fails is skipped and the batch carries on with
      the rest: the batch is the batch before it followed by the batch after it. */
  lemma BatchSkipsFailure(cfg: TradingConfig, env: Collaborators, symbols: seq<string>, nows: seq<Timestamp>, k: nat)
    requires |nows| == |symbols| && k < |symbols|
    requires Analyze(cfg, env, symbols[k], nows[k]).None?
    ensures Batch(cfg, env, symbols, nows) ==
      Batch(cfg, env, symbols[..k], nows[..k]) + Batch(cfg, env, symbols[k + 1..], nows[k + 1..])
  {
    var x, t := symbols[k], nows[k];
    var pre, post := symbols[..k], symbols[k + 1..];
    var tPre, tPost := nows[..k], nows[k + 1..];
    SplitAround(symbols, k);
    SplitAround(nows, k);
    BatchOfFailure(cfg, env, x, t);
    BatchAppend(cfg, env, pre, tPre, [x], [t]);
    BatchAppend(cfg, env, pre + [x], tPre + [t], post, tPost);
    assert Batch(cfg, env, pre, tPre) + [] == Batch(cfg, env, pre, tPre);
  }

  lemma SplitAround<T>(s: seq<T>, k: nat)
    requires k < |s|
    ensures s == (s[..k] + [s[k]]) + s[k + 1..]
  {
  }

  /** When every symbol succeeds the batch has one record per symbol, for that
      symbol, in input order. */
  lemma {:induction false} BatchAllSucceed(cfg: TradingConfig, env: Collaborators, symbols: seq<string>, nows: seq<Timestamp>)
    requires |nows| == |symbols|
    requires forall k :: 0 <= k < |symbols| ==> Analyze(cfg, env, symbols[k], nows[k]).Some?
    ensures |Batch(cfg, env, symbols, nows)| == |symbols|
    ensures forall k :: 0 <= k < |symbols| ==> Batch(cfg, env, symbols, nows)[k].symbol == symbols[k]
    decreases |symbols|
  {
    if |symbols| > 0 {
      var n := |symbols| - 1;
      assert forall k :: 0 <= k < n ==> symbols[..n][k] == symbols[k] && nows[..n][k] == nows[k];
      BatchAllSucceed(cfg, env, symbols[..n], nows[..n]);
    }
  }

  /** The records of `rs` whose signal is `kind`, in their order in `rs`
      (the comprehension `[r for r in results if r.signal == kind]`). */
  function SignalsOf(rs: seq<AnalysisResult>, kind: Value): (r: seq<AnalysisResult>)
    ensures |r| <= |rs|
    ensures forall x :: x in r <==> x in rs && x.signal == kind
  {
    if |rs| == 0 then []
    else (if rs[0].signal == kind then [rs[0]] else []) + SignalsOf(rs[1..], kind)
  }

  /** Filtering distributes over appending: records keep their insertion
      order, and filtering after an append extends the earlier filter. */
  lemma {:induction false} SignalsOfAppend(a: seq<AnalysisResult>, b: seq<AnalysisResult>, kind: Value)
    ensures SignalsOf(a + b, kind) == SignalsOf(a, kind) + SignalsOf(b, kind)
  {
    if |a| > 0 {
      assert (a + b)[1..] == a[1..] + b;
      SignalsOfAppend(a[1..], b, kind);
    } else {
      assert a + b == b;
    }
  }

  /** No record is both a BUY and a SELL signal, and together they are at most
      all the results. */
  lemma {:induction false} BuyAndSellDisjoint(rs: seq<AnalysisResult>)
    ensures forall x :: x in SignalsOf(rs, BUY) ==> x !in SignalsOf(rs, SELL)
    ensures |SignalsOf(rs, BUY)| + |SignalsOf(rs, SELL)| <= |rs|
  {
    if |rs| > 0 {
      BuyAndSellDisjoint(rs[1..]);
    }
  }

  /** The seven keys of an exported record. */
  const EXPORT_KEYS: set<string> :=
    {"symbol", "timestamp", "signal", "confidence", "entry_price", "stop_loss", "take_profit"}

  /** The dictionary `export_results` writes for one record; `iso` stands for
      `isoformat()` of the record's timestamp. */
  function ExportRow(r: AnalysisResult, iso: Timestamp -> string): Dict {
    map[
      "symbol" := JStr(r.symbol),
      "timestamp" := JStr(iso(r.timestamp)),
      "signal" := r.signal,
      "confidence" := r.confidence,
      "entry_price" := r.entryPrice,
      "stop_loss" := r.stopLoss,
      "take_profit" := r.takeProfit]
  }

  /** The list `export_results` serialises: one dictionary per result, in
      order, carrying exactly the seven exported keys with the values copied
      from the record (the `analysis_data` snapshot is not exported). */
  function ExportRows(rs: seq<AnalysisResult>, iso: Timestamp -> string): (rows: seq<Dict>)
    ensures |rows| == |rs|
    ensures forall i :: 0 <= i < |rs| ==>
      && rows[i].Keys == EXPORT_KEYS
      && rows[i]["symbol"] == JStr(rs[i].symbol)
      && rows[i]["timestamp"] == JStr(iso(rs[i].timestamp))
      && rows[i]["signal"] == rs[i].signal
      && rows[i]["confidence"] == rs[i].confidence
      && rows[i]["entry_price"] == rs[i].entryPrice
      && rows[i]["stop_loss"] == rs[i].stopLoss
      && rows[i]["take_profit"] == rs[i].takeProfit
  {
    if |rs| == 0 then [] else [ExportRow(rs[0], iso)] + ExportRows(rs[1..], iso)
  }

  /** Exporting after more results were appended extends the earlier export. */
  lemma {:induction false} ExportRowsAppend(a: seq<AnalysisResult>, b: seq<AnalysisResult>, iso: Timestamp -> string)
    ensures ExportRows(a + b, iso) == ExportRows(a, iso) + ExportRows(b, iso)
  {
    if |a| > 0 {
      assert (a + b)[1..] == a[1..] + b;
      ExportRowsAppend(a[1..], b, iso);
    } else {
      assert a + b == b;
    }
  }

  /** The orchestrator. Its only mutable state is the append-only `results`. */
  class FinancialAgent {
    const config: TradingConfig
    var results: seq<AnalysisResult>

    /** `config or TradingConfig()`: a given configuration is kept, a missing
        one is replaced by the defaults; the results start empty. */
    constructor (config: Option<TradingConfig>)
      ensures this.config == (if config.Some? then config.value else DEFAULT)
      ensures results == []
    {
      this.config := if config.Some? then config.value else DEFAULT;
      results := [];
    }

    /** `analyze_symbol`: returns the record `Analyze` describes and appends
        exactly that record, and nothing else, when there is one. */
    method AnalyzeSymbol(symbol: string, env: Collaborators, now: Timestamp) returns (r: Option<AnalysisResult>)
      modifies this
      ensures r == Analyze(config, env, symbol, now)
      ensures results == old(results) + OptionToSeq(r)
    {
      var fetched := env.fetch(symbol, config.analysisPeriodDays);
      if fetched.FetchRaised? {
        return None;
      }
      var df := fetched.frame;
      if df.None? || |df.value| == 0 {
        return None;
      }
      var outcome := env.evaluate(symbol, df.value);
      if outcome.EngineRaised? {
        return None;
      }
      var signalResult := outcome.signal;
      if signalResult.Some? && signalResult.value != map[] {
        var result := MakeRecord(symbol, now, signalResult.value);
        results := results + [result];
        return Some(result);
      }
      return None;
    }

    /** `analyze_symbols`: returns the successful records in input order and
        appends exactly those to `results`. */
    method AnalyzeSymbols(symbols: seq<string>, env: Collaborators, nows: seq<Timestamp>) returns (rs: seq<AnalysisResult>)
      requires |nows| == |symbols|
      modifies this
      ensures rs == Batch(config, env, symbols, nows)
      ensures results == old(results) + rs
    {
      rs := [];
      for i := 0 to |symbols|
        invariant rs == Batch(config, env, symbols[..i], nows[..i])
        invariant results == old(results) + rs
      {
        var result := AnalyzeSymbol(symbols[i], env, nows[i]);
        if result.Some? {
          rs := rs + [result.value];
        }
        assert symbols[..i + 1][..i] == symbols[..i] && nows[..i + 1][..i] == nows[..i];
      }
      assert symbols[..|symbols|] == symbols && nows[..|nows|] == nows;
    }

    /** `get_buy_signals`: the BUY records, in insertion order. */
    function GetBuySignals(): (r: seq<AnalysisResult>)
      reads this
      ensures |r| <= |results|
      ensures forall x :: x in r <==> x in results && x.signal == BUY
    {
      SignalsOf(results, BUY)
    }

    /** `get_sell_signals`: the SELL records, in insertion order. */
    function GetSellSignals(): (r: seq<AnalysisResult>)
      reads this
      ensures |r| <= |results|
      ensures forall x :: x in r <==> x in results && x.signal == SELL
    {
      SignalsOf(results, SELL)
    }

    /** The data `export_results` writes, one dictionary per result. */
    function ExportData(iso: Timestamp -> string): (data: seq<Dict>)
      reads this
      ensures |data| == |results|
      ensures forall i :: 0 <= i < |data| ==> data[i].Keys == EXPORT_KEYS && data[i]["symbol"] == JStr(results[i].symbol)
    {
      ExportRows(results, iso)
    }
  }
}
