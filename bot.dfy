/** The package variant of the bot (app/bot.py): `execute_auto_trade` opens
    a position on a BUY signal when none is active and closes the whole
    position on a SELL signal, recording the realised profit; `main.py`'s
    hourly job feeds it the predictor's signal while the bot is running. */
module Bot {
  import opened Ledger

  /** Configured `INVESTMENT_AMOUNT` when the variable is unset. */
  const DefaultInvestment: real := 10.0

  const ModelLoadErrorPrefix := "خطأ في تحميل النموذج: "
  const DataErrorPrefix := "فشل في جلب البيانات: "
  const FeaturesErrorPrefix := "فشل في معالجة البيانات: "
  const PredictionErrorPrefix := "خطأ في التنبؤ: "
  const TradeErrorPrefix := "خطأ في تنفيذ الأمر: "

  /** What `predict_signal` meets once the model is loaded: the candle fetch
      raised, the feature preparation raised, the model raised, or the model's
      output was (or was not) above 0.5. */
  datatype Forecast =
    | DataFailed(cause: string)
    | FeaturesFailed(cause: string)
    | PredictFailed(cause: string)
    | Predicted(aboveHalf: bool)

  /** The contents of `bot_status`, less the `settings` that nothing reads. */
  datatype Status = Status(running: bool, lastCheck: Option<string>,
                           activeTrade: Option<TradeRecord>,
                           history: seq<TradeRecord>,
                           error: Option<string>, modelLoaded: bool)

  /** `bot_status` after the module has tried to load the model;
      `loadFailure` is the text of the exception `load_model` raised, if any. */
  function Initial(running: bool, loadFailure: Option<string>): Status
  {
    Status(running, None, None, [],
           if loadFailure.Some? then Some(ModelLoadErrorPrefix + loadFailure.value) else None,
           loadFailure.None?)
  }

  /** `predict_signal`'s result. */
  function SignalOf(s: Status, f: Forecast): (signal: Option<int>)
    ensures signal.Some? <==> s.modelLoaded && f.Predicted?
    ensures signal.Some? ==> signal.value == (if f.aboveHalf then BuySignal else SellSignal)
  {
    if s.modelLoaded && f.Predicted? then Some(if f.aboveHalf then BuySignal else SellSignal)
    else None
  }

  /** `predict_signal`'s effect on the status: nothing without a model; the
      failing stage's error text; or, on a prediction, the error cleared. */
  function AfterPredict(s: Status, f: Forecast): (r: Status)
    ensures r.(error := s.error) == s
    ensures !s.modelLoaded ==> r == s
    ensures s.modelLoaded && f.Predicted? ==> r.error.None?
  {
    if !s.modelLoaded then s
    else match f
      case DataFailed(e) => s.(error := Some(DataErrorPrefix + e))
      case FeaturesFailed(e) => s.(error := Some(FeaturesErrorPrefix + e))
      case PredictFailed(e) => s.(error := Some(PredictionErrorPrefix + e))
      case Predicted(_) => s.(error := None)
  }

  /** The exception handler of `execute_auto_trade`. */
  function Failed(s: Status, cause: string): Status
  {
    s.(error := Some(TradeErrorPrefix + cause))
  }

  /** The status after `execute_auto_trade(signal)`, the exchange answering
      as `venue` says and the clock reading `now`. */
  function AfterAutoTrade(s: Status, investment: real, signal: Option<int>,
                          venue: Venue, now: string): (r: Status)
    ensures r.running == s.running && r.modelLoaded == s.modelLoaded
    ensures s.history <= r.history && |r.history| <= |s.history| + 1
    ensures |r.history| == |s.history| + 1 ==>
      if s.activeTrade.None? then IsBuy(r.activeTrade) && r.history[|s.history|] == r.activeTrade.value
      else IsClosing(s.activeTrade.value, r.history[|s.history|]) && r.activeTrade.None?
    ensures |r.history| == |s.history| ==> r.activeTrade == s.activeTrade
  {
    if signal.None? then s
    else if venue.ticker.Err? then Failed(s, venue.ticker.message)
    else
      var price := venue.ticker.value;
      if signal.value == BuySignal then
        if s.activeTrade.Some? then s.(lastCheck := Some(now))
        else if price == 0.0 then Failed(s, DivisionByZero)
        else if venue.buyOrder.Err? then Failed(s, venue.buyOrder.message)
        else
          var rec := BuyRecord(investment / price, price, now, venue.buyOrder.value);
          s.(activeTrade := Some(rec), history := s.history + [rec], lastCheck := Some(now))
      else if signal.value == SellSignal && s.activeTrade.Some? && s.activeTrade.value.amount > 0.0 then
        if venue.sellOrder.Err? then Failed(s, venue.sellOrder.message)
        else
          var open := s.activeTrade.value;
          var rec := SellRecord(open.amount, price, now, venue.sellOrder.value,
                                open.price, Profit(open.price, price, open.amount));
          s.(activeTrade := None, history := s.history + [rec], lastCheck := Some(now))
      else s.(lastCheck := Some(now))
  }

  /** `close` is the SELL record that closes the position `open`: the whole
      amount, the entry price kept, and the profit it realises. */
  predicate IsClosing(open: TradeRecord, close: TradeRecord)
  {
    close.SellRecord? && close.amount == open.amount && close.buyPrice == open.price
    && close.profit == Profit(close.buyPrice, close.price, close.amount)
  }

  /** Whether `execute_auto_trade` ends in its exception handler: the ticker
      fetch raised, or the order it decided to place raised (a zero price
      raises ZeroDivisionError before the buy order is placed). */
  predicate Raises(s: Status, signal: int, venue: Venue)
  {
    venue.ticker.Err?
    || (signal == BuySignal && s.activeTrade.None? && (venue.ticker.value == 0.0 || venue.buyOrder.Err?))
    || (signal == SellSignal && s.activeTrade.Some? && s.activeTrade.value.amount > 0.0 && venue.sellOrder.Err?)
  }

  /** The status after `main.py`'s `run_trading_job`. */
  function AfterJob(s: Status, investment: real, f: Forecast, venue: Venue, now: string): (r: Status)
    ensures r.running == s.running && r.modelLoaded == s.modelLoaded
    ensures !s.running ==> r == s
    ensures s.history <= r.history && |r.history| <= |s.history| + 1
  {
    if !s.running then s
    else AfterAutoTrade(AfterPredict(s, f), investment, SignalOf(s, f), venue, now)
  }

  /** One call of `execute_auto_trade`, with what it met. */
  datatype Call = Call(signal: Option<int>, venue: Venue, now: string)

  /** The status after the calls `cs`, one after another. */
  function RunAutoTrade(s: Status, investment: real, cs: seq<Call>): (r: Status)
    ensures s.history <= r.history
    ensures r.running == s.running && r.modelLoaded == s.modelLoaded
    decreases |cs|
  {
    if cs == [] then s
    else RunAutoTrade(AfterAutoTrade(s, investment, cs[0].signal, cs[0].venue, cs[0].now),
                      investment, cs[1..])
  }

  // ---------------------------------------------------------------------
  // The decision table of execute_auto_trade

  lemma NoSignalChangesNothing(s: Status, investment: real, venue: Venue, now: string)
    ensures AfterAutoTrade(s, investment, None, venue, now) == s
  {
  }

  lemma BuyOpensPosition(s: Status, investment: real, venue: Venue, now: string)
    requires s.activeTrade.None?
    requires venue.ticker.Ok? && venue.ticker.value != 0.0 && venue.buyOrder.Ok?
    ensures var price := venue.ticker.value;
      var rec := BuyRecord(investment / price, price, now, venue.buyOrder.value);
      AfterAutoTrade(s, investment, Some(BuySignal), venue, now)
        == s.(activeTrade := Some(rec), history := s.history + [rec], lastCheck := Some(now))
  {
  }

  lemma BuyWhileActiveOnlyStamps(s: Status, investment: real, venue: Venue, now: string)
    requires s.activeTrade.Some? && venue.ticker.Ok?
    ensures AfterAutoTrade(s, investment, Some(BuySignal), venue, now) == s.(lastCheck := Some(now))
  {
  }

  lemma SellClosesPosition(s: Status, investment: real, venue: Venue, now: string)
    requires s.activeTrade.Some? && s.activeTrade.value.amount > 0.0
    requires venue.ticker.Ok? && venue.sellOrder.Ok?
    ensures var open := s.activeTrade.value;
      var price := venue.ticker.value;
      var r := AfterAutoTrade(s, investment, Some(SellSignal), venue, now);
      r.activeTrade.None? && r.lastCheck == Some(now) && r.error == s.error
      && r.history == s.history + [SellRecord(open.amount, price, now, venue.sellOrder.value,
                                              open.price, Profit(open.price, price, open.amount))]
  {
  }

  lemma SellWithoutPositionOnlyStamps(s: Status, investment: real, venue: Venue, now: string)
    requires s.activeTrade.None? || s.activeTrade.value.amount <= 0.0
    requires venue.ticker.Ok?
    ensures AfterAutoTrade(s, investment, Some(SellSignal), venue, now) == s.(lastCheck := Some(now))
  {
  }

  /** A call that does not raise stamps `last_check`, whatever branch it
      took, and leaves `error` alone. */
  lemma CompletedCallStampsLastCheck(s: Status, investment: real, signal: int,
                                     venue: Venue, now: string)
    requires !Raises(s, signal, venue)
    ensures var r := AfterAutoTrade(s, investment, Some(signal), venue, now);
      r.lastCheck == Some(now) && r.error == s.error
  {
  }

  /** A call that raises changes only `error`, to the handler's message:
      ledger and `last_check` are untouched. */
  lemma RaisingCallLeavesLedger(s: Status, investment: real, signal: int,
                                venue: Venue, now: string)
    requires Raises(s, signal, venue)
    ensures var r := AfterAutoTrade(s, investment, Some(signal), venue, now);
      r.(error := s.error) == s
      && r.error == Some(TradeErrorPrefix + (if venue.ticker.Err? then venue.ticker.message
                                             else if signal == BuySignal then
                                               (if venue.ticker.value == 0.0 then DivisionByZero
                                                else venue.buyOrder.message)
                                             else venue.sellOrder.message))
  {
  }

  /** The worked examples: entry 30000, exit 31000 (or 29000), amount 0.001. */
  lemma ProfitExamples(venue: Venue)
    requires venue.sellOrder.Ok?
    ensures var entry := BuyRecord(0.001, 30000.0, "t0", Order(""));
      var open := Status(true, None, Some(entry), [entry], None, true);
      var up := AfterAutoTrade(open, DefaultInvestment, Some(SellSignal), venue.(ticker := Ok(31000.0)), "t1");
      var down := AfterAutoTrade(open, DefaultInvestment, Some(SellSignal), venue.(ticker := Ok(29000.0)), "t1");
      up.history[1].profit == 1.0 && down.history[1].profit == -1.0
  {
  }

  // ---------------------------------------------------------------------
  // The ledger invariant

  /** Records alternate BUY, SELL, BUY, ... from the first. */
  predicate Alternates(h: seq<TradeRecord>)
  {
    forall i :: 0 <= i < |h| ==> (h[i].BuyRecord? <==> i % 2 == 0)
  }

  /** Every SELL record closes the BUY just before it. */
  predicate ClosesPrevious(h: seq<TradeRecord>)
  {
    forall i :: 0 < i < |h| && h[i].SellRecord? ==> IsClosing(h[i - 1], h[i])
  }

  /** The ledger of this variant: an alternating history whose SELLs close
      the BUYs before them, and an active trade exactly when the last record
      is a BUY, that record being the active trade. */
  predicate Consistent(s: Status)
  {
    Alternates(s.history) && ClosesPrevious(s.history)
    && (s.activeTrade.Some? <==> |s.history| % 2 == 1)
    && (s.activeTrade.Some? ==> s.activeTrade.value == s.history[|s.history| - 1])
  }

  lemma ConsistentActiveIsBuy(s: Status)
    requires Consistent(s)
    ensures s.activeTrade.None? || IsBuy(s.activeTrade)
  {
  }

  lemma AutoTradeKeepsConsistent(s: Status, investment: real, signal: Option<int>,
                                 venue: Venue, now: string)
    requires Consistent(s)
    ensures Consistent(AfterAutoTrade(s, investment, signal, venue, now))
  {
  }

  lemma {:induction false} RunKeepsConsistent(s: Status, investment: real, cs: seq<Call>)
    requires Consistent(s)
    ensures Consistent(RunAutoTrade(s, investment, cs))
    decreases |cs|
  {
    if cs != [] {
      AutoTradeKeepsConsistent(s, investment, cs[0].signal, cs[0].venue, cs[0].now);
      RunKeepsConsistent(AfterAutoTrade(s, investment, cs[0].signal, cs[0].venue, cs[0].now),
                         investment, cs[1..]);
    }
  }

  /** From the initial status, every run of `execute_auto_trade` records
      BUYs and SELLs in alternation, each SELL closing the BUY before it with
      profit (price - buy_price) * amount. */
  lemma RunFromStartAlternates(running: bool, loadFailure: Option<string>,
                               investment: real, cs: seq<Call>)
    ensures var r := RunAutoTrade(Initial(running, loadFailure), investment, cs);
      Alternates(r.history) && ClosesPrevious(r.history)
      && (r.activeTrade.None? || IsBuy(r.activeTrade))
  {
    RunKeepsConsistent(Initial(running, loadFailure), investment, cs);
    ConsistentActiveIsBuy(RunAutoTrade(Initial(running, loadFailure), investment, cs));
  }

  lemma JobKeepsConsistent(s: Status, investment: real, f: Forecast, venue: Venue, now: string)
    requires Consistent(s)
    ensures Consistent(AfterJob(s, investment, f, venue, now))
  {
  }

  // ---------------------------------------------------------------------
  // The mutable status and the functions that change it

  /** The process-wide `bot_status` dictionary, with the configured
      investment amount the functions read beside it. */
  class BotStatus {
    const investment: real
    var running: bool
    var lastCheck: Option<string>
    var activeTrade: Option<TradeRecord>
    var tradeHistory: seq<TradeRecord>
    var error: Option<string>
    var modelLoaded: bool

    function Snapshot(): Status
      reads this
    {
      Status(running, lastCheck, activeTrade, tradeHistory, error, modelLoaded)
    }

    /** The module's initialisation, including the attempt to load the model. */
    constructor (investment: real, startRunning: bool, loadFailure: Option<string>)
      ensures this.investment == investment
      ensures Snapshot() == Initial(startRunning, loadFailure)
    {
      this.investment := investment;
      running := startRunning;
      lastCheck := None;
      activeTrade := None;
      tradeHistory := [];
      error := None;
      modelLoaded := false;
      new;
      if loadFailure.None? {
        modelLoaded := true;
      } else {
        error := Some(ModelLoadErrorPrefix + loadFailure.value);
      }
    }

    method PredictSignal(f: Forecast) returns (signal: Option<int>)
      modifies this
      ensures signal == SignalOf(old(Snapshot()), f)
      ensures Snapshot() == AfterPredict(old(Snapshot()), f)
    {
      if !modelLoaded {
        return None;
      }
      match f {
        case DataFailed(e) =>
          error := Some(DataErrorPrefix + e);
          return None;
        case FeaturesFailed(e) =>
          error := Some(FeaturesErrorPrefix + e);
          return None;
        case PredictFailed(e) =>
          error := Some(PredictionErrorPrefix + e);
          return None;
        case Predicted(above) =>
          error := None;
          return Some(if above then BuySignal else SellSignal);
      }
    }

    method ExecuteAutoTrade(signal: Option<int>, venue: Venue, now: string)
      modifies this
      ensures Snapshot() == AfterAutoTrade(old(Snapshot()), investment, signal, venue, now)
    {
      if signal.None? {
        return;
      }
      // the body of the try block
      if venue.ticker.Err? {
        error := Some(TradeErrorPrefix + venue.ticker.message);
        return;
      }
      var currentPrice := venue.ticker.value;
      var timestamp := now;
      if signal.value == BuySignal {
        if activeTrade.None? {
          if currentPrice == 0.0 {
            error := Some(TradeErrorPrefix + DivisionByZero);
            return;
          }
          var amount := investment / currentPrice;
          if venue.buyOrder.Err? {
            error := Some(TradeErrorPrefix + venue.buyOrder.message);
            return;
          }
          var tradeRecord := BuyRecord(amount, currentPrice, timestamp, venue.buyOrder.value);
          activeTrade := Some(tradeRecord);
          tradeHistory := tradeHistory + [tradeRecord];
        }
      } else if signal.value == SellSignal {
        if activeTrade.Some? && activeTrade.value.amount > 0.0 {
          var amount := activeTrade.value.amount;
          if venue.sellOrder.Err? {
            error := Some(TradeErrorPrefix + venue.sellOrder.message);
            return;
          }
          var profit := Profit(activeTrade.value.price, currentPrice, amount);
          var tradeRecord := SellRecord(amount, currentPrice, timestamp, venue.sellOrder.value,
                                        activeTrade.value.price, profit);
          tradeHistory := tradeHistory + [tradeRecord];
          activeTrade := None;
        }
      }
      lastCheck := Some(timestamp);
    }

    /** `main.py`'s hourly job. */
    method RunTradingJob(f: Forecast, venue: Venue, now: string)
      modifies this
      ensures Snapshot() == AfterJob(old(Snapshot()), investment, f, venue, now)
    {
      if !running {
        return;
      }
      var signal := PredictSignal(f);
      if signal.Some? {
        ExecuteAutoTrade(signal, venue, now);
      }
    }
  }
}
