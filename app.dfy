/** The single-file variant of the bot (app.py): `execute_trade` driven by the
    hourly `trading_job` and by the `/force_buy` and `/force_sell` routes.

    Its guard "a trade is already active, do nothing" comes before the
    choice between BUY and SELL, so the SELL branch, which needs an active
    trade, is never reached: this variant opens at most one position and
    never closes it, as long as its entry points do not overlap in time.
    The model keeps that behaviour. */
module App {
  import opened Ledger

  /** Configured `investment_usdt` when INVESTMENT_AMOUNT is unset. */
  const DefaultInvestment: real := 9.0

  const BalanceErrorPrefix := "Error fetching balance: "
  const DataErrorPrefix := "Error fetching data: "
  const PredictionErrorPrefix := "Prediction error: "
  const TradeErrorPrefix := "Trade execution error: "

  const ForceBuyDone := "Force buy executed"
  const ForceBuyRefused := "Cannot execute buy - active trade exists"
  const ForceSellDone := "Force sell executed"
  const ForceSellRefused := "Cannot execute sell - no active trade"

  /** What `predict_signal` meets: the candle fetch raised, the model raised,
      or the model's output was (or was not) above 0.5. */
  datatype Forecast =
    | DataFailed(cause: string)
    | PredictFailed(cause: string)
    | Predicted(aboveHalf: bool)

  /** The contents of `bot_status`, less the `settings` that nothing reads. */
  datatype Status = Status(running: bool, lastCheck: Option<string>,
                           activeTrade: Option<TradeRecord>,
                           history: seq<TradeRecord>,
                           balance: Option<Balance>, error: Option<string>)

  /** `bot_status` as the module creates it. */
  function Initial(running: bool): Status
  {
    Status(running, None, None, [], None, None)
  }

  /** `get_balance`'s effect on the status. */
  function AfterBalanceFetch(s: Status, fetch: Result<Balance>): Status
  {
    match fetch
    case Ok(b) => s.(balance := Some(b))
    case Err(e) => s.(error := Some(BalanceErrorPrefix + e))
  }

  /** `predict_signal`'s result. */
  function SignalOf(f: Forecast): Option<int>
  {
    if f.Predicted? then Some(if f.aboveHalf then BuySignal else SellSignal) else None
  }

  /** `predict_signal`'s effect on the status. */
  function AfterPredict(s: Status, f: Forecast): Status
  {
    match f
    case DataFailed(e) => s.(error := Some(DataErrorPrefix + e))
    case PredictFailed(e) => s.(error := Some(PredictionErrorPrefix + e))
    case Predicted(_) => s
  }

  /** The status after `execute_trade(signal)`, the exchange answering as
      `venue` says and the clock reading `now`. */
  function AfterTrade(s: Status, investment: real, signal: Option<int>,
                      venue: Venue, now: string): (r: Status)
    ensures r.running == s.running && r.lastCheck == s.lastCheck
    ensures s.activeTrade.Some? ==> r.activeTrade == s.activeTrade && r.history == s.history
    ensures r.history == s.history || IsOpening(s, r)
    ensures r.history == s.history ==> r.activeTrade == s.activeTrade
  {
    if signal.None? then s
    else if venue.ticker.Err? then s.(error := Some(TradeErrorPrefix + venue.ticker.message))
    else if s.activeTrade.Some? then s
    else if signal.value == BuySignal then
      var fetched := AfterBalanceFetch(s, venue.balance);
      if venue.balance.Err? || venue.balance.value.usdt < investment then fetched
      else
        var price := venue.ticker.value;
        if price == 0.0 then fetched.(error := Some(TradeErrorPrefix + DivisionByZero))
        else if venue.buyOrder.Err? then fetched.(error := Some(TradeErrorPrefix + venue.buyOrder.message))
        else
          var rec := BuyRecord(investment / price, price, now, venue.buyOrder.value);
          fetched.(activeTrade := Some(rec), history := s.history + [rec])
    else
      // signal 0 finds no active trade (checked above) and returns; any other
      // value matches neither branch
      s
  }

  /** From `s` to `r` a position was opened: `r` holds a BUY record that is
      also the one record appended to the history. */
  predicate IsOpening(s: Status, r: Status)
  {
    s.activeTrade.None? && IsBuy(r.activeTrade) && r.history == s.history + [r.activeTrade.value]
  }

  /** The status after `trading_job`: stamp `last_check`, predict, trade,
      then refresh the balance. */
  function AfterJob(s: Status, investment: real, f: Forecast, venue: Venue,
                    checkTime: string, tradeTime: string, refresh: Result<Balance>): (r: Status)
    ensures r.running == s.running && r.lastCheck == Some(checkTime)
    ensures s.activeTrade.Some? ==> r.activeTrade == s.activeTrade && r.history == s.history
    ensures r.history == s.history || IsOpening(s, r)
    ensures r.history == s.history ==> r.activeTrade == s.activeTrade
  {
    var predicted := AfterPredict(s.(lastCheck := Some(checkTime)), f);
    AfterBalanceFetch(AfterTrade(predicted, investment, SignalOf(f), venue, tradeTime), refresh)
  }

  /** `/force_buy`: trade on a BUY signal only when no trade is active. */
  function AfterForceBuy(s: Status, investment: real, venue: Venue, now: string): (r: Status)
    ensures s.activeTrade.Some? ==> r == s
    ensures r.history == s.history || IsOpening(s, r)
    ensures r.history == s.history ==> r.activeTrade == s.activeTrade
  {
    if s.activeTrade.None? then AfterTrade(s, investment, Some(BuySignal), venue, now) else s
  }

  /** `/force_sell`: trade on a SELL signal only when a trade is active. */
  function AfterForceSell(s: Status, investment: real, venue: Venue, now: string): (r: Status)
    ensures s.activeTrade.None? ==> r == s
    ensures r.activeTrade == s.activeTrade && r.history == s.history
    ensures r.running == s.running && r.lastCheck == s.lastCheck && r.balance == s.balance
  {
    if s.activeTrade.Some? then AfterTrade(s, investment, Some(SellSignal), venue, now) else s
  }

  /** The text `/force_buy` answers with, read from the status afterwards. */
  function ForceBuyReply(r: Status): string
  {
    if r.activeTrade.Some? then ForceBuyDone else ForceBuyRefused
  }

  /** The text `/force_sell` answers with, read from the status afterwards. */
  function ForceSellReply(r: Status): string
  {
    if r.activeTrade.None? then ForceSellDone else ForceSellRefused
  }

  /** The entry points that change the status: an iteration of the scheduler
      loop at which the hourly job is due, the two force routes, and the
      start and stop routes. */
  datatype Event =
    | HourlyTick(forecast: Forecast, venue: Venue, checkTime: string,
                 tradeTime: string, refresh: Result<Balance>)
    | ForceBuyRequest(venue: Venue, now: string)
    | ForceSellRequest(venue: Venue, now: string)
    | StartRequest
    | StopRequest

  function AfterEvent(s: Status, investment: real, e: Event): (r: Status)
    ensures s.activeTrade.Some? ==> r.activeTrade == s.activeTrade && r.history == s.history
    ensures r.history == s.history || IsOpening(s, r)
    ensures r.history == s.history ==> r.activeTrade == s.activeTrade
  {
    match e
    case HourlyTick(f, venue, checkTime, tradeTime, refresh) =>
      // run_scheduler only runs pending jobs while the bot is running
      if s.running then AfterJob(s, investment, f, venue, checkTime, tradeTime, refresh) else s
    case ForceBuyRequest(venue, now) => AfterForceBuy(s, investment, venue, now)
    case ForceSellRequest(venue, now) => AfterForceSell(s, investment, venue, now)
    case StartRequest => s.(running := true)
    case StopRequest => s.(running := false)
  }

  /** The status after the events `es`, one after another. */
  function Run(s: Status, investment: real, es: seq<Event>): (r: Status)
    ensures s.history <= r.history
    ensures s.activeTrade.Some? ==> r.activeTrade == s.activeTrade && r.history == s.history
    decreases |es|
  {
    if es == [] then s else Run(AfterEvent(s, investment, es[0]), investment, es[1..])
  }

  // ---------------------------------------------------------------------
  // The decision table of execute_trade

  lemma NoSignalChangesNothing(s: Status, investment: real, venue: Venue, now: string)
    ensures AfterTrade(s, investment, None, venue, now) == s
  {
  }

  lemma ActiveTradeBlocksEveryTrade(s: Status, investment: real, signal: Option<int>,
                                    venue: Venue, now: string)
    requires s.activeTrade.Some?
    ensures var r := AfterTrade(s, investment, signal, venue, now);
      r.activeTrade == s.activeTrade && r.history == s.history && r.balance == s.balance
  {
  }

  /** The SELL branch never runs: no signal ever clears the active trade or
      appends a SELL record. */
  lemma SellNeverCloses(s: Status, investment: real, venue: Venue, now: string)
    ensures var r := AfterTrade(s, investment, Some(SellSignal), venue, now);
      r.activeTrade == s.activeTrade && r.history == s.history && r.balance == s.balance
  {
  }

  lemma BuyOpensPosition(s: Status, investment: real, venue: Venue, now: string)
    requires s.activeTrade.None?
    requires venue.ticker.Ok? && venue.ticker.value != 0.0
    requires venue.balance.Ok? && venue.balance.value.usdt >= investment
    requires venue.buyOrder.Ok?
    ensures var price := venue.ticker.value;
      var rec := BuyRecord(investment / price, price, now, venue.buyOrder.value);
      AfterTrade(s, investment, Some(BuySignal), venue, now)
        == s.(activeTrade := Some(rec), history := s.history + [rec],
              balance := Some(venue.balance.value))
  {
  }

  lemma BalanceFailureBlocksBuy(s: Status, investment: real, venue: Venue, now: string)
    requires s.activeTrade.None? && venue.ticker.Ok? && venue.balance.Err?
    ensures AfterTrade(s, investment, Some(BuySignal), venue, now)
      == s.(error := Some(BalanceErrorPrefix + venue.balance.message))
  {
  }

  lemma InsufficientBalanceBlocksBuy(s: Status, investment: real, venue: Venue, now: string)
    requires s.activeTrade.None? && venue.ticker.Ok?
    requires venue.balance.Ok? && venue.balance.value.usdt < investment
    ensures AfterTrade(s, investment, Some(BuySignal), venue, now)
      == s.(balance := Some(venue.balance.value))
  {
  }

  /** A failed ticker fetch, a zero price or a failed buy order is caught:
      only `error`, set to the handler's text, and the balance already
      fetched change. */
  lemma ExchangeFailureLeavesLedger(s: Status, investment: real, signal: Option<int>,
                                    venue: Venue, now: string)
    requires signal.Some?
    requires venue.ticker.Err? || venue.ticker.value == 0.0 || venue.buyOrder.Err?
    ensures var r := AfterTrade(s, investment, signal, venue, now);
      r.activeTrade == s.activeTrade && r.history == s.history
    ensures venue.ticker.Err? ==>
      AfterTrade(s, investment, signal, venue, now)
        == s.(error := Some(TradeErrorPrefix + venue.ticker.message))
    ensures s.activeTrade.None? && signal == Some(BuySignal) && venue.ticker.Ok?
            && venue.balance.Ok? && venue.balance.value.usdt >= investment ==>
      AfterTrade(s, investment, signal, venue, now)
        == s.(balance := Some(venue.balance.value),
              error := Some(TradeErrorPrefix + (if venue.ticker.value == 0.0 then DivisionByZero
                                                else venue.buyOrder.message)))
  {
  }

  /** The worked example: 9 USDT invested at a price of 30000 buys 0.0003. */
  lemma OpenedQuantityExample(venue: Venue)
    requires venue.ticker == Ok(30000.0) && venue.buyOrder.Ok?
    requires venue.balance.Ok? && venue.balance.value.usdt >= 9.0
    ensures var r := AfterTrade(Initial(true), DefaultInvestment, Some(BuySignal), venue, "t");
      r.activeTrade.Some? && r.activeTrade.value.amount == 0.0003
  {
  }

  /** The force routes' replies describe the status afterwards, not what
      happened: `/force_buy` with a trade already open answers that it
      bought, and `/force_sell` with a trade open answers that there is none. */
  lemma ForceRepliesWithTradeOpen(s: Status, investment: real, venue: Venue, now: string)
    requires s.activeTrade.Some?
    ensures AfterForceBuy(s, investment, venue, now) == s
    ensures ForceBuyReply(AfterForceBuy(s, investment, venue, now)) == ForceBuyDone
    ensures ForceSellReply(AfterForceSell(s, investment, venue, now)) == ForceSellRefused
  {
  }

  // ---------------------------------------------------------------------
  // Whole runs

  /** The ledger holds nothing, or exactly the one BUY that is active. */
  predicate OneShot(s: Status)
  {
    (s.activeTrade.None? && s.history == [])
    || (IsBuy(s.activeTrade) && s.history == [s.activeTrade.value])
  }

  lemma {:induction false} RunKeepsOneShot(s: Status, investment: real, es: seq<Event>)
    requires OneShot(s)
    ensures OneShot(Run(s, investment, es))
    decreases |es|
  {
    if es != [] {
      var next := AfterEvent(s, investment, es[0]);
      assert OneShot(next);
      RunKeepsOneShot(next, investment, es[1..]);
    }
  }

  /** Over the whole life of the process, entry points running one at a
      time, this variant records at most one trade, a BUY, and once it is
      open it stays open. */
  lemma AtMostOneTradeEver(running: bool, investment: real, es: seq<Event>)
    ensures var r := Run(Initial(running), investment, es);
      |r.history| <= 1 && (r.history != [] ==> IsBuy(r.activeTrade) && r.history[0] == r.activeTrade.value)
  {
    RunKeepsOneShot(Initial(running), investment, es);
  }

  // ---------------------------------------------------------------------
  // The mutable status and the functions that change it

  /** The process-wide `bot_status` dictionary, with the configured
      investment amount the functions read beside it. */
  class BotStatus {
    const investment: real
    var running: bool
    var lastCheck: Option<string>
    var activeTrade: Option<TradeRecord>
    var tradeHistory: seq<TradeRecord>
    var balance: Option<Balance>
    var error: Option<string>

    function Snapshot(): Status
      reads this
    {
      Status(running, lastCheck, activeTrade, tradeHistory, balance, error)
    }

    constructor (investment: real, startRunning: bool)
      ensures this.investment == investment
      ensures Snapshot() == Initial(startRunning)
    {
      this.investment := investment;
      running := startRunning;
      lastCheck := None;
      activeTrade := None;
      tradeHistory := [];
      balance := None;
      error := None;
    }

    method GetBalance(fetch: Result<Balance>) returns (ok: bool)
      modifies this
      ensures ok == fetch.Ok?
      ensures Snapshot() == AfterBalanceFetch(old(Snapshot()), fetch)
    {
      if fetch.Err? {
        error := Some(BalanceErrorPrefix + fetch.message);
        return false;
      }
      balance := Some(fetch.value);
      return true;
    }

    method PredictSignal(f: Forecast) returns (signal: Option<int>)
      modifies this
      ensures signal == SignalOf(f)
      ensures Snapshot() == AfterPredict(old(Snapshot()), f)
    {
      match f {
        case DataFailed(e) =>
          error := Some(DataErrorPrefix + e);
          return None;
        case PredictFailed(e) =>
          error := Some(PredictionErrorPrefix + e);
          return None;
        case Predicted(above) =>
          return Some(if above then BuySignal else SellSignal);
      }
    }

    method ExecuteTrade(signal: Option<int>, venue: Venue, now: string)
      modifies this
      ensures Snapshot() == AfterTrade(old(Snapshot()), investment, signal, venue, now)
    {
      if signal.None? {
        return;
      }
      // the body of the try block
      if venue.ticker.Err? {
        error := Some(TradeErrorPrefix + venue.ticker.message);
        return;
      }
      var currentPrice := venue.ticker.value;
      var timestamp := now;
      if activeTrade.Some? {
        return;
      }
      if signal.value == BuySignal {
        var fetched := GetBalance(venue.balance);
        if !fetched {
          return;
        }
        if balance.value.usdt >= investment {
          if currentPrice == 0.0 {
            error := Some(TradeErrorPrefix + DivisionByZero);
            return;
          }
          var amount := investment / currentPrice;
          if venue.buyOrder.Err? {
            error := Some(TradeErrorPrefix + venue.buyOrder.message);
            return;
          }
          var tradeRecord := BuyRecord(amount, currentPrice, timestamp, venue.buyOrder.value);
          activeTrade := Some(tradeRecord);
          tradeHistory := tradeHistory + [tradeRecord];
        }
      } else if signal.value == SellSignal {
        if activeTrade.None? {
          return;
        }
        // the balance check, the sell order and the SELL record that follow
        // in the source cannot be reached
        assert false;
      }
    }

    method TradingJob(f: Forecast, venue: Venue, checkTime: string, tradeTime: string,
                      refresh: Result<Balance>)
      modifies this
      ensures Snapshot() == AfterJob(old(Snapshot()), investment, f, venue, checkTime, tradeTime, refresh)
    {
      lastCheck := Some(checkTime);
      var signal := PredictSignal(f);
      ExecuteTrade(signal, venue, tradeTime);
      var _ := GetBalance(refresh);
    }

    method ForceBuy(venue: Venue, now: string) returns (reply: string)
      modifies this
      ensures Snapshot() == AfterForceBuy(old(Snapshot()), investment, venue, now)
      ensures reply == ForceBuyReply(Snapshot())
    {
      if activeTrade.None? {
        ExecuteTrade(Some(BuySignal), venue, now);
      }
      reply := if activeTrade.Some? then ForceBuyDone else ForceBuyRefused;
    }

    method ForceSell(venue: Venue, now: string) returns (reply: string)
      modifies this
      ensures Snapshot() == AfterForceSell(old(Snapshot()), investment, venue, now)
      ensures reply == ForceSellReply(Snapshot())
    {
      if activeTrade.Some? {
        ExecuteTrade(Some(SellSignal), venue, now);
      }
      reply := if activeTrade.None? then ForceSellDone else ForceSellRefused;
    }

    method Start()
      modifies this
      ensures Snapshot() == AfterEvent(old(Snapshot()), investment, StartRequest)
    {
      running := true;
    }

    method Stop()
      modifies this
      ensures Snapshot() == AfterEvent(old(Snapshot()), investment, StopRequest)
    {
      running := false;
    }

    /** One iteration of `run_scheduler` at which the hourly job is due. */
    method SchedulerTick(f: Forecast, venue: Venue, checkTime: string, tradeTime: string,
                         refresh: Result<Balance>)
      modifies this
      ensures Snapshot() == AfterEvent(old(Snapshot()), investment,
                                       HourlyTick(f, venue, checkTime, tradeTime, refresh))
    {
      if running {
        TradingJob(f, venue, checkTime, tradeTime, refresh);
      }
    }
  }
}
