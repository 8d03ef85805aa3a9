# Single-position trade state machine of the `smart` trading bot

The bot reads a signal each hour from a price predictor: none, 1 (buy) or
0 (sell). It turns that signal into at most one open position on the
exchange. All its state lives in one process-wide `bot_status` record:
an optional active trade, an append-only trade history, the last error,
the time of the last check and, in one variant, a cached balance. The
repository holds two near-identical versions of the trading function, and
both are modelled:

- `app.py`, `execute_trade` (module `App`). It fetches the ticker. It
  gives up whenever a trade is already active. On a buy it first fetches
  the balance and requires at least `investment_usdt` of USDT. It then
  buys `investment_usdt / price` and records the BUY. Because the
  active-trade check comes before the choice between buy and sell, the
  SELL branch can never run. As long as its entry points do not overlap
  in time, this variant opens at most one position in the life of the
  process and never closes it. The model reproduces this
  and proves it (`App.SellNeverCloses`, `App.AtMostOneTradeEver`). The
  module also models the hourly `trading_job`, the `/force_buy` and
  `/force_sell` guards with their replies, the start/stop flag and the
  scheduler's `running` gate.
- `app/bot.py`, `execute_auto_trade` (module `Bot`). Buying with no
  active trade opens `INVESTMENT_AMOUNT / price`. Selling with an active
  trade sells the whole amount and records a SELL with `buy_price` and
  `profit = (price - buy_price) * amount`. Every call with a signal that
  does not raise stamps `last_check`. The module also models `predict_signal`'s
  "model not loaded" guard and error handling, and `main.py`'s hourly job
  that calls it.

Module `Ledger` holds the shared values: trade records, balances, the
exchange's answers, `Option` and `Result`.

Each variant follows the same pattern. A class `BotStatus` has the fields
of `bot_status`. Its methods change those fields in the source's order,
with the source's early returns. Each method is proved equal to a pure
function of the old status (`AfterTrade`, `AfterAutoTrade`, ...). The
lemmas about those functions state the decision table and the invariants:

- at most one active trade (structural: `activeTrade` is an `Option`);
- history only grows by appending;
- the profit arithmetic;
- a failed exchange call leaves the ledger untouched;
- in `Bot`, runs from a fresh status alternate BUY, SELL, BUY, ...,
  and each SELL closes the BUY just before it.

The model keeps these external inputs:
- The exchange: each call made in one evaluation is replaced by the
  answer it gave (a `Venue` record of `Result`s).
- The predictor: replaced by the stage that failed or by whether its
  output was above 0.5 (`Forecast`).
- The clock: replaced by string parameters.

An exception the source catches becomes the error text its handler
stores. Python's `x / 0.0` raises ZeroDivisionError inside the `try`. The
model keeps that path: a zero price on a buy stores
`"... float division by zero"` and leaves the ledger alone. In `app.py`
the balance fetched just before the division stays cached. Python floats
are modelled as exact `real`s.

The model follows the code, also where it departs from a by-the-book
single-position engine:
- Only `app.py` checks the balance before buying; `app/bot.py` does not.
- `app.py` never closes a position.
- The stop-loss, take-profit and timeout settings are never read.
- There is no lock.
- Profit is computed from the ticker price, not from a fill price.
- Of the two `/start` routes, only the one in `app/routes.py` clears the
  error; `app.py`'s does not.

## Model

| member | source | states |
|---|---|---|
| App.BotStatus.constructor | app.py:29-35 | the initial `bot_status`: no check time, no active trade, empty history, no balance, no error |
| App.BotStatus.GetBalance | app.py:45-55 | returns true exactly when the fetch succeeded. On success the balance is cached and nothing else changes. On failure only `error` changes, to "Error fetching balance: " followed by the exception text |
| App.BotStatus.PredictSignal | app.py:78-93 | returns the signal 1 or 0 when the model ran, else none. A failed candle fetch or prediction stores its error text; nothing else changes |
| App.AfterTrade | app.py:96-158 | `execute_trade` never touches `running` or `last_check`. With a trade active it changes neither the trade nor the history. Otherwise the history either stays the same, and then so does the active trade, or gains exactly one BUY record, which becomes the active trade |
| App.BotStatus.ExecuteTrade | app.py:96-158 | the imperative `execute_trade`, early returns included, ends in exactly the status `AfterTrade` gives; the SELL code after the guard at line 131 is proved unreachable |
| App.NoSignalChangesNothing | app.py:97-98 | a missing signal leaves the whole status unchanged |
| App.ActiveTradeBlocksEveryTrade | app.py:104-106 | with a trade active, any signal leaves the active trade, the history and the balance unchanged |
| App.SellNeverCloses | app.py:129-132 | a SELL signal never clears the active trade and never appends a record |
| App.BuyOpensPosition | app.py:108-126 | buy with no active trade, a fetched balance of at least the investment, a non-zero price and a placed order: this caches the balance, sets the active trade to BUY(investment / price, price, now, order) and appends that same record, and changes nothing else |
| App.BalanceFailureBlocksBuy | app.py:108-111 | a failed balance fetch on a buy only stores the balance error |
| App.InsufficientBalanceBlocksBuy | app.py:113 | too little USDT on a buy only caches the fetched balance; no trade, no error |
| App.ExchangeFailureLeavesLedger | app.py:100-158 | a failed ticker fetch, a zero price or a failed buy order leaves the active trade and the history unchanged. A failed ticker fetch changes only `error`, to "Trade execution error: " followed by the exception text. On a buy that passed the balance check, a zero price or a failed order changes only the cached balance and `error`, to "Trade execution error: " followed by "float division by zero" or by the order's exception text |
| App.OpenedQuantityExample | app.py:114 | investing 9 at a price of 30000 opens exactly 0.0003 |
| App.AfterJob | app.py:161-166 | `trading_job` stamps `last_check` with its own clock reading, keeps `running`, and changes the ledger only by opening one BUY when no trade was active |
| App.BotStatus.TradingJob | app.py:161-166 | stamp, predict, trade, refresh the balance, in that order: ends in the status `AfterJob` gives |
| App.AfterForceBuy | app.py:194-196 | `/force_buy` does nothing when a trade is active; otherwise it either leaves the active trade and the history alone or opens one BUY |
| App.BotStatus.ForceBuy | app.py:194-197 | calls `execute_trade(1)` only when no trade is active; replies from the status afterwards |
| App.AfterForceSell | app.py:200-202 | with no trade active `/force_sell` changes nothing, `error` included; in any case it never changes the active trade, the history, the balance, `running` or `last_check` |
| App.BotStatus.ForceSell | app.py:200-203 | calls `execute_trade(0)` only when a trade is active; replies from the status afterwards |
| App.ForceRepliesWithTradeOpen | app.py:193-203 | with a trade open, `/force_buy` changes nothing yet replies "Force buy executed", and `/force_sell` replies "Cannot execute sell - no active trade" |
| App.BotStatus.Start | app.py:184-186 | sets `running` and changes nothing else |
| App.BotStatus.Stop | app.py:189-191 | clears `running` and changes nothing else |
| App.BotStatus.SchedulerTick | app.py:205-209 | the due hourly job runs only while `running` is set |
| App.AfterEvent | app.py:183-209 | no entry point changes an active trade or the history while a trade is active; each one either leaves the active trade and the history alone or opens one BUY |
| App.Run | app.py:126 | over any sequence of entry points, the old history is a prefix of the new one; an active trade stays, with its history, for ever |
| App.RunKeepsOneShot | app.py:104-126 | "nothing recorded, nothing active" or "exactly one BUY recorded, and it is the active trade" holds after every sequence of entry points |
| App.AtMostOneTradeEver | app.py:96-158 | from the initial status, entry points running one at a time, this variant records at most one trade in the life of the process: a BUY that stays active |
| Bot.BotStatus.constructor | app/bot.py:27-49 | the initial `bot_status`: `model_loaded` is set exactly when the model loaded, and a load failure is recorded as the error |
| Bot.SignalOf | app/bot.py:76-95 | `predict_signal` returns a signal exactly when the model is loaded and the prediction ran; the signal is 1 when the output was above 0.5 and 0 otherwise |
| Bot.AfterPredict | app/bot.py:76-95 | `predict_signal` changes only `error`: nothing without a loaded model; a successful prediction clears it |
| Bot.BotStatus.PredictSignal | app/bot.py:76-95 | the imperative `predict_signal` returns `SignalOf` and ends in the status `AfterPredict` gives |
| Bot.AfterAutoTrade | app/bot.py:98-148 | `execute_auto_trade` keeps `running` and `model_loaded`. The old history is a prefix of the new, which has at most one more record. That record is either a BUY that becomes the active trade (when none was active) or a SELL closing the active trade at its amount and entry price with profit (price - buy_price) * amount, which clears it. With no new record the active trade is unchanged |
| Bot.BotStatus.ExecuteAutoTrade | app/bot.py:98-148 | the imperative `execute_auto_trade` ends in exactly the status `AfterAutoTrade` gives |
| Bot.NoSignalChangesNothing | app/bot.py:99-100 | a missing signal leaves the whole status unchanged, `last_check` included |
| Bot.BuyOpensPosition | app/bot.py:106-121 | buy with no active trade, a non-zero price and a placed order: the active trade becomes BUY(INVESTMENT_AMOUNT / price, price, now, order), that same record is appended, and `last_check` is stamped |
| Bot.BuyWhileActiveOnlyStamps | app/bot.py:106-107 | buy while a trade is active only stamps `last_check` |
| Bot.SellClosesPosition | app/bot.py:123-144 | sell with an active trade of positive amount and a placed order: a SELL with the active amount, the ticker price, `buy_price` = the entry price and profit (price - entry) * amount is appended, the active trade is cleared and `last_check` stamped |
| Bot.SellWithoutPositionOnlyStamps | app/bot.py:123-124 | sell with no active trade, or one of amount 0 or less, only stamps `last_check` |
| Bot.CompletedCallStampsLastCheck | app/bot.py:102-144 | every call with a signal that does not raise sets `last_check` to the call's time and keeps `error`, whichever branch it took |
| Bot.RaisingCallLeavesLedger | app/bot.py:102-147 | a call whose ticker fetch, price division or order raises changes only `error`, to the handler's prefix followed by the ticker's exception text, "float division by zero", or the buy or sell order's exception text, whichever raised first; ledger and `last_check` are untouched |
| Bot.ProfitExamples | app/bot.py:128 | from a reachable status holding one BUY of 0.001 at 30000, closing records profit 1.0 at 31000 and -1.0 at 29000 |
| Bot.AfterJob | main.py:20-30 | the hourly job does nothing while the bot is stopped; otherwise the history grows by at most one record |
| Bot.BotStatus.RunTradingJob | main.py:20-30 | checks `running`, predicts, and trades only on a signal; ends in the status `AfterJob` gives |
| Bot.RunAutoTrade | app/bot.py:120-140 | over any sequence of calls the old history is a prefix of the new one |
| Bot.ConsistentActiveIsBuy | app/bot.py:106-141 | in a consistent status the active trade is none or a BUY record |
| Bot.AutoTradeKeepsConsistent | app/bot.py:106-141 | every call keeps the ledger consistent: records alternate BUY, SELL from the first, each SELL closes the BUY just before it, and a trade is active exactly when the last record is a BUY, that record being the active trade |
| Bot.RunKeepsConsistent | app/bot.py:106-141 | any sequence of calls keeps the ledger consistent |
| Bot.RunFromStartAlternates | app/bot.py:106-141 | from the initial status, records alternate BUY, SELL, BUY, ...; each SELL closes the BUY before it with profit (price - buy_price) * amount; the active trade is none or a BUY |
| Bot.JobKeepsConsistent | main.py:20-30 | the hourly job keeps the ledger consistent |

## Left out

- The exchange (ccxt `fetch_balance`, `fetch_ticker`, `fetch_ohlcv`, the market order calls): each call is replaced by the answer it gave in `Venue`. A balance response that lacks USDT or the base coin raises KeyError inside `get_balance`; the model folds that into a failed fetch.
- A ticker whose `last` is None: the model's ticker answer is a number or an exception. The TypeError that None would raise at the division is not modelled, nor the fact that `app.py` reaches its active-trade check without ever using the price.
- A free balance of None from the exchange: the free amounts are modelled as numbers.
- The predictor: TensorFlow model loading and `model.predict`, the pandas frames and `prepare_features`. The model takes as input which stage failed (with its exception text) or whether the output was above 0.5.
- Float rounding of amounts and profits: the model uses exact reals. Integer-to-float conversion of the configured amounts is not modelled; the investment is a real parameter of the constructor, and the defaults 9 and 10 are named constants.
- The stop-loss, take-profit, trade-timeout and max-active-trades settings: they are declared but never read, so they are not part of `Status`.
- The `order` dictionary the exchange returns: it is kept unread as `Order`.
- Dictionary aliasing: `active_trade` and the appended history entry are the same dict in Python. The model uses values. This is equivalent because neither variant mutates a record after creating it.
- Concurrency: the scheduler thread and the Flask request threads share `bot_status` without a lock. The model treats each entry point as one atomic step, so interleavings in the middle of a step are not modelled. So `App.AtMostOneTradeEver` holds only for entry points that do not overlap. In `app.py`, a `/force_buy` that arrives while `trading_job`'s buy is waiting on `fetch_balance` or on the buy order also passes the active-trade check (app.py:105), and both threads then append a BUY (app.py:126).
- Scheduling: the hourly timing of `schedule` and the `time.sleep` loop are not modelled (`HourlyTick` is an iteration at which the job is due). So is the daemon thread.
- Presentation: the dashboard and home routes, templates, `app.run`, `print` output and timestamp formatting. Timestamps are opaque strings.
- `app/routes.py`: `manual_trade` raises NameError inside its own `try` because `exchange`, `TRADING_SYMBOL` and `datetime` are not imported there. The module's `/start`, `/stop` and `/predict` routes are HTTP glue.
- `app.py`'s `get_live_data` and `prepare_features`: they come into the model only through the error text a failed candle fetch stores.
