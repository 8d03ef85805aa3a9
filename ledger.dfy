/** Values shared by both variants of the trading bot: the records kept in
    `bot_status`, and the answers the exchange gives during one evaluation.
    The exchange itself (a network venue) is not modelled; each call is
    replaced by the outcome it produced, success with a value or an
    exception with its text. */
module Ledger {

  datatype Option<+T> = None | Some(value: T)

  /** The outcome of one call into the exchange or the predictor: a value, or
      the text of the exception it raised. */
  datatype Result<+T> = Ok(value: T) | Err(message: string)

  /** The signal values the predictor produces (`int(prediction > 0.5)`). */
  const BuySignal: int := 1
  const SellSignal: int := 0

  /** Text of Python's ZeroDivisionError for a float divided by 0.0. */
  const DivisionByZero := "float division by zero"

  /** The response of `create_market_*_order`, stored in the trade record and
      never inspected. */
  datatype Order = Order(response: string)

  /** A trade record as appended to `trade_history`: the dictionaries built
      with 'type' set to 'BUY' or 'SELL'. Prices, amounts and profits are
      Python floats, modelled as exact reals. */
  datatype TradeRecord =
    | BuyRecord(amount: real, price: real, timestamp: string, order: Order)
    | SellRecord(amount: real, price: real, timestamp: string, order: Order,
                 buyPrice: real, profit: real)

  /** The free balances `get_balance` keeps: the quote currency (USDT) and
      the base coin of the trading symbol. */
  datatype Balance = Balance(usdt: real, coin: real)

  /** What the exchange answers, call by call, during one evaluation:
      `fetch_ticker(...)['last']`, `fetch_balance()` (an Err also stands for
      a response lacking one of the two currencies), and the two market
      order calls. */
  datatype Venue = Venue(ticker: Result<real>, balance: Result<Balance>,
                         buyOrder: Result<Order>, sellOrder: Result<Order>)

  /** The profit realised by selling `amount` bought at `buyPrice` at
      `price`. */
  function Profit(buyPrice: real, price: real, amount: real): real
  {
    (price - buyPrice) * amount
  }

  /** True when the active-trade slot holds a BUY record. */
  predicate IsBuy(t: Option<TradeRecord>)
  {
    t.Some? && t.value.BuyRecord?
  }
}
