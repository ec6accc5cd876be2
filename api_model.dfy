/** Wire types of the orders API: the order record and its two enums. */
module ApiModel {

  datatype Option<T> = None | Some(value: T)

  /** The instruments the API serves (enum OrderSymbol; `TTWO_US` is 'TTWO.US'). */
  datatype OrderSymbol = BTCUSD | ETHUSD | TTWO_US

  datatype OrderSide = BUY | SELL

  /** One open position as the API delivers it (interface Order of the API model). */
  datatype OrderDTO = OrderDTO(
    id: int,
    symbol: OrderSymbol,
    side: OrderSide,
    size: real,
    openTime: int,
    openPrice: real,
    swap: real,
    closePrice: real)
}
