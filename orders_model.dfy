/** View-side types: an order with its cached profit, and a group of orders. */
module OrdersModel {
  import opened ApiModel

  /** An API order extended with its current profit (interface Order extends OrderDTO). */
  datatype Order = Order(
    id: int,
    symbol: OrderSymbol,
    side: OrderSide,
    size: real,
    openTime: int,
    openPrice: real,
    swap: real,
    closePrice: real,
    profit: real)
  {
    /** The API fields of this order, without the profit. */
    function Dto(): OrderDTO {
      OrderDTO(id, symbol, side, size, openTime, openPrice, swap, closePrice)
    }
  }

  /** The spread `{ ...orderDTO, profit }`. */
  function WithProfit(dto: OrderDTO, profit: real): (o: Order)
    ensures o.Dto() == dto && o.profit == profit
  {
    Order(dto.id, dto.symbol, dto.side, dto.size, dto.openTime, dto.openPrice,
          dto.swap, dto.closePrice, profit)
  }

  /** All open orders of one symbol with their aggregates (interface OrderGroup). */
  datatype OrderGroup = OrderGroup(
    symbol: OrderSymbol,
    size: real,
    openPrice: real,
    swap: real,
    profit: real,
    orders: seq<Order>)
}
