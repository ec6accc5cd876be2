/** Profit of a single order at a reference price (getOrderProfit). */
module OrderProfit {
  import opened ApiModel

  /** Decimal exponent of each instrument's price scale. */
  function Exponent(symbol: OrderSymbol): nat {
    match symbol
    case BTCUSD => 2
    case ETHUSD => 3
    case TTWO_US => 1
  }

  /** Math.pow for a natural exponent. */
  function Pow(base: real, e: nat): (r: real)
    ensures base > 0.0 ==> r > 0.0
  {
    if e == 0 then 1.0 else base * Pow(base, e - 1)
  }

  /** 10 to the instrument's exponent. */
  function Multiplier(symbol: OrderSymbol): (m: real)
    ensures m > 0.0
  {
    Pow(10.0, Exponent(symbol))
  }

  function SideMultiplier(side: OrderSide): real {
    if side == BUY then 1.0 else -1.0
  }

  /** `currentPrice ?? closePrice`. */
  function LatestPrice(dto: OrderDTO, currentPrice: Option<real>): real {
    match currentPrice
    case Some(p) => p
    case None => dto.closePrice
  }

  /**
   * The profit of `dto` at `currentPrice`, or at its close price when no
   * current price is given. A BUY gains when the price rose above the open
   * price, a SELL when it fell below it, and nothing is gained or lost at
   * the open price.
   */
  function GetOrderProfit(dto: OrderDTO, currentPrice: Option<real>): (r: real)
    ensures r > 0.0 <==>
              (dto.side == BUY && LatestPrice(dto, currentPrice) > dto.openPrice) ||
              (dto.side == SELL && LatestPrice(dto, currentPrice) < dto.openPrice)
    ensures r < 0.0 <==>
              (dto.side == BUY && LatestPrice(dto, currentPrice) < dto.openPrice) ||
              (dto.side == SELL && LatestPrice(dto, currentPrice) > dto.openPrice)
  {
    var multiplier := Multiplier(dto.symbol);
    var sideMultiplier := SideMultiplier(dto.side);
    var latestPrice := LatestPrice(dto, currentPrice);
    ScaledSign(latestPrice - dto.openPrice, multiplier);
    ((latestPrice - dto.openPrice) * multiplier * sideMultiplier) / 100.0
  }

  /** Scaling by a positive factor keeps the sign. */
  lemma ScaledSign(d: real, m: real)
    requires m > 0.0
    ensures d * m > 0.0 <==> d > 0.0
    ensures d * m < 0.0 <==> d < 0.0
  {
    if d > 0.0 {
      assert d * m > 0.0;
    } else if d < 0.0 {
      assert (-d) * m > 0.0;
    }
  }

  /** The per-instrument multipliers are 10^2, 10^3 and 10^1. */
  lemma MultiplierTable()
    ensures Multiplier(BTCUSD) == 100.0
    ensures Multiplier(ETHUSD) == 1000.0
    ensures Multiplier(TTWO_US) == 10.0
  {
  }

  /** The profit formula written out per instrument and side. */
  lemma ProfitFormula(dto: OrderDTO, currentPrice: Option<real>)
    ensures var delta := LatestPrice(dto, currentPrice) - dto.openPrice;
            GetOrderProfit(dto, currentPrice) ==
              match (dto.symbol, dto.side)
              case (BTCUSD, BUY) => delta
              case (BTCUSD, SELL) => -delta
              case (ETHUSD, BUY) => 10.0 * delta
              case (ETHUSD, SELL) => -10.0 * delta
              case (TTWO_US, BUY) => delta / 10.0
              case (TTWO_US, SELL) => -delta / 10.0
  {
    MultiplierTable();
  }

  /** Without a current price the close price is used. */
  lemma ProfitDefaultsToClosePrice(dto: OrderDTO)
    ensures GetOrderProfit(dto, None) == GetOrderProfit(dto, Some(dto.closePrice))
  {
  }

  /** Switching BUY to SELL negates the profit at the same price. */
  lemma ProfitSideSymmetry(dto: OrderDTO, currentPrice: Option<real>)
    ensures GetOrderProfit(dto.(side := SELL), currentPrice) ==
            -GetOrderProfit(dto.(side := BUY), currentPrice)
  {
  }

  /** Profit is linear in the price: a price step moves it by step * multiplier / 100. */
  lemma ProfitPriceStep(dto: OrderDTO, p: real, q: real)
    ensures GetOrderProfit(dto, Some(q)) - GetOrderProfit(dto, Some(p)) ==
            ((q - p) * Multiplier(dto.symbol) * SideMultiplier(dto.side)) / 100.0
  {
  }

  /** The cases of the repository's own unit tests for the profit. */
  lemma ProfitTestCases()
    ensures var sample := OrderDTO(0, BTCUSD, BUY, 1.0, 0, 10000.0, 1.0, 11000.0);
            && GetOrderProfit(sample, Some(12000.0)) == 2000.0
            && GetOrderProfit(sample.(side := SELL), Some(12000.0)) == -2000.0
            && GetOrderProfit(sample.(symbol := ETHUSD), Some(12000.0)) == 20000.0
            && GetOrderProfit(sample.(symbol := TTWO_US), Some(12000.0)) == 200.0
            && GetOrderProfit(sample, None) == 1000.0
  {
    MultiplierTable();
  }
}
