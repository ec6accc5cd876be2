/**
 * The orders data source: the symbol-to-group map the orders table shows,
 * filled once from the order snapshot, revalued by the live price stream and
 * shrunk by the close commands. The watch list the price server keeps, the
 * price subscription and the notifications shown to the user are recorded
 * as state.
 */
module OrdersDataSource {
  import opened ApiModel
  import opened OrdersModel
  import opened OrderGroupFold
  import opened Snapshot
  import opened PriceTicks

  /** Where the one-shot snapshot request stands. */
  datatype Phase = Loading | Loaded | LoadFailed

  /** What the user is told. */
  datatype Notice =
    | OrdersClosed(ids: seq<int>)  // "closed order no. <ids>"
    | SnapshotUnavailable          // the order snapshot could not be fetched
    | PricesUnavailable            // the price stream failed; values may be stale

  /** `orders.map(({ id }) => id)`. */
  function Ids(ms: seq<Order>): (r: seq<int>)
    ensures |r| == |ms| && forall k | 0 <= k < |ms| :: r[k] == ms[k].id
  {
    if ms == [] then [] else Ids(ms[..|ms| - 1]) + [ms[|ms| - 1].id]
  }

  class OrdersDataSource {
    /** The groups by symbol. */
    var data: map<OrderSymbol, OrderGroup>
    /** The symbols the price server has been asked to watch and not yet asked to drop. */
    var watchList: set<OrderSymbol>
    var phase: Phase
    /** The price subscription is live: ticks reach the tick handler. */
    var streaming: bool
    /** `disconnect()` has run: the subscription bag is closed. */
    var disconnected: bool
    /** Every notification shown so far, oldest first. */
    var notices: seq<Notice>

    /**
     * Every group is live under its own key; before the snapshot arrives
     * there is nothing; while connected the watch list is exactly the set of
     * symbols with a group; prices flow only after the snapshot and before
     * the disconnect.
     */
    ghost predicate Valid()
      reads this
    {
      && Held()
      && (!disconnected ==> watchList == data.Keys)
      && (streaming ==> !disconnected && phase == Loaded)
    }

    /** The part of the invariant about the groups alone. */
    ghost predicate Held()
      reads this
    {
      && Live(data)
      && (phase != Loaded ==> data == map[] && watchList == {})
    }

    /** `new OrdersDataSource()`: empty data, snapshot requested. */
    constructor ()
      ensures Valid()
      ensures data == map[] && watchList == {} && phase == Loading
      ensures !streaming && !disconnected && notices == []
    {
      data := map[];
      watchList := {};
      phase := Loading;
      streaming := false;
      disconnected := false;
      notices := [];
    }

    /**
     * The snapshot arrives (first emission only): group it, publish it, put
     * its symbols on the watch list and start the price subscription, which
     * a closed subscription bag ends at once.
     */
    method OnOrders(os: seq<OrderDTO>)
      requires Valid() && ValidSnapshot(os)
      modifies this
      ensures Valid()
      ensures old(phase) != Loading ==> unchanged(this)
      ensures old(phase) == Loading ==>
                && GroupedAs(data, os)
                && phase == Loaded
                && watchList == data.Keys
                && streaming == !disconnected
                && disconnected == old(disconnected)
                && notices == old(notices)
    {
      if phase != Loading {
        return;
      }
      var groups := GroupOrders(os);
      GroupedAsLive(groups, os);
      data := groups;
      watchList := watchList + groups.Keys;
      phase := Loaded;
      streaming := !disconnected;
    }

    /** The snapshot request fails: the user is told and nothing is shown. */
    method OnOrdersError()
      requires Valid()
      modifies this
      ensures Valid()
      ensures old(phase) != Loading ==> unchanged(this)
      ensures old(phase) == Loading ==>
                && phase == LoadFailed
                && notices == old(notices) + [SnapshotUnavailable]
                && data == old(data) && watchList == old(watchList)
                && streaming == old(streaming) && disconnected == old(disconnected)
    {
      if phase != Loading {
        return;
      }
      phase := LoadFailed;
      notices := notices + [SnapshotUnavailable];
    }

    /**
     * A message of the price stream. Only `/quotes/subscribed` messages
     * count; their quotes are applied in order, each to the group of its
     * symbol if there is one.
     */
    method OnPrices(msg: PriceMessage)
      requires Valid()
      modifies this
      ensures Valid()
      ensures !old(streaming) || msg.p != SubscribedQuotes ==> unchanged(this)
      ensures old(streaming) && msg.p == SubscribedQuotes ==>
                && data == ApplyQuotes(old(data), msg.d)
                && watchList == old(watchList) && phase == old(phase)
                && streaming == old(streaming) && disconnected == old(disconnected)
                && notices == old(notices)
    {
      if !streaming || msg.p != SubscribedQuotes {
        return;
      }
      data := ReceiveQuotes(data, msg.d);
    }

    /** The price stream fails: the user is told and no more ticks arrive. */
    method OnPricesError()
      requires Valid()
      modifies this
      ensures Valid()
      ensures !old(streaming) ==> unchanged(this)
      ensures old(streaming) ==>
                && !streaming
                && notices == old(notices) + [PricesUnavailable]
                && data == old(data) && watchList == old(watchList)
                && phase == old(phase) && disconnected == old(disconnected)
    {
      if !streaming {
        return;
      }
      streaming := false;
      notices := notices + [PricesUnavailable];
    }

    /** `disconnect()`: close the subscription bag, ending the price stream. */
    method Disconnect()
      requires Held()
      modifies this
      ensures Valid()
      ensures disconnected && !streaming
      ensures data == old(data) && watchList == old(watchList)
      ensures phase == old(phase) && notices == old(notices)
    {
      disconnected := true;
      streaming := false;
    }

    /**
     * `closeOrderGroup`: drop the group's key, report its ids if it had
     * members, then disconnect when no group remains and otherwise take the
     * symbol off the watch list.
     */
    method CloseOrderGroup(group: OrderGroup)
      requires Valid()
      modifies this
      ensures Valid()
      ensures data == old(data) - {group.symbol}
      ensures notices == old(notices) + (if |group.orders| >= 1 then [OrdersClosed(Ids(group.orders))] else [])
      ensures data == map[] ==> disconnected && !streaming && watchList == old(watchList)
      ensures data != map[] ==>
                && watchList == old(watchList) - {group.symbol}
                && disconnected == old(disconnected) && streaming == old(streaming)
      ensures phase == old(phase)
    {
      LiveRemove(data, group.symbol);
      data := data - {group.symbol};
      if |group.orders| >= 1 {
        notices := notices + [OrdersClosed(Ids(group.orders))];
      }
      if data.Keys == {} {
        Disconnect();
        return;
      }
      watchList := watchList - {group.symbol};
    }

    /**
     * `closeOrder`: nothing when the order's symbol has no group. Otherwise
     * the order is folded out of its group and reported; a group left
     * without members is closed as a whole.
     */
    method CloseOrder(order: Order)
      requires Valid()
      requires order.symbol in data ==> order in data[order.symbol].orders
      modifies this
      ensures Valid()
      ensures order.symbol !in old(data) ==> unchanged(this)
      ensures order.symbol in old(data) ==>
                && notices == old(notices) + [OrdersClosed([order.id])]
                && phase == old(phase)
      ensures order.symbol in old(data) && |old(data[order.symbol].orders)| == 1 ==>
                && data == old(data) - {order.symbol}
                && (data == map[] ==> disconnected && !streaming && watchList == old(watchList))
                && (data != map[] ==> watchList == old(watchList) - {order.symbol}
                                      && disconnected == old(disconnected) && streaming == old(streaming))
      ensures order.symbol in old(data) && |old(data[order.symbol].orders)| > 1 ==>
                && data == FoldOut(old(data), order)
                && watchList == old(watchList) && disconnected == old(disconnected)
                && streaming == old(streaming)
    {
      if order.symbol !in data {
        return;
      }
      var group := data[order.symbol];
      if |group.orders| == 1 {
        notices := notices + [OrdersClosed([order.id])];
        CloseOrderGroup(group.(orders := []));
        return;
      }
      assert phase == Loaded;
      data := FoldOut(data, order);
      notices := notices + [OrdersClosed([order.id])];
    }
  }

  /**
   * `after` is `before` with member `order` taken out: the other members in
   * their order, size and swap reduced by the order's, and the weighted
   * open-price and profit totals reduced by the order's contribution.
   */
  predicate FoldedOut(before: OrderGroup, after: OrderGroup, order: Order) {
    && after.symbol == before.symbol
    && (forall k | 0 <= k < |before.orders| && before.orders[k] == order ::
          after.orders == before.orders[..k] + before.orders[k + 1..])
    && after.size == before.size - order.size
    && after.swap == before.swap - order.swap
    && after.openPrice * after.size == before.openPrice * before.size - order.size * order.openPrice
    && after.profit * after.size == before.profit * before.size - order.size * order.profit
  }

  /** Dropping a key keeps the map live. */
  lemma LiveRemove(groups: map<OrderSymbol, OrderGroup>, s: OrderSymbol)
    requires Live(groups)
    ensures Live(groups - {s}) && (groups - {s}).Keys == groups.Keys - {s}
  {
  }

  /**
   * The groups after `order` is closed while its group keeps other members:
   * every group is still live under its own key, the other groups are
   * untouched and the order's group has it folded out.
   */
  function FoldOut(groups: map<OrderSymbol, OrderGroup>, order: Order): (r: map<OrderSymbol, OrderGroup>)
    requires Live(groups) && order.symbol in groups
    requires order in groups[order.symbol].orders && |groups[order.symbol].orders| > 1
    ensures Live(r) && r.Keys == groups.Keys
    ensures forall s | s in groups && s != order.symbol :: r[s] == groups[s]
    ensures r[order.symbol].size == groups[order.symbol].size - order.size
    ensures r[order.symbol].swap == groups[order.symbol].swap - order.swap
  {
    var g := groups[order.symbol];
    FoldOutOfLive(groups, order);
    var folded := RecalculateOrderGroup(g, order, true);
    assert folded.size == g.size - order.size && folded.swap == g.swap - order.swap by {
      assert Aggregate(folded, Size) == Aggregate(g, Size) - order.size;
      assert Aggregate(folded, Swap) == Aggregate(g, Swap) - order.swap;
    }
    groups[order.symbol := folded]
  }

  /** Closing `order` folds it out of its group. */
  lemma FoldOutOfGroup(groups: map<OrderSymbol, OrderGroup>, order: Order)
    requires Live(groups) && order.symbol in groups
    requires order in groups[order.symbol].orders && |groups[order.symbol].orders| > 1
    ensures FoldedOut(groups[order.symbol], FoldOut(groups, order)[order.symbol], order)
  {
    FoldOutOfLive(groups, order);
  }

  /** Folding a member out of a live map's group that has other members keeps the map live. */
  lemma FoldOutOfLive(groups: map<OrderSymbol, OrderGroup>, order: Order)
    requires Live(groups) && order.symbol in groups
    requires order in groups[order.symbol].orders && |groups[order.symbol].orders| > 1
    ensures var g := groups[order.symbol];
            && g.size - order.size > 0.0
            && Live(groups[order.symbol := RecalculateOrderGroup(g, order, true)])
            && FoldedOut(g, RecalculateOrderGroup(g, order, true), order)
  {
    var g := groups[order.symbol];
    var r := GroupFoldedOut(g, order);
    LiveUpdate(groups, order.symbol, r);
  }

  /** Folding out a member of a consistent group with other members gives a live, folded-out group. */
  lemma GroupFoldedOut(g: OrderGroup, order: Order) returns (r: OrderGroup)
    requires Consistent(g) && order in g.orders && |g.orders| > 1
    ensures g.size - order.size > 0.0
    ensures r == RecalculateOrderGroup(g, order, true)
    ensures LiveGroup(r, g.symbol) && FoldedOut(g, r, order)
  {
    FoldOutKeepsConsistent(g, order);
    r := RecalculateOrderGroup(g, order, true);
    var k :| 0 <= k < |g.orders| && g.orders[k] == order;
    assert |r.orders| == |g.orders| - 1;
    RecalculateFoldsOut(g, order);
  }

  /** The fold-out branch of recalculateOrderGroup, once its members are known, is a fold-out. */
  lemma RecalculateFoldsOut(g: OrderGroup, order: Order)
    requires g.size - order.size != 0.0
    requires forall k | 0 <= k < |g.orders| && g.orders[k] == order ::
               RecalculateOrderGroup(g, order, true).orders == g.orders[..k] + g.orders[k + 1..]
    ensures FoldedOut(g, RecalculateOrderGroup(g, order, true), order)
  {
  }

  /** A grouped snapshot satisfies the engine's map invariant. */
  lemma GroupedAsLive(acc: map<OrderSymbol, OrderGroup>, os: seq<OrderDTO>)
    requires GroupedAs(acc, os)
    ensures Live(acc)
  {
    forall s | s in acc ensures LiveGroup(acc[s], s) {
      ConsistentMeans(acc[s]);
    }
  }
}
