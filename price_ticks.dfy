/**
 * Applying a live price message to the groups (the tick handler of
 * `_startUpdatingProfitValues`): every member of a quoted symbol's group is
 * revalued at the quoted price and the group profit is recomputed from the
 * members as their size-weighted mean.
 */
module PriceTicks {
  import opened ApiModel
  import opened OrdersModel
  import opened OrderProfit
  import opened OrderGroupFold

  /** One quote of the price stream: symbol `s` and bid price `b`. */
  datatype Quote = Quote(s: OrderSymbol, b: real)

  /** One message of the price stream: its path `p` and its quotes `d`. */
  datatype PriceMessage = PriceMessage(p: string, d: seq<Quote>)

  /** The only path whose messages carry prices to apply. */
  const SubscribedQuotes: string := "/quotes/subscribed"

  /** A group as the engine keeps it under key `s`: of that symbol, non-empty, positive-sized, consistent. */
  predicate LiveGroup(g: OrderGroup, s: OrderSymbol) {
    g.symbol == s && g.orders != [] && g.size > 0.0 && Consistent(g)
  }

  /** The engine's map invariant: every group is live under its own key. */
  predicate Live(groups: map<OrderSymbol, OrderGroup>) {
    forall s | s in groups :: LiveGroup(groups[s], s)
  }

  /** `order.profit = getOrderProfit(order, price)`. */
  function Revalue(o: Order, price: real): (r: Order)
    ensures r.Dto() == o.Dto()
    ensures r.profit == GetOrderProfit(o.Dto(), Some(price))
  {
    o.(profit := GetOrderProfit(o.Dto(), Some(price)))
  }

  /** Every member revalued at `price`, in member order. */
  function RevalueAll(ms: seq<Order>, price: real): (r: seq<Order>)
    ensures |r| == |ms|
    ensures forall k | 0 <= k < |ms| :: r[k] == Revalue(ms[k], price)
  {
    if ms == [] then []
    else RevalueAll(ms[..|ms| - 1], price) + [Revalue(ms[|ms| - 1], price)]
  }

  /** Revaluing changes no member's size, swap or open price, so only the profit total moves. */
  lemma {:induction false} RevalueKeepsTotal(ms: seq<Order>, price: real, m: Measure)
    requires m != SizedProfit
    ensures Total(RevalueAll(ms, price), m) == Total(ms, m)
  {
    if ms != [] {
      var prefix := ms[..|ms| - 1];
      var r := RevalueAll(ms, price);
      assert r == RevalueAll(prefix, price) + [Revalue(ms[|ms| - 1], price)];
      RevalueKeepsTotal(prefix, price, m);
      assert Weight(Revalue(ms[|ms| - 1], price), m) == Weight(ms[|ms| - 1], m) by {
        RevalueKeepsWeight(ms[|ms| - 1], price, m);
      }
      TotalConcat(RevalueAll(prefix, price), [Revalue(ms[|ms| - 1], price)], m);
      TotalConcat(prefix, [ms[|ms| - 1]], m);
      assert ms == prefix + [ms[|ms| - 1]];
    }
  }

  lemma RevalueKeepsWeight(o: Order, price: real, m: Measure)
    requires m != SizedProfit
    ensures Weight(Revalue(o, price), m) == Weight(o, m)
  {
  }

  /** Every member of `g` carries its profit at `price`. */
  predicate ValuedAt(g: OrderGroup, price: real) {
    forall k | 0 <= k < |g.orders| :: g.orders[k].profit == GetOrderProfit(g.orders[k].Dto(), Some(price))
  }

  /**
   * The group after a quote at `price`: members revalued, group profit the
   * members' size-weighted profit over the group size; size, swap and open
   * price untouched.
   */
  function RevalueGroup(g: OrderGroup, price: real): (r: OrderGroup)
    requires g.size != 0.0
    ensures r.symbol == g.symbol && r.size == g.size
    ensures r.openPrice == g.openPrice && r.swap == g.swap
    ensures |r.orders| == |g.orders|
    ensures forall k | 0 <= k < |g.orders| :: r.orders[k].Dto() == g.orders[k].Dto()
    ensures ValuedAt(r, price)
    ensures r.profit == Total(r.orders, SizedProfit) / r.size
  {
    var orders := RevalueAll(g.orders, price);
    g.(orders := orders, profit := Total(orders, SizedProfit) / g.size)
  }

  /** A live group stays live after a quote, and its profit is the weighted mean of the new member profits. */
  lemma RevalueKeepsLive(g: OrderGroup, s: OrderSymbol, price: real)
    requires LiveGroup(g, s)
    ensures LiveGroup(RevalueGroup(g, price), s)
    ensures var r := RevalueGroup(g, price);
            r.profit == Total(r.orders, SizedProfit) / Total(r.orders, Size)
  {
    var r := RevalueGroup(g, price);
    assert r.orders == RevalueAll(g.orders, price);
    forall m: Measure ensures Aggregate(r, m) == Total(r.orders, m) {
      if m != SizedProfit {
        RevalueKeepsTotal(g.orders, price, m);
      }
      RevaluedAggregate(g, r, m);
    }
    RevalueKeepsMembers(g, price);
    ConsistentMeans(r);
  }

  /**
   * A group with the same size, swap and open price as `g`, whose member
   * totals other than the profit are those of `g` and whose profit is its
   * members' size-weighted profit over its size, agrees with its members in
   * every aggregate that `g` agrees with.
   */
  lemma RevaluedAggregate(g: OrderGroup, r: OrderGroup, m: Measure)
    requires r.size == g.size != 0.0 && r.openPrice == g.openPrice && r.swap == g.swap
    requires r.profit == Total(r.orders, SizedProfit) / r.size
    requires m != SizedProfit ==> Total(r.orders, m) == Total(g.orders, m)
    requires Aggregate(g, m) == Total(g.orders, m)
    ensures Aggregate(r, m) == Total(r.orders, m)
  {
    if m == SizedProfit {
      ScaledMean(Total(r.orders, SizedProfit), r.size);
    }
  }

  /** Revaluing keeps the members positive-sized, of the group's symbol and with distinct ids. */
  lemma RevalueKeepsMembers(g: OrderGroup, price: real)
    requires g.size != 0.0 && Consistent(g)
    ensures MembersOf(RevalueGroup(g, price).orders, g.symbol)
  {
    var r := RevalueGroup(g, price);
    assert forall k | 0 <= k < |r.orders| :: r.orders[k].Dto() == g.orders[k].Dto();
  }

  /**
   * The tick handler's per-group step: assign each member's profit at
   * `price` while summing size times profit, then divide by the group size.
   */
  method RecomputeGroupProfit(g: OrderGroup, price: real) returns (r: OrderGroup)
    requires g.size != 0.0
    ensures r == RevalueGroup(g, price)
  {
    var orders := g.orders;
    var nominator := 0.0;
    var j := 0;
    while j < |orders|
      invariant 0 <= j <= |orders| == |g.orders|
      invariant forall k | 0 <= k < j :: orders[k] == Revalue(g.orders[k], price)
      invariant forall k | j <= k < |orders| :: orders[k] == g.orders[k]
      invariant nominator == Total(orders[..j], SizedProfit)
    {
      orders := orders[j := Revalue(orders[j], price)];
      assert orders[..j + 1][..j] == orders[..j];
      nominator := nominator + orders[j].size * orders[j].profit;
      j := j + 1;
    }
    assert orders[..j] == orders;
    assert orders == RevalueAll(g.orders, price);
    r := g.(orders := orders, profit := nominator / g.size);
  }

  /** One quote: the group of its symbol, if any, is revalued at its price. */
  function ApplyQuote(groups: map<OrderSymbol, OrderGroup>, q: Quote): (r: map<OrderSymbol, OrderGroup>)
    requires Live(groups)
    ensures Live(r) && r.Keys == groups.Keys
    ensures q.s !in groups ==> r == groups
    ensures forall s | s in groups && s != q.s :: r[s] == groups[s]
    ensures q.s in groups ==> r[q.s] == RevalueGroup(groups[q.s], q.b) && Requoted(groups[q.s], r[q.s])
  {
    if q.s in groups then
      var g := groups[q.s];
      RevalueKeepsLive(g, q.s, q.b);
      LiveUpdate(groups, q.s, RevalueGroup(g, q.b));
      groups[q.s := RevalueGroup(g, q.b)]
    else groups
  }

  /** The tick handler's step for one quote: recompute the quoted symbol's group, if there is one. */
  method ReceiveQuote(groups: map<OrderSymbol, OrderGroup>, q: Quote) returns (r: map<OrderSymbol, OrderGroup>)
    requires Live(groups)
    ensures r == ApplyQuote(groups, q)
  {
    r := groups;
    if q.s in groups {
      var revalued := RecomputeGroupProfit(groups[q.s], q.b);
      r := groups[q.s := revalued];
    }
  }

  /** The tick handler's loop over the quotes of one message. */
  method ReceiveQuotes(groups: map<OrderSymbol, OrderGroup>, qs: seq<Quote>) returns (r: map<OrderSymbol, OrderGroup>)
    requires Live(groups)
    ensures r == ApplyQuotes(groups, qs)
  {
    r := groups;
    var i := 0;
    while i < |qs|
      invariant 0 <= i <= |qs|
      invariant r == ApplyQuotes(groups, qs[..i])
    {
      assert qs[..i + 1][..i] == qs[..i];
      r := ReceiveQuote(r, qs[i]);
      i := i + 1;
    }
    assert qs[..i] == qs;
  }

  /** Storing a live group under its own key keeps the map live. */
  lemma LiveUpdate(groups: map<OrderSymbol, OrderGroup>, s: OrderSymbol, g: OrderGroup)
    requires Live(groups) && LiveGroup(g, s)
    ensures Live(groups[s := g])
  {
  }

  /** The quotes of a message, applied in order. */
  function ApplyQuotes(groups: map<OrderSymbol, OrderGroup>, qs: seq<Quote>): (r: map<OrderSymbol, OrderGroup>)
    requires Live(groups)
    ensures Live(r) && r.Keys == groups.Keys
    ensures forall s | s in groups :: Requoted(groups[s], r[s])
  {
    if qs == [] then groups
    else
      var before := ApplyQuotes(groups, qs[..|qs| - 1]);
      var r := ApplyQuote(before, qs[|qs| - 1]);
      forall s | s in groups ensures Requoted(groups[s], r[s]) {
        RequotedTransitive(groups[s], before[s], r[s]);
      }
      r
  }

  /**
   * `b` is `a` with only profits changed: same symbol, size, swap and open
   * price, and the same members in the same order.
   */
  predicate Requoted(a: OrderGroup, b: OrderGroup) {
    && b.symbol == a.symbol && b.size == a.size
    && b.openPrice == a.openPrice && b.swap == a.swap
    && |b.orders| == |a.orders|
    && forall k | 0 <= k < |a.orders| :: b.orders[k].Dto() == a.orders[k].Dto()
  }

  lemma RequotedTransitive(a: OrderGroup, b: OrderGroup, c: OrderGroup)
    requires Requoted(a, b) && (c == b || Requoted(b, c))
    ensures Requoted(a, c)
  {
  }

  /** A symbol no quote mentions keeps its group exactly. */
  lemma {:induction false} UnquotedGroupUnchanged(groups: map<OrderSymbol, OrderGroup>, qs: seq<Quote>, s: OrderSymbol)
    requires Live(groups) && s in groups
    requires forall i | 0 <= i < |qs| :: qs[i].s != s
    ensures ApplyQuotes(groups, qs)[s] == groups[s]
  {
    if qs != [] {
      UnquotedGroupUnchanged(groups, qs[..|qs| - 1], s);
    }
  }

  /**
   * After a message, a symbol's group holds the values of the LAST quote
   * for it: every member's profit is its profit at that price.
   */
  lemma {:induction false} LastQuoteWins(groups: map<OrderSymbol, OrderGroup>, qs: seq<Quote>, i: nat)
    requires Live(groups) && i < |qs| && qs[i].s in groups
    requires forall j | i < j < |qs| :: qs[j].s != qs[i].s
    ensures ValuedAt(ApplyQuotes(groups, qs)[qs[i].s], qs[i].b)
  {
    var s := qs[i].s;
    var before := ApplyQuotes(groups, qs[..|qs| - 1]);
    assert ApplyQuotes(groups, qs) == ApplyQuote(before, qs[|qs| - 1]);
    if i == |qs| - 1 {
      assert ApplyQuotes(groups, qs)[s] == RevalueGroup(before[s], qs[i].b);
    } else {
      var shorter := qs[..|qs| - 1];
      assert shorter[i] == qs[i];
      LastQuoteWins(groups, shorter, i);
    }
  }
}
