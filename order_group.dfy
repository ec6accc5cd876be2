/**
 * Folding one order into, or out of, a group's running aggregates
 * (recalculateOrderGroup), and the invariant those aggregates keep: size and
 * swap are sums over the members, open price and profit are size-weighted
 * means of the members' values.
 */
module OrderGroupFold {
  import opened ApiModel
  import opened OrdersModel

  /** The per-member quantities a group aggregates. */
  datatype Measure = Size | Swap | SizedOpenPrice | SizedProfit

  function Weight(o: Order, m: Measure): real {
    match m
    case Size => o.size
    case Swap => o.swap
    case SizedOpenPrice => o.size * o.openPrice
    case SizedProfit => o.size * o.profit
  }

  /** The sum of a measure over the members, added in list order. */
  function Total(ms: seq<Order>, m: Measure): real {
    if ms == [] then 0.0 else Total(ms[..|ms| - 1], m) + Weight(ms[|ms| - 1], m)
  }

  lemma {:induction false} TotalConcat(a: seq<Order>, b: seq<Order>, m: Measure)
    ensures Total(a + b, m) == Total(a, m) + Total(b, m)
  {
    if b == [] {
      assert a + b == a;
    } else {
      assert (a + b)[..|a + b| - 1] == a + b[..|b| - 1];
      TotalConcat(a, b[..|b| - 1], m);
    }
  }

  /** Taking out the member at `k` takes its weight out of every total. */
  lemma TotalRemoveAt(ms: seq<Order>, k: nat, m: Measure)
    requires k < |ms|
    ensures Total(ms, m) == Total(ms[..k] + ms[k + 1..], m) + Weight(ms[k], m)
  {
    assert ms == ms[..k] + [ms[k]] + ms[k + 1..];
    TotalConcat(ms[..k] + [ms[k]], ms[k + 1..], m);
    TotalConcat(ms[..k], [ms[k]], m);
    TotalConcat(ms[..k], ms[k + 1..], m);
    assert [ms[k]][..0] == [];
  }

  predicate PositiveSizes(ms: seq<Order>) {
    forall i | 0 <= i < |ms| :: ms[i].size > 0.0
  }

  predicate DistinctIds(ms: seq<Order>) {
    forall i, j | 0 <= i < j < |ms| :: ms[i].id != ms[j].id
  }

  /** With positive sizes the total size is positive exactly when there are members. */
  lemma {:induction false} TotalSizePositive(ms: seq<Order>)
    requires PositiveSizes(ms)
    ensures Total(ms, Size) >= 0.0
    ensures ms != [] <==> Total(ms, Size) > 0.0
  {
    if ms != [] {
      TotalSizePositive(ms[..|ms| - 1]);
    }
  }

  /** The group's stored aggregate for a measure: a sum, or an average times the size. */
  function Aggregate(g: OrderGroup, m: Measure): real {
    match m
    case Size => g.size
    case Swap => g.swap
    case SizedOpenPrice => g.openPrice * g.size
    case SizedProfit => g.profit * g.size
  }

  /**
   * The group invariant: members are positive-sized orders of the group's
   * symbol with distinct ids; size and swap are the members' sums; open
   * price and profit times size are the members' size-weighted sums.
   */
  predicate Consistent(g: OrderGroup) {
    && MembersOf(g.orders, g.symbol)
    && forall m: Measure :: Aggregate(g, m) == Total(g.orders, m)
  }

  /** Positive-sized orders of `symbol` with distinct ids. */
  predicate MembersOf(ms: seq<Order>, symbol: OrderSymbol) {
    && PositiveSizes(ms)
    && (forall i | 0 <= i < |ms| :: ms[i].symbol == symbol)
    && DistinctIds(ms)
  }

  /** A consistent group with members has positive size and its averages are the weighted means. */
  lemma ConsistentMeans(g: OrderGroup)
    requires Consistent(g) && g.orders != []
    ensures g.size > 0.0
    ensures g.openPrice == Total(g.orders, SizedOpenPrice) / Total(g.orders, Size)
    ensures g.profit == Total(g.orders, SizedProfit) / Total(g.orders, Size)
  {
    TotalSizePositive(g.orders);
    assert Aggregate(g, Size) == Total(g.orders, Size);
    assert g.openPrice == Aggregate(g, SizedOpenPrice) / g.size by {
      MeanOfScaled(g.openPrice, g.size);
    }
    assert g.profit == Aggregate(g, SizedProfit) / g.size by {
      MeanOfScaled(g.profit, g.size);
    }
  }

  lemma MeanOfScaled(mean: real, size: real)
    requires size != 0.0
    ensures mean == (mean * size) / size
  {
  }

  lemma ScaledMean(total: real, size: real)
    requires size != 0.0
    ensures (total / size) * size == total
  {
  }

  /** The zero group `_setData` creates the first time a symbol is seen. */
  function EmptyGroup(symbol: OrderSymbol): (g: OrderGroup)
    ensures Consistent(g) && g.symbol == symbol && g.orders == []
  {
    OrderGroup(symbol, 0.0, 0.0, 0.0, 0.0, [])
  }

  /** `orders.findIndex(({ id }) => id === wanted)`: the first index with that id, or -1. */
  function FindIndex(ms: seq<Order>, wanted: int): (r: int)
    ensures -1 <= r < |ms|
    ensures r == -1 <==> forall i | 0 <= i < |ms| :: ms[i].id != wanted
    ensures r >= 0 ==> ms[r].id == wanted && forall i | 0 <= i < r :: ms[i].id != wanted
  {
    if ms == [] then -1
    else if ms[0].id == wanted then 0
    else
      var k := FindIndex(ms[1..], wanted);
      if k == -1 then -1 else k + 1
  }

  /**
   * `orders.splice(start, 1)`: a negative start counts from the end and is
   * clamped at 0; a start past the end removes nothing.
   */
  function Splice(ms: seq<Order>, start: int): (r: seq<Order>)
    ensures 0 <= start < |ms| ==> r == ms[..start] + ms[start + 1..]
    ensures start == -1 && ms != [] ==> r == ms[..|ms| - 1]
    ensures start >= |ms| ==> r == ms
  {
    var k := if start < 0 then (if |ms| + start < 0 then 0 else |ms| + start)
             else (if start > |ms| then |ms| else start);
    if k < |ms| then ms[..k] + ms[k + 1..] else ms
  }

  /** The order's contribution, negated when it is being removed. */
  function Signed(x: real, onRemoveOrder: bool): real {
    if onRemoveOrder then -x else x
  }

  /**
   * recalculateOrderGroup: push `order` onto the members (or splice out the
   * first member with its id), then move every aggregate (size, swap, and
   * open price and profit times size) by the order's signed contribution,
   * which makes open price and profit the size-weighted means.
   */
  function RecalculateOrderGroup(group: OrderGroup, order: Order, onRemoveOrder: bool): (r: OrderGroup)
    requires group.size + Signed(order.size, onRemoveOrder) != 0.0
    ensures r.symbol == group.symbol
    ensures !onRemoveOrder ==> r.orders == group.orders + [order]
    ensures onRemoveOrder ==> r.orders == Splice(group.orders, FindIndex(group.orders, order.id))
    ensures forall m: Measure :: Aggregate(r, m) == Aggregate(group, m) + Signed(Weight(order, m), onRemoveOrder)
  {
    var size := Signed(order.size, onRemoveOrder);
    var swap := Signed(order.swap, onRemoveOrder);
    var orders := if onRemoveOrder then Splice(group.orders, FindIndex(group.orders, order.id))
                  else group.orders + [order];
    var openTotal := group.openPrice * group.size + order.openPrice * size;
    var profitTotal := group.profit * group.size + order.profit * size;
    var r := OrderGroup(
      group.symbol,
      group.size + size,
      openTotal / (group.size + size),
      group.swap + swap,
      profitTotal / (group.size + size),
      orders);
    ScaledMean(openTotal, group.size + size);
    ScaledMean(profitTotal, group.size + size);
    MovedAggregates(group, order, onRemoveOrder, r);
    r
  }

  /** Aggregates whose totals moved by the order's signed contribution. */
  lemma MovedAggregates(group: OrderGroup, order: Order, onRemoveOrder: bool, r: OrderGroup)
    requires r.size == group.size + Signed(order.size, onRemoveOrder)
    requires r.swap == group.swap + Signed(order.swap, onRemoveOrder)
    requires r.openPrice * r.size == group.openPrice * group.size + order.openPrice * Signed(order.size, onRemoveOrder)
    requires r.profit * r.size == group.profit * group.size + order.profit * Signed(order.size, onRemoveOrder)
    ensures forall m: Measure :: Aggregate(r, m) == Aggregate(group, m) + Signed(Weight(order, m), onRemoveOrder)
  {
    SignedProduct(order.size, order.openPrice, onRemoveOrder);
    SignedProduct(order.size, order.profit, onRemoveOrder);
  }

  lemma SignedProduct(size: real, x: real, onRemoveOrder: bool)
    ensures x * Signed(size, onRemoveOrder) == Signed(size * x, onRemoveOrder)
  {
  }

  /** Appending a fresh, positive-sized order of the symbol keeps the members well formed. */
  lemma AppendKeepsMembers(ms: seq<Order>, o: Order, symbol: OrderSymbol)
    requires MembersOf(ms, symbol)
    requires o.symbol == symbol && o.size > 0.0
    requires forall i | 0 <= i < |ms| :: ms[i].id != o.id
    ensures MembersOf(ms + [o], symbol)
  {
    var ext := ms + [o];
    assert forall i | 0 <= i < |ms| :: ext[i] == ms[i];
  }

  /** An aggregate that moved by the appended order's weight still agrees with the total. */
  lemma AppendKeepsTotal(g: OrderGroup, o: Order, r: OrderGroup, m: Measure)
    requires r.orders == g.orders + [o]
    requires Aggregate(r, m) == Aggregate(g, m) + Weight(o, m)
    requires Aggregate(g, m) == Total(g.orders, m)
    ensures Aggregate(r, m) == Total(r.orders, m)
  {
    assert r.orders[..|r.orders| - 1] == g.orders;
  }

  /** Folding in a fresh, positive-sized order of the group's symbol keeps the invariant. */
  lemma FoldInKeepsConsistent(g: OrderGroup, o: Order)
    requires Consistent(g)
    requires o.symbol == g.symbol && o.size > 0.0
    requires forall i | 0 <= i < |g.orders| :: g.orders[i].id != o.id
    ensures g.size + o.size > 0.0
    ensures var r := RecalculateOrderGroup(g, o, false);
            Consistent(r) && r.orders == g.orders + [o]
  {
    TotalSizePositive(g.orders);
    assert Aggregate(g, Size) == Total(g.orders, Size);
    var r := RecalculateOrderGroup(g, o, false);
    AppendKeepsMembers(g.orders, o, g.symbol);
    forall m: Measure ensures Aggregate(r, m) == Total(r.orders, m) {
      AppendKeepsTotal(g, o, r, m);
    }
  }

  /** A member of a group with distinct ids is the first member carrying its id. */
  lemma FindMember(ms: seq<Order>, o: Order) returns (k: nat)
    requires DistinctIds(ms) && o in ms
    ensures k < |ms| && ms[k] == o && FindIndex(ms, o.id) == k
    ensures forall j | 0 <= j < |ms| && ms[j] == o :: j == k
  {
    var j :| 0 <= j < |ms| && ms[j] == o;
    k := FindIndex(ms, o.id);
    assert k == j;
  }

  /** Taking one member out keeps the others positive-sized, of the symbol and distinct. */
  lemma RemoveAtKeepsMembers(ms: seq<Order>, k: nat, symbol: OrderSymbol)
    requires MembersOf(ms, symbol) && k < |ms|
    ensures |ms[..k] + ms[k + 1..]| == |ms| - 1
    ensures MembersOf(ms[..k] + ms[k + 1..], symbol)
  {
    var rest := ms[..k] + ms[k + 1..];
    assert forall i | 0 <= i < |rest| :: rest[i] == ms[if i < k then i else i + 1];
    forall i, j | 0 <= i < j < |rest| ensures rest[i].id != rest[j].id {
      assert rest[i] == ms[if i < k then i else i + 1];
      assert rest[j] == ms[if j < k then j else j + 1];
    }
  }

  /** An aggregate that moved by the removed member's weight still agrees with the total. */
  lemma RemoveAtKeepsTotal(g: OrderGroup, k: nat, r: OrderGroup, m: Measure)
    requires k < |g.orders| && r.orders == g.orders[..k] + g.orders[k + 1..]
    requires Aggregate(r, m) == Aggregate(g, m) - Weight(g.orders[k], m)
    requires Aggregate(g, m) == Total(g.orders, m)
    ensures Aggregate(r, m) == Total(r.orders, m)
  {
    TotalRemoveAt(g.orders, k, m);
  }

  /**
   * Folding out a member of a consistent group that has other members keeps
   * the invariant, and the members are the old ones without that order, in
   * their old order.
   */
  lemma FoldOutKeepsConsistent(g: OrderGroup, o: Order)
    requires Consistent(g) && o in g.orders && |g.orders| > 1
    ensures g.size - o.size > 0.0
    ensures var r := RecalculateOrderGroup(g, o, true);
            && Consistent(r)
            && forall k | 0 <= k < |g.orders| && g.orders[k] == o ::
                 r.orders == g.orders[..k] + g.orders[k + 1..]
  {
    var k := FindMember(g.orders, o);
    var rest := g.orders[..k] + g.orders[k + 1..];
    RemoveAtKeepsMembers(g.orders, k, g.symbol);
    assert g.size - o.size > 0.0 by {
      assert Aggregate(g, Size) == Total(g.orders, Size);
      TotalRemoveAt(g.orders, k, Size);
      TotalSizePositive(rest);
    }
    var r := RecalculateOrderGroup(g, o, true);
    assert r.orders == rest;
    forall m: Measure ensures Aggregate(r, m) == Total(r.orders, m) {
      RemoveAtKeepsTotal(g, k, r, m);
    }
  }

  /** Two aggregates that agree on every measure describe the same numbers. */
  lemma SameAggregates(a: OrderGroup, b: OrderGroup)
    requires a.size != 0.0
    requires forall m: Measure :: Aggregate(a, m) == Aggregate(b, m)
    ensures a.size == b.size && a.swap == b.swap
    ensures a.openPrice == b.openPrice && a.profit == b.profit
  {
    assert Aggregate(a, Size) == Aggregate(b, Size);
    assert Aggregate(a, Swap) == Aggregate(b, Swap);
    assert a.openPrice * a.size == b.openPrice * a.size by {
      assert Aggregate(a, SizedOpenPrice) == Aggregate(b, SizedOpenPrice);
    }
    assert a.profit * a.size == b.profit * a.size by {
      assert Aggregate(a, SizedProfit) == Aggregate(b, SizedProfit);
    }
    MeanOfScaled(a.openPrice, a.size);
    MeanOfScaled(b.openPrice, a.size);
    MeanOfScaled(a.profit, a.size);
    MeanOfScaled(b.profit, a.size);
  }

  /**
   * Inverse law: folding in an order whose id is not yet a member and then
   * folding it out again restores the group exactly, provided neither fold
   * leaves a zero size.
   */
  lemma FoldInverse(g: OrderGroup, o: Order)
    requires g.size != 0.0 && g.size + o.size != 0.0
    requires forall i | 0 <= i < |g.orders| :: g.orders[i].id != o.id
    ensures RecalculateOrderGroup(RecalculateOrderGroup(g, o, false), o, true) == g
  {
    var added := RecalculateOrderGroup(g, o, false);
    var ms := g.orders + [o];
    assert added.orders == ms;
    assert ms[|g.orders|] == o;
    assert forall i | 0 <= i < |g.orders| :: ms[i] == g.orders[i];
    assert FindIndex(ms, o.id) == |g.orders|;
    assert ms[..|g.orders|] == g.orders;
    var back := RecalculateOrderGroup(added, o, true);
    assert back.orders == g.orders;
    forall m: Measure ensures Aggregate(g, m) == Aggregate(back, m) {
      assert Aggregate(added, m) == Aggregate(g, m) + Weight(o, m);
    }
    SameAggregates(g, back);
  }

  /**
   * As written, closing an order whose id is not a member still changes the
   * member list: findIndex yields -1 and splice(-1, 1) drops the last member.
   */
  lemma FoldOutMissingIdDropsLast(g: OrderGroup, o: Order)
    requires g.orders != [] && g.size - o.size != 0.0
    requires forall i | 0 <= i < |g.orders| :: g.orders[i].id != o.id
    ensures RecalculateOrderGroup(g, o, true).orders == g.orders[..|g.orders| - 1]
  {
  }

  /**
   * The repository's own fold test uses id 0 for both orders: the numbers
   * come back, but removal splices out the first order, not the second.
   */
  lemma FoldTestCase()
    ensures var first := Order(0, BTCUSD, BUY, 1.0, 0, 10000.0, 1.0, 11000.0, 100.0);
            var second := Order(0, BTCUSD, BUY, 2.0, 0, 10000.0, 2.0, 11000.0, 200.0);
            var g := OrderGroup(BTCUSD, 1.0, 10000.0, 1.0, 100.0, [first]);
            var added := RecalculateOrderGroup(g, second, false);
            var back := RecalculateOrderGroup(added, second, true);
            && added.size == 3.0 && added.swap == 3.0
            && added.openPrice == 10000.0 && added.profit == 500.0 / 3.0
            && back.size == 1.0 && back.swap == 1.0
            && back.openPrice == 10000.0 && back.profit == 100.0
            && back.orders == [second]
  {
    var first := Order(0, BTCUSD, BUY, 1.0, 0, 10000.0, 1.0, 11000.0, 100.0);
    var second := Order(0, BTCUSD, BUY, 2.0, 0, 10000.0, 2.0, 11000.0, 200.0);
    assert FindIndex([first, second], 0) == 0;
    assert [first, second][1..] == [second];
  }
}
