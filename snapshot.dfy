/**
 * Grouping the initial order snapshot by symbol (the `reduce` in
 * `_setData`): each order is valued at its close price and folded into the
 * group of its symbol, which is created empty the first time the symbol is
 * seen.
 */
module Snapshot {
  import opened ApiModel
  import opened OrdersModel
  import opened OrderProfit
  import opened OrderGroupFold

  /** An API order with the profit it has before any price tick. */
  function InitialOrder(dto: OrderDTO): (o: Order)
    ensures o.Dto() == dto && o.profit == GetOrderProfit(dto, None)
  {
    WithProfit(dto, GetOrderProfit(dto, None))
  }

  /** The valued orders of symbol `s`, in input order. */
  function Members(os: seq<OrderDTO>, s: OrderSymbol): seq<Order> {
    if os == [] then []
    else
      var last := os[|os| - 1];
      Members(os[..|os| - 1], s) + (if last.symbol == s then [InitialOrder(last)] else [])
  }

  /** The symbols that occur in the snapshot. */
  function Symbols(os: seq<OrderDTO>): (r: set<OrderSymbol>)
    ensures forall i | 0 <= i < |os| :: os[i].symbol in r
    ensures forall s | s in r :: exists i | 0 <= i < |os| :: os[i].symbol == s
  {
    if os == [] then {}
    else
      var prefix := os[..|os| - 1];
      var r := Symbols(prefix) + {os[|os| - 1].symbol};
      assert forall i | 0 <= i < |prefix| :: prefix[i] == os[i];
      r
  }

  /** What the data model promises of a snapshot: positive sizes and unique ids. */
  predicate ValidSnapshot(os: seq<OrderDTO>) {
    && (forall i | 0 <= i < |os| :: os[i].size > 0.0)
    && (forall i, j | 0 <= i < j < |os| :: os[i].id != os[j].id)
  }

  /** Every member of `s` is the valued form of a snapshot order of symbol `s`. */
  lemma {:induction false} MembersFromSnapshot(os: seq<OrderDTO>, s: OrderSymbol)
    ensures forall k | 0 <= k < |Members(os, s)| ::
              Members(os, s)[k].symbol == s && Members(os, s)[k].Dto() in os
  {
    if os != [] {
      var prefix := os[..|os| - 1];
      MembersFromSnapshot(prefix, s);
      assert os == prefix + [os[|os| - 1]];
    }
  }

  /**
   * `acc` groups the orders `os`: one group per symbol, holding that symbol's
   * valued orders in input order and keeping the group invariant.
   */
  predicate GroupedAs(acc: map<OrderSymbol, OrderGroup>, os: seq<OrderDTO>) {
    && acc.Keys == Symbols(os)
    && forall s | s in acc ::
         && acc[s].symbol == s
         && acc[s].orders == Members(os, s)
         && acc[s].orders != []
         && Consistent(acc[s])
  }

  /** A symbol that does not occur in the snapshot has no members. */
  lemma {:induction false} MembersOfAbsent(os: seq<OrderDTO>, s: OrderSymbol)
    requires s !in Symbols(os)
    ensures Members(os, s) == []
  {
    if os != [] {
      var prefix := os[..|os| - 1];
      assert forall i | 0 <= i < |prefix| :: prefix[i] == os[i];
      MembersOfAbsent(prefix, s);
    }
  }

  /** The group the next order is folded into: the existing one, or a fresh empty one. */
  lemma GroupToFoldInto(os: seq<OrderDTO>, i: nat, acc: map<OrderSymbol, OrderGroup>, group: OrderGroup)
    requires i < |os| && GroupedAs(acc, os[..i])
    requires group == if os[i].symbol in acc then acc[os[i].symbol] else EmptyGroup(os[i].symbol)
    ensures group.symbol == os[i].symbol && Consistent(group)
    ensures group.orders == Members(os[..i], os[i].symbol)
  {
    if os[i].symbol !in acc {
      MembersOfAbsent(os[..i], os[i].symbol);
    }
  }

  /** Replacing the group of the next order's symbol by one that groups the longer prefix. */
  lemma UpdateGrouped(os: seq<OrderDTO>, i: nat, acc: map<OrderSymbol, OrderGroup>, added: OrderGroup)
    requires i < |os| && GroupedAs(acc, os[..i])
    requires added.symbol == os[i].symbol && Consistent(added)
    requires added.orders == Members(os[..i + 1], os[i].symbol) && added.orders != []
    ensures GroupedAs(acc[os[i].symbol := added], os[..i + 1])
  {
    var acc' := acc[os[i].symbol := added];
    assert os[..i + 1][..i] == os[..i];
    assert acc'.Keys == Symbols(os[..i + 1]);
    forall s | s in acc' && s != os[i].symbol
      ensures acc'[s] == acc[s] && Members(os[..i + 1], s) == Members(os[..i], s)
    {
    }
  }

  /** The group of the next order's symbol, with that order folded in, groups the longer prefix. */
  lemma FoldStepGroup(os: seq<OrderDTO>, i: nat, group: OrderGroup) returns (added: OrderGroup)
    requires ValidSnapshot(os) && i < |os|
    requires group.symbol == os[i].symbol && Consistent(group)
    requires group.orders == Members(os[..i], os[i].symbol)
    ensures group.size + InitialOrder(os[i]).size != 0.0
    ensures added == RecalculateOrderGroup(group, InitialOrder(os[i]), false)
    ensures added.symbol == os[i].symbol
    ensures added.orders == Members(os[..i + 1], os[i].symbol) && added.orders != []
    ensures Consistent(added)
  {
    var dto := os[i];
    var order := InitialOrder(dto);
    forall k | 0 <= k < |group.orders| ensures group.orders[k].id != order.id {
      MembersFromSnapshot(os[..i], dto.symbol);
      var j :| 0 <= j < i && os[..i][j] == group.orders[k].Dto();
    }
    FoldInKeepsConsistent(group, order);
    added := RecalculateOrderGroup(group, order, false);
    assert os[..i + 1][..i] == os[..i];
  }

  /**
   * The grouping reduce. Afterwards there is exactly one group per symbol of
   * the snapshot; its members are that symbol's orders in input order, each
   * valued at its close price; and its size and swap are the members' sums
   * and its open price and profit their size-weighted means.
   */
  method GroupOrders(os: seq<OrderDTO>) returns (acc: map<OrderSymbol, OrderGroup>)
    requires ValidSnapshot(os)
    ensures GroupedAs(acc, os)
  {
    acc := map[];
    var i := 0;
    while i < |os|
      invariant 0 <= i <= |os|
      invariant GroupedAs(acc, os[..i])
    {
      var dto := os[i];
      var group := if dto.symbol in acc then acc[dto.symbol] else EmptyGroup(dto.symbol);
      var order := InitialOrder(dto);
      GroupToFoldInto(os, i, acc, group);
      ghost var added := FoldStepGroup(os, i, group);
      UpdateGrouped(os, i, acc, added);
      acc := acc[dto.symbol := RecalculateOrderGroup(group, order, false)];
      i := i + 1;
    }
    assert os[..i] == os;
  }
}
