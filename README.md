# Orders aggregation engine — a Dafny model

This project models the position-aggregation engine of the orders table:

- the profit of one order at a reference price (`getOrderProfit`);
- the fold of one order into or out of its symbol's group (`recalculateOrderGroup`);
- the grouping of the initial order snapshot into one group per symbol (the `reduce` in `_setData`), followed by putting those symbols on the price watch list;
- the application of live price messages to the groups (the tick handler of `_startUpdatingProfitValues`);
- the two close commands, `closeOrder` and `closeOrderGroup`, with their notification, watch-list and disconnect effects.

Numbers are exact `real`s. Every fact about a group is stated against one invariant, `OrderGroupFold.Consistent`, which holds of every group the engine keeps:

- the members are positive-sized orders of the group's symbol with distinct ids;
- `size` and `swap` are the sums over the members;
- `openPrice * size` and `profit * size` are the members' size-weighted sums.

Put another way, open price and profit are size-weighted means. `PriceTicks.Live` states this invariant for the whole symbol-to-group map. The engine object, `OrdersDataSource.OrdersDataSource`, keeps `Live` together with two other facts:

- while it is connected, the watch list is exactly the set of symbols that have a group;
- prices flow only after the snapshot has arrived and before the disconnect.

Modules, in dependency order:

| file | module | contents |
|---|---|---|
| api_model.dfy | ApiModel | the API order record and its enums |
| orders_model.dfy | OrdersModel | `Order` (the API record plus profit) and `OrderGroup` |
| order_profit.dfy | OrderProfit | `getOrderProfit` and its laws |
| order_group.dfy | OrderGroupFold | `recalculateOrderGroup`, the group invariant and the fold laws |
| snapshot.dfy | Snapshot | the grouping `reduce` as a loop, proved against a grouping specification |
| price_ticks.dfy | PriceTicks | the tick handler's loops, proved against a revaluation specification |
| orders_data_source.dfy | OrdersDataSource | the engine class and the close commands |

## Model

| member | source | states |
|---|---|---|
| OrdersModel.WithProfit | src/app/orders/orders.model.ts:3-5 | an order is the API record it was built from plus the given profit |
| OrderProfit.GetOrderProfit | src/app/orders/orders-data-source.ts:18-40 | profit is positive exactly when a BUY's price rose above the open price or a SELL's fell below it, negative exactly in the mirrored cases, and so zero exactly at the open price |
| OrderProfit.Multiplier | src/app/orders/orders-data-source.ts:35 | the price multiplier is positive |
| OrderProfit.Pow | src/app/orders/orders-data-source.ts:35 | a power of a positive base is positive |
| OrderProfit.MultiplierTable | src/app/orders/orders-data-source.ts:22-35 | the multipliers are 100 for BTCUSD, 1000 for ETHUSD and 10 for TTWO.US |
| OrderProfit.ProfitFormula | src/app/orders/orders-data-source.ts:22-39 | profit is the price move times 1, 10 or 1/10 by symbol, negated for SELL |
| OrderProfit.ProfitDefaultsToClosePrice | src/app/orders/orders-data-source.ts:37 | with no current price the profit is the profit at the close price |
| OrderProfit.ProfitSideSymmetry | src/app/orders/orders-data-source.ts:36 | switching BUY to SELL negates the profit at the same price |
| OrderProfit.ProfitPriceStep | src/app/orders/orders-data-source.ts:35-39 | profit is linear in the price: a price step moves it by step × multiplier × side / 100 |
| OrderProfit.ProfitTestCases | src/app/orders/orders-data-source.spec.ts:26-67 | the five expected values of the repository's profit tests |
| OrderProfit.ScaledSign | src/app/orders/orders-data-source.ts:39 | scaling by a positive multiplier keeps the sign of the price move |
| OrderGroupFold.RecalculateOrderGroup | src/app/orders/orders-data-source.ts:42-70 | members get the order appended, or lose the first member with its id (JS splice semantics); every aggregate (size, swap, size·openPrice, size·profit) moves by exactly the order's signed contribution |
| OrderGroupFold.MovedAggregates | src/app/orders/orders-data-source.ts:61-69 | new averages that are the old totals plus the signed contribution over the new size move every aggregate by that contribution |
| OrderGroupFold.FindIndex | src/app/orders/orders-data-source.ts:51 | the first index whose id matches, or -1 exactly when no member has the id |
| OrderGroupFold.Splice | src/app/orders/orders-data-source.ts:53 | `splice(start, 1)`: a start inside the list removes exactly that member, -1 on a non-empty list removes the last member, and a start past the end removes nothing |
| OrderGroupFold.EmptyGroup | src/app/orders/orders-data-source.ts:150-158 | the zero group created for a new symbol satisfies the group invariant and has no members |
| OrderGroupFold.TotalConcat | src/app/orders/orders-data-source.ts:61-69 | a sum over two concatenated member lists is the sum of the two sums |
| OrderGroupFold.TotalRemoveAt | src/app/orders/orders-data-source.ts:51-53 | splicing out a member takes exactly its weight out of every sum |
| OrderGroupFold.TotalSizePositive | src/app/orders/orders-data-source.ts:68 | with positive sizes the total size is positive exactly when there are members |
| OrderGroupFold.ConsistentMeans | src/app/orders/orders-data-source.ts:61-66 | in a consistent non-empty group, size is positive and open price and profit are the members' size-weighted means |
| OrderGroupFold.AppendKeepsMembers | src/app/orders/orders-data-source.ts:56 | pushing a fresh positive-sized order of the symbol keeps the members well formed |
| OrderGroupFold.AppendKeepsTotal | src/app/orders/orders-data-source.ts:56-69 | an aggregate moved by the pushed order's weight still equals the members' total |
| OrderGroupFold.FoldInKeepsConsistent | src/app/orders/orders-data-source.ts:47-69 | folding in a fresh positive-sized order of the symbol keeps the invariant and appends it |
| OrderGroupFold.FindMember | src/app/orders/orders-data-source.ts:51 | in a group with distinct ids, findIndex finds a member at its unique position |
| OrderGroupFold.RemoveAtKeepsMembers | src/app/orders/orders-data-source.ts:53 | splicing out one member keeps the others positive-sized, of the symbol and distinct |
| OrderGroupFold.RemoveAtKeepsTotal | src/app/orders/orders-data-source.ts:50-69 | an aggregate moved by the spliced member's weight still equals the members' total |
| OrderGroupFold.FoldOutKeepsConsistent | src/app/orders/orders-data-source.ts:50-69 | folding out a member of a consistent group with other members leaves positive size, keeps the invariant and removes exactly that member, keeping the others' order |
| OrderGroupFold.SameAggregates | src/app/orders/orders-data-source.ts:61-69 | two groups with equal aggregates and non-zero size have equal size, swap, open price and profit |
| OrderGroupFold.FoldInverse | src/app/orders/orders-data-source.spec.ts:71-111 | folding in an order with a fresh id and folding it out again restores the group exactly, members included |
| OrderGroupFold.FoldOutMissingIdDropsLast | src/app/orders/orders-data-source.ts:51-53 | folding out an id that is not a member drops the last member, because findIndex gives -1 and splice(-1, 1) removes the last element |
| OrderGroupFold.FoldTestCase | src/app/orders/orders-data-source.spec.ts:71-111 | the repository's fold test: the numbers of the test come out as expected, and because both orders have id 0 the removal takes out the first order, not the second |
| Snapshot.InitialOrder | src/app/orders/orders-data-source.ts:162-165 | a snapshot order is valued at its close price |
| Snapshot.Symbols | src/app/orders/orders-data-source.ts:148-172 | the symbols of the snapshot are exactly those occurring in it |
| Snapshot.MembersFromSnapshot | src/app/orders/orders-data-source.ts:148-172 | every member of a symbol's group is a snapshot order of that symbol |
| Snapshot.MembersOfAbsent | src/app/orders/orders-data-source.ts:150 | a symbol absent from the snapshot has no members |
| Snapshot.GroupToFoldInto | src/app/orders/orders-data-source.ts:150-161 | the group an order is folded into is its symbol's existing group, or the zero group, and it holds that symbol's earlier orders |
| Snapshot.FoldStepGroup | src/app/orders/orders-data-source.ts:161-167 | folding the next order into its group gives a consistent group of that symbol's orders so far |
| Snapshot.UpdateGrouped | src/app/orders/orders-data-source.ts:167-169 | storing that group under its symbol keeps the grouping of the longer prefix |
| Snapshot.GroupOrders | src/app/orders/orders-data-source.ts:148-172 | one group per symbol of the snapshot, holding exactly that symbol's orders in input order, each valued at its close price, with sums and size-weighted means as aggregates |
| PriceTicks.Revalue | src/app/orders/orders-data-source.ts:207 | a member keeps its API fields and gets its profit at the quoted price |
| PriceTicks.RevalueAll | src/app/orders/orders-data-source.ts:206-209 | every member, in order, is revalued at the price |
| PriceTicks.RevalueKeepsWeight | src/app/orders/orders-data-source.ts:207 | revaluing an order changes none of its weights except size·profit |
| PriceTicks.RevalueKeepsTotal | src/app/orders/orders-data-source.ts:206-209 | revaluing changes none of the totals but the profit total |
| PriceTicks.RevalueGroup | src/app/orders/orders-data-source.ts:199-212 | after a quote the group's symbol, size, open price, swap and member records are unchanged, every member holds its profit at the price, and the group profit is Σ size·profit over the group size |
| PriceTicks.RevalueKeepsLive | src/app/orders/orders-data-source.ts:204-211 | a live group stays live after a quote, and its profit is the new members' size-weighted mean |
| PriceTicks.RevaluedAggregate | src/app/orders/orders-data-source.ts:211 | dividing the recomputed profit total by the unchanged size keeps every aggregate equal to its total |
| PriceTicks.RevalueKeepsMembers | src/app/orders/orders-data-source.ts:206-209 | revaluing keeps members positive-sized, of the symbol and with distinct ids |
| PriceTicks.RecomputeGroupProfit | src/app/orders/orders-data-source.ts:204-211 | the forEach loop that assigns each member's profit and sums size·profit gives exactly the revalued group |
| PriceTicks.ApplyQuote | src/app/orders/orders-data-source.ts:199-212 | a quote for a symbol without a group changes nothing; otherwise only that symbol's group is revalued, and the map stays live |
| PriceTicks.ReceiveQuote | src/app/orders/orders-data-source.ts:200-211 | the per-quote step of the handler computes that quote's application |
| PriceTicks.ReceiveQuotes | src/app/orders/orders-data-source.ts:199-212 | the forEach over a message's quotes applies them in order |
| PriceTicks.ApplyQuotes | src/app/orders/orders-data-source.ts:199-212 | applying a message keeps the map live and its keys, and changes only profits |
| PriceTicks.LiveUpdate | src/app/orders/orders-data-source.ts:199-212 | storing a live group under its own key keeps the map live |
| PriceTicks.UnquotedGroupUnchanged | src/app/orders/orders-data-source.ts:200-202 | a symbol no quote mentions keeps its group exactly |
| PriceTicks.LastQuoteWins | src/app/orders/orders-data-source.ts:199-212 | after a message, every member of a quoted group holds its profit at the last quote for its symbol |
| OrdersDataSource.Ids | src/app/orders/orders-data-source.ts:106 | the notified ids are the members' ids in member order |
| OrdersDataSource.OrdersDataSource.constructor | src/app/orders/orders-data-source.ts:76-87 | the engine starts with no groups, an empty watch list and the snapshot requested |
| OrdersDataSource.OrdersDataSource.OnOrders | src/app/orders/orders-data-source.ts:142-180 | only the first snapshot counts; the data becomes its grouping, the watch list its symbol set, and prices start flowing unless already disconnected |
| OrdersDataSource.OrdersDataSource.OnOrdersError | src/app/orders/orders-data-source.ts:182-186 | a failed snapshot is notified and leaves the data empty |
| OrdersDataSource.OrdersDataSource.OnPrices | src/app/orders/orders-data-source.ts:196-214 | a message on another path, or after the stream stopped, changes nothing; otherwise the data becomes the message's quotes applied in order |
| OrdersDataSource.OrdersDataSource.OnPricesError | src/app/orders/orders-data-source.ts:216-220 | a failed price stream is notified and stops further ticks |
| OrdersDataSource.OrdersDataSource.Disconnect | src/app/orders/orders-data-source.ts:93-95 | the subscription is closed, no more ticks arrive, nothing else changes |
| OrdersDataSource.OrdersDataSource.CloseOrderGroup | src/app/orders/orders-data-source.ts:97-118 | only the group's key is removed; its ids are notified exactly when it had members; with no group left the engine disconnects and keeps the watch list, otherwise exactly that symbol leaves the watch list |
| OrdersDataSource.OrdersDataSource.CloseOrder | src/app/orders/orders-data-source.ts:120-140 | a symbol without a group changes nothing; closing the last member closes the whole group; otherwise the order is folded out of its group and the other groups are untouched; the order's id is notified in both cases |
| OrdersDataSource.FoldOut | src/app/orders/orders-data-source.ts:127-139 | folding a member out of a group with other members keeps the map live with the same keys, touches no other group, and lowers that group's size and swap by the order's |
| OrdersDataSource.FoldOutOfGroup | src/app/orders/orders-data-source.ts:127 | after the fold-out the group has lost exactly that member, its size and swap have dropped by the order's, and its weighted totals by the order's contribution |
| OrdersDataSource.FoldOutOfLive | src/app/orders/orders-data-source.ts:127 | the fold-out leaves a positive size and a live map |
| OrdersDataSource.GroupFoldedOut | src/app/orders/orders-data-source.ts:127 | the folded-out group is live under its symbol and is a fold-out of the old group |
| OrdersDataSource.LiveRemove | src/app/orders/orders-data-source.ts:100 | deleting a key keeps the map live and removes exactly that key |
| OrdersDataSource.GroupedAsLive | src/app/orders/orders-data-source.ts:148-174 | a grouped snapshot is a live map |

## Left out

- RxJS and Angular glue is left out: `BehaviorSubject`, `take`, `withLatestFrom`, `Subscription`, `DataSource.connect`, `MatTable.renderRows` and `stopPropagation`. Each callback is a method applied to the engine state in sequence. `take(1)` becomes the `Loading` phase guard. The closed subscription bag becomes the `disconnected` flag, and a live price subscription becomes `streaming`.
- HTTP and the price socket are left out. The snapshot and each price message are parameters of `OnOrders` and `OnPrices`, and their failures are the `OnOrdersError` and `OnPricesError` events.
- The API service's price-server calls are not part of this model. `addSymbolsToWatchList` and `removeSymbolsFromWatchList` become updates of the `watchList` set the engine keeps. The `watchCurrentPrices` subscription becomes the `streaming` flag.
- A quote is a symbol of the three-value symbol type and a bid price. The price server may send quotes for other instruments; the source looks them up, finds no group and skips them. Such quotes are dropped before they reach the model, so no behaviour is lost.
- The snackbar notification service is not part of this model. Notifications are an append-only log of `Notice` values, and their Polish text is not modelled.
- `Object.values` ordering of groups in the table is not modelled; the data is a map.
- IEEE-754 `number` arithmetic is not modelled: values are exact reals, so rounding, `NaN` and `Infinity` do not arise. `getRoundedValue` and date formatting in the component are out of scope.
- OrderGroupFold.RecalculateOrderGroup: requires a non-zero new size. In the source, closing the last member of a group divides 0 by 0 and leaves `NaN` in a group that is then deleted. The model closes such a group before any fold, so that value is never computed.
- OrderGroupFold.RecalculateOrderGroup: the source mutates the group in place through `push`, `splice` and field assignments, and the tick handler reaches the same group objects through the map. The model uses value semantics: it returns the new group, and the engine stores it back under its key. Aliasing between the map and groups held elsewhere is not modelled.
- OrdersDataSource.OrdersDataSource.CloseOrder: requires the order to be a member of its symbol's group when that group exists, as the table's close button always passes a member row. For an id that is not a member, the source's `findIndex` gives -1 and `splice(-1, 1)` drops the last member. `OrderGroupFold.FoldOutMissingIdDropsLast` states that behaviour of the fold, but the close command is not modelled for it.
- Snapshot.GroupOrders: requires positive sizes and distinct ids in the snapshot. These are properties of real order data that the source assumes but does not check. With a zero-sized first order, the source itself would divide by zero.
- The `Unknown symbol` throw in `getOrderProfit` cannot be reached, because the symbol type has exactly three values.
- `OrderDTO`, `OrderDTOSymbol` and `OrderDTOSide` in the data source are the `Order`, `OrderSymbol` and `OrderSide` of the API model (src/app/orders/api/api.model.ts:1-21); the model uses one set of types.
