/**
 * The per-call order store that each backend keeps in a module-level
 * `Map<string, Order>` (retell-agent/src/index.ts; the vapi and telnyx
 * copies repeat it): the order records of types.ts, `calculateTotal`,
 * `getOrCreateOrder`, and the bodies of the `add_to_order`,
 * `get_order_total` and `confirm_order` tools and of `get_menu`.
 *
 * Each tool is specified by a pure transition function from the store
 * before the call to the store after it and the reply; the methods of
 * `OrderStore` update the map in place and are proved against them.
 */
module Orders {
  import opened Wrappers
  import opened Text
  import opened Menu

  /** A line of an order: a snapshot of the menu item's id, name and unit price. */
  datatype OrderItem = OrderItem(menuItemId: string, name: string, quantity: int, price: int, notes: Option<string>)

  /** `total` is kept equal to `CalculateTotal(items)` by every tool. */
  datatype Order = Order(items: seq<OrderItem>, customerName: Option<string>, pickupTime: Option<string>, total: int)

  /** `{ items: [], total: 0 }` */
  const EmptyOrder: Order := Order([], None, None, 0)

  function LineTotal(item: OrderItem): int
  {
    item.price * item.quantity
  }

  /** `calculateTotal(items)`: `reduce` of `sum + price * quantity` from 0, left to right. */
  function CalculateTotal(items: seq<OrderItem>): int
  {
    if |items| == 0 then 0
    else CalculateTotal(items[..|items| - 1]) + LineTotal(items[|items| - 1])
  }

  /** An independent statement of the sum: first line plus the sum of the rest. */
  function SumOfLines(items: seq<OrderItem>): int
  {
    if |items| == 0 then 0 else LineTotal(items[0]) + SumOfLines(items[1..])
  }

  /** The total of a concatenation is the sum of the totals. */
  lemma {:induction false} CalculateTotalOfConcat(a: seq<OrderItem>, b: seq<OrderItem>)
    ensures CalculateTotal(a + b) == CalculateTotal(a) + CalculateTotal(b)
  {
    if |b| == 0 {
      assert a + b == a;
    } else {
      var b' := b[..|b| - 1];
      CalculateTotalOfConcat(a, b');
      assert (a + b)[..|a + b| - 1] == a + b';
    }
  }

  /** The left fold computes the same sum as the plain recursive sum. */
  lemma {:induction false} CalculateTotalIsSumOfLines(items: seq<OrderItem>)
    ensures CalculateTotal(items) == SumOfLines(items)
  {
    if |items| > 0 {
      CalculateTotalIsSumOfLines(items[1..]);
      CalculateTotalOfConcat([items[0]], items[1..]);
      assert [items[0]] + items[1..] == items;
      assert [items[0]][..0] == [];
    }
  }

  /** Every stored order's total is the sum of its lines. */
  ghost predicate Consistent(orders: map<string, Order>)
  {
    forall id :: id in orders ==> orders[id].total == CalculateTotal(orders[id].items)
  }

  // ---------------------------------------------------------------------
  // Argument defaults and reply wording
  // ---------------------------------------------------------------------

  /** `quantity || 1`: an absent or zero quantity becomes 1, any other is kept. */
  function QuantityOrDefault(quantity: Option<int>): (q: int)
    ensures q != 0
    ensures quantity.Some? && quantity.value != 0 ==> q == quantity.value
    ensures quantity.None? || quantity.value == 0 ==> q == 1
  {
    if quantity.Some? && quantity.value != 0 then quantity.value else 1
  }

  /** `pickupTime || '20 minutes'`: an absent or empty pickup time becomes "20 minutes". */
  function PickupTimeOrDefault(pickupTime: Option<string>): (t: string)
    ensures t != ""
    ensures pickupTime.Some? && pickupTime.value != "" ==> t == pickupTime.value
    ensures pickupTime.None? || pickupTime.value == "" ==> t == "20 minutes"
  {
    if pickupTime.Some? && pickupTime.value != "" then pickupTime.value else "20 minutes"
  }

  /** The parts of the replies that differ between the backends. */
  datatype Wording = Wording(notFoundPrompt: string, currency: string)

  const RetellWording: Wording := Wording("Would you like me to read the menu options?", "$")
  const VapiWording: Wording := Wording("Would you like me to read the menu options?", "$")
  const TelnyxWording: Wording := Wording("Would you like to try a different item?", "€")

  function NotFoundMessage(itemName: string, wording: Wording): string
  {
    "Sorry, I couldn't find \"" + itemName + "\" on our menu. " + wording.notFoundPrompt
  }

  function AddedMessage(quantity: int, name: string): string
  {
    "Added " + IntToString(quantity) + " " + name + " to your order."
  }

  const NothingAddedMessage: string := "You haven't added anything to your order yet."
  const NothingToConfirmMessage: string := "There's nothing in your order to confirm. Would you like to add something?"

  /** `<quantity>x <name> - <currency><line total>`, followed by ` (<notes>)` when the notes are non-empty. */
  function SummaryLine(item: OrderItem, wording: Wording): string
  {
    IntToString(item.quantity) + "x " + item.name + " - " + wording.currency + CentsToFixed2(LineTotal(item))
    + (if item.notes.Some? && item.notes.value != "" then " (" + item.notes.value + ")" else "")
  }

  function SummaryLines(items: seq<OrderItem>, wording: Wording): (lines: seq<string>)
    ensures |lines| == |items|
    ensures forall i :: 0 <= i < |items| ==> lines[i] == SummaryLine(items[i], wording)
  {
    seq(|items|, i requires 0 <= i < |items| => SummaryLine(items[i], wording))
  }

  function OrderId(now: int): string
  {
    "ORD-" + IntToString(now)
  }

  function ConfirmedMessage(orderId: string, total: int, pickupTime: string, wording: Wording): string
  {
    "Your order has been confirmed. Order number " + orderId + ". Total is " + wording.currency
    + CentsToFixed2(total) + ". It will be ready for pickup in " + pickupTime + "."
  }

  // ---------------------------------------------------------------------
  // Replies
  // ---------------------------------------------------------------------

  /** `get_menu`: the display text and the structured item list. */
  datatype MenuReply = MenuReply(menu: string, items: seq<MenuItem>)

  /** `add_to_order`: `success: false` with an apology, or `success: true` with the running total and line count. */
  datatype AddReply =
    | ItemNotFound(message: string)
    | Added(message: string, currentTotal: int, itemCount: nat)

  /** `get_order_total`: an empty order (reported with `items: []` and total "0.00"), or the summary. */
  datatype TotalReply =
    | NothingAdded(message: string)
    | Summary(summary: string, items: seq<OrderItem>, total: int)

  /**
   * `confirm_order`: `success: false`, or `success: true` with the order id and
   * echoed fields. `finalOrder` is the stamped order the backend logs before
   * evicting it.
   */
  datatype ConfirmReply =
    | NothingToConfirm(message: string)
    | Confirmed(orderId: string, customerName: Option<string>, pickupTime: string, total: int, message: string, finalOrder: Order)

  // ---------------------------------------------------------------------
  // The tools as transitions of the store
  // ---------------------------------------------------------------------

  /** The order a call id would get from `getOrCreateOrder`. */
  function OrderOf(orders: map<string, Order>, callId: string): Order
  {
    if callId in orders then orders[callId] else EmptyOrder
  }

  /** The store after `getOrCreateOrder(callId)`: an empty order is inserted only for an absent id. */
  function WithOrder(orders: map<string, Order>, callId: string): (after: map<string, Order>)
    ensures callId in after && after[callId] == OrderOf(orders, callId)
    ensures callId in orders ==> after == orders
    ensures after.Keys == orders.Keys + {callId}
    ensures forall id :: id in orders ==> after[id] == orders[id]
    ensures Consistent(orders) ==> Consistent(after)
  {
    if callId in orders then orders else orders[callId := EmptyOrder]
  }

  /** Storing an order whose total is the sum of its lines keeps the store consistent. */
  lemma WriteKeepsConsistent(orders: map<string, Order>, callId: string, order: Order)
    ensures Consistent(orders) && order.total == CalculateTotal(order.items) ==> Consistent(orders[callId := order])
  {
  }

  /** Writing a key after `getOrCreateOrder` inserted it is the same as writing it directly. */
  lemma WriteAfterCreate(orders: map<string, Order>, callId: string, order: Order)
    ensures WithOrder(orders, callId)[callId := order] == orders[callId := order]
  {
  }

  /** The line `add_to_order` appends for a resolved menu item. */
  function NewLine(menuItem: MenuItem, quantity: Option<int>, notes: Option<string>): OrderItem
  {
    OrderItem(menuItem.id, menuItem.name, QuantityOrDefault(quantity), menuItem.price, notes)
  }

  /**
   * The known-item half of `add_to_order`: append the line to the call's
   * order (creating it if needed), recompute its total, and report it.
   */
  function AppendLine(orders: map<string, Order>, callId: string, line: OrderItem): (out: (map<string, Order>, AddReply))
    ensures var before := OrderOf(orders, callId);
            && out.0.Keys == orders.Keys + {callId}
            && out.0[callId] == before.(items := before.items + [line], total := CalculateTotal(before.items + [line]))
            && (forall id :: id in orders && id != callId ==> out.0[id] == orders[id])
            && out.1 == Added(AddedMessage(line.quantity, line.name), out.0[callId].total, |before.items| + 1)
    ensures Consistent(orders) ==> Consistent(out.0)
  {
    var order := OrderOf(orders, callId);
    var items := order.items + [line];
    var updated := order.(items := items, total := CalculateTotal(items));
    WriteKeepsConsistent(orders, callId, updated);
    (orders[callId := updated], Added(AddedMessage(line.quantity, line.name), updated.total, |items|))
  }

  /**
   * `add_to_order`: an unknown item changes nothing; a known one appends one
   * line to the call's order (creating it if needed) and recomputes its total.
   */
  function AddOutcome(orders: map<string, Order>, callId: string, itemName: string, quantity: Option<int>,
                      notes: Option<string>, wording: Wording): (out: (map<string, Order>, AddReply))
    ensures FindMenuItem(itemName).None? ==> out == (orders, ItemNotFound(NotFoundMessage(itemName, wording)))
    ensures FindMenuItem(itemName).Some? ==>
              var line := NewLine(FindMenuItem(itemName).value, quantity, notes);
              var before := OrderOf(orders, callId);
              && out.0.Keys == orders.Keys + {callId}
              && out.0[callId] == before.(items := before.items + [line], total := CalculateTotal(before.items + [line]))
              && (forall id :: id in orders && id != callId ==> out.0[id] == orders[id])
              && out.1 == Added(AddedMessage(line.quantity, line.name), out.0[callId].total, |before.items| + 1)
    ensures Consistent(orders) ==> Consistent(out.0)
  {
    match FindMenuItem(itemName)
    case None => (orders, ItemNotFound(NotFoundMessage(itemName, wording)))
    case Some(menuItem) => AppendLine(orders, callId, NewLine(menuItem, quantity, notes))
  }

  /** On a consistent store, adding a line raises the order's total by exactly that line's total. */
  lemma AddRaisesTotalByLine(orders: map<string, Order>, callId: string, itemName: string, quantity: Option<int>,
                             notes: Option<string>, wording: Wording)
    requires Consistent(orders) && FindMenuItem(itemName).Some?
    ensures AddOutcome(orders, callId, itemName, quantity, notes, wording).1.currentTotal
            == OrderOf(orders, callId).total + LineTotal(NewLine(FindMenuItem(itemName).value, quantity, notes))
  {
    var line := NewLine(FindMenuItem(itemName).value, quantity, notes);
    var before := OrderOf(orders, callId);
    CalculateTotalOfConcat(before.items, [line]);
    assert [line][..0] == [];
  }

  /**
   * `get_order_total`: always leaves the call's entry in the store (an empty
   * one if there was none); reports the lines and total when there are lines.
   */
  function TotalOutcome(orders: map<string, Order>, callId: string, wording: Wording): (out: (map<string, Order>, TotalReply))
    ensures out.0 == WithOrder(orders, callId)
    ensures out.1.NothingAdded? <==> |OrderOf(orders, callId).items| == 0
    ensures out.1.NothingAdded? ==> out.1.message == NothingAddedMessage
    ensures out.1.Summary? ==> out.1.items == OrderOf(orders, callId).items
                               && out.1.summary == Join(", ", SummaryLines(out.1.items, wording))
    ensures out.1.Summary? && Consistent(orders) ==> out.1.total == CalculateTotal(out.1.items)
  {
    var order := WithOrder(orders, callId)[callId];
    if |order.items| == 0 then (WithOrder(orders, callId), NothingAdded(NothingAddedMessage))
    else (WithOrder(orders, callId), Summary(Join(", ", SummaryLines(order.items, wording)), order.items, order.total))
  }

  /**
   * `confirm_order`: an empty order is not confirmed and stays in the store;
   * a non-empty one is stamped, given an id from the clock, and evicted.
   */
  function ConfirmOutcome(orders: map<string, Order>, callId: string, customerName: Option<string>,
                          pickupTime: Option<string>, now: int, wording: Wording): (out: (map<string, Order>, ConfirmReply))
    ensures |OrderOf(orders, callId).items| == 0 ==>
              out == (WithOrder(orders, callId), NothingToConfirm(NothingToConfirmMessage))
    ensures |OrderOf(orders, callId).items| > 0 ==>
              && out.0 == orders - {callId}
              && out.1.Confirmed?
              && out.1.orderId == OrderId(now)
              && out.1.customerName == customerName
              && out.1.pickupTime == PickupTimeOrDefault(pickupTime)
              && out.1.total == OrderOf(orders, callId).total
              && out.1.finalOrder.items == OrderOf(orders, callId).items
              && out.1.finalOrder.customerName == customerName
              && out.1.finalOrder.pickupTime == Some(out.1.pickupTime)
    ensures Consistent(orders) ==> Consistent(out.0)
  {
    var order := WithOrder(orders, callId)[callId];
    if |order.items| == 0 then (WithOrder(orders, callId), NothingToConfirm(NothingToConfirmMessage))
    else
      var pickup := PickupTimeOrDefault(pickupTime);
      var stamped := order.(customerName := customerName, pickupTime := Some(pickup));
      var orderId := OrderId(now);
      (WithOrder(orders, callId) - {callId},
       Confirmed(orderId, customerName, pickup, stamped.total, ConfirmedMessage(orderId, stamped.total, pickup, wording), stamped))
  }

  /** After a successful confirmation, asking for the total starts a fresh, empty order. */
  lemma ConfirmedOrderIsGone(orders: map<string, Order>, callId: string, customerName: Option<string>,
                             pickupTime: Option<string>, now: int, wording: Wording)
    requires |OrderOf(orders, callId).items| > 0
    ensures var after := ConfirmOutcome(orders, callId, customerName, pickupTime, now, wording).0;
            && callId !in after
            && TotalOutcome(after, callId, wording).1 == NothingAdded(NothingAddedMessage)
            && TotalOutcome(after, callId, wording).0[callId] == EmptyOrder
  {
  }

  /**
   * Adding a known item and then confirming confirms an order that ends with
   * the added line, at the old total plus that line's, and leaves no entry.
   */
  lemma AddThenConfirm(orders: map<string, Order>, callId: string, itemName: string, quantity: Option<int>,
                       notes: Option<string>, customerName: Option<string>, pickupTime: Option<string>,
                       now: int, wording: Wording)
    requires Consistent(orders) && FindMenuItem(itemName).Some?
    ensures var line := NewLine(FindMenuItem(itemName).value, quantity, notes);
            var added := AddOutcome(orders, callId, itemName, quantity, notes, wording);
            var confirmed := ConfirmOutcome(added.0, callId, customerName, pickupTime, now, wording);
            && callId !in confirmed.0
            && confirmed.1.Confirmed?
            && confirmed.1.finalOrder.items == OrderOf(orders, callId).items + [line]
            && confirmed.1.total == OrderOf(orders, callId).total + LineTotal(line)
  {
    AddRaisesTotalByLine(orders, callId, itemName, quantity, notes, wording);
  }

  /** The store after a call-ending event: the call's entry, confirmed or not, is dropped. */
  function Evicted(orders: map<string, Order>, callId: string): (after: map<string, Order>)
    ensures callId !in after
    ensures forall id :: id != callId ==> (id in after <==> id in orders)
    ensures forall id :: id in after ==> after[id] == orders[id]
    ensures Consistent(orders) ==> Consistent(after)
  {
    orders - {callId}
  }

  // ---------------------------------------------------------------------
  // The store
  // ---------------------------------------------------------------------

  /** `get_menu`: the rendered catalog and the catalog itself; the order store is not involved. */
  method GetMenu() returns (reply: MenuReply)
    ensures reply == MenuReply(MenuText(Catalog), Catalog)
  {
    var text := FormatMenuForDisplay();
    reply := MenuReply(text, Catalog);
  }

  /** The module-level `orders` map of one backend. */
  class OrderStore {
    var orders: map<string, Order>

    ghost predicate Valid()
      reads this
    {
      Consistent(orders)
    }

    constructor ()
      ensures orders == map[] && Valid()
    {
      orders := map[];
    }

    /** `getOrCreateOrder(callId)` */
    method GetOrCreateOrder(callId: string) returns (order: Order)
      requires Valid()
      modifies this
      ensures Valid()
      ensures orders == WithOrder(old(orders), callId)
      ensures order == OrderOf(old(orders), callId)
    {
      if callId !in orders {
        orders := orders[callId := EmptyOrder];
      }
      order := orders[callId];
    }

    /** The `add_to_order` tool. The lookup comes first, so an unknown item creates no entry. */
    method AddToOrder(callId: string, itemName: string, quantity: Option<int>, notes: Option<string>, wording: Wording)
      returns (reply: AddReply)
      requires Valid()
      modifies this
      ensures Valid()
      ensures (orders, reply) == AddOutcome(old(orders), callId, itemName, quantity, notes, wording)
    {
      var count := QuantityOrDefault(quantity);
      var menuItem := FindMenuItem(itemName);
      if menuItem.None? {
        reply := ItemNotFound(NotFoundMessage(itemName, wording));
        return;
      }
      var order := GetOrCreateOrder(callId);
      var line := OrderItem(menuItem.value.id, menuItem.value.name, count, menuItem.value.price, notes);
      order := order.(items := order.items + [line]);
      order := order.(total := CalculateTotal(order.items));
      WriteAfterCreate(old(orders), callId, order);
      orders := orders[callId := order];
      reply := Added(AddedMessage(count, menuItem.value.name), order.total, |order.items|);
    }

    /** The `get_order_total` tool. */
    method GetOrderTotal(callId: string, wording: Wording) returns (reply: TotalReply)
      requires Valid()
      modifies this
      ensures Valid()
      ensures (orders, reply) == TotalOutcome(old(orders), callId, wording)
    {
      var order := GetOrCreateOrder(callId);
      if |order.items| == 0 {
        reply := NothingAdded(NothingAddedMessage);
        return;
      }
      var summary := Join(", ", SummaryLines(order.items, wording));
      reply := Summary(summary, order.items, order.total);
    }

    /** The `confirm_order` tool; `now` stands for `Date.now()`. */
    method ConfirmOrder(callId: string, customerName: Option<string>, pickupTime: Option<string>, now: int, wording: Wording)
      returns (reply: ConfirmReply)
      requires Valid()
      modifies this
      ensures Valid()
      ensures (orders, reply) == ConfirmOutcome(old(orders), callId, customerName, pickupTime, now, wording)
    {
      var order := GetOrCreateOrder(callId);
      if |order.items| == 0 {
        reply := NothingToConfirm(NothingToConfirmMessage);
        return;
      }
      order := order.(customerName := customerName, pickupTime := Some(PickupTimeOrDefault(pickupTime)));
      var orderId := OrderId(now);
      orders := orders - {callId};
      reply := Confirmed(orderId, customerName, order.pickupTime.value, order.total,
                         ConfirmedMessage(orderId, order.total, order.pickupTime.value, wording), order);
    }

    /** `orders.delete(callId)` on a call-ending event. */
    method Evict(callId: string)
      requires Valid()
      modifies this
      ensures Valid()
      ensures orders == Evicted(old(orders), callId)
    {
      orders := orders - {callId};
    }
  }

}
