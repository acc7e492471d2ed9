/**
 * The Telnyx backend (telnyx-agent/src/index.ts): flat tool endpoints that
 * find the call id under one of two body fields, and a call-lifecycle
 * webhook whose hangup and conversation-end events evict the call's order.
 */
module TelnyxAgent {
  import opened Wrappers
  import opened Menu
  import opened Orders

  /** The fields of a tool request body the endpoints read. */
  datatype ToolRequest = ToolRequest(conversationId: Option<string>, callControlId: Option<string>,
                                     item: string, quantity: Option<int>, notes: Option<string>,
                                     customerName: Option<string>, pickupTime: Option<string>)

  /** A JavaScript value that `||` keeps: present and not the empty string. */
  predicate Truthy(field: Option<string>)
  {
    field.Some? && field.value != ""
  }

  /** `conversation_id || call_control_id || 'unknown'` */
  function CallIdOf(request: ToolRequest): (callId: string)
    ensures callId != ""
    ensures Truthy(request.conversationId) ==> callId == request.conversationId.value
    ensures !Truthy(request.conversationId) && Truthy(request.callControlId) ==> callId == request.callControlId.value
    ensures !Truthy(request.conversationId) && !Truthy(request.callControlId) ==> callId == "unknown"
  {
    if Truthy(request.conversationId) then request.conversationId.value
    else if Truthy(request.callControlId) then request.callControlId.value
    else "unknown"
  }

  /** The threshold above which a quantity is reported in the log. */
  const LargeQuantity: int := 10

  /**
   * `/tools/add_to_order`. A quantity above 10 only raises the logged alert
   * (checked before the lookup); the tool itself behaves as in every backend.
   */
  method AddToOrder(store: OrderStore, request: ToolRequest) returns (reply: AddReply, largeQuantityAlert: bool)
    requires store.Valid()
    modifies store
    ensures store.Valid()
    ensures largeQuantityAlert <==> QuantityOrDefault(request.quantity) > LargeQuantity
    ensures (store.orders, reply)
            == AddOutcome(old(store.orders), CallIdOf(request), request.item, request.quantity, request.notes, TelnyxWording)
  {
    var callId := CallIdOf(request);
    var quantity := QuantityOrDefault(request.quantity);
    largeQuantityAlert := quantity > LargeQuantity;
    reply := store.AddToOrder(callId, request.item, request.quantity, request.notes, TelnyxWording);
  }

  /** A large quantity is accepted as asked: the appended line carries it unchanged. */
  lemma LargeQuantityIsStillAdded(orders: map<string, Order>, request: ToolRequest)
    requires FindMenuItem(request.item).Some?
    requires request.quantity.Some? && request.quantity.value > LargeQuantity
    ensures var after := AddOutcome(orders, CallIdOf(request), request.item, request.quantity, request.notes, TelnyxWording);
            && after.1.Added?
            && var items := after.0[CallIdOf(request)].items;
               |items| > 0 && items[|items| - 1].quantity == request.quantity.value
  {
  }

  /** `/tools/get_order_total` */
  method GetOrderTotal(store: OrderStore, request: ToolRequest) returns (reply: TotalReply)
    requires store.Valid()
    modifies store
    ensures store.Valid()
    ensures (store.orders, reply) == TotalOutcome(old(store.orders), CallIdOf(request), TelnyxWording)
  {
    reply := store.GetOrderTotal(CallIdOf(request), TelnyxWording);
  }

  /** `/tools/confirm_order`; `now` stands for `Date.now()`. */
  method ConfirmOrder(store: OrderStore, request: ToolRequest, now: int) returns (reply: ConfirmReply)
    requires store.Valid()
    modifies store
    ensures store.Valid()
    ensures (store.orders, reply)
            == ConfirmOutcome(old(store.orders), CallIdOf(request), request.customerName, request.pickupTime, now, TelnyxWording)
  {
    reply := store.ConfirmOrder(CallIdOf(request), request.customerName, request.pickupTime, now, TelnyxWording);
  }

  /** `data.event_type` and `data.payload.call_control_id` of a call-lifecycle event. */
  datatype CallEvent = CallEvent(eventType: string, callControlId: string)

  /** Events after which the call's order is dropped. */
  predicate EndsConversation(eventType: string)
  {
    eventType == "call.ai_gather.ended" || eventType == "call.hangup"
  }

  /**
   * The store after the `/webhooks/call` switch: the ending events evict the
   * order under the event's `call_control_id`; every other event, including
   * `call.initiated` and `call.answered`, leaves it as it was.
   */
  function CallEventOutcome(orders: map<string, Order>, event: CallEvent): (after: map<string, Order>)
    ensures EndsConversation(event.eventType) ==> after == Evicted(orders, event.callControlId)
    ensures !EndsConversation(event.eventType) ==> after == orders
    ensures Consistent(orders) ==> Consistent(after)
  {
    if EndsConversation(event.eventType) then Evicted(orders, event.callControlId) else orders
  }

  /**
   * `/webhooks/call`: always answered with status 200. The answer and
   * assistant-start calls of the telephony SDK are outside the model, and
   * any failure in them is caught before the response.
   */
  method HandleCallEvent(store: OrderStore, event: CallEvent) returns (status: int)
    requires store.Valid()
    modifies store
    ensures store.Valid()
    ensures status == 200
    ensures store.orders == CallEventOutcome(old(store.orders), event)
  {
    match event.eventType {
      case "call.ai_gather.ended" =>
        store.Evict(event.callControlId);
      case "call.hangup" =>
        store.Evict(event.callControlId);
      case _ =>
    }
    status := 200;
  }

}
