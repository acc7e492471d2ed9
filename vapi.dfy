/**
 * The Vapi backend (vapi-agent/src/index.ts): one webhook receives either a
 * list of tool calls, run one after another against the same call id, or a
 * call-status message that may evict the call's order.
 */
module VapiAgent {
  import opened Wrappers
  import opened Menu
  import opened Orders

  /** The `arguments` object of a tool call, reduced to the fields the tools read. */
  datatype ToolArguments = ToolArguments(item: string, quantity: Option<int>, notes: Option<string>,
                                         customerName: Option<string>, pickupTime: Option<string>)

  datatype ToolCall = ToolCall(id: string, name: string, arguments: ToolArguments)

  /** What `executeToolCall` serialises into its result string. */
  datatype ToolOutput =
    | MenuOutput(menuReply: MenuReply)
    | AddOutput(addReply: AddReply)
    | TotalOutput(totalReply: TotalReply)
    | ConfirmOutput(confirmReply: ConfirmReply)
    | UnknownFunction(error: string)

  datatype ToolCallResult = ToolCallResult(toolCallId: string, result: ToolOutput)

  /** `message.type`, `message.toolCallList`, `message.call.id` and `message.call.status`. */
  datatype WebhookMessage = WebhookMessage(kind: string, toolCallList: Option<seq<ToolCall>>, callId: string, status: Option<string>)

  datatype WebhookResponse =
    | ToolResults(results: seq<ToolCallResult>)   // 200 `{ results }`
    | MissingToolCalls(error: string)             // 400 `{ error: 'Missing tool calls' }`
    | Received                                    // 200 `{ received: true }`

  /** `executeToolCall(callId, toolCall)`: dispatch on the function name. */
  function Execute(orders: map<string, Order>, callId: string, call: ToolCall, now: int): (out: (map<string, Order>, ToolOutput))
    ensures call.name == "get_menu" ==> out == (orders, MenuOutput(MenuReply(MenuText(Catalog), Catalog)))
    ensures call.name !in {"get_menu", "add_to_order", "get_order_total", "confirm_order"} ==>
              out == (orders, UnknownFunction("Unknown function: " + call.name))
    ensures Consistent(orders) ==> Consistent(out.0)
  {
    var args := call.arguments;
    match call.name
    case "get_menu" => (orders, MenuOutput(MenuReply(MenuText(Catalog), Catalog)))
    case "add_to_order" =>
      var (after, reply) := AddOutcome(orders, callId, args.item, args.quantity, args.notes, VapiWording);
      (after, AddOutput(reply))
    case "get_order_total" =>
      var (after, reply) := TotalOutcome(orders, callId, VapiWording);
      (after, TotalOutput(reply))
    case "confirm_order" =>
      var (after, reply) := ConfirmOutcome(orders, callId, args.customerName, args.pickupTime, now, VapiWording);
      (after, ConfirmOutput(reply))
    case _ => (orders, UnknownFunction("Unknown function: " + call.name))
  }

  /** `toolCallList.map(...)`: the calls run in list order, each seeing the store the previous one left. */
  function RunToolCalls(orders: map<string, Order>, callId: string, calls: seq<ToolCall>, now: int)
    : (out: (map<string, Order>, seq<ToolCallResult>))
    ensures |out.1| == |calls|
    ensures forall i :: 0 <= i < |calls| ==> out.1[i].toolCallId == calls[i].id
    ensures Consistent(orders) ==> Consistent(out.0)
  {
    if |calls| == 0 then (orders, [])
    else
      var (middle, earlier) := RunToolCalls(orders, callId, calls[..|calls| - 1], now);
      var last := calls[|calls| - 1];
      var step := Execute(middle, callId, last, now);
      assert forall i :: 0 <= i < |calls| - 1 ==> earlier[i].toolCallId == calls[i].id;
      (step.0, earlier + [ToolCallResult(last.id, step.1)])
  }

  /** `handleToolCalls(message)`: a missing or empty list is refused and changes nothing. */
  function ToolCallsOutcome(orders: map<string, Order>, message: WebhookMessage, now: int)
    : (out: (map<string, Order>, WebhookResponse))
    ensures message.toolCallList.None? || |message.toolCallList.value| == 0 ==>
              out == (orders, MissingToolCalls("Missing tool calls"))
    ensures message.toolCallList.Some? && |message.toolCallList.value| > 0 ==>
              var run := RunToolCalls(orders, message.callId, message.toolCallList.value, now);
              out == (run.0, ToolResults(run.1))
    ensures out.1.ToolResults? ==> message.toolCallList.Some? && |out.1.results| == |message.toolCallList.value|
    ensures Consistent(orders) ==> Consistent(out.0)
  {
    if message.toolCallList.None? || |message.toolCallList.value| == 0 then
      (orders, MissingToolCalls("Missing tool calls"))
    else
      var (after, results) := RunToolCalls(orders, message.callId, message.toolCallList.value, now);
      (after, ToolResults(results))
  }

  /** The `/webhook/vapi` switch on `message.type`. */
  function WebhookOutcome(orders: map<string, Order>, message: WebhookMessage, now: int)
    : (out: (map<string, Order>, WebhookResponse))
    ensures message.kind == "status-update" ==>
              out == (if message.status == Some("ended") then Evicted(orders, message.callId) else orders, Received)
    ensures message.kind == "end-of-call-report" ==> out == (Evicted(orders, message.callId), Received)
    ensures message.kind !in {"tool-calls", "status-update", "end-of-call-report"} ==> out == (orders, Received)
    ensures Consistent(orders) ==> Consistent(out.0)
  {
    match message.kind
    case "tool-calls" => ToolCallsOutcome(orders, message, now)
    case "status-update" =>
      (if message.status == Some("ended") then Evicted(orders, message.callId) else orders, Received)
    case "end-of-call-report" => (Evicted(orders, message.callId), Received)
    case _ => (orders, Received)
  }

  lemma ExecuteAddToOrder(orders: map<string, Order>, callId: string, call: ToolCall, now: int)
    requires call.name == "add_to_order"
    ensures var args := call.arguments;
            var added := AddOutcome(orders, callId, args.item, args.quantity, args.notes, VapiWording);
            Execute(orders, callId, call, now) == (added.0, AddOutput(added.1))
  {
  }

  lemma ExecuteConfirmOrder(orders: map<string, Order>, callId: string, call: ToolCall, now: int)
    requires call.name == "confirm_order"
    ensures var args := call.arguments;
            var confirmed := ConfirmOutcome(orders, callId, args.customerName, args.pickupTime, now, VapiWording);
            Execute(orders, callId, call, now) == (confirmed.0, ConfirmOutput(confirmed.1))
  {
  }

  /** Two calls in one message: the second runs against the store the first left. */
  lemma RunTwoToolCalls(orders: map<string, Order>, callId: string, first: ToolCall, second: ToolCall, now: int)
    ensures var middle := Execute(orders, callId, first, now).0;
            && RunToolCalls(orders, callId, [first, second], now).0 == Execute(middle, callId, second, now).0
            && RunToolCalls(orders, callId, [first, second], now).1[1].result == Execute(middle, callId, second, now).1
  {
    assert [first][..0] == [];
    assert RunToolCalls(orders, callId, [], now) == (orders, []);
    var one := RunToolCalls(orders, callId, [first], now);
    assert one.0 == Execute(orders, callId, first, now).0;
    assert [first, second][..1] == [first];
  }

  /**
   * An `add_to_order` call followed by a `confirm_order` call in one message
   * has the effect of the two transitions composed: the confirmation sees
   * the order the addition left, so (by `Orders.AddThenConfirm`) a known
   * item is confirmed together with the rest of the order.
   */
  lemma AddThenConfirmInOneMessage(orders: map<string, Order>, callId: string, add: ToolCall, confirm: ToolCall, now: int)
    requires add.name == "add_to_order" && confirm.name == "confirm_order"
    ensures var args := add.arguments;
            var added := AddOutcome(orders, callId, args.item, args.quantity, args.notes, VapiWording);
            var confirmed := ConfirmOutcome(added.0, callId, confirm.arguments.customerName,
                                            confirm.arguments.pickupTime, now, VapiWording);
            var out := RunToolCalls(orders, callId, [add, confirm], now);
            out.0 == confirmed.0 && out.1[1].result == ConfirmOutput(confirmed.1)
  {
    var args := add.arguments;
    var added := AddOutcome(orders, callId, args.item, args.quantity, args.notes, VapiWording);
    var middle := Execute(orders, callId, add, now).0;
    assert middle == added.0 by {
      ExecuteAddToOrder(orders, callId, add, now);
    }
    var confirmed := ConfirmOutcome(middle, callId, confirm.arguments.customerName, confirm.arguments.pickupTime, now, VapiWording);
    assert Execute(middle, callId, confirm, now) == (confirmed.0, ConfirmOutput(confirmed.1)) by {
      ExecuteConfirmOrder(middle, callId, confirm, now);
    }
    RunTwoToolCalls(orders, callId, add, confirm, now);
  }

  /** `executeToolCall` performing its side effects on the store. */
  method ExecuteToolCall(store: OrderStore, callId: string, call: ToolCall, now: int) returns (output: ToolOutput)
    requires store.Valid()
    modifies store
    ensures store.Valid()
    ensures (store.orders, output) == Execute(old(store.orders), callId, call, now)
  {
    var args := call.arguments;
    match call.name
    case "get_menu" =>
      var reply := GetMenu();
      output := MenuOutput(reply);
    case "add_to_order" =>
      var reply := store.AddToOrder(callId, args.item, args.quantity, args.notes, VapiWording);
      output := AddOutput(reply);
    case "get_order_total" =>
      var reply := store.GetOrderTotal(callId, VapiWording);
      output := TotalOutput(reply);
    case "confirm_order" =>
      var reply := store.ConfirmOrder(callId, args.customerName, args.pickupTime, now, VapiWording);
      output := ConfirmOutput(reply);
    case _ =>
      output := UnknownFunction("Unknown function: " + call.name);
  }

  /** `handleToolCalls`: one keyed result per call, in list order. */
  method HandleToolCalls(store: OrderStore, message: WebhookMessage, now: int) returns (response: WebhookResponse)
    requires store.Valid()
    modifies store
    ensures store.Valid()
    ensures (store.orders, response) == ToolCallsOutcome(old(store.orders), message, now)
  {
    if message.toolCallList.None? || |message.toolCallList.value| == 0 {
      response := MissingToolCalls("Missing tool calls");
      return;
    }
    var calls := message.toolCallList.value;
    var results: seq<ToolCallResult> := [];
    for i := 0 to |calls|
      invariant store.Valid()
      invariant (store.orders, results) == RunToolCalls(old(store.orders), message.callId, calls[..i], now)
    {
      assert calls[..i + 1][..i] == calls[..i];
      var result := ExecuteToolCall(store, message.callId, calls[i], now);
      results := results + [ToolCallResult(calls[i].id, result)];
    }
    assert calls[..|calls|] == calls;
    response := ToolResults(results);
  }

  /** The `/webhook/vapi` handler. */
  method HandleWebhook(store: OrderStore, message: WebhookMessage, now: int) returns (response: WebhookResponse)
    requires store.Valid()
    modifies store
    ensures store.Valid()
    ensures (store.orders, response) == WebhookOutcome(old(store.orders), message, now)
  {
    match message.kind
    case "tool-calls" =>
      response := HandleToolCalls(store, message, now);
    case "status-update" =>
      if message.status == Some("ended") {
        store.Evict(message.callId);
      }
      response := Received;
    case "end-of-call-report" =>
      store.Evict(message.callId);
      response := Received;
    case _ =>
      response := Received;
  }

}
