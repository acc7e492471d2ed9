# Phone-order backends: menu lookup and per-call order store

Three voice-agent backends (Retell, Vapi, Telnyx) take food orders over the
phone for a takeaway. Each keeps an in-memory map from a call id to the
order being built during that call. The voice agent reaches the backend
through four tools:

- `get_menu` returns the rendered menu;
- `add_to_order` finds a menu item by a spoken name and appends a line;
- `get_order_total` reads the order back;
- `confirm_order` stamps the order with the customer's name and pickup time,
  gives it an order number and removes it from the map.

Call-lifecycle messages also remove a call's order. For Vapi these are a
status update of `ended` and the end-of-call report. For Telnyx they are
hangup and the end of the AI conversation.

The model has these modules:

- `Text` covers the JavaScript string operations the code relies on:
  `includes`, `toLowerCase` (ASCII letters only), `join`, and the decimal
  rendering of integers and of `toFixed(2)`.
- `Menu` holds the eleven-item catalog and the case-insensitive three-way
  substring lookup `findMenuItem`. It also has `formatMenuForDisplay`: a
  loop that groups items by category in first-seen order (a method with
  loop invariants), followed by the rendering as pure functions.
- `Orders` holds the `OrderItem`/`Order` records and `calculateTotal`.
  Each tool is written as a pure transition function from the map before
  the call to the map after it and the reply (`AddOutcome`, `TotalOutcome`,
  `ConfirmOutcome`, `Evicted`). The class `OrderStore` owns the map field.
  Its methods update the field in place, are proved equal to those
  functions, and keep the invariant `Valid()`: every stored total equals
  the sum of price times quantity over its lines.
- `VapiAgent` models the tool-call dispatcher, the sequential run of a
  message's tool-call list and the webhook switch on the message type.
- `TelnyxAgent` models the call-id fallback chain, the tool endpoints (with
  the large-quantity alert) and the call-event webhook.

Prices are held as integer cents (13.50 is 1350). The Retell and Vapi
replies use "$" and the prompt "Would you like me to read the menu
options?". Telnyx uses "€" and "Would you like to try a different item?".
The record `Wording` carries that difference. The Retell routes are the
`OrderStore` methods called with `RetellWording` and the call's `call_id`;
the Retell backend adds no logic of its own around them.

Where the declared types and the code disagree, the model follows the code:

- `category` is a plain string. The union declared in types.ts does not
  contain the `'meal-deal'` value that every catalog item carries.
- `quantity` is not checked to be positive. The handlers only replace a
  falsy quantity by 1 and keep any other value, negative ones included.
  The model takes quantities as integers (see "## Left out").

## Model

| member | source | states |
|---|---|---|
| Menu.FindFirst | retell-agent/src/menu.ts:202-208 | `Array.find` with the three-way predicate: a returned index matches and no earlier item matches; nothing is returned exactly when no item matches |
| Menu.FindMenuItemIsFirstMatch | retell-agent/src/menu.ts:200-209 | `findMenuItem` returns an item only if it matches the lower-cased query (query in name, name in query, or query in description), and then it is the first such item in catalog order; it returns nothing exactly when no catalog item matches |
| Menu.LookupIsCaseInsensitive | retell-agent/src/menu.ts:201 | lower-casing the query first does not change the lookup's result |
| Menu.QueryContainingNameFindsItem | retell-agent/src/menu.ts:206 | a query containing an item's full name (ignoring case) finds that item or an earlier one |
| Menu.CategoryListedIffUsed | retell-agent/src/menu.ts:214-218 | a category appears among the grouped categories exactly when some item carries it |
| Menu.CategoriesDistinct | retell-agent/src/menu.ts:214-218 | each category is grouped once |
| Menu.CategoriesOfGrowsByAppending | retell-agent/src/menu.ts:214-218 | first-seen order: more items never reorder or drop the categories already seen |
| Menu.InCategoryMembers | retell-agent/src/menu.ts:214-218 | a category's group holds exactly the items of that category |
| Menu.InCategoryOfConcat | retell-agent/src/menu.ts:214-218 | groups keep catalog order: the group of a concatenation is the concatenation of the groups |
| Menu.GroupMapIsGrouping | retell-agent/src/menu.ts:214-218 | the map the loop builds has a list exactly for the categories seen, and each list is that category's items in catalog order |
| Menu.GroupByCategory | retell-agent/src/menu.ts:212-218 | the `forEach` loop builds one group per category in first-seen order, and each group holds that category's items in catalog order |
| Menu.FormatMenuForDisplay | retell-agent/src/menu.ts:211-228 | the text is the category blocks in first-seen order joined by a blank line; each block is `<category>:` and its item lines joined by newlines |
| Menu.EveryItemListedOnce | retell-agent/src/menu.ts:220-224 | over all blocks, the item lines number exactly the catalog's items |
| Menu.ItemLineInMenuText | retell-agent/src/menu.ts:222-226 | every item's line `- <name>: €<price> - <description>` appears in the menu text, and with it the item's name and its price with two decimals |
| Orders.CalculateTotalIsSumOfLines | retell-agent/src/index.ts:19-21 | `calculateTotal` is the sum of price times quantity over the lines, and 0 for no lines |
| Orders.CalculateTotalOfConcat | retell-agent/src/index.ts:19-21 | the total of two lists of lines together is the sum of their totals |
| Orders.QuantityOrDefault | retell-agent/src/index.ts:39 | `quantity \|\| 1`: an absent or zero quantity becomes 1 and any other value is kept |
| Orders.PickupTimeOrDefault | retell-agent/src/index.ts:116 | `pickupTime \|\| '20 minutes'`: an absent or empty pickup time becomes "20 minutes" and any other value is kept |
| Orders.WithOrder | retell-agent/src/index.ts:12-17 | `getOrCreateOrder` inserts an empty order only for an absent id; an existing entry and every other key are unchanged |
| Orders.AddOutcome | retell-agent/src/index.ts:33-69 | an unknown item changes no entry and replies with the apology; a known item appends exactly one line, copying the menu item's id, name and price with the defaulted quantity, keeps earlier lines, recomputes the total, changes no other key, and reports the new line count; stored totals stay consistent |
| Orders.AddRaisesTotalByLine | retell-agent/src/index.ts:60-61 | on a consistent store the reported total is the previous total plus the new line's price times quantity |
| Orders.TotalOutcome | retell-agent/src/index.ts:71-96 | the call's entry is created if absent; the empty-order reply comes exactly when the order has no lines; otherwise the reply lists the lines in order, the summary is their lines joined by ", ", and the total is their sum |
| Orders.ConfirmOutcome | retell-agent/src/index.ts:98-131 | an empty order is not confirmed and its (possibly new) empty entry stays; a non-empty one gets id `ORD-<now>`, the customer name and the defaulted pickup time, reports its total, and only that call's entry is removed |
| Orders.ConfirmedOrderIsGone | retell-agent/src/index.ts:103-121 | after a confirmation the call has no entry, and asking for the total starts a fresh empty order |
| Orders.AddThenConfirm | retell-agent/src/index.ts:51-121 | adding a known item and then confirming confirms an order ending with the added line, at the old total plus that line's, and leaves no entry for the call |
| Orders.Evicted | vapi-agent/src/index.ts:174 | `orders.delete(callId)` removes that key only and keeps stored totals consistent |
| Orders.GetMenu | retell-agent/src/index.ts:23-31 | `get_menu` replies with the rendered catalog and the catalog itself and takes no store |
| Orders.OrderStore.constructor | retell-agent/src/index.ts:10 | the store starts empty |
| Orders.OrderStore.GetOrCreateOrder | retell-agent/src/index.ts:12-17 | the map becomes `WithOrder` of the old map, and the returned order is the existing or new empty one |
| Orders.OrderStore.AddToOrder | retell-agent/src/index.ts:33-69 | the map and the reply are those of `AddOutcome`; `Valid()` is kept |
| Orders.OrderStore.GetOrderTotal | retell-agent/src/index.ts:71-96 | the map and the reply are those of `TotalOutcome`; `Valid()` is kept |
| Orders.OrderStore.ConfirmOrder | retell-agent/src/index.ts:98-131 | the map and the reply are those of `ConfirmOutcome`; `Valid()` is kept |
| Orders.OrderStore.Evict | vapi-agent/src/index.ts:174 | the map becomes `Evicted` of the old map; `Valid()` is kept |
| VapiAgent.Execute | vapi-agent/src/index.ts:40-140 | `get_menu` leaves the store unchanged; an unrecognised name returns `Unknown function: <name>` and leaves the store unchanged; the other tools are the shared transitions; stored totals stay consistent |
| VapiAgent.RunToolCalls | vapi-agent/src/index.ts:149-156 | one result per tool call, in list order, each keyed by its call's id; each call sees the store the previous one left |
| VapiAgent.ToolCallsOutcome | vapi-agent/src/index.ts:142-159 | a missing or empty tool-call list is refused with "Missing tool calls" and changes nothing; a non-empty list is always run, and the store and results are exactly those of `RunToolCalls` over the list (one result per call, in order, keyed by its id) |
| VapiAgent.WebhookOutcome | vapi-agent/src/index.ts:161-185 | `status-update` removes the entry only when the status is `ended`; `end-of-call-report` always removes it; any other non-tool message leaves the store unchanged; all three answer `received` |
| VapiAgent.AddThenConfirmInOneMessage | vapi-agent/src/index.ts:149-151 | `add_to_order` followed by `confirm_order` in one message has the effect of the two transitions composed: the confirmation sees the order the addition left |
| VapiAgent.ExecuteToolCall | vapi-agent/src/index.ts:40-140 | the store and the output are those of `Execute` |
| VapiAgent.HandleToolCalls | vapi-agent/src/index.ts:142-159 | the loop over the list produces the store and response of `ToolCallsOutcome` |
| VapiAgent.HandleWebhook | vapi-agent/src/index.ts:161-185 | the store and response are those of `WebhookOutcome` |
| TelnyxAgent.CallIdOf | telnyx-agent/src/index.ts:148 | the call id is `conversation_id` if non-empty, else `call_control_id` if non-empty, else "unknown" |
| TelnyxAgent.AddToOrder | telnyx-agent/src/index.ts:146-185 | the alert is raised exactly when the defaulted quantity exceeds 10; the store and reply are those of `AddOutcome` with the Telnyx wording |
| TelnyxAgent.LargeQuantityIsStillAdded | telnyx-agent/src/index.ts:154-176 | a quantity above 10 only raises the alert: a known item is still added and its line carries that quantity |
| TelnyxAgent.GetOrderTotal | telnyx-agent/src/index.ts:187-212 | the store and reply are those of `TotalOutcome` under the fallback call id |
| TelnyxAgent.ConfirmOrder | telnyx-agent/src/index.ts:214-247 | the store and reply are those of `ConfirmOutcome` under the fallback call id |
| TelnyxAgent.CallEventOutcome | telnyx-agent/src/index.ts:106-126 | `call.ai_gather.ended` and `call.hangup` remove the entry keyed by `call_control_id`; every other event leaves the store unchanged |
| TelnyxAgent.HandleCallEvent | telnyx-agent/src/index.ts:68-133 | the store becomes `CallEventOutcome` of the old store and the response status is always 200 |

## Left out

- Orders.QuantityOrDefault: quantities are modelled as integers. The tool schemas declare `quantity` as a JSON number, so a fractional quantity such as 2.5 would be kept by `|| 1`, multiplied into the total, printed in the reply and compared with 10 by the Telnyx alert; fractional and non-numeric values (and `null`, `false`, `""` or `NaN`, which `|| 1` also maps to 1) are not modelled, only an absent value or 0.

- HTTP plumbing is not modelled: Express routing, body parsing, `res.json`, `sendStatus`, `listen`, the health route and `process.env`. Each handler takes the already-parsed call id and arguments.
- Console logging is not modelled. This includes the Telnyx transcript dump and the large-quantity warning, which appears only as a returned flag.
- JSON serialisation of replies is not modelled. Replies are datatypes whose fields mirror the JSON fields; amount fields hold integer cents instead of the `toFixed(2)` string (the message texts do render `toFixed(2)`).
- The Telnyx SDK calls `answer` and `startAIAssistant` are foreign calls. `call.initiated` and `call.answered` are modelled as leaving the store unchanged, and a failure inside them is caught before the 200 response.
- `buildSystemPrompt` is a static prompt template and is not modelled.
- The provisioning scripts retell-agent/src/agent.ts and vapi-agent/src/assistant.ts are not part of this model. They push static literals through vendor SDKs.
- Floating-point prices are not modelled: prices are integer cents. `toFixed(2)` is rendered from cents, not from a binary float.
- `toLowerCase` is modelled on ASCII letters only; Unicode case mapping is not.
- `Date.now()` is a parameter `now`. A Vapi message uses one `now` for all of its tool calls.
- A missing `item` argument, which makes the JavaScript lookup throw, is not modelled: `item` is always a string.
- A stored order is a value in the map. Aliasing of the JavaScript order object between the map and a handler is not modelled, because no handler keeps it past the call.
- The Vapi and Telnyx backends import their own menu.js, which is not part of this model. Their lookup and rendering are modelled by the Retell catalog and functions.
- The vendor message envelopes are not modelled beyond the call id, the arguments, the message type and the call status.
- Concurrency is not modelled. The handlers run one at a time.
