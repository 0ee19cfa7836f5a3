# Curbside pickup relay: conversation and order state machine

The webhook server relays a store's curbside pickup by SMS. Its steps are:

- When a new order arrives, the customer is asked to opt in by replying YES.
- Once the customer has opted in, every text they send is classified by a language model into one of four tool calls:
  - `notify_team_arrival`: the customer is in a parking spot;
  - `call_store_manager`: a complaint;
  - `request_review`: the order was received;
  - `handle_general`.
- Each call changes the order's status (NEW → READY_FOR_PICKUP → CUSTOMER_ARRIVED → COMPLETED) and alerts the store team.
- A complaint from a customer whose parking spot is known escalates to a voice call placed with the store manager.
- The end of that call triggers a text update and two deferred follow-ups.

Under all the network and database traffic sits a small deterministic state machine. This project models it over an in-memory store and proves what it promises.

- `Domain`:
  - the store: customers keyed by phone, orders, the append-only conversation log, voice-call rows and the SMS outbox;
  - the message texts;
  - JavaScript truthiness;
  - the normalisation of an affirmative reply (`toLowerCase().trim()`).
- `Queries`: the read queries. Each `ORDER BY created_at DESC LIMIT 1` returns a newest row.
- `Classifier`: the classifier's answer is an input. This module models:
  - the scan of its output for the first function call;
  - the fallback when it throws;
  - the `undefined` result when there is no function call;
  - the five-turn history window.
- `Workflow`: every handler as a function from store to store:
  - new order;
  - ready for pickup;
  - the inbound SMS webhook with its opt-in sub-flow, gate, dispatch, complaint rule, logged turn, reply and escalation;
  - call ended, with its two follow-ups;
  - the opt-in reset.
- `Server`: the same handlers as methods of a mutable `Store` that performs the writes one at a time, in the source's order. Each method is proved to reach the state the `Workflow` function gives and to keep the store invariant.
- `Properties`: what each handler promises.
- `Invariants`: the store invariant and a proof that every sequence of webhook calls keeps it. The invariant covers:
  - ids are row numbers;
  - references resolve;
  - every opted-in customer has a logged confirmation;
  - the log and the outbox only grow.
- `Messages`: the unified message list of a phone, with the pagination finding below.
- `Scenario`: the documented demo flow, from order to review request, stage by stage.

The clock is an integer number of seconds. The 24-hour opt-in window is `createdAt > now - 86400`.

Oracle inputs:

- The classifier's answer is a `ClassifierOutcome`: either the output items or a thrown error.
- The voice provider's reply is `VapiResponse(ok, id)`. A thrown `fetch` is modelled as `ok = false` with no id, because the handler then writes nothing.
- The post-call text generation is a `PostCallGeneration`.
- `STORE_MANAGER_PHONE` and `CUSTOMER_PHONE` are the `Env` the handlers are given.

Where the code and its design description disagree, the model follows the code:

- **An answer with no function call.** The description says a classification failure is never surfaced. In the code, an answer with no function call yields `undefined`; the handler then throws while reading `aiResult.function` and answers 500 before writing anything. Only a thrown error becomes the `handle_general` fallback.
- **Row versus alert on a voice call.** The description says a voice-call row and a manager alert follow a successful call request. In the code:
  - the row needs only a call id;
  - the alert needs `ok` and an id.
- **Completing call rows.** The description says a call row is completed once. The code completes every row with the matching call id, each time the event arrives.
- **Recipient of the post-call update and follow-ups.** The update, the resolution alert lookup and the review request all go to the configured `CUSTOMER_PHONE`, not to the customer who complained.

## Model

| member | source | states |
|---|---|---|
| Domain.OptInMessageHasMarker | smart-webhook-server.js:376-498 | the opt-in request sent with a new order contains the "Reply YES" marker that the opt-in lookup searches for |
| Domain.AffirmativeIsShape | smart-webhook-server.js:494 | a body counts as YES iff it is "yes" in any letter case, surrounded only by whitespace |
| Ordering.Insert | smart-webhook-server.js:1201-1202 | inserting adds exactly the element: the result is the input plus it, as a multiset |
| Ordering.InsertKeepsBound | smart-webhook-server.js:1201-1202 | when the element and every listed key are at least `k`, so is every key after the insertion |
| Ordering.ConsKeepsSorted | smart-webhook-server.js:1201-1202 | a sorted list stays sorted when an element no larger than any of its keys goes in front |
| Ordering.InsertKeepsSorted | smart-webhook-server.js:1201-1202 | inserting into a sorted list keeps it sorted |
| Ordering.SortBy | smart-webhook-server.js:1201-1202 | the result is sorted by the key and is a permutation of the input |
| Ordering.InsertWithKey | smart-webhook-server.js:1201-1202 | inserting an element puts it before every element with its key that was already there |
| Ordering.SortByIsStable | smart-webhook-server.js:1201-1202 | elements with equal keys keep their relative order |
| Queries.ActiveOrder | smart-webhook-server.js:318-324 | an order is returned iff the phone has a non-COMPLETED order; it is such an order, none of the others is newer, and none stored after it is as new |
| Queries.LatestOrder | smart-webhook-server.js:921-925 | an order is returned iff the phone has one; it is the phone's newest order, and none of its orders stored after it is as new |
| Queries.KnownParkingSpot | smart-webhook-server.js:618-624 | no spot iff no turn of the phone recorded one; otherwise the spot of the newest such turn, the later-inserted on ties |
| Queries.OrderById | smart-webhook-server.js:1145 | an order is found iff one has the id, and it has that id |
| Classifier.FirstFunctionCall | smart-webhook-server.js:232-242 | the index of the first function-call item, or none iff there is no such item |
| Classifier.ClassifyMessage | smart-webhook-server.js:232-252 | the scan returns the first call's parsed arguments, the fixed `handle_general` greeting on a thrown error or unparsable arguments, and nothing when no item is a function call |
| Classifier.TurnsOf | smart-webhook-server.js:100-107 | exactly the phone's turns, each as many times as it is in the log |
| Classifier.SortedTail | smart-webhook-server.js:100-113 | the last `k` turns of a time-sorted list stay sorted, and no turn left out is newer than the first one kept |
| Classifier.RecentTurnsAreThePhones | smart-webhook-server.js:100-105 | every turn in the history belongs to the sender's phone |
| Classifier.RecentTurnsAreTheNewest | smart-webhook-server.js:100-113 | the history holds the phone's turns only, five of them or all if fewer, oldest first, and no omitted turn is newer than the oldest one shown |
| Classifier.HistoryContext | smart-webhook-server.js:100-113 | the fixed "no history" text exactly when the phone has no turn; otherwise a text holding the line of every turn shown |
| Properties.NewOrderEffects | smart-webhook-server.js:361-396 | a new phone gets a customer who is not opted in; a known phone changes only its name; a NEW order is appended; the opt-in request turn has no order and contains "Reply YES", and the same text is sent to the customer |
| Properties.YesWithinWindowAfterNewOrderOptsIn | smart-webhook-server.js:494-506 | after a new order, a YES from that phone within 24 hours opts the customer in |
| Properties.OptInGrantedIff | smart-webhook-server.js:494-549 | opt-in is granted iff the body is YES, the customer exists and is not opted in, and a "Reply YES" turn to the phone is younger than 24 hours |
| Properties.OptInConfirmationEffects | smart-webhook-server.js:504-549 | on opt-in, the flag and time are set, one confirmation is sent, one turn is logged, nothing else changes, and the classifier and voice answers are irrelevant |
| Properties.NoOptInWithoutRecentRequest | smart-webhook-server.js:496-504 | without a recent "Reply YES" turn, no customer changes |
| Properties.NotConfirmedKeepsCustomers | smart-webhook-server.js:494-691 | outside the opt-in sub-flow, no customer changes |
| Properties.GateDropsSilently | smart-webhook-server.js:553-568 | an unknown or not-opted-in sender, or one with no active order, leaves the store unchanged and is sent nothing |
| Properties.ChangesNeedConsent | smart-webhook-server.js:494-568 | any change is an opt-in, or is made for an opted-in sender with an active order |
| Properties.OptInOnlyByConfirmation | smart-webhook-server.js:494-568 | an opted-in customer is never changed; a customer becomes opted in only by confirming, and only the sender does |
| Properties.ReachesRespond | smart-webhook-server.js:553-577 | past the gate with a function call, the webhook is the response step |
| Properties.RespondKeepsCustomers | smart-webhook-server.js:576-817 | the response step changes no customer |
| Properties.DispatchSetsStatus | smart-webhook-server.js:580-677 | arrival sets CUSTOMER_ARRIVED and review sets COMPLETED, on exactly the active order; a complaint or a general message changes no order |
| Properties.RespondKeepsActionOrders | smart-webhook-server.js:680-817 | after the switch, logging, replying and escalating change no order |
| Properties.ActionSetsStatus | smart-webhook-server.js:580-677 | the switch sets CUSTOMER_ARRIVED or COMPLETED, as its function calls for, on the order with the active order's id and on no other |
| Properties.ArrivalAlertsStore | smart-webhook-server.js:581-611 | an arrival sends one alert with the spot to the store phone, then the reply, and nothing else |
| Properties.RespondToArrival | smart-webhook-server.js:581-611 | for an arrival the response step sends exactly the store alert with the given spot, then the reply |
| Properties.ReviewOrGeneralRepliesOnly | smart-webhook-server.js:653-691 | a review or a general message sends exactly the classifier's reply to the sender, alerts nobody and adds no call row |
| Properties.RespondReviewOrGeneral | smart-webhook-server.js:653-691 | the same for the response step |
| Properties.ClassifierErrorFallsBack | smart-webhook-server.js:244-252 | a thrown classifier error is answered and logged with the fixed greeting, and no order changes |
| Properties.MissingFunctionCallFails | smart-webhook-server.js:232-242 | an answer with no function call leaves the store unchanged, and the handler fails |
| Properties.UnparsableArgumentsFallBack | smart-webhook-server.js:235-252 | arguments that fail to parse behave like a thrown error |
| Properties.OneTurnOneReply | smart-webhook-server.js:680-691 | past the gate: one INBOUND turn is appended with the body, the order, `now`, the truthy spot argument and the final reply of the switch; the sender gets exactly one SMS, with that reply; every other message goes to the manager |
| Properties.ApplyActionFrame | smart-webhook-server.js:580-677 | the switch changes no turn, customer or call row, and only appends manager alerts |
| Properties.EscalateFrame | smart-webhook-server.js:697-817 | escalation changes no turn, customer or order, and only appends manager alerts |
| Properties.RespondOneTurnOneReply | smart-webhook-server.js:576-817 | the response step logs one turn with the final reply of the switch and sends that reply, once, to the sender; anything else goes to the manager |
| Properties.AlertsAroundReply | smart-webhook-server.js:604-791 | alerts before and after the reply leave the outbox as alerts, the reply, then alerts |
| Properties.ComplaintWithoutSpotAsksForIt | smart-webhook-server.js:618-636 | a complaint with no usable spot in the history gets the fixed ask-for-spot reply, no call row and no alert |
| Properties.NoTruthySpotKnown | smart-webhook-server.js:618-627 | a history with no non-empty spot for the phone yields no usable spot |
| Properties.ComplaintWithSpotEscalates | smart-webhook-server.js:618-817 | a complaint with a historical spot keeps the reply and records that spot, not the message's own; an INITIATED row is added iff the provider returned an id; the manager is alerted with that spot iff it also answered ok |
| Properties.RespondComplaintWithSpot | smart-webhook-server.js:612-817 | the same for the response step |
| Properties.EscalateEffects | smart-webhook-server.js:773-817 | the call row needs only the id; the alert needs ok and the id |
| Properties.NewestSpotWins | smart-webhook-server.js:618-624 | a turn with a spot that is no older than the phone's other turns becomes the known spot |
| Properties.CallEndedCompletesMatchingRows | smart-webhook-server.js:860-868 | exactly the rows with the event's call id are completed, with transcript, summary, reason, rounded duration and end time; the other rows, customers, orders and turns do not change |
| Properties.UnknownCallIdChangesNoRow | smart-webhook-server.js:860-868 | an unknown or missing call id changes no call row |
| Properties.EmptyTranscriptSendsNothing | smart-webhook-server.js:871 | an empty or missing transcript sends nothing and schedules nothing |
| Properties.TranscriptFollowUpsTargetConfiguredPhone | smart-webhook-server.js:871-994 | with a transcript, one update is texted to the configured customer phone, and two follow-ups (the manager alert, then the review request) are scheduled for that phone |
| Properties.RoundedToNearest | smart-webhook-server.js:865 | the rounded duration is within one half of the real duration |
| Properties.ReviewFollowUpCompletesNewestOrder | smart-webhook-server.js:960-994 | the review follow-up texts the review request for the phone's newest order and completes exactly that order; with no order it does nothing |
| Properties.ManagerFollowUpOnlyAlerts | smart-webhook-server.js:918-958 | the resolution follow-up sends at most one message, only to the manager, and exactly when the phone has an order |
| Properties.OrderReadyGatedOnOptIn | smart-webhook-server.js:432-457 | success iff the customer exists and is opted in; on failure nothing changes; on success every order with the number becomes READY_FOR_PICKUP and one ready message is sent |
| Properties.ResetOptInEffects | smart-webhook-server.js:1605-1648 | a known phone's flag and time are cleared and nothing else changes; an unknown phone changes nothing |
| Invariants.StatusChangePreserves | smart-webhook-server.js:333-335 | a status update keeps the store valid and growing |
| Invariants.SendPreserves | smart-webhook-server.js:687-691 | sending an SMS keeps the store valid and growing |
| Invariants.AppendTurnPreserves | smart-webhook-server.js:326-331 | appending a numbered turn that points at an existing order keeps the store valid and growing |
| Invariants.LogPreserves | smart-webhook-server.js:326-331 | logging a turn keeps the store valid and growing |
| Invariants.UpsertPreserves | smart-webhook-server.js:361-366 | the customer upsert keeps the store valid and growing |
| Invariants.RenamePreserves | smart-webhook-server.js:361-366 | renaming a known customer keeps the store valid and growing |
| Invariants.AddCustomerPreserves | smart-webhook-server.js:361-366 | inserting an unknown phone as a not-opted-in customer with the next id keeps the store valid and growing |
| Invariants.AppendOrderPreserves | smart-webhook-server.js:368-373 | appending an order numbered after the last one, for a known customer, keeps the store valid and growing |
| Invariants.NewOrderPreserves | smart-webhook-server.js:342-411 | a new order keeps the store valid and growing |
| Invariants.OptInRequestPreserves | smart-webhook-server.js:375-396 | sending the opt-in request and logging it as a turn without an order keeps the store valid and growing |
| Invariants.OrderReadyPreserves | smart-webhook-server.js:414-466 | ready-for-pickup keeps the store valid and growing |
| Invariants.ConfirmOptInPreserves | smart-webhook-server.js:504-549 | the opt-in confirmation keeps the store valid; the consent is on record |
| Invariants.EscalatePreserves | smart-webhook-server.js:697-817 | escalation keeps the store valid and growing |
| Invariants.RespondPreserves | smart-webhook-server.js:576-817 | the response step keeps the store valid and growing |
| Invariants.ApplyActionPreserves | smart-webhook-server.js:580-677 | the switch's status change and staff alert keep the store valid and growing, and add no order and no turn |
| Invariants.InboundSmsPreserves | smart-webhook-server.js:469-833 | the inbound SMS webhook keeps the store valid and growing |
| Invariants.OptInBranchPreserves | smart-webhook-server.js:494-549 | the webhook, when the opt-in sub-flow applies, keeps the store valid and growing |
| Invariants.ReplyBranchPreserves | smart-webhook-server.js:551-833 | the webhook, past the opt-in sub-flow, keeps the store valid and growing |
| Invariants.CallEndedPreserves | smart-webhook-server.js:836-1011 | call-ended keeps the store valid and growing |
| Invariants.FollowUpPreserves | smart-webhook-server.js:918-994 | either follow-up keeps the store valid and growing |
| Invariants.ResetOptInPreserves | smart-webhook-server.js:1605-1648 | the opt-in reset keeps the store valid and growing |
| Invariants.StepPreserves | smart-webhook-server.js:342-1011 | any one webhook call or follow-up keeps the store valid and growing |
| Invariants.RunPreserves | smart-webhook-server.js:342-1011 | any sequence of webhook calls from a valid store keeps it valid: the log and outbox only grow, and orders only change status |
| Messages.CallItemOf | smart-webhook-server.js:1175-1198 | a call item has the row's time, and shows the fallback text iff the transcript is missing, empty or that text |
| Messages.CallsOf | smart-webhook-server.js:1129-1148 | exactly the call rows whose order belongs to the phone, each as many times as it is stored |
| Messages.SmsItems | smart-webhook-server.js:1106-1172 | one item per turn of the phone, in time order; every item shows a turn of the phone and every such turn is shown |
| Messages.CallItems | smart-webhook-server.js:1129-1198 | one item per call row of the phone, in time order; every item shows a call row of the phone's orders and every such row is shown |
| Messages.AllMessages | smart-webhook-server.js:1201-1202 | the SMS and call items merged, sorted by time; a permutation of both lists; the total is the sum of the two counts |
| Messages.SameTimeKeepsSourceOrder | smart-webhook-server.js:1201-1202 | items with equal times keep their order, SMS items before call items |
| Messages.NumberToString | smart-webhook-server.js:1205 | `String(n)` is a digit string denoting n |
| Messages.JsSlice | smart-webhook-server.js:1205 | the slice is at most end − start long, is the clamped subsequence, and is empty when start is past the end |
| Messages.ListMessagesAsWritten | smart-webhook-server.js:1099-1217 | the counts add up, and the page is sliced up to the end index that `offset + limit` yields |
| Messages.Page | smart-webhook-server.js:1205 | with numeric bounds the slice holds at most `count` items, those starting at `from`, and none when `from` is past the end |
| Messages.ListMessages | smart-webhook-server.js:1201-1217 | the counts add up; the page holds at most `limit` items, those starting at `offset` in time order |
| Messages.DecimalConcat | smart-webhook-server.js:1205 | concatenating digit strings shifts the first one's value by the second one's length |
| Messages.EndAsWrittenValue | smart-webhook-server.js:1102-1205 | the end index is the limit when no offset is given, and otherwise the offset's digits followed by the limit's |
| Messages.AsWrittenAgreesWithoutOffset | smart-webhook-server.js:1102-1205 | without an offset, the page is the one numeric pagination gives |
| Messages.AsWrittenOverrunsLimit | smart-webhook-server.js:1205 | `offset=1&limit=2` on at least 12 messages gives 11 items instead of 2 |
| Server.Store.SendSms | smart-webhook-server.js:687-691 | appends the message to the outbox |
| Server.Store.LogConversation | smart-webhook-server.js:326-331 | appends one INBOUND turn |
| Server.Store.UpdateOrderStatus | smart-webhook-server.js:333-335 | sets the status of the order with the id |
| Server.Store.UpsertCustomer | smart-webhook-server.js:361-366 | the upsert's new customers map, and the id of the phone's customer |
| Server.Store.InsertOrder | smart-webhook-server.js:368-373 | appends the order |
| Server.Store.NewOrder | smart-webhook-server.js:342-411 | the writes of a new order, in order, reach the new-order state and keep the store valid |
| Server.Store.OrderReady | smart-webhook-server.js:414-466 | the gated status update and message, with the success flag |
| Server.Store.InboundSms | smart-webhook-server.js:469-833 | the webhook's writes reach the state and outcome of the inbound step and keep the store valid |
| Server.Store.ConfirmOptIn | smart-webhook-server.js:504-549 | the opt-in update, confirmation and logged turn |
| Server.Store.Dispatch | smart-webhook-server.js:576-677 | the switch reassigns the reply, the call flag and the spot argument as the decision says, and performs the action's writes |
| Server.Store.Respond | smart-webhook-server.js:576-817 | the switch, the logged turn, the reply and the escalation |
| Server.Store.Escalate | smart-webhook-server.js:697-817 | the manager alert and the call row, under their conditions |
| Server.Store.CallEnded | smart-webhook-server.js:836-1011 | completes matching rows, sends the update and returns the follow-ups, keeping the store valid |
| Server.Store.RunFollowUp | smart-webhook-server.js:918-994 | runs one deferred follow-up, keeping the store valid |
| Server.Store.ResetOptIn | smart-webhook-server.js:1605-1648 | clears the opt-in of a known phone; false for an unknown one |
| Scenario.PlaceStep | smart-webhook-server.js:342-411 | order A100 for Jane creates her as not opted in and asks her to opt in |
| Scenario.OptInStep | smart-webhook-server.js:494-549 | her YES a minute later opts her in and confirms |
| Scenario.ArrivalStep | smart-webhook-server.js:581-611 | "spot 7" marks the order CUSTOMER_ARRIVED, alerts the store, then replies, and leaves customers and calls alone |
| Scenario.ArrivalLogged | smart-webhook-server.js:680-691 | the arrival is logged as Jane's turn with spot 7, which becomes her known spot |
| Scenario.ComplaintEscalates | smart-webhook-server.js:612-817 | her complaint replies, alerts the manager with spot 7 and adds one INITIATED row, leaving the order alone |
| Scenario.ComplaintLogged | smart-webhook-server.js:680-691 | the complaint is logged as one more turn of Jane's and leaves the customers alone |
| Scenario.ComplaintKeepsSpot | smart-webhook-server.js:618-643 | after the complaint, spot 7 is still the known spot |
| Scenario.CallEndedStep | smart-webhook-server.js:860-917 | the call's row is completed with a duration of 43 s, the update goes out, and both follow-ups are scheduled |
| Scenario.FollowUpSteps | smart-webhook-server.js:918-994 | the manager hears that the issue is resolved at spot 7, then Jane is asked for a review |
| Scenario.FollowUpsComplete | smart-webhook-server.js:918-994 | after both follow-ups the order is COMPLETED |
| Scenario.AfterComplaint | smart-webhook-server.js:836-994 | from the escalation on, the call row is completed, both follow-ups are scheduled and the order ends COMPLETED |
| Scenario.AfterArrival | smart-webhook-server.js:612-994 | from the arrival on, the complaint adds the call row and the order ends COMPLETED |
| Scenario.EndToEnd | smart-webhook-server.js:342-994 | the whole demo flow, from the empty store to the COMPLETED order |

## Left out

- WebSocket fanout (`broadcastNotification` and its client set): best-effort network delivery, with no effect on the store.
- Language-model prompts and generated wording: the classifier's answer and the post-call text are inputs. Only what the handlers do with them is modelled.
- The Twilio and voice-provider network clients: a send is an append to the outbox, and the voice request is its response. The body of the call request (the assistant's instructions) is not modelled.
- Failures part-way through a handler (a database or Twilio error after some writes): each handler is modelled as completing all its writes or, where the code fails before writing (no function call), none.
- Real timers: the 10 s and 15 s delays are not modelled. The follow-ups are returned and run later as explicit steps, in any interleaving with other calls.
- Concurrency: concurrent webhooks for the same phone are not modelled. The model is one call at a time, so the race between the opt-in check and its update is not captured.
- `updated_at` and the intent passed to `logConversation`: no modelled handler reads them back.
- The display fields of the message list: the item ids, the customer name, order number, store name and order status joined onto each SMS item, the joined order fields and `call_duration` of each call item, and the call item's `system` role. An item carries its row, its time and its text; the text of an SMS item is the logged message, which the webhook always sets, so `message_content || ''` has nothing to replace.
- The store name and address of an order: only the message list reads the store name back, as a display field.
- One `now` per handler call: every write of one handler call uses the same time. In the code each `NOW()` is read by its own statement, so the opt-in time (line 506) and the confirmation turn's time (line 532) can differ. The invariant asks only that the confirmation is not older than the recorded opt-in time.
- Ties in `ORDER BY created_at DESC LIMIT 1`: SQL does not say which row wins. Queries.ActiveOrder, Queries.LatestOrder and Queries.KnownParkingSpot choose the newest row stored last.
- The schema's defaults and constraints: they live in the database, outside this file. The model's store starts empty, and ids are row numbers.
- The SQL read endpoints, `/api/send-sms`, the health check, startup and logging.
- Query parameters of the message list that are not missing and not a digit string (negative numbers, signs, letters, arrays): they are excluded by `WellFormed`.
- Domain.ToLower: only ASCII letters are lower-cased. Other scripts' case mappings are not modelled; the YES test depends only on the letters y, e and s and on whitespace.
- Ordering.SortBy: `ORDER BY created_at ASC` in SQL does not define the order of ties. The model keeps insertion order, like JavaScript's stable sort.
- Messages.CallsOf: assumes order ids are unique, as they are in a valid store. The join then yields each row at most once.
- Scenario.EndToEnd: the exact contents of every message in the flow are stated stage by stage in the step lemmas, not in one lemma.

## Findings

| source | as written | input that shows it | evidently intended | confidence | as-written member | corrected member |
|---|---|---|---|---|---|---|
| smart-webhook-server.js:1205 | `limit` and `offset` come from the query string as strings, so `offset + limit` concatenates them and the slice ends at that concatenated index | `GET /api/conversations/P/messages?offset=1&limit=2` for a phone with at least 12 messages: the end index is "12", so 11 messages come back | numeric pagination: at most `limit` messages, starting at `offset` | not executed | Messages.AsWrittenOverrunsLimit | Messages.ListMessages |
