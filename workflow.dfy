/**
 * The conversation and order state machine as functions from the store before
 * a webhook to the store after it. Each handler's database writes and sent
 * messages appear in the order the handler performs them. The class in
 * server.dfy performs the same writes step by step and is proved to end in
 * the state these functions give.
 */
module Workflow {
  import opened Wrappers
  import opened Domain
  import opened Queries
  import opened Classifier

  // -------------------------------------------------------------------------
  // Writes shared by the handlers

  /** `UPDATE orders SET status = $1 WHERE <selected>` */
  function WithStatus(orders: seq<Order>, selected: Order -> bool, status: OrderStatus): (r: seq<Order>)
    ensures |r| == |orders|
    ensures forall i :: 0 <= i < |orders| ==>
      r[i] == if selected(orders[i]) then orders[i].(status := status) else orders[i]
  {
    seq(|orders|, i requires 0 <= i < |orders| =>
      if selected(orders[i]) then orders[i].(status := status) else orders[i])
  }

  /** `updateOrderStatus(orderId, status)` */
  function UpdateOrderStatus(db: Db, orderId: nat, status: OrderStatus): Db {
    db.(orders := WithStatus(db.orders, (o: Order) => o.id == orderId, status))
  }

  /** `logConversation`: appends an INBOUND turn. */
  function LogConversation(db: Db, customerId: nat, orderId: Option<nat>, phone: Phone, content: string,
                           response: string, sentiment: Sentiment, spot: Option<string>, now: int): Db
  {
    AddTurn(db, Turn(|db.conversations| + 1, Some(customerId), orderId, phone, Some(Inbound),
                     content, response, Some(sentiment), spot, now))
  }

  /** `client.messages.create({body, to})` */
  function Send(db: Db, to: Phone, body: string): Db {
    db.(outbox := db.outbox + [Sms(to, body)])
  }

  // -------------------------------------------------------------------------
  // POST /rural-king/new-order

  datatype NewOrderRequest = NewOrderRequest(
    customerPhone: Phone, customerName: string, orderId: string, storeName: string, storeAddress: string)

  /**
   * Upserts the customer (a new one is not opted in; an existing one only gets
   * the new name), inserts a NEW order, sends the opt-in request and logs it
   * as a turn without an order. The upsert draws a customer id either way.
   */
  function NewOrder(db: Db, req: NewOrderRequest, now: int): Db {
    var phone := req.customerPhone;
    var db1 := UpsertCustomer(db, phone, req.customerName);
    var db2 := AddOrder(db1, Order(|db.orders| + 1, req.orderId, phone, req.customerName, req.storeName,
                                   req.storeAddress, New, now));
    var optIn := OptInMessage(req.orderId);
    var db3 := Send(db2, phone, optIn);
    AddTurn(db3, Turn(|db3.conversations| + 1, Some(db1.customers[phone].id), None, phone, None,
                      NewOrderContent, optIn, None, None, now))
  }

  /** The `INSERT ... ON CONFLICT (phone) DO UPDATE SET name`; it draws a customer id either way. */
  function UpsertCustomer(db: Db, phone: Phone, name: string): (r: Db)
    ensures phone in r.customers
  {
    var customers :=
      if phone in db.customers then db.customers[phone := db.customers[phone].(name := name)]
      else db.customers[phone := Customer(db.customerSeq + 1, name, false, None)];
    db.(customers := customers, customerSeq := db.customerSeq + 1)
  }

  function AddOrder(db: Db, order: Order): Db {
    db.(orders := db.orders + [order])
  }

  function AddTurn(db: Db, turn: Turn): Db {
    db.(conversations := db.conversations + [turn])
  }

  // -------------------------------------------------------------------------
  // POST /rural-king/ready-for-pickup

  datatype ReadyRequest = ReadyRequest(customerPhone: Phone, customerName: string, orderId: string, storeName: string)

  /**
   * Only for a known, opted-in customer: every order carrying the order number
   * becomes READY_FOR_PICKUP and the ready message is sent. The flag is the
   * response's `success`.
   */
  function OrderReady(db: Db, req: ReadyRequest): (Db, bool) {
    var customer := GetCustomer(db.customers, req.customerPhone);
    if customer.None? || !customer.value.optedIn then (db, false)
    else
      var db1 := db.(orders := WithStatus(db.orders, (o: Order) => o.orderNumber == req.orderId, ReadyForPickup));
      (Send(db1, req.customerPhone, ReadyMessage(req.customerName, req.orderId, req.storeName)), true)
  }

  // -------------------------------------------------------------------------
  // POST /webhook/sms

  datatype InboundMessage = InboundMessage(from: Phone, to: Phone, body: string)

  /**
   * What the voice provider answered to the call request. A request that throws
   * has the effects of `VapiResponse(false, None)`.
   */
  datatype VapiResponse = VapiResponse(ok: bool, id: Option<string>)

  datatype SmsOutcome =
    | OptInConfirmed
    | NotOptedIn        // unknown or not opted-in sender: dropped
    | NoActiveOrder     // dropped
    | ClassifierFailed  // the handler throws and answers 500
    | Replied(call: FunctionCall)

  /** The opt-in sub-flow is taken. */
  predicate OptInApplies(db: Db, msg: InboundMessage, now: int) {
    && IsAffirmative(msg.body)
    && msg.from in db.customers
    && !db.customers[msg.from].optedIn
    && HasRecentOptInRequest(db.conversations, msg.from, now)
  }

  function ConfirmOptIn(db: Db, msg: InboundMessage, now: int): Db
    requires msg.from in db.customers
  {
    var customer := db.customers[msg.from].(optedIn := true, optedInAt := Some(now));
    var db1 := db.(customers := db.customers[msg.from := customer]);
    var db2 := Send(db1, msg.from, OptInConfirmation);
    LogConversation(db2, customer.id, None, msg.from, msg.body, OptInConfirmation, Positive, None, now)
  }

  /** The reply, whether to call the manager, and the parking spot argument after the switch. */
  datatype Decision = Decision(response: string, triggerCall: bool, parkingSpot: Option<string>)

  /**
   * The complaint rule: with no known parking spot in the history the reply
   * asks for one and no call is made; with one, the classifier's reply stands,
   * the call is made, and the spot from the history replaces the spot argument.
   */
  function EvaluateComplaint(conversations: seq<Turn>, phone: Phone, call: FunctionCall): Decision
    requires call.CallStoreManager?
  {
    var known := Truthy(KnownParkingSpot(conversations, phone));
    if known.None? then Decision(AskForParkingSpot, false, call.spotIfKnown)
    else Decision(call.responseMessage, true, known)
  }

  function Decide(conversations: seq<Turn>, phone: Phone, call: FunctionCall): Decision {
    if call.CallStoreManager? then EvaluateComplaint(conversations, phone, call)
    else Decision(call.responseMessage, false, ParkingSpotArg(call))
  }

  /** The status change and staff alert of the switch on the classifier's function. */
  function ApplyAction(db: Db, env: Env, customer: Customer, order: Order, call: FunctionCall): Db {
    match call
    case NotifyTeamArrival(spot, _, _, _) =>
      var db1 := UpdateOrderStatus(db, order.id, CustomerArrived);
      Send(db1, env.storeManagerPhone, ArrivalAlert(order.orderNumber, spot, customer.name))
    case RequestReview(_, _) => UpdateOrderStatus(db, order.id, Completed)
    case _ => db
  }

  /**
   * The escalation call: the manager's "call started" alert needs `ok` and an
   * id; the `vapi_calls` row needs only the id.
   */
  function Escalate(db: Db, env: Env, msg: InboundMessage, customer: Customer, order: Order,
                    spot: Option<string>, vapi: VapiResponse, now: int): Db
  {
    var callId := Truthy(vapi.id);
    var db1 :=
      if vapi.ok && callId.Some? then
        Send(db, env.storeManagerPhone, CallStartedAlert(customer.name, order.orderNumber, OrUnknown(spot), msg.body))
      else db;
    if callId.Some? then
      db1.(vapiCalls := db1.vapiCalls + [VapiCall(|db1.vapiCalls| + 1, order.id, callId.value, Initiated,
                                                  None, None, None, None, now, None)])
    else db1
  }

  /** Everything after classification: action, one logged turn, one reply, maybe the escalation. */
  function Respond(db: Db, env: Env, msg: InboundMessage, customer: Customer, order: Order,
                   call: FunctionCall, vapi: VapiResponse, now: int): Db
  {
    var decision := Decide(db.conversations, msg.from, call);
    var db1 := ApplyAction(db, env, customer, order, call);
    var db2 := LogConversation(db1, customer.id, Some(order.id), msg.from, msg.body, decision.response,
                               Neutral, Truthy(decision.parkingSpot), now);
    var db3 := Send(db2, msg.from, decision.response);
    if decision.triggerCall then Escalate(db3, env, msg, customer, order, decision.parkingSpot, vapi, now)
    else db3
  }

  /** The inbound SMS webhook; `ai` and `vapi` are what the two oracles answered. */
  function InboundSms(db: Db, env: Env, msg: InboundMessage, now: int,
                      ai: ClassifierOutcome, vapi: VapiResponse): (Db, SmsOutcome)
  {
    if OptInApplies(db, msg, now) then (ConfirmOptIn(db, msg, now), OptInConfirmed)
    else
      var customer := GetCustomer(db.customers, msg.from);
      if customer.None? || !customer.value.optedIn then (db, NotOptedIn)
      else
        match ActiveOrder(db.orders, msg.from)
        case None => (db, NoActiveOrder)
        case Some(order) =>
          match ProcessMessageWithAI(ai)
          case None => (db, ClassifierFailed)
          case Some(call) => (Respond(db, env, msg, customer.value, order, call, vapi, now), Replied(call))
  }

  // -------------------------------------------------------------------------
  // POST /vapi/call-ended

  /** The payload's `call`: missing, present without an id, or with one. */
  datatype CallRef = NoCall | CallWithoutId | CallWithId(id: string)

  datatype CallEndedEvent = CallEndedEvent(
    call: CallRef, transcript: Option<string>, summary: Option<string>,
    endedReason: Option<string>, durationSeconds: Option<real>)

  /** What the post-call text generation produced: an error, or the text (None when empty). */
  datatype PostCallGeneration = GenerationFailed | Generated(text: Option<string>)

  /** The two deferred actions the handler schedules, with the phone they target. */
  datatype FollowUp = ManagerAlert(phone: Phone) | ReviewRequest(phone: Phone)

  datatype CallEndedOutcome = CallEndedOutcome(success: bool, followUps: seq<FollowUp>)

  /** `Math.round`: halves go up. */
  function JsRound(x: real): int {
    (x + 0.5).Floor
  }

  /** `Math.round(durationSeconds || 0)` */
  function RoundedDuration(d: Option<real>): int {
    if d.Some? then JsRound(d.value) else 0
  }

  function PostCallText(gen: PostCallGeneration): string
    requires gen.Generated?
  {
    Truthy(gen.text).GetOr(PostCallFallback)
  }

  /** `UPDATE vapi_calls SET call_status = 'COMPLETED', … WHERE call_id = $6` */
  function CompleteCalls(calls: seq<VapiCall>, callId: string, ev: CallEndedEvent, now: int): (r: seq<VapiCall>)
    ensures |r| == |calls|
  {
    seq(|calls|, i requires 0 <= i < |calls| =>
      if calls[i].callId == callId then
        calls[i].(status := CallCompleted, transcript := ev.transcript, summary := ev.summary,
                  durationSeconds := Some(RoundedDuration(ev.durationSeconds)),
                  endedReason := ev.endedReason, endedAt := Some(now))
      else calls[i])
  }

  /**
   * Completes the matching call rows; with a transcript, texts the generated
   * update to the configured customer phone and schedules the two follow-ups
   * for that phone. Generation failing, or a transcript without any `call`
   * object, makes the handler throw after the row update.
   */
  function CallEnded(db: Db, env: Env, ev: CallEndedEvent, gen: PostCallGeneration, now: int): (Db, CallEndedOutcome) {
    var db1 :=
      if ev.call.CallWithId? && ev.call.id != "" then db.(vapiCalls := CompleteCalls(db.vapiCalls, ev.call.id, ev, now))
      else db;
    if Truthy(ev.transcript).None? then (db1, CallEndedOutcome(true, []))
    else if gen.GenerationFailed? || ev.call.NoCall? then (db1, CallEndedOutcome(false, []))
    else
      (Send(db1, env.customerPhone, PostCallText(gen)),
       CallEndedOutcome(true, [ManagerAlert(env.customerPhone), ReviewRequest(env.customerPhone)]))
  }

  /**
   * The 10-second follow-up, run against the store as it is when it fires:
   * the resolution alert to the manager for the newest order of the phone.
   */
  function ManagerAlertFollowUp(db: Db, env: Env, phone: Phone, clockText: string): Db {
    match LatestOrder(db.orders, phone)
    case None => db
    case Some(order) =>
      var spot := OrUnknown(KnownParkingSpot(db.conversations, phone));
      Send(db, env.storeManagerPhone, ResolvedAlert(order.orderNumber, spot, order.customerName, clockText))
  }

  /** The 15-second follow-up: the review request, then the newest order of the phone becomes COMPLETED. */
  function ReviewFollowUp(db: Db, phone: Phone): Db {
    match LatestOrder(db.orders, phone)
    case None => db
    case Some(order) =>
      var db1 := Send(db, phone, ReviewMessage(order.orderNumber));
      UpdateOrderStatus(db1, order.id, Completed)
  }

  function RunFollowUp(db: Db, env: Env, f: FollowUp, clockText: string): Db {
    match f
    case ManagerAlert(phone) => ManagerAlertFollowUp(db, env, phone, clockText)
    case ReviewRequest(phone) => ReviewFollowUp(db, phone)
  }

  // -------------------------------------------------------------------------
  // POST /api/reset-optin/:phone

  /** Clears the opt-in flag and time of a known customer; the flag is false (404) for an unknown phone. */
  function ResetOptIn(db: Db, phone: Phone): (Db, bool) {
    if phone in db.customers then
      (db.(customers := db.customers[phone := db.customers[phone].(optedIn := false, optedInAt := None)]), true)
    else (db, false)
  }
}
