/**
 * What stays true of the store across any sequence of webhook calls: row ids
 * are row numbers, customer ids are distinct and drawn from the sequence,
 * every row points at rows that exist, every opted-in customer has the
 * confirmation turn that opted them in, and the conversation log and the
 * outbox are append-only.
 */
module Invariants {
  import opened Wrappers
  import opened Domain
  import opened Queries
  import opened Classifier
  import opened Workflow

  ghost predicate IdsAreRowNumbers(db: Db) {
    && (forall i :: 0 <= i < |db.orders| ==> db.orders[i].id == i + 1)
    && (forall i :: 0 <= i < |db.conversations| ==> db.conversations[i].id == i + 1)
    && (forall i :: 0 <= i < |db.vapiCalls| ==> db.vapiCalls[i].id == i + 1)
  }

  ghost predicate CustomerIdsDistinct(db: Db) {
    && (forall p :: p in db.customers ==> 0 < db.customers[p].id <= db.customerSeq)
    && (forall p, q :: p in db.customers && q in db.customers && p != q ==> db.customers[p].id != db.customers[q].id)
  }

  /** Every order belongs to a customer; every call row and every turn with an order points at an existing order. */
  ghost predicate References(db: Db) {
    && (forall o :: o in db.orders ==> o.customerPhone in db.customers)
    && (forall c :: c in db.vapiCalls ==> 0 < c.orderId <= |db.orders|)
    && (forall t :: t in db.conversations && t.orderId.Some? ==> 0 < t.orderId.value <= |db.orders|)
  }

  /** An opted-in customer has a logged confirmation, sent no earlier than the recorded opt-in time. */
  ghost predicate ConsentOnRecord(db: Db) {
    forall p :: p in db.customers && db.customers[p].optedIn ==>
      exists t :: t in db.conversations && t.phone == p && t.aiResponse == OptInConfirmation
                  && db.customers[p].optedInAt.Some? && db.customers[p].optedInAt.value <= t.createdAt
  }

  ghost predicate Valid(db: Db) {
    IdsAreRowNumbers(db) && CustomerIdsDistinct(db) && References(db) && ConsentOnRecord(db)
  }

  /**
   * `db'` extends `db`: the log and the outbox only grow, rows are only
   * added, orders only change status, call rows keep their call and order,
   * and customers are never removed nor renumbered.
   */
  ghost predicate Grows(db: Db, db': Db) {
    && db.conversations <= db'.conversations
    && db.outbox <= db'.outbox
    && |db.orders| <= |db'.orders|
    && (forall i :: 0 <= i < |db.orders| ==> db'.orders[i] == db.orders[i].(status := db'.orders[i].status))
    && |db.vapiCalls| <= |db'.vapiCalls|
    && (forall i :: 0 <= i < |db.vapiCalls| ==>
          db'.vapiCalls[i].callId == db.vapiCalls[i].callId && db'.vapiCalls[i].orderId == db.vapiCalls[i].orderId)
    && (forall p :: p in db.customers ==> p in db'.customers && db'.customers[p].id == db.customers[p].id)
    && db.customerSeq <= db'.customerSeq
  }

  /** The empty store. */
  function Empty(): (db: Db)
    ensures Valid(db)
  {
    Db(map[], [], [], [], [], 0)
  }

  // -------------------------------------------------------------------------
  // One webhook call at a time

  /** A request the server handles, with what its oracles and clock said. */
  datatype Event =
    | PlaceOrder(order: NewOrderRequest, now: int)
    | MarkReady(ready: ReadyRequest)
    | ReceiveSms(msg: InboundMessage, now: int, ai: ClassifierOutcome, vapi: VapiResponse)
    | EndCall(ev: CallEndedEvent, gen: PostCallGeneration, now: int)
    | FireFollowUp(followUp: FollowUp, clockText: string)
    | ResetConsent(phone: Phone)

  function Step(db: Db, env: Env, e: Event): Db {
    match e
    case PlaceOrder(req, now) => NewOrder(db, req, now)
    case MarkReady(req) => OrderReady(db, req).0
    case ReceiveSms(msg, now, ai, vapi) => InboundSms(db, env, msg, now, ai, vapi).0
    case EndCall(ev, gen, now) => CallEnded(db, env, ev, gen, now).0
    case FireFollowUp(f, clockText) => RunFollowUp(db, env, f, clockText)
    case ResetConsent(phone) => ResetOptIn(db, phone).0
  }

  function Run(db: Db, env: Env, events: seq<Event>): Db
    decreases |events|
  {
    if events == [] then db else Run(Step(db, env, events[0]), env, events[1..])
  }

  // -------------------------------------------------------------------------
  // Shared writes

  lemma StatusChangePreserves(db: Db, selected: Order -> bool, status: OrderStatus)
    requires Valid(db)
    ensures var db' := db.(orders := WithStatus(db.orders, selected, status)); Valid(db') && Grows(db, db')
  {
    var db' := db.(orders := WithStatus(db.orders, selected, status));
    forall o | o in db'.orders ensures o.customerPhone in db'.customers {
      var i :| 0 <= i < |db'.orders| && db'.orders[i] == o;
      assert db.orders[i] in db.orders;
    }
  }

  lemma SendPreserves(db: Db, to: Phone, body: string)
    requires Valid(db)
    ensures Valid(Send(db, to, body)) && Grows(db, Send(db, to, body))
  {
  }

  /** Appending a turn numbered after the last one, for an existing order or none, keeps the store valid. */
  lemma AppendTurnPreserves(db: Db, turn: Turn)
    requires Valid(db)
    requires turn.id == |db.conversations| + 1
    requires turn.orderId.Some? ==> 0 < turn.orderId.value <= |db.orders|
    ensures var db' := AddTurn(db, turn); Valid(db') && Grows(db, db')
  {
    var db' := AddTurn(db, turn);
    forall p | p in db'.customers && db'.customers[p].optedIn
      ensures exists t :: t in db'.conversations && t.phone == p && t.aiResponse == OptInConfirmation
                          && db'.customers[p].optedInAt.Some? && db'.customers[p].optedInAt.value <= t.createdAt
    {
      var t :| t in db.conversations && t.phone == p && t.aiResponse == OptInConfirmation
               && db.customers[p].optedInAt.Some? && db.customers[p].optedInAt.value <= t.createdAt;
      assert t in db'.conversations;
    }
  }

  lemma LogPreserves(db: Db, customerId: nat, orderId: Option<nat>, phone: Phone, content: string,
                     response: string, sentiment: Sentiment, spot: Option<string>, now: int)
    requires Valid(db)
    requires orderId.Some? ==> 0 < orderId.value <= |db.orders|
    ensures var db' := LogConversation(db, customerId, orderId, phone, content, response, sentiment, spot, now);
      Valid(db') && Grows(db, db')
  {
    AppendTurnPreserves(db, Turn(|db.conversations| + 1, Some(customerId), orderId, phone, Some(Inbound),
                                 content, response, Some(sentiment), spot, now));
  }

  /** Appending an order numbered after the last one, for a known customer, keeps the store valid. */
  lemma AppendOrderPreserves(db: Db, order: Order)
    requires Valid(db)
    requires order.id == |db.orders| + 1 && order.customerPhone in db.customers
    ensures var db' := AddOrder(db, order); Valid(db') && Grows(db, db')
  {
    var db' := AddOrder(db, order);
    forall t | t in db'.conversations && t.orderId.Some? ensures 0 < t.orderId.value <= |db'.orders| {
      assert t in db.conversations;
    }
  }

  lemma GrowsTransitive(a: Db, b: Db, c: Db)
    requires Grows(a, b) && Grows(b, c)
    ensures Grows(a, c)
  {
    forall i | 0 <= i < |a.orders| ensures c.orders[i] == a.orders[i].(status := c.orders[i].status) {
      assert b.orders[i] == a.orders[i].(status := b.orders[i].status);
    }
  }

  // -------------------------------------------------------------------------
  // Each handler

  /** The customer upsert of a new order. */
  lemma UpsertPreserves(db: Db, phone: Phone, name: string)
    requires Valid(db)
    ensures var db' := UpsertCustomer(db, phone, name); Valid(db') && Grows(db, db')
  {
    if phone in db.customers {
      RenamePreserves(db, phone, name);
    } else {
      AddCustomerPreserves(db, phone, name);
    }
  }

  lemma RenamePreserves(db: Db, phone: Phone, name: string)
    requires Valid(db) && phone in db.customers
    ensures var db' := db.(customers := db.customers[phone := db.customers[phone].(name := name)],
                           customerSeq := db.customerSeq + 1);
      Valid(db') && Grows(db, db')
  {
  }

  lemma AddCustomerPreserves(db: Db, phone: Phone, name: string)
    requires Valid(db) && phone !in db.customers
    ensures var db' := db.(customers := db.customers[phone := Customer(db.customerSeq + 1, name, false, None)],
                           customerSeq := db.customerSeq + 1);
      Valid(db') && Grows(db, db')
  {
    var db' := db.(customers := db.customers[phone := Customer(db.customerSeq + 1, name, false, None)],
                   customerSeq := db.customerSeq + 1);
    forall p | p in db'.customers && db'.customers[p].optedIn
      ensures exists t :: t in db'.conversations && t.phone == p && t.aiResponse == OptInConfirmation
                          && db'.customers[p].optedInAt.Some? && db'.customers[p].optedInAt.value <= t.createdAt
    {
      assert p in db.customers && db.customers[p].optedIn;
    }
  }

  lemma NewOrderPreserves(db: Db, req: NewOrderRequest, now: int)
    requires Valid(db)
    ensures Valid(NewOrder(db, req, now)) && Grows(db, NewOrder(db, req, now))
  {
    var phone := req.customerPhone;
    var db1 := UpsertCustomer(db, phone, req.customerName);
    var db2 := AddOrder(db1, Order(|db.orders| + 1, req.orderId, phone, req.customerName, req.storeName,
                                   req.storeAddress, New, now));
    assert Valid(db2) && Grows(db, db2) by {
      UpsertPreserves(db, phone, req.customerName);
      AppendOrderPreserves(db1, db2.orders[|db1.orders|]);
      GrowsTransitive(db, db1, db2);
    }
    var db' := AddTurn(Send(db2, phone, OptInMessage(req.orderId)),
                       Turn(|db2.conversations| + 1, Some(db1.customers[phone].id), None, phone, None,
                            NewOrderContent, OptInMessage(req.orderId), None, None, now));
    assert NewOrder(db, req, now) == db';
    OptInRequestPreserves(db2, phone, req.orderId, db1.customers[phone].id, now);
    GrowsTransitive(db, db2, db');
  }

  /** Sending the opt-in request and logging it as a turn without an order. */
  lemma OptInRequestPreserves(db: Db, phone: Phone, orderNumber: string, customerId: nat, now: int)
    requires Valid(db)
    ensures var db' := AddTurn(Send(db, phone, OptInMessage(orderNumber)),
                               Turn(|db.conversations| + 1, Some(customerId), None, phone, None,
                                    NewOrderContent, OptInMessage(orderNumber), None, None, now));
      Valid(db') && Grows(db, db')
  {
    var optIn := OptInMessage(orderNumber);
    var db3 := Send(db, phone, optIn);
    SendPreserves(db, phone, optIn);
    AppendTurnPreserves(db3, Turn(|db3.conversations| + 1, Some(customerId), None, phone, None,
                                  NewOrderContent, optIn, None, None, now));
    GrowsTransitive(db, db3, AddTurn(db3, Turn(|db3.conversations| + 1, Some(customerId), None, phone, None,
                                               NewOrderContent, optIn, None, None, now)));
  }

  lemma OrderReadyPreserves(db: Db, req: ReadyRequest)
    requires Valid(db)
    ensures Valid(OrderReady(db, req).0) && Grows(db, OrderReady(db, req).0)
  {
    if req.customerPhone in db.customers && db.customers[req.customerPhone].optedIn {
      var selected := (o: Order) => o.orderNumber == req.orderId;
      var db1 := db.(orders := WithStatus(db.orders, selected, ReadyForPickup));
      StatusChangePreserves(db, selected, ReadyForPickup);
      SendPreserves(db1, req.customerPhone, ReadyMessage(req.customerName, req.orderId, req.storeName));
      GrowsTransitive(db, db1, OrderReady(db, req).0);
    }
  }

  lemma ConfirmOptInPreserves(db: Db, msg: InboundMessage, now: int)
    requires Valid(db) && msg.from in db.customers
    ensures Valid(ConfirmOptIn(db, msg, now)) && Grows(db, ConfirmOptIn(db, msg, now))
  {
    var customer := db.customers[msg.from].(optedIn := true, optedInAt := Some(now));
    var db1 := db.(customers := db.customers[msg.from := customer]);
    var db2 := Send(db1, msg.from, OptInConfirmation);
    var turn := Turn(|db2.conversations| + 1, Some(customer.id), None, msg.from, Some(Inbound), msg.body,
                     OptInConfirmation, Some(Positive), None, now);
    var db3 := db2.(conversations := db2.conversations + [turn]);
    assert db3 == ConfirmOptIn(db, msg, now);
    assert turn in db3.conversations;
    forall p | p in db3.customers && db3.customers[p].optedIn
      ensures exists t :: t in db3.conversations && t.phone == p && t.aiResponse == OptInConfirmation
                          && db3.customers[p].optedInAt.Some? && db3.customers[p].optedInAt.value <= t.createdAt
    {
      if p != msg.from {
        var t :| t in db.conversations && t.phone == p && t.aiResponse == OptInConfirmation
                 && db.customers[p].optedInAt.Some? && db.customers[p].optedInAt.value <= t.createdAt;
        assert t in db3.conversations;
      }
    }
  }

  lemma EscalatePreserves(db: Db, env: Env, msg: InboundMessage, customer: Customer, order: Order,
                          spot: Option<string>, vapi: VapiResponse, now: int)
    requires Valid(db) && 0 < order.id <= |db.orders|
    ensures var db' := Escalate(db, env, msg, customer, order, spot, vapi, now); Valid(db') && Grows(db, db')
  {
  }

  lemma ApplyActionPreserves(db: Db, env: Env, customer: Customer, order: Order, call: FunctionCall)
    requires Valid(db)
    ensures var db' := ApplyAction(db, env, customer, order, call);
      Valid(db') && Grows(db, db') && |db'.orders| == |db.orders| && db'.conversations == db.conversations
  {
    var db1 := ApplyAction(db, env, customer, order, call);
    match call {
      case NotifyTeamArrival(s, _, _, _) =>
        var d := UpdateOrderStatus(db, order.id, CustomerArrived);
        StatusChangePreserves(db, (o: Order) => o.id == order.id, CustomerArrived);
        SendPreserves(d, env.storeManagerPhone, ArrivalAlert(order.orderNumber, s, customer.name));
        GrowsTransitive(db, d, db1);
      case RequestReview(_, _) =>
        StatusChangePreserves(db, (o: Order) => o.id == order.id, Completed);
      case _ =>
    }
  }

  lemma RespondPreserves(db: Db, env: Env, msg: InboundMessage, customer: Customer, order: Order,
                         call: FunctionCall, vapi: VapiResponse, now: int)
    requires Valid(db) && order in db.orders
    ensures var db' := Respond(db, env, msg, customer, order, call, vapi, now); Valid(db') && Grows(db, db')
  {
    var i :| 0 <= i < |db.orders| && db.orders[i] == order;
    assert 0 < order.id <= |db.orders|;
    var decision := Decide(db.conversations, msg.from, call);
    var db1 := ApplyAction(db, env, customer, order, call);
    ApplyActionPreserves(db, env, customer, order, call);
    var db2 := LogConversation(db1, customer.id, Some(order.id), msg.from, msg.body, decision.response,
                               Neutral, Truthy(decision.parkingSpot), now);
    LogPreserves(db1, customer.id, Some(order.id), msg.from, msg.body, decision.response,
                 Neutral, Truthy(decision.parkingSpot), now);
    GrowsTransitive(db, db1, db2);
    var db3 := Send(db2, msg.from, decision.response);
    SendPreserves(db2, msg.from, decision.response);
    GrowsTransitive(db, db2, db3);
    if decision.triggerCall {
      EscalatePreserves(db3, env, msg, customer, order, decision.parkingSpot, vapi, now);
      GrowsTransitive(db, db3, Escalate(db3, env, msg, customer, order, decision.parkingSpot, vapi, now));
    }
  }

  lemma InboundSmsPreserves(db: Db, env: Env, msg: InboundMessage, now: int, ai: ClassifierOutcome, vapi: VapiResponse)
    requires Valid(db)
    ensures var db' := InboundSms(db, env, msg, now, ai, vapi).0; Valid(db') && Grows(db, db')
  {
    if OptInApplies(db, msg, now) {
      OptInBranchPreserves(db, env, msg, now, ai, vapi);
    } else {
      ReplyBranchPreserves(db, env, msg, now, ai, vapi);
    }
  }

  lemma OptInBranchPreserves(db: Db, env: Env, msg: InboundMessage, now: int, ai: ClassifierOutcome, vapi: VapiResponse)
    requires Valid(db) && OptInApplies(db, msg, now)
    ensures var db' := InboundSms(db, env, msg, now, ai, vapi).0; Valid(db') && Grows(db, db')
  {
    ConfirmOptInPreserves(db, msg, now);
  }

  lemma ReplyBranchPreserves(db: Db, env: Env, msg: InboundMessage, now: int, ai: ClassifierOutcome, vapi: VapiResponse)
    requires Valid(db) && !OptInApplies(db, msg, now)
    ensures var db' := InboundSms(db, env, msg, now, ai, vapi).0; Valid(db') && Grows(db, db')
  {
    var active := ActiveOrder(db.orders, msg.from);
    var call := ProcessMessageWithAI(ai);
    if msg.from in db.customers && db.customers[msg.from].optedIn && active.Some? && call.Some? {
      RespondPreserves(db, env, msg, db.customers[msg.from], active.value, call.value, vapi, now);
      InboundSmsResponds(db, env, msg, now, ai, vapi);
    } else {
      InboundSmsGated(db, env, msg, now, ai, vapi);
    }
  }

  /** Past the opt-in sub-flow and the gate, the store after the webhook is the one `Respond` builds. */
  lemma InboundSmsResponds(db: Db, env: Env, msg: InboundMessage, now: int, ai: ClassifierOutcome, vapi: VapiResponse)
    requires !OptInApplies(db, msg, now) && msg.from in db.customers && db.customers[msg.from].optedIn
    requires ActiveOrder(db.orders, msg.from).Some? && ProcessMessageWithAI(ai).Some?
    ensures InboundSms(db, env, msg, now, ai, vapi).0
         == Respond(db, env, msg, db.customers[msg.from], ActiveOrder(db.orders, msg.from).value,
                    ProcessMessageWithAI(ai).value, vapi, now)
  {
  }

  /** A message stopped by the gate, or one whose classification failed, leaves the store as it was. */
  lemma InboundSmsGated(db: Db, env: Env, msg: InboundMessage, now: int, ai: ClassifierOutcome, vapi: VapiResponse)
    requires !OptInApplies(db, msg, now)
    requires !(msg.from in db.customers && db.customers[msg.from].optedIn
               && ActiveOrder(db.orders, msg.from).Some? && ProcessMessageWithAI(ai).Some?)
    ensures InboundSms(db, env, msg, now, ai, vapi).0 == db
  {
  }

  lemma CallEndedPreserves(db: Db, env: Env, ev: CallEndedEvent, gen: PostCallGeneration, now: int)
    requires Valid(db)
    ensures var db' := CallEnded(db, env, ev, gen, now).0; Valid(db') && Grows(db, db')
  {
    var db1 :=
      if ev.call.CallWithId? && ev.call.id != "" then db.(vapiCalls := CompleteCalls(db.vapiCalls, ev.call.id, ev, now))
      else db;
    forall c | c in db1.vapiCalls ensures 0 < c.orderId <= |db1.orders| {
      var i :| 0 <= i < |db1.vapiCalls| && db1.vapiCalls[i] == c;
      assert db.vapiCalls[i] in db.vapiCalls;
    }
    assert Valid(db1) && Grows(db, db1);
    if Truthy(ev.transcript).Some? && gen.Generated? && !ev.call.NoCall? {
      SendPreserves(db1, env.customerPhone, PostCallText(gen));
      GrowsTransitive(db, db1, CallEnded(db, env, ev, gen, now).0);
    }
  }

  lemma FollowUpPreserves(db: Db, env: Env, f: FollowUp, clockText: string)
    requires Valid(db)
    ensures var db' := RunFollowUp(db, env, f, clockText); Valid(db') && Grows(db, db')
  {
    match LatestOrder(db.orders, f.phone) {
      case None =>
      case Some(order) =>
        match f {
          case ManagerAlert(phone) =>
            var spot := OrUnknown(KnownParkingSpot(db.conversations, phone));
            SendPreserves(db, env.storeManagerPhone, ResolvedAlert(order.orderNumber, spot, order.customerName, clockText));
          case ReviewRequest(phone) =>
            var db1 := Send(db, phone, ReviewMessage(order.orderNumber));
            SendPreserves(db, phone, ReviewMessage(order.orderNumber));
            StatusChangePreserves(db1, (o: Order) => o.id == order.id, Completed);
            GrowsTransitive(db, db1, RunFollowUp(db, env, f, clockText));
        }
    }
  }

  lemma ResetOptInPreserves(db: Db, phone: Phone)
    requires Valid(db)
    ensures Valid(ResetOptIn(db, phone).0) && Grows(db, ResetOptIn(db, phone).0)
  {
    var db' := ResetOptIn(db, phone).0;
    forall p | p in db'.customers && db'.customers[p].optedIn
      ensures exists t :: t in db'.conversations && t.phone == p && t.aiResponse == OptInConfirmation
                          && db'.customers[p].optedInAt.Some? && db'.customers[p].optedInAt.value <= t.createdAt
    {
      assert p != phone && db.customers[p].optedIn;
    }
  }

  // -------------------------------------------------------------------------
  // Any sequence of calls

  lemma StepPreserves(db: Db, env: Env, e: Event)
    requires Valid(db)
    ensures Valid(Step(db, env, e)) && Grows(db, Step(db, env, e))
  {
    match e
    case PlaceOrder(req, now) => NewOrderPreserves(db, req, now);
    case MarkReady(req) => OrderReadyPreserves(db, req);
    case ReceiveSms(msg, now, ai, vapi) => InboundSmsPreserves(db, env, msg, now, ai, vapi);
    case EndCall(ev, gen, now) => CallEndedPreserves(db, env, ev, gen, now);
    case FireFollowUp(f, clockText) => FollowUpPreserves(db, env, f, clockText);
    case ResetConsent(phone) => ResetOptInPreserves(db, phone);
  }

  lemma GrowsReflexive(db: Db)
    ensures Grows(db, db)
  {
  }

  /** From the empty store, or any valid one, every sequence of webhook calls keeps the store valid and growing. */
  lemma {:induction false} RunPreserves(db: Db, env: Env, events: seq<Event>)
    requires Valid(db)
    ensures Valid(Run(db, env, events)) && Grows(db, Run(db, env, events))
    decreases |events|
  {
    if events == [] {
      GrowsReflexive(db);
    } else {
      var db1 := Step(db, env, events[0]);
      StepPreserves(db, env, events[0]);
      RunPreserves(db1, env, events[1..]);
      GrowsTransitive(db, db1, Run(db, env, events));
    }
  }
}
