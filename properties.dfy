/** What the handlers promise, stated over the Workflow functions. */
module Properties {
  import opened Wrappers
  import opened Domain
  import opened Queries
  import opened Classifier
  import opened Workflow

  // -------------------------------------------------------------------------
  // New order

  /**
   * A new phone gets a customer who is not opted in; a known phone keeps
   * everything but its name; a NEW order is appended; the opt-in request is
   * sent and logged as a turn without an order, and that turn is what a later
   * YES is checked against.
   */
  lemma NewOrderEffects(db: Db, req: NewOrderRequest, now: int)
    ensures var db' := NewOrder(db, req, now); var p := req.customerPhone;
      && p in db'.customers
      && (p !in db.customers ==> !db'.customers[p].optedIn && db'.customers[p].optedInAt.None?
                                 && db'.customers[p].name == req.customerName)
      && (p in db.customers ==> db'.customers[p] == db.customers[p].(name := req.customerName))
      && (forall q :: q != p ==> (q in db'.customers <==> q in db.customers))
      && (forall q :: q != p && q in db.customers ==> db'.customers[q] == db.customers[q])
      && |db'.orders| == |db.orders| + 1 && db'.orders[..|db.orders|] == db.orders
      && db'.orders[|db.orders|].status == New && db'.orders[|db.orders|].orderNumber == req.orderId
      && db'.orders[|db.orders|].customerPhone == p
      && |db'.conversations| == |db.conversations| + 1 && db'.conversations[..|db.conversations|] == db.conversations
      && db'.conversations[|db.conversations|].phone == p
      && db'.conversations[|db.conversations|].orderId.None?
      && HasSubstring(db'.conversations[|db.conversations|].aiResponse, OptInMarker)
      && db'.outbox == db.outbox + [Sms(p, db'.conversations[|db.conversations|].aiResponse)]
      && db'.vapiCalls == db.vapiCalls
  {
    OptInMessageHasMarker(req.orderId);
    var db' := NewOrder(db, req, now);
    assert db'.orders[..|db.orders|] == db.orders;
    assert db'.conversations[..|db.conversations|] == db.conversations;
  }

  /**
   * After a new order, an affirmative reply from a not-yet-opted-in phone
   * within 24 hours is honoured, whatever the classifier would have said.
   */
  lemma YesWithinWindowAfterNewOrderOptsIn(db: Db, req: NewOrderRequest, now: int, later: int, env: Env,
                                          msg: InboundMessage, ai: ClassifierOutcome, vapi: VapiResponse)
    requires req.customerPhone !in db.customers || !db.customers[req.customerPhone].optedIn
    requires msg.from == req.customerPhone && IsAffirmative(msg.body)
    requires now <= later < now + OptInWindow
    ensures var db' := NewOrder(db, req, now); var r := InboundSms(db', env, msg, later, ai, vapi);
      r.1 == OptInConfirmed && r.0.customers[msg.from].optedIn
  {
    var db' := NewOrder(db, req, now);
    NewOrderEffects(db, req, now);
    var i := |db.conversations|;
    assert IsRecentOptInRequest(db'.conversations[i], msg.from, later);
  }

  // -------------------------------------------------------------------------
  // Opt-in sub-flow

  /**
   * Opt-in is granted exactly when the body is an affirmative reply, the sender
   * is a known customer who is not opted in, and an opt-in request to the
   * sender is younger than 24 hours. Then the flag and time are set, one
   * confirmation is sent, one turn is logged, and the classifier is never
   * consulted: the result does not depend on its answer.
   */
  lemma OptInGrantedIff(db: Db, env: Env, msg: InboundMessage, now: int, ai: ClassifierOutcome, vapi: VapiResponse)
    ensures var r := InboundSms(db, env, msg, now, ai, vapi);
      r.1 == OptInConfirmed <==>
        (&& IsAffirmative(msg.body) && msg.from in db.customers && !db.customers[msg.from].optedIn
         && exists t :: t in db.conversations && t.phone == msg.from && HasSubstring(t.aiResponse, OptInMarker)
                        && t.createdAt > now - OptInWindow)
  {
    var r := InboundSms(db, env, msg, now, ai, vapi);
    if HasRecentOptInRequest(db.conversations, msg.from, now) {
      var i :| 0 <= i < |db.conversations| && IsRecentOptInRequest(db.conversations[i], msg.from, now);
      assert db.conversations[i] in db.conversations;
    }
  }

  lemma OptInConfirmationEffects(db: Db, env: Env, msg: InboundMessage, now: int,
                                 ai: ClassifierOutcome, vapi: VapiResponse, ai': ClassifierOutcome, vapi': VapiResponse)
    requires InboundSms(db, env, msg, now, ai, vapi).1 == OptInConfirmed
    ensures var db' := InboundSms(db, env, msg, now, ai, vapi).0;
      && msg.from in db.customers
      && db'.customers == db.customers[msg.from := db.customers[msg.from].(optedIn := true, optedInAt := Some(now))]
      && db'.outbox == db.outbox + [Sms(msg.from, OptInConfirmation)]
      && |db'.conversations| == |db.conversations| + 1 && db'.conversations[..|db.conversations|] == db.conversations
      && db'.conversations[|db.conversations|].aiResponse == OptInConfirmation
      && db'.conversations[|db.conversations|].phone == msg.from
      && db'.conversations[|db.conversations|].createdAt == now
      && db'.orders == db.orders && db'.vapiCalls == db.vapiCalls
      && InboundSms(db, env, msg, now, ai', vapi') == InboundSms(db, env, msg, now, ai, vapi)
  {
    var db' := InboundSms(db, env, msg, now, ai, vapi).0;
    assert db'.conversations[..|db.conversations|] == db.conversations;
  }

  /** Without a qualifying opt-in request in the last 24 hours, an affirmative reply changes no opt-in state. */
  lemma NoOptInWithoutRecentRequest(db: Db, env: Env, msg: InboundMessage, now: int, ai: ClassifierOutcome, vapi: VapiResponse)
    requires forall t :: t in db.conversations && t.phone == msg.from && HasSubstring(t.aiResponse, OptInMarker)
                         ==> t.createdAt <= now - OptInWindow
    ensures var r := InboundSms(db, env, msg, now, ai, vapi);
      r.1 != OptInConfirmed && r.0.customers == db.customers
  {
    NotConfirmedKeepsCustomers(db, env, msg, now, ai, vapi);
  }

  /** Outside the opt-in sub-flow the webhook leaves every customer as it was. */
  lemma NotConfirmedKeepsCustomers(db: Db, env: Env, msg: InboundMessage, now: int, ai: ClassifierOutcome, vapi: VapiResponse)
    requires !OptInApplies(db, msg, now)
    ensures var r := InboundSms(db, env, msg, now, ai, vapi);
      r.1 != OptInConfirmed && r.0.customers == db.customers
  {
    if msg.from in db.customers && db.customers[msg.from].optedIn {
      var active := ActiveOrder(db.orders, msg.from);
      if active.Some? {
        var call := ProcessMessageWithAI(ai);
        if call.Some? {
          ReachesRespond(db, env, msg, now, ai, vapi, active.value, call.value);
          RespondKeepsCustomers(db, env, msg, db.customers[msg.from], active.value, call.value, vapi, now);
        }
      }
    }
  }

  // -------------------------------------------------------------------------
  // Gate

  /**
   * An unknown or not opted-in sender (outside the opt-in sub-flow), or an
   * opted-in sender with no active order, changes nothing and is sent nothing.
   */
  lemma GateDropsSilently(db: Db, env: Env, msg: InboundMessage, now: int, ai: ClassifierOutcome, vapi: VapiResponse)
    requires !OptInApplies(db, msg, now)
    requires || msg.from !in db.customers || !db.customers[msg.from].optedIn
             || forall o :: o in db.orders && o.customerPhone == msg.from ==> o.status == Completed
    ensures InboundSms(db, env, msg, now, ai, vapi).0 == db
  {
  }

  /** Any change the inbound webhook makes is either an opt-in or on behalf of an opted-in sender with an active order. */
  lemma ChangesNeedConsent(db: Db, env: Env, msg: InboundMessage, now: int, ai: ClassifierOutcome, vapi: VapiResponse)
    ensures var r := InboundSms(db, env, msg, now, ai, vapi);
      r.0 != db ==>
        || r.1 == OptInConfirmed
        || (&& msg.from in db.customers && db.customers[msg.from].optedIn
            && (exists o :: o in db.orders && o.customerPhone == msg.from && o.status != Completed))
  {
    var r := InboundSms(db, env, msg, now, ai, vapi);
    if r.0 != db && r.1 != OptInConfirmed {
      assert ActiveOrder(db.orders, msg.from).Some?;
      assert ActiveOrder(db.orders, msg.from).value in db.orders;
    }
  }

  /** The inbound webhook only ever sets the opt-in flag, and only through the confirmation. */
  lemma OptInOnlyByConfirmation(db: Db, env: Env, msg: InboundMessage, now: int, ai: ClassifierOutcome,
                                vapi: VapiResponse, p: Phone)
    requires p in db.customers
    ensures var r := InboundSms(db, env, msg, now, ai, vapi);
      && p in r.0.customers
      && (db.customers[p].optedIn ==> r.0.customers[p] == db.customers[p])
      && (r.0.customers[p].optedIn && !db.customers[p].optedIn ==> r.1 == OptInConfirmed && p == msg.from)
  {
    if !OptInApplies(db, msg, now) {
      NotConfirmedKeepsCustomers(db, env, msg, now, ai, vapi);
    }
  }

  // -------------------------------------------------------------------------
  // Dispatch

  /** The status each classifier function sets on the active order (none for a complaint or a general message). */
  function StatusSetBy(call: FunctionCall): Option<OrderStatus> {
    match call
    case NotifyTeamArrival(_, _, _, _) => Some(CustomerArrived)
    case RequestReview(_, _) => Some(Completed)
    case CallStoreManager(_, _, _, _, _) => None
    case HandleGeneral(_) => None
  }

  ghost predicate PassesGate(db: Db, msg: InboundMessage, active: Order) {
    msg.from in db.customers && db.customers[msg.from].optedIn && ActiveOrder(db.orders, msg.from) == Some(active)
  }

  /** Past the gate and with a function call, the webhook is the response step. */
  lemma ReachesRespond(db: Db, env: Env, msg: InboundMessage, now: int, ai: ClassifierOutcome,
                       vapi: VapiResponse, active: Order, call: FunctionCall)
    requires PassesGate(db, msg, active) && ProcessMessageWithAI(ai) == Some(call)
    ensures InboundSms(db, env, msg, now, ai, vapi) ==
      (Respond(db, env, msg, db.customers[msg.from], active, call, vapi, now), Replied(call))
  {
  }

  /** The response step never touches customers. */
  lemma RespondKeepsCustomers(db: Db, env: Env, msg: InboundMessage, customer: Customer, order: Order,
                              call: FunctionCall, vapi: VapiResponse, now: int)
    ensures Respond(db, env, msg, customer, order, call, vapi, now).customers == db.customers
  {
  }

  /**
   * Past the gate, exactly the active order gets the status the function
   * sets (CUSTOMER_ARRIVED for an arrival, COMPLETED for a review request);
   * every other order, and every order for the other two functions, is untouched.
   */
  lemma DispatchSetsStatus(db: Db, env: Env, msg: InboundMessage, now: int, ai: ClassifierOutcome,
                           vapi: VapiResponse, active: Order, call: FunctionCall)
    requires PassesGate(db, msg, active) && ProcessMessageWithAI(ai) == Some(call)
    ensures var r := InboundSms(db, env, msg, now, ai, vapi);
      && r.1 == Replied(call)
      && |r.0.orders| == |db.orders|
      && forall i :: 0 <= i < |db.orders| ==>
           r.0.orders[i] == if db.orders[i].id == active.id && StatusSetBy(call).Some?
                            then db.orders[i].(status := StatusSetBy(call).value) else db.orders[i]
  {
    ReachesRespond(db, env, msg, now, ai, vapi, active, call);
    RespondKeepsActionOrders(db, env, msg, db.customers[msg.from], active, call, vapi, now);
    ActionSetsStatus(db, env, db.customers[msg.from], active, call);
  }

  /** After the switch, the response step changes no order. */
  lemma RespondKeepsActionOrders(db: Db, env: Env, msg: InboundMessage, customer: Customer, order: Order,
                                 call: FunctionCall, vapi: VapiResponse, now: int)
    ensures Respond(db, env, msg, customer, order, call, vapi, now).orders == ApplyAction(db, env, customer, order, call).orders
  {
    var decision := Decide(db.conversations, msg.from, call);
    var db3 := Send(LogConversation(ApplyAction(db, env, customer, order, call), customer.id, Some(order.id), msg.from,
                                    msg.body, decision.response, Neutral, Truthy(decision.parkingSpot), now),
                    msg.from, decision.response);
    EscalateFrame(db3, env, msg, customer, order, decision.parkingSpot, vapi, now);
  }

  /** The switch sets the status its function calls for on the order with the order's id, and on no other. */
  lemma ActionSetsStatus(db: Db, env: Env, customer: Customer, order: Order, call: FunctionCall)
    ensures var orders' := ApplyAction(db, env, customer, order, call).orders;
      && |orders'| == |db.orders|
      && forall i :: 0 <= i < |db.orders| ==>
           orders'[i] == if db.orders[i].id == order.id && StatusSetBy(call).Some?
                         then db.orders[i].(status := StatusSetBy(call).value) else db.orders[i]
  {
  }

  /** An arrival also alerts the store team, once, before the reply, with the spot the customer gave. */
  lemma ArrivalAlertsStore(db: Db, env: Env, msg: InboundMessage, now: int, ai: ClassifierOutcome,
                           vapi: VapiResponse, active: Order, call: FunctionCall)
    requires PassesGate(db, msg, active) && ProcessMessageWithAI(ai) == Some(call) && call.NotifyTeamArrival?
    ensures InboundSms(db, env, msg, now, ai, vapi).0.outbox ==
      db.outbox + [Sms(env.storeManagerPhone, ArrivalAlert(active.orderNumber, call.spot, db.customers[msg.from].name)),
                   Sms(msg.from, call.responseMessage)]
  {
    ReachesRespond(db, env, msg, now, ai, vapi, active, call);
    RespondToArrival(db, env, msg, db.customers[msg.from], active, call, vapi, now);
  }

  lemma RespondToArrival(db: Db, env: Env, msg: InboundMessage, customer: Customer, order: Order,
                         call: FunctionCall, vapi: VapiResponse, now: int)
    requires call.NotifyTeamArrival?
    ensures Respond(db, env, msg, customer, order, call, vapi, now).outbox ==
      db.outbox + [Sms(env.storeManagerPhone, ArrivalAlert(order.orderNumber, call.spot, customer.name)),
                   Sms(msg.from, call.responseMessage)]
  {
    var alert := Sms(env.storeManagerPhone, ArrivalAlert(order.orderNumber, call.spot, customer.name));
    assert ApplyAction(db, env, customer, order, call).outbox == db.outbox + [alert];
    assert !Decide(db.conversations, msg.from, call).triggerCall;
  }

  /** A review or a general message alerts nobody: the sender gets the classifier's reply and nothing else goes out. */
  lemma ReviewOrGeneralRepliesOnly(db: Db, env: Env, msg: InboundMessage, now: int, ai: ClassifierOutcome,
                                   vapi: VapiResponse, active: Order, call: FunctionCall)
    requires PassesGate(db, msg, active) && ProcessMessageWithAI(ai) == Some(call)
    requires call.RequestReview? || call.HandleGeneral?
    ensures var db' := InboundSms(db, env, msg, now, ai, vapi).0;
      && db'.outbox == db.outbox + [Sms(msg.from, call.responseMessage)]
      && db'.vapiCalls == db.vapiCalls
  {
    ReachesRespond(db, env, msg, now, ai, vapi, active, call);
    RespondReviewOrGeneral(db, env, msg, db.customers[msg.from], active, call, vapi, now);
  }

  lemma RespondReviewOrGeneral(db: Db, env: Env, msg: InboundMessage, customer: Customer, order: Order,
                               call: FunctionCall, vapi: VapiResponse, now: int)
    requires call.RequestReview? || call.HandleGeneral?
    ensures var db' := Respond(db, env, msg, customer, order, call, vapi, now);
      && db'.outbox == db.outbox + [Sms(msg.from, call.responseMessage)]
      && db'.vapiCalls == db.vapiCalls
  {
    assert ApplyAction(db, env, customer, order, call).outbox == db.outbox;
    assert !Decide(db.conversations, msg.from, call).triggerCall;
  }

  /** A failing classifier becomes a general reply with the fixed greeting and changes no order. */
  lemma ClassifierErrorFallsBack(db: Db, env: Env, msg: InboundMessage, now: int, vapi: VapiResponse, active: Order)
    requires PassesGate(db, msg, active)
    ensures var r := InboundSms(db, env, msg, now, Threw, vapi);
      && r.1 == Replied(HandleGeneral(FallbackGreeting))
      && r.0.orders == db.orders && r.0.vapiCalls == db.vapiCalls && r.0.customers == db.customers
      && r.0.outbox == db.outbox + [Sms(msg.from, FallbackGreeting)]
      && |r.0.conversations| == |db.conversations| + 1
      && r.0.conversations[|db.conversations|].aiResponse == FallbackGreeting
  {
    var orders' := InboundSms(db, env, msg, now, Threw, vapi).0.orders;
    assert orders' == db.orders;
  }

  /** A classifier answer without a function call makes the handler fail before any write. */
  lemma MissingFunctionCallFails(db: Db, env: Env, msg: InboundMessage, now: int, output: seq<OutputItem>,
                                 vapi: VapiResponse, active: Order)
    requires PassesGate(db, msg, active)
    requires forall item :: item in output ==> item.OtherItem?
    ensures InboundSms(db, env, msg, now, Answered(output), vapi) == (db, ClassifierFailed)
  {
    assert forall i :: 0 <= i < |output| ==> output[i] in output;
  }

  /** Arguments that fail to parse are handled like any thrown error. */
  lemma UnparsableArgumentsFallBack(output: seq<OutputItem>, i: nat)
    requires i < |output| && output[i] == FunctionCallItem(None)
    requires forall j :: 0 <= j < i ==> output[j].OtherItem?
    ensures ProcessMessageWithAI(Answered(output)) == ProcessMessageWithAI(Threw)
  {
  }

  // -------------------------------------------------------------------------
  // One turn, one reply

  /**
   * Every message that reaches the classifier appends exactly one INBOUND turn
   * holding the body and the final reply, and sends that reply to the sender
   * exactly once; every other message it sends goes to the store manager.
   */
  lemma OneTurnOneReply(db: Db, env: Env, msg: InboundMessage, now: int, ai: ClassifierOutcome,
                        vapi: VapiResponse, active: Order, call: FunctionCall)
    requires PassesGate(db, msg, active) && ProcessMessageWithAI(ai) == Some(call)
    ensures var db' := InboundSms(db, env, msg, now, ai, vapi).0; var n := |db.conversations|;
      && |db'.conversations| == n + 1 && db'.conversations[..n] == db.conversations
      && db'.conversations[n].phone == msg.from && db'.conversations[n].messageContent == msg.body
      && db'.conversations[n].messageType == Some(Inbound) && db'.conversations[n].orderId == Some(active.id)
      && db'.conversations[n].createdAt == now
      && db'.conversations[n].parkingSpot == Truthy(Decide(db.conversations, msg.from, call).parkingSpot)
      && db'.conversations[n].aiResponse == Decide(db.conversations, msg.from, call).response
      && (exists before: seq<Sms>, after: seq<Sms> ::
            && db'.outbox == db.outbox + before + [Sms(msg.from, db'.conversations[n].aiResponse)] + after
            && (forall m :: m in before + after ==> m.to == env.storeManagerPhone))
  {
    ReachesRespond(db, env, msg, now, ai, vapi, active, call);
    RespondOneTurnOneReply(db, env, msg, db.customers[msg.from], active, call, vapi, now);
  }

  /** `after` is `before` followed by messages to the manager only. */
  ghost predicate ExtendsWithAlerts(before: seq<Sms>, after: seq<Sms>, manager: Phone) {
    && |before| <= |after| && after[..|before|] == before
    && forall i :: |before| <= i < |after| ==> after[i].to == manager
  }

  lemma ApplyActionFrame(db: Db, env: Env, customer: Customer, order: Order, call: FunctionCall)
    ensures var db' := ApplyAction(db, env, customer, order, call);
      && db'.conversations == db.conversations && db'.customers == db.customers && db'.vapiCalls == db.vapiCalls
      && ExtendsWithAlerts(db.outbox, db'.outbox, env.storeManagerPhone)
  {
  }

  lemma EscalateFrame(db: Db, env: Env, msg: InboundMessage, customer: Customer, order: Order,
                      spot: Option<string>, vapi: VapiResponse, now: int)
    ensures var db' := Escalate(db, env, msg, customer, order, spot, vapi, now);
      && db'.conversations == db.conversations && db'.customers == db.customers && db'.orders == db.orders
      && ExtendsWithAlerts(db.outbox, db'.outbox, env.storeManagerPhone)
  {
  }

  /** The response step logs one turn and sends one reply to the sender; anything else it sends goes to the manager. */
  lemma RespondOneTurnOneReply(db: Db, env: Env, msg: InboundMessage, customer: Customer, order: Order,
                               call: FunctionCall, vapi: VapiResponse, now: int)
    ensures var db' := Respond(db, env, msg, customer, order, call, vapi, now); var n := |db.conversations|;
      && |db'.conversations| == n + 1 && db'.conversations[..n] == db.conversations
      && db'.conversations[n].phone == msg.from && db'.conversations[n].messageContent == msg.body
      && db'.conversations[n].messageType == Some(Inbound) && db'.conversations[n].orderId == Some(order.id)
      && db'.conversations[n].createdAt == now
      && db'.conversations[n].parkingSpot == Truthy(Decide(db.conversations, msg.from, call).parkingSpot)
      && db'.conversations[n].aiResponse == Decide(db.conversations, msg.from, call).response
      && (exists before: seq<Sms>, after: seq<Sms> ::
            && db'.outbox == db.outbox + before + [Sms(msg.from, db'.conversations[n].aiResponse)] + after
            && (forall m :: m in before + after ==> m.to == env.storeManagerPhone))
  {
    var decision := Decide(db.conversations, msg.from, call);
    var db1 := ApplyAction(db, env, customer, order, call);
    ApplyActionFrame(db, env, customer, order, call);
    var db2 := LogConversation(db1, customer.id, Some(order.id), msg.from, msg.body, decision.response,
                               Neutral, Truthy(decision.parkingSpot), now);
    var db3 := Send(db2, msg.from, decision.response);
    var db' := if decision.triggerCall then Escalate(db3, env, msg, customer, order, decision.parkingSpot, vapi, now)
               else db3;
    EscalateFrame(db3, env, msg, customer, order, decision.parkingSpot, vapi, now);
    assert db' == Respond(db, env, msg, customer, order, call, vapi, now);
    var n := |db.conversations|;
    assert db'.conversations == db.conversations + [db'.conversations[n]];
    assert db3.outbox == db1.outbox + [Sms(msg.from, decision.response)];
    AlertsAroundReply(db.outbox, db1.outbox, Sms(msg.from, decision.response), db'.outbox, env.storeManagerPhone);
  }

  lemma AlertsAroundReply(start: seq<Sms>, mid: seq<Sms>, reply: Sms, end: seq<Sms>, manager: Phone)
    requires ExtendsWithAlerts(start, mid, manager) && ExtendsWithAlerts(mid + [reply], end, manager)
    ensures exists before: seq<Sms>, after: seq<Sms> ::
      && end == start + before + [reply] + after
      && (forall m :: m in before + after ==> m.to == manager)
  {
    var before := mid[|start|..];
    assert mid == start + before;
    var after := end[|mid| + 1..];
    assert end == mid + [reply] + after;
    forall m: Sms | m in before + after ensures m.to == manager {
      if m in before {
        var k :| 0 <= k < |before| && before[k] == m;
        assert mid[|start| + k] == m;
      } else {
        var k :| 0 <= k < |after| && after[k] == m;
        assert end[|mid| + 1 + k] == m;
      }
    }
    assert end == start + before + [reply] + after;
  }

  // -------------------------------------------------------------------------
  // Complaints and escalation

  /**
   * A complaint whose history yields no usable parking spot is answered with
   * the request for the spot, and no call is made and no manager alert is
   * sent; the turn records the spot argument the classifier gave, if any.
   */
  lemma ComplaintWithoutSpotAsksForIt(db: Db, env: Env, msg: InboundMessage, now: int, ai: ClassifierOutcome,
                                      vapi: VapiResponse, active: Order, call: FunctionCall)
    requires PassesGate(db, msg, active) && ProcessMessageWithAI(ai) == Some(call) && call.CallStoreManager?
    requires Truthy(KnownParkingSpot(db.conversations, msg.from)).None?
    ensures var db' := InboundSms(db, env, msg, now, ai, vapi).0;
      && db'.outbox == db.outbox + [Sms(msg.from, AskForParkingSpot)]
      && db'.vapiCalls == db.vapiCalls
      && db'.conversations[|db.conversations|].aiResponse == AskForParkingSpot
      && db'.conversations[|db.conversations|].parkingSpot == Truthy(call.spotIfKnown)
  {
    ReachesRespond(db, env, msg, now, ai, vapi, active, call);
  }

  /** A history in which no turn of the phone recorded a non-empty spot yields no usable spot. */
  lemma NoTruthySpotKnown(conversations: seq<Turn>, phone: Phone)
    requires forall t :: t in conversations && t.phone == phone ==> t.parkingSpot.None? || t.parkingSpot == Some("")
    ensures Truthy(KnownParkingSpot(conversations, phone)).None?
  {
    var known := KnownParkingSpot(conversations, phone);
    if known.Some? {
      var i :| 0 <= i < |conversations| && NewestSpotTurn(conversations, phone, i) && conversations[i].parkingSpot == known;
      assert conversations[i] in conversations;
    }
  }

  /**
   * A complaint from a customer whose history holds a spot keeps the
   * classifier's reply, records that historical spot (not the one in the
   * message), appends an INITIATED call row exactly when the provider returned
   * an id, and alerts the manager with that spot exactly when it also answered ok.
   */
  lemma ComplaintWithSpotEscalates(db: Db, env: Env, msg: InboundMessage, now: int, ai: ClassifierOutcome,
                                   vapi: VapiResponse, active: Order, call: FunctionCall, spot: string)
    requires PassesGate(db, msg, active) && ProcessMessageWithAI(ai) == Some(call) && call.CallStoreManager?
    requires KnownParkingSpot(db.conversations, msg.from) == Some(spot) && spot != ""
    ensures var db' := InboundSms(db, env, msg, now, ai, vapi).0; var id := Truthy(vapi.id);
      && db'.conversations[|db.conversations|].aiResponse == call.responseMessage
      && db'.conversations[|db.conversations|].parkingSpot == Some(spot)
      && db'.outbox == db.outbox + [Sms(msg.from, call.responseMessage)]
                       + (if vapi.ok && id.Some?
                          then [Sms(env.storeManagerPhone, CallStartedAlert(db.customers[msg.from].name,
                                                                            active.orderNumber, spot, msg.body))]
                          else [])
      && (id.Some? ==> db'.vapiCalls == db.vapiCalls + [VapiCall(|db.vapiCalls| + 1, active.id, id.value, Initiated,
                                                                None, None, None, None, now, None)])
      && (id.None? ==> db'.vapiCalls == db.vapiCalls)
      && db'.orders == db.orders
  {
    ReachesRespond(db, env, msg, now, ai, vapi, active, call);
    RespondComplaintWithSpot(db, env, msg, db.customers[msg.from], active, call, vapi, now, spot);
  }

  lemma RespondComplaintWithSpot(db: Db, env: Env, msg: InboundMessage, customer: Customer, order: Order,
                                 call: FunctionCall, vapi: VapiResponse, now: int, spot: string)
    requires call.CallStoreManager?
    requires KnownParkingSpot(db.conversations, msg.from) == Some(spot) && spot != ""
    ensures var db' := Respond(db, env, msg, customer, order, call, vapi, now); var id := Truthy(vapi.id);
      && db'.conversations[|db.conversations|].aiResponse == call.responseMessage
      && db'.conversations[|db.conversations|].parkingSpot == Some(spot)
      && db'.outbox == db.outbox + [Sms(msg.from, call.responseMessage)]
                       + (if vapi.ok && id.Some?
                          then [Sms(env.storeManagerPhone, CallStartedAlert(customer.name, order.orderNumber, spot, msg.body))]
                          else [])
      && (id.Some? ==> db'.vapiCalls == db.vapiCalls + [VapiCall(|db.vapiCalls| + 1, order.id, id.value, Initiated,
                                                                None, None, None, None, now, None)])
      && (id.None? ==> db'.vapiCalls == db.vapiCalls)
      && db'.orders == db.orders
  {
    var decision := Decide(db.conversations, msg.from, call);
    assert decision == Decision(call.responseMessage, true, Some(spot));
    var db2 := LogConversation(db, customer.id, Some(order.id), msg.from, msg.body, decision.response,
                               Neutral, Some(spot), now);
    var db3 := Send(db2, msg.from, decision.response);
    assert Respond(db, env, msg, customer, order, call, vapi, now) ==
      Escalate(db3, env, msg, customer, order, Some(spot), vapi, now);
    EscalateEffects(db3, env, msg, customer, order, spot, vapi, now);
  }

  /** The escalation: the alert needs `ok` and an id, the row needs only the id. */
  lemma EscalateEffects(db: Db, env: Env, msg: InboundMessage, customer: Customer, order: Order,
                        spot: string, vapi: VapiResponse, now: int)
    requires spot != ""
    ensures var db' := Escalate(db, env, msg, customer, order, Some(spot), vapi, now); var id := Truthy(vapi.id);
      && db'.conversations == db.conversations && db'.orders == db.orders
      && db'.outbox == db.outbox + (if vapi.ok && id.Some?
                                    then [Sms(env.storeManagerPhone, CallStartedAlert(customer.name, order.orderNumber, spot, msg.body))]
                                    else [])
      && (id.Some? ==> db'.vapiCalls == db.vapiCalls + [VapiCall(|db.vapiCalls| + 1, order.id, id.value, Initiated,
                                                                None, None, None, None, now, None)])
      && (id.None? ==> db'.vapiCalls == db.vapiCalls)
  {
  }

  /** A turn that records a spot and is at least as new as every other turn of the phone makes that spot the known one. */
  lemma NewestSpotWins(conversations: seq<Turn>, phone: Phone, t: Turn)
    requires t.phone == phone && t.parkingSpot.Some?
    requires forall u :: u in conversations && u.phone == phone ==> u.createdAt <= t.createdAt
    ensures KnownParkingSpot(conversations + [t], phone) == t.parkingSpot
  {
    var c := conversations + [t];
    assert HasSpotFor(c[|conversations|], phone);
    var i :| 0 <= i < |c| && NewestSpotTurn(c, phone, i) && c[i].parkingSpot == KnownParkingSpot(c, phone);
    if i < |conversations| {
      assert conversations[i] in conversations;
    }
  }

  // -------------------------------------------------------------------------
  // Call ended

  /**
   * Only rows whose call id matches are completed (transcript, summary,
   * rounded duration, reason and end time written); every other row is as it
   * was, and nothing else in the store changes except the outbox.
   */
  lemma CallEndedCompletesMatchingRows(db: Db, env: Env, ev: CallEndedEvent, gen: PostCallGeneration, now: int)
    ensures var db' := CallEnded(db, env, ev, gen, now).0;
      && |db'.vapiCalls| == |db.vapiCalls|
      && db'.customers == db.customers && db'.orders == db.orders && db'.conversations == db.conversations
      && forall i :: 0 <= i < |db.vapiCalls| ==>
           if ev.call.CallWithId? && ev.call.id != "" && db.vapiCalls[i].callId == ev.call.id then
             db'.vapiCalls[i] == db.vapiCalls[i].(status := CallCompleted, transcript := ev.transcript,
                                                  summary := ev.summary, endedReason := ev.endedReason,
                                                  durationSeconds := Some(RoundedDuration(ev.durationSeconds)),
                                                  endedAt := Some(now))
           else db'.vapiCalls[i] == db.vapiCalls[i]
  {
  }

  /** An unknown call id is a no-op on the call rows. */
  lemma UnknownCallIdChangesNoRow(db: Db, env: Env, ev: CallEndedEvent, gen: PostCallGeneration, now: int)
    requires ev.call.CallWithId? ==> forall c :: c in db.vapiCalls ==> c.callId != ev.call.id
    ensures CallEnded(db, env, ev, gen, now).0.vapiCalls == db.vapiCalls
  {
    var calls' := CallEnded(db, env, ev, gen, now).0.vapiCalls;
    forall i | 0 <= i < |db.vapiCalls| ensures calls'[i] == db.vapiCalls[i] {
      assert db.vapiCalls[i] in db.vapiCalls;
    }
  }

  /** An empty or missing transcript sends nothing and schedules nothing. */
  lemma EmptyTranscriptSendsNothing(db: Db, env: Env, ev: CallEndedEvent, gen: PostCallGeneration, now: int)
    requires ev.transcript.None? || ev.transcript == Some("")
    ensures var r := CallEnded(db, env, ev, gen, now);
      r.0.outbox == db.outbox && r.1 == CallEndedOutcome(true, [])
  {
  }

  /**
   * With a transcript the update is texted and both follow-ups are scheduled,
   * all for the configured customer phone, whoever the escalated customer was.
   */
  lemma TranscriptFollowUpsTargetConfiguredPhone(db: Db, env: Env, ev: CallEndedEvent, gen: PostCallGeneration, now: int)
    requires Truthy(ev.transcript).Some? && gen.Generated? && !ev.call.NoCall?
    ensures var r := CallEnded(db, env, ev, gen, now);
      && |r.0.outbox| == |db.outbox| + 1 && r.0.outbox[|db.outbox|].to == env.customerPhone
      && r.1.success && |r.1.followUps| == 2
      && r.1.followUps[0].ManagerAlert? && r.1.followUps[1].ReviewRequest?
      && forall f :: f in r.1.followUps ==> f.phone == env.customerPhone
  {
  }

  /** `Math.round` gives the nearest integer, halves rounded up. */
  lemma RoundedToNearest(x: real)
    ensures x - 0.5 < JsRound(x) as real <= x + 0.5
  {
  }

  /**
   * The review follow-up, when it fires, texts the review request for the
   * newest order of the phone and marks exactly that order COMPLETED.
   */
  lemma ReviewFollowUpCompletesNewestOrder(db: Db, phone: Phone)
    ensures var db' := ReviewFollowUp(db, phone);
      && db'.customers == db.customers && db'.conversations == db.conversations && db'.vapiCalls == db.vapiCalls
      && match LatestOrder(db.orders, phone)
         case None => db' == db
         case Some(o) =>
           && db'.outbox == db.outbox + [Sms(phone, ReviewMessage(o.orderNumber))]
           && |db'.orders| == |db.orders|
           && forall i :: 0 <= i < |db.orders| ==>
                db'.orders[i] == if db.orders[i].id == o.id then db.orders[i].(status := Completed) else db.orders[i]
  {
  }

  /** The manager follow-up only sends, at most one message, and only to the manager. */
  lemma ManagerFollowUpOnlyAlerts(db: Db, env: Env, phone: Phone, clockText: string)
    ensures var db' := ManagerAlertFollowUp(db, env, phone, clockText);
      && db'.customers == db.customers && db'.orders == db.orders
      && db'.conversations == db.conversations && db'.vapiCalls == db.vapiCalls
      && (LatestOrder(db.orders, phone).None? <==> db'.outbox == db.outbox)
      && (LatestOrder(db.orders, phone).Some? ==>
            |db'.outbox| == |db.outbox| + 1 && db'.outbox[..|db.outbox|] == db.outbox
            && db'.outbox[|db.outbox|].to == env.storeManagerPhone)
  {
    var db' := ManagerAlertFollowUp(db, env, phone, clockText);
    if LatestOrder(db.orders, phone).Some? {
      assert db'.outbox[..|db.outbox|] == db.outbox;
    }
  }

  // -------------------------------------------------------------------------
  // Ready for pickup and opt-in reset

  /**
   * Ready-for-pickup changes nothing unless the customer is known and opted
   * in; then every order carrying the order number, whoever it belongs to,
   * becomes READY_FOR_PICKUP and one ready message goes to the customer.
   */
  lemma OrderReadyGatedOnOptIn(db: Db, req: ReadyRequest)
    ensures var r := OrderReady(db, req);
      && (r.1 <==> req.customerPhone in db.customers && db.customers[req.customerPhone].optedIn)
      && (!r.1 ==> r.0 == db)
      && (r.1 ==>
            && r.0.outbox == db.outbox + [Sms(req.customerPhone, ReadyMessage(req.customerName, req.orderId, req.storeName))]
            && |r.0.orders| == |db.orders|
            && forall i :: 0 <= i < |db.orders| ==>
                 r.0.orders[i] == if db.orders[i].orderNumber == req.orderId
                                  then db.orders[i].(status := ReadyForPickup) else db.orders[i])
  {
  }

  /** A reset clears the flag and time of a known customer and nothing else; an unknown phone changes nothing. */
  lemma ResetOptInEffects(db: Db, phone: Phone)
    ensures var r := ResetOptIn(db, phone);
      && (r.1 <==> phone in db.customers)
      && (!r.1 ==> r.0 == db)
      && (r.1 ==> && r.0.customers.Keys == db.customers.Keys
                  && !r.0.customers[phone].optedIn && r.0.customers[phone].optedInAt.None?
                  && r.0.customers[phone].name == db.customers[phone].name
                  && r.0.customers[phone].id == db.customers[phone].id
                  && (forall q :: q in db.customers && q != phone ==> r.0.customers[q] == db.customers[q])
                  && r.0.orders == db.orders && r.0.conversations == db.conversations
                  && r.0.outbox == db.outbox && r.0.vapiCalls == db.vapiCalls)
  {
  }
}
