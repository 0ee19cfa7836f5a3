/**
 * The webhook server's store as mutable state: the tables and the SMS outbox
 * are fields that the handlers update one write at a time, in the order the
 * handlers perform them. Each handler is proved to end in the state the
 * matching Workflow function gives and to keep the store invariant.
 */
module Server {
  import opened Wrappers
  import opened Domain
  import opened Queries
  import opened Classifier
  import Workflow
  import Invariants

  class Store {
    var customers: map<Phone, Customer>
    var orders: seq<Order>
    var conversations: seq<Turn>
    var vapiCalls: seq<VapiCall>
    var outbox: seq<Sms>
    var customerSeq: nat
    const env: Env

    function Snapshot(): Db
      reads this
    {
      Db(customers, orders, conversations, vapiCalls, outbox, customerSeq)
    }

    ghost predicate Valid()
      reads this
    {
      Invariants.Valid(Snapshot())
    }

    /** An empty store with the configured phones. */
    constructor(env: Env)
      ensures Valid() && Snapshot() == Invariants.Empty() && this.env == env
    {
      customers := map[];
      orders := [];
      conversations := [];
      vapiCalls := [];
      outbox := [];
      customerSeq := 0;
      this.env := env;
    }

    // -----------------------------------------------------------------------
    // Writes shared by the handlers

    /** `client.messages.create` */
    method SendSms(to: Phone, body: string)
      modifies this
      ensures Snapshot() == Workflow.Send(old(Snapshot()), to, body)
    {
      outbox := outbox + [Sms(to, body)];
    }

    /** `logConversation` */
    method LogConversation(customerId: nat, orderId: Option<nat>, phone: Phone, content: string,
                           response: string, sentiment: Sentiment, spot: Option<string>, now: int)
      modifies this
      ensures Snapshot() == Workflow.LogConversation(old(Snapshot()), customerId, orderId, phone, content,
                                                     response, sentiment, spot, now)
    {
      conversations := conversations + [Turn(|conversations| + 1, Some(customerId), orderId, phone, Some(Inbound),
                                             content, response, Some(sentiment), spot, now)];
    }

    /** The customer upsert: a new customer is not opted in; a known one only gets the new name. */
    method UpsertCustomer(phone: Phone, name: string) returns (customerId: nat)
      modifies this
      ensures Snapshot() == Workflow.UpsertCustomer(old(Snapshot()), phone, name)
      ensures phone in customers && customerId == customers[phone].id
    {
      if phone in customers {
        customers := customers[phone := customers[phone].(name := name)];
      } else {
        customers := customers[phone := Customer(customerSeq + 1, name, false, None)];
      }
      customerSeq := customerSeq + 1;
      customerId := customers[phone].id;
    }

    /** `INSERT INTO orders` */
    method InsertOrder(order: Order)
      modifies this
      ensures Snapshot() == Workflow.AddOrder(old(Snapshot()), order)
    {
      orders := orders + [order];
    }

    /** `updateOrderStatus` */
    method UpdateOrderStatus(orderId: nat, status: OrderStatus)
      modifies this
      ensures Snapshot() == Workflow.UpdateOrderStatus(old(Snapshot()), orderId, status)
    {
      orders := Workflow.WithStatus(orders, (o: Order) => o.id == orderId, status);
    }

    // -----------------------------------------------------------------------
    // Handlers

    /** POST /rural-king/new-order */
    method NewOrder(req: Workflow.NewOrderRequest, now: int)
      modifies this
      requires Valid()
      ensures Valid()
      ensures Snapshot() == Workflow.NewOrder(old(Snapshot()), req, now)
    {
      ghost var db := Snapshot();
      var phone := req.customerPhone;
      var customerId := UpsertCustomer(phone, req.customerName);
      InsertOrder(Order(|orders| + 1, req.orderId, phone, req.customerName, req.storeName, req.storeAddress, New, now));
      var optIn := OptInMessage(req.orderId);
      SendSms(phone, optIn);
      conversations := conversations + [Turn(|conversations| + 1, Some(customerId), None, phone, None,
                                             NewOrderContent, optIn, None, None, now)];
      Invariants.NewOrderPreserves(db, req, now);
    }

    /** POST /rural-king/ready-for-pickup; the result is the response's `success`. */
    method OrderReady(req: Workflow.ReadyRequest) returns (success: bool)
      modifies this
      requires Valid()
      ensures Valid()
      ensures (Snapshot(), success) == Workflow.OrderReady(old(Snapshot()), req)
    {
      Invariants.OrderReadyPreserves(Snapshot(), req);
      var customer := GetCustomer(customers, req.customerPhone);
      if customer.None? || !customer.value.optedIn {
        return false;
      }
      orders := Workflow.WithStatus(orders, (o: Order) => o.orderNumber == req.orderId, ReadyForPickup);
      SendSms(req.customerPhone, ReadyMessage(req.customerName, req.orderId, req.storeName));
      return true;
    }

    /** POST /webhook/sms; `ai` and `vapi` are what the classifier and the voice provider answered. */
    method InboundSms(msg: Workflow.InboundMessage, now: int, ai: ClassifierOutcome, vapi: Workflow.VapiResponse)
      returns (outcome: Workflow.SmsOutcome)
      modifies this
      requires Valid()
      ensures Valid()
      ensures (Snapshot(), outcome) == Workflow.InboundSms(old(Snapshot()), env, msg, now, ai, vapi)
    {
      Invariants.InboundSmsPreserves(Snapshot(), env, msg, now, ai, vapi);
      var customer := GetCustomer(customers, msg.from);

      // The opt-in sub-flow.
      if IsAffirmative(msg.body) && customer.Some? && !customer.value.optedIn
         && HasRecentOptInRequest(conversations, msg.from, now)
      {
        ConfirmOptIn(msg, now);
        return Workflow.OptInConfirmed;
      }

      // The gate.
      if customer.None? || !customer.value.optedIn {
        return Workflow.NotOptedIn;
      }
      var active := ActiveOrder(orders, msg.from);
      if active.None? {
        return Workflow.NoActiveOrder;
      }

      var call := ClassifyMessage(ai);
      if call.None? {
        return Workflow.ClassifierFailed;
      }
      Respond(msg, customer.value, active.value, call.value, vapi, now);
      return Workflow.Replied(call.value);
    }

    /** Sets the opt-in flag and time, confirms by SMS and logs the exchange. */
    method ConfirmOptIn(msg: Workflow.InboundMessage, now: int)
      modifies this
      requires msg.from in customers
      ensures Snapshot() == Workflow.ConfirmOptIn(old(Snapshot()), msg, now)
    {
      var updated := customers[msg.from].(optedIn := true, optedInAt := Some(now));
      customers := customers[msg.from := updated];
      SendSms(msg.from, OptInConfirmation);
      LogConversation(updated.id, None, msg.from, msg.body, OptInConfirmation, Positive, None, now);
    }

    /** The switch on the classifier's function; returns the reply, whether to call, and the spot argument. */
    method Dispatch(msg: Workflow.InboundMessage, customer: Customer, order: Order, call: FunctionCall)
      returns (decision: Workflow.Decision)
      modifies this
      ensures Snapshot() == Workflow.ApplyAction(old(Snapshot()), env, customer, order, call)
      ensures decision == Workflow.Decide(old(conversations), msg.from, call)
    {
      var responseMessage := call.responseMessage;
      var shouldTriggerVapi := false;
      var spotArg := ParkingSpotArg(call);
      match call {
        case NotifyTeamArrival(spot, _, _, _) =>
          UpdateOrderStatus(order.id, CustomerArrived);
          SendSms(env.storeManagerPhone, ArrivalAlert(order.orderNumber, spot, customer.name));
        case CallStoreManager(_, _, _, _, _) =>
          var known := Truthy(KnownParkingSpot(conversations, msg.from));
          if known.None? {
            responseMessage := AskForParkingSpot;
          } else {
            shouldTriggerVapi := true;
            spotArg := known;
          }
        case RequestReview(_, _) =>
          UpdateOrderStatus(order.id, Completed);
        case HandleGeneral(_) =>
      }
      return Workflow.Decision(responseMessage, shouldTriggerVapi, spotArg);
    }

    /** Everything after classification: the switch, one logged turn, one reply, maybe the escalation call. */
    method Respond(msg: Workflow.InboundMessage, customer: Customer, order: Order, call: FunctionCall,
                   vapi: Workflow.VapiResponse, now: int)
      modifies this
      ensures Snapshot() == Workflow.Respond(old(Snapshot()), env, msg, customer, order, call, vapi, now)
    {
      ghost var db0 := Snapshot();
      var decision := Dispatch(msg, customer, order, call);
      ghost var db1 := Snapshot();
      LogConversation(customer.id, Some(order.id), msg.from, msg.body, decision.response, Neutral,
                      Truthy(decision.parkingSpot), now);
      SendSms(msg.from, decision.response);
      ghost var db3 := Snapshot();
      assert db3 == Workflow.Send(Workflow.LogConversation(db1, customer.id, Some(order.id), msg.from, msg.body,
                                                           decision.response, Neutral, Truthy(decision.parkingSpot), now),
                                  msg.from, decision.response);
      if decision.triggerCall {
        Escalate(msg, customer, order, decision.parkingSpot, vapi, now);
      }
    }

    /** The voice call to the manager and its bookkeeping. */
    method Escalate(msg: Workflow.InboundMessage, customer: Customer, order: Order, spot: Option<string>,
                    vapi: Workflow.VapiResponse, now: int)
      modifies this
      ensures Snapshot() == Workflow.Escalate(old(Snapshot()), env, msg, customer, order, spot, vapi, now)
    {
      var callId := Truthy(vapi.id);
      if vapi.ok && callId.Some? {
        SendSms(env.storeManagerPhone, CallStartedAlert(customer.name, order.orderNumber, OrUnknown(spot), msg.body));
      }
      if callId.Some? {
        vapiCalls := vapiCalls + [VapiCall(|vapiCalls| + 1, order.id, callId.value, Initiated,
                                           None, None, None, None, now, None)];
      }
    }

    /** POST /vapi/call-ended; `gen` is what the post-call text generation produced. */
    method CallEnded(ev: Workflow.CallEndedEvent, gen: Workflow.PostCallGeneration, now: int)
      returns (outcome: Workflow.CallEndedOutcome)
      modifies this
      requires Valid()
      ensures Valid()
      ensures (Snapshot(), outcome) == Workflow.CallEnded(old(Snapshot()), env, ev, gen, now)
    {
      Invariants.CallEndedPreserves(Snapshot(), env, ev, gen, now);
      if ev.call.CallWithId? && ev.call.id != "" {
        vapiCalls := Workflow.CompleteCalls(vapiCalls, ev.call.id, ev, now);
      }
      if Truthy(ev.transcript).None? {
        return Workflow.CallEndedOutcome(true, []);
      }
      if gen.GenerationFailed? || ev.call.NoCall? {
        return Workflow.CallEndedOutcome(false, []);
      }
      SendSms(env.customerPhone, Workflow.PostCallText(gen));
      return Workflow.CallEndedOutcome(true, [Workflow.ManagerAlert(env.customerPhone),
                                              Workflow.ReviewRequest(env.customerPhone)]);
    }

    /** A follow-up scheduled by the call-ended handler, run when it fires. */
    method RunFollowUp(f: Workflow.FollowUp, clockText: string)
      modifies this
      requires Valid()
      ensures Valid()
      ensures Snapshot() == Workflow.RunFollowUp(old(Snapshot()), env, f, clockText)
    {
      Invariants.FollowUpPreserves(Snapshot(), env, f, clockText);
      var latest := LatestOrder(orders, f.phone);
      if latest.None? {
        return;
      }
      var order := latest.value;
      match f {
        case ManagerAlert(phone) =>
          var spot := OrUnknown(KnownParkingSpot(conversations, phone));
          SendSms(env.storeManagerPhone, ResolvedAlert(order.orderNumber, spot, order.customerName, clockText));
        case ReviewRequest(phone) =>
          SendSms(phone, ReviewMessage(order.orderNumber));
          UpdateOrderStatus(order.id, Completed);
      }
    }

    /** POST /api/reset-optin/:phone; the result is false (404) for an unknown phone. */
    method ResetOptIn(phone: Phone) returns (found: bool)
      modifies this
      requires Valid()
      ensures Valid()
      ensures (Snapshot(), found) == Workflow.ResetOptIn(old(Snapshot()), phone)
    {
      Invariants.ResetOptInPreserves(Snapshot(), phone);
      if phone !in customers {
        return false;
      }
      customers := customers[phone := customers[phone].(optedIn := false, optedInAt := None)];
      return true;
    }
  }
}
