/**
 * The pickup flow end to end: a new order for Jane, her YES, her arrival in
 * spot 7, her complaint, the manager's call ending, and the two follow-ups.
 * Each stage is the store after one webhook call; each lemma states what that
 * call did, using only what the earlier stages established.
 */
module Scenario {
  import opened Wrappers
  import opened Domain
  import opened Queries
  import opened Classifier
  import opened Workflow
  import Invariants
  import Properties

  const Jane: Phone := "+15550001111"
  const Manager: Phone := "+15550009999"
  const StoreLine: Phone := "+15550005555"
  /** The demo configuration texts the post-call update to Jane. */
  const Config := Env(Manager, Jane)
  const T0: int := 1000000

  const ArrivalReply := "Thanks Jane! We're bringing your order out to spot 7."
  const ComplaintReply := "I'm sorry for the wait. I'm calling the store manager now."
  const CallUpdate := "The manager is bringing your order out right now."

  function Order0(): NewOrderRequest {
    NewOrderRequest(Jane, "Jane", "A100", "Rural King #42", "1 Main St")
  }

  function PlacedOrder(): Order {
    Order(1, "A100", Jane, "Jane", "Rural King #42", "1 Main St", New, T0)
  }

  const Yes := InboundMessage(Jane, StoreLine, "YES")
  const InSpot := InboundMessage(Jane, StoreLine, "I'm in spot 7")
  const Complaint := "this is ridiculous, 20 minutes!"
  const Complains := InboundMessage(Jane, StoreLine, Complaint)
  const NoVoice := VapiResponse(false, None)
  const VoiceCall := VapiResponse(true, Some("call-1"))

  function ArrivalCall(): FunctionCall {
    NotifyTeamArrival("7", Jane, "A100", ArrivalReply)
  }

  function ComplaintCall(): FunctionCall {
    CallStoreManager("waiting too long", Jane, "A100", None, ComplaintReply)
  }

  function CallEndedEvent0(): CallEndedEvent {
    CallEndedEvent(CallWithId("call-1"), Some("Manager: on my way."), Some("Order brought out"), Some("hangup"), Some(42.5))
  }

  function InitiatedRow(): VapiCall {
    VapiCall(1, 1, "call-1", Initiated, None, None, None, None, T0 + 1800, None)
  }

  // -------------------------------------------------------------------------
  // One webhook call at a time

  /** The new order: Jane becomes a customer who has not opted in, and she is asked to. */
  lemma PlaceStep(db: Db)
    requires db == Invariants.Empty()
    ensures var db' := NewOrder(db, Order0(), T0);
      && db'.orders == [PlacedOrder()]
      && db'.customers == map[Jane := Customer(1, "Jane", false, None)]
      && db'.outbox == [Sms(Jane, OptInMessage("A100"))]
      && |db'.conversations| == 1 && db'.conversations[0].createdAt == T0 && db'.conversations[0].phone == Jane
      && HasSubstring(db'.conversations[0].aiResponse, OptInMarker) && db'.conversations[0].parkingSpot.None?
      && db'.vapiCalls == []
  {
    OptInMessageHasMarker("A100");
  }

  /** YES a minute later opts her in and confirms. */
  lemma OptInStep(db: Db)
    requires db.customers == map[Jane := Customer(1, "Jane", false, None)]
    requires |db.conversations| == 1 && db.conversations[0].createdAt == T0 && db.conversations[0].phone == Jane
    requires HasSubstring(db.conversations[0].aiResponse, OptInMarker) && db.conversations[0].parkingSpot.None?
    ensures var db' := InboundSms(db, Config, Yes, T0 + 60, Threw, NoVoice).0;
      && db'.customers == map[Jane := Customer(1, "Jane", true, Some(T0 + 60))]
      && db'.outbox == db.outbox + [Sms(Jane, OptInConfirmation)]
      && db'.orders == db.orders && db'.vapiCalls == db.vapiCalls
      && |db'.conversations| == 2 && db'.conversations[0] == db.conversations[0]
      && db'.conversations[1].createdAt == T0 + 60 && db'.conversations[1].parkingSpot.None?
      && forall t :: t in db'.conversations ==> t.createdAt <= T0 + 60
  {
    assert IsAffirmative("YES");
    assert IsRecentOptInRequest(db.conversations[0], Jane, T0 + 60);
    assert OptInApplies(db, Yes, T0 + 60);
    var c := InboundSms(db, Config, Yes, T0 + 60, Threw, NoVoice).0.conversations;
    assert forall t :: t in c ==> t == c[0] || t == c[1];
  }

  /** "I'm in spot 7": the order becomes CUSTOMER_ARRIVED and the team is told the spot. */
  lemma ArrivalStep(db: Db)
    requires db.customers == map[Jane := Customer(1, "Jane", true, Some(T0 + 60))]
    requires db.orders == [PlacedOrder()]
    ensures var db' := InboundSms(db, Config, InSpot, T0 + 600, Answered([FunctionCallItem(Some(ArrivalCall()))]), NoVoice).0;
      && db'.customers == db.customers && db'.vapiCalls == db.vapiCalls
      && db'.orders == [PlacedOrder().(status := CustomerArrived)]
      && db'.outbox == db.outbox + [Sms(Manager, ArrivalAlert("A100", "7", "Jane")), Sms(Jane, ArrivalReply)]
  {
    var ai := Answered([FunctionCallItem(Some(ArrivalCall()))]);
    assert db.orders[0] in db.orders;
    assert ActiveOrder(db.orders, Jane) == Some(PlacedOrder());
    assert ProcessMessageWithAI(ai) == Some(ArrivalCall());
    Properties.DispatchSetsStatus(db, Config, InSpot, T0 + 600, ai, NoVoice, PlacedOrder(), ArrivalCall());
    Properties.ArrivalAlertsStore(db, Config, InSpot, T0 + 600, ai, NoVoice, PlacedOrder(), ArrivalCall());
    Properties.NotConfirmedKeepsCustomers(db, Config, InSpot, T0 + 600, ai, NoVoice);
    Properties.OneTurnOneReply(db, Config, InSpot, T0 + 600, ai, NoVoice, PlacedOrder(), ArrivalCall());
  }

  /** The arrival is logged with spot 7, which becomes the known spot. */
  lemma ArrivalLogged(db: Db)
    requires db.customers == map[Jane := Customer(1, "Jane", true, Some(T0 + 60))]
    requires db.orders == [PlacedOrder()]
    requires forall t :: t in db.conversations ==> t.createdAt <= T0 + 60
    ensures var db' := InboundSms(db, Config, InSpot, T0 + 600, Answered([FunctionCallItem(Some(ArrivalCall()))]), NoVoice).0;
      && |db'.conversations| == |db.conversations| + 1 && db'.conversations[..|db.conversations|] == db.conversations
      && db'.conversations[|db.conversations|].phone == Jane
      && db'.conversations[|db.conversations|].parkingSpot == Some("7")
      && db'.conversations[|db.conversations|].createdAt == T0 + 600
      && (forall t :: t in db'.conversations ==> t.createdAt <= T0 + 600)
      && KnownParkingSpot(db'.conversations, Jane) == Some("7")
  {
    var ai := Answered([FunctionCallItem(Some(ArrivalCall()))]);
    assert db.orders[0] in db.orders;
    assert ActiveOrder(db.orders, Jane) == Some(PlacedOrder());
    assert ProcessMessageWithAI(ai) == Some(ArrivalCall());
    Properties.OneTurnOneReply(db, Config, InSpot, T0 + 600, ai, NoVoice, PlacedOrder(), ArrivalCall());
    var c := InboundSms(db, Config, InSpot, T0 + 600, ai, NoVoice).0.conversations;
    assert c == db.conversations + [c[|db.conversations|]];
    Properties.NewestSpotWins(db.conversations, Jane, c[|db.conversations|]);
  }


  /**
   * The complaint: spot 7 is the newest spot in her history, so the manager is
   * called and alerted with it, and the call row is INITIATED.
   */
  lemma ComplaintEscalates(db: Db)
    requires db.customers == map[Jane := Customer(1, "Jane", true, Some(T0 + 60))]
    requires db.orders == [PlacedOrder().(status := CustomerArrived)]
    requires KnownParkingSpot(db.conversations, Jane) == Some("7")
    requires db.vapiCalls == []
    ensures var db' := InboundSms(db, Config, Complains, T0 + 1800,
                                  Answered([OtherItem, FunctionCallItem(Some(ComplaintCall()))]), VoiceCall).0;
      && db'.outbox == db.outbox + [Sms(Jane, ComplaintReply), Sms(Manager, CallStartedAlert("Jane", "A100", "7", Complaint))]
      && db'.vapiCalls == [InitiatedRow()]
      && db'.orders == db.orders
  {
    var ai := Answered([OtherItem, FunctionCallItem(Some(ComplaintCall()))]);
    assert db.orders[0] in db.orders;
    var active := db.orders[0];
    assert ActiveOrder(db.orders, Jane) == Some(active);
    assert FirstFunctionCall(ai.output) == Some(1);
    assert Truthy(VoiceCall.id) == Some("call-1");
    Properties.ComplaintWithSpotEscalates(db, Config, Complains, T0 + 1800, ai, VoiceCall, active, ComplaintCall(), "7");
    assert db.vapiCalls + [InitiatedRow()] == [InitiatedRow()];
  }

  /** The complaint is logged with spot 7, from the history, and her record is untouched. */
  lemma ComplaintLogged(db: Db)
    requires db.customers == map[Jane := Customer(1, "Jane", true, Some(T0 + 60))]
    requires db.orders == [PlacedOrder().(status := CustomerArrived)]
    requires KnownParkingSpot(db.conversations, Jane) == Some("7")
    ensures var db' := InboundSms(db, Config, Complains, T0 + 1800,
                                  Answered([OtherItem, FunctionCallItem(Some(ComplaintCall()))]), VoiceCall).0;
      && db'.customers == db.customers
      && |db'.conversations| == |db.conversations| + 1 && db'.conversations[..|db.conversations|] == db.conversations
      && db'.conversations[|db.conversations|].parkingSpot == Some("7")
      && db'.conversations[|db.conversations|].phone == Jane
      && db'.conversations[|db.conversations|].createdAt == T0 + 1800
  {
    var ai := Answered([OtherItem, FunctionCallItem(Some(ComplaintCall()))]);
    assert db.orders[0] in db.orders;
    var active := db.orders[0];
    assert ActiveOrder(db.orders, Jane) == Some(active);
    assert FirstFunctionCall(ai.output) == Some(1);
    Properties.OneTurnOneReply(db, Config, Complains, T0 + 1800, ai, VoiceCall, active, ComplaintCall());
    Properties.NotConfirmedKeepsCustomers(db, Config, Complains, T0 + 1800, ai, VoiceCall);
  }

  /** After the complaint, spot 7 is still the one the history yields. */
  lemma ComplaintKeepsSpot(db: Db)
    requires db.customers == map[Jane := Customer(1, "Jane", true, Some(T0 + 60))]
    requires db.orders == [PlacedOrder().(status := CustomerArrived)]
    requires KnownParkingSpot(db.conversations, Jane) == Some("7")
    requires forall t :: t in db.conversations ==> t.createdAt <= T0 + 600
    ensures var db' := InboundSms(db, Config, Complains, T0 + 1800,
                                  Answered([OtherItem, FunctionCallItem(Some(ComplaintCall()))]), VoiceCall).0;
      KnownParkingSpot(db'.conversations, Jane) == Some("7")
  {
    ComplaintLogged(db);
    var c := InboundSms(db, Config, Complains, T0 + 1800,
                        Answered([OtherItem, FunctionCallItem(Some(ComplaintCall()))]), VoiceCall).0.conversations;
    assert c == db.conversations + [c[|db.conversations|]];
    Properties.NewestSpotWins(db.conversations, Jane, c[|db.conversations|]);
  }

  /** The call ends: its row is completed, the update goes out, both follow-ups are scheduled for Jane. */
  lemma CallEndedStep(db: Db)
    requires db.vapiCalls == [InitiatedRow()]
    ensures var r := CallEnded(db, Config, CallEndedEvent0(), Generated(Some(CallUpdate)), T0 + 2000);
      && r.0.vapiCalls[0].status == CallCompleted && r.0.vapiCalls[0].durationSeconds == Some(43)
      && r.0.vapiCalls[0].endedAt == Some(T0 + 2000)
      && r.0.outbox == db.outbox + [Sms(Jane, CallUpdate)]
      && r.1 == CallEndedOutcome(true, [ManagerAlert(Jane), ReviewRequest(Jane)])
      && r.0.orders == db.orders && r.0.conversations == db.conversations
  {
    assert JsRound(42.5) == 43;
  }

  /** Ten seconds later the manager hears the issue is resolved at spot 7; five more and Jane is asked for a review. */
  lemma FollowUpSteps(db: Db)
    requires db.orders == [PlacedOrder().(status := CustomerArrived)]
    requires KnownParkingSpot(db.conversations, Jane) == Some("7")
    ensures var alerted := RunFollowUp(db, Config, ManagerAlert(Jane), "10:33:20 AM");
            var reviewed := RunFollowUp(alerted, Config, ReviewRequest(Jane), "10:33:25 AM");
      && alerted.outbox == db.outbox + [Sms(Manager, ResolvedAlert("A100", "7", "Jane", "10:33:20 AM"))]
      && reviewed.outbox == alerted.outbox + [Sms(Jane, ReviewMessage("A100"))]
  {
    assert db.orders[0] in db.orders;
    assert LatestOrder(db.orders, Jane) == Some(db.orders[0]);
    var alerted := RunFollowUp(db, Config, ManagerAlert(Jane), "10:33:20 AM");
    assert alerted == ManagerAlertFollowUp(db, Config, Jane, "10:33:20 AM");
    Properties.ManagerFollowUpOnlyAlerts(db, Config, Jane, "10:33:20 AM");
    assert LatestOrder(alerted.orders, Jane) == Some(db.orders[0]);
    Properties.ReviewFollowUpCompletesNewestOrder(alerted, Jane);
  }

  /** After both follow-ups the order is COMPLETED. */
  lemma FollowUpsComplete(db: Db)
    requires db.orders == [PlacedOrder().(status := CustomerArrived)]
    ensures var alerted := RunFollowUp(db, Config, ManagerAlert(Jane), "10:33:20 AM");
      RunFollowUp(alerted, Config, ReviewRequest(Jane), "10:33:25 AM").orders == [PlacedOrder().(status := Completed)]
  {
    assert db.orders[0] in db.orders;
    var alerted := RunFollowUp(db, Config, ManagerAlert(Jane), "10:33:20 AM");
    Properties.ManagerFollowUpOnlyAlerts(db, Config, Jane, "10:33:20 AM");
    assert alerted.orders == db.orders;
    assert LatestOrder(alerted.orders, Jane) == Some(db.orders[0]);
    Properties.ReviewFollowUpCompletesNewestOrder(alerted, Jane);
  }

  // -------------------------------------------------------------------------
  // The whole flow

  /** From the arrival on: the complaint is escalated, the call completed, and the order finally COMPLETED. */
  lemma AfterArrival(arrived: Db)
    requires arrived.customers == map[Jane := Customer(1, "Jane", true, Some(T0 + 60))]
    requires arrived.orders == [PlacedOrder().(status := CustomerArrived)]
    requires KnownParkingSpot(arrived.conversations, Jane) == Some("7")
    requires forall t :: t in arrived.conversations ==> t.createdAt <= T0 + 600
    requires arrived.vapiCalls == []
    ensures var escalated := InboundSms(arrived, Config, Complains, T0 + 1800,
                                        Answered([OtherItem, FunctionCallItem(Some(ComplaintCall()))]), VoiceCall).0;
            var ended := CallEnded(escalated, Config, CallEndedEvent0(), Generated(Some(CallUpdate)), T0 + 2000);
            var alerted := RunFollowUp(ended.0, Config, ManagerAlert(Jane), "10:33:20 AM");
            var reviewed := RunFollowUp(alerted, Config, ReviewRequest(Jane), "10:33:25 AM");
      && escalated.vapiCalls == [InitiatedRow()]
      && |ended.0.vapiCalls| == 1 && ended.0.vapiCalls[0].status == CallCompleted
      && ended.1.followUps == [ManagerAlert(Jane), ReviewRequest(Jane)]
      && reviewed.orders == [PlacedOrder().(status := Completed)]
  {
    var escalated := InboundSms(arrived, Config, Complains, T0 + 1800,
                                Answered([OtherItem, FunctionCallItem(Some(ComplaintCall()))]), VoiceCall).0;
    assert escalated.vapiCalls == [InitiatedRow()] && escalated.orders == arrived.orders
        && KnownParkingSpot(escalated.conversations, Jane) == Some("7") by {
      ComplaintEscalates(arrived);
      ComplaintKeepsSpot(arrived);
    }
    AfterComplaint(escalated);
  }

  /** From the escalation on: the call is completed and the order finally COMPLETED. */
  lemma AfterComplaint(escalated: Db)
    requires escalated.orders == [PlacedOrder().(status := CustomerArrived)]
    requires KnownParkingSpot(escalated.conversations, Jane) == Some("7")
    requires escalated.vapiCalls == [InitiatedRow()]
    ensures var ended := CallEnded(escalated, Config, CallEndedEvent0(), Generated(Some(CallUpdate)), T0 + 2000);
            var alerted := RunFollowUp(ended.0, Config, ManagerAlert(Jane), "10:33:20 AM");
            var reviewed := RunFollowUp(alerted, Config, ReviewRequest(Jane), "10:33:25 AM");
      && |ended.0.vapiCalls| == 1 && ended.0.vapiCalls[0].status == CallCompleted
      && ended.1.followUps == [ManagerAlert(Jane), ReviewRequest(Jane)]
      && reviewed.orders == [PlacedOrder().(status := Completed)]
  {
    var ended := CallEnded(escalated, Config, CallEndedEvent0(), Generated(Some(CallUpdate)), T0 + 2000);
    CallEndedStep(escalated);
    FollowUpsComplete(ended.0);
  }

  /** The stages of the flow: the order is opted into, arrived at, escalated, its call completed, and finally COMPLETED. */
  lemma EndToEnd(start: Db)
    requires start == Invariants.Empty()
    ensures
            var placed := NewOrder(start, Order0(), T0);
            var optedIn := InboundSms(placed, Config, Yes, T0 + 60, Threw, NoVoice).0;
            var arrived := InboundSms(optedIn, Config, InSpot, T0 + 600,
                                      Answered([FunctionCallItem(Some(ArrivalCall()))]), NoVoice).0;
            var escalated := InboundSms(arrived, Config, Complains, T0 + 1800,
                                        Answered([OtherItem, FunctionCallItem(Some(ComplaintCall()))]), VoiceCall).0;
            var ended := CallEnded(escalated, Config, CallEndedEvent0(), Generated(Some(CallUpdate)), T0 + 2000);
            var alerted := RunFollowUp(ended.0, Config, ManagerAlert(Jane), "10:33:20 AM");
            var reviewed := RunFollowUp(alerted, Config, ReviewRequest(Jane), "10:33:25 AM");
      && Jane in optedIn.customers && optedIn.customers[Jane].optedIn
      && arrived.orders == [PlacedOrder().(status := CustomerArrived)]
      && escalated.vapiCalls == [InitiatedRow()]
      && |ended.0.vapiCalls| == 1 && ended.0.vapiCalls[0].status == CallCompleted
      && ended.1.followUps == [ManagerAlert(Jane), ReviewRequest(Jane)]
      && reviewed.orders == [PlacedOrder().(status := Completed)]
  {
    var placed := NewOrder(start, Order0(), T0);
    var optedIn := InboundSms(placed, Config, Yes, T0 + 60, Threw, NoVoice).0;
    var arrived := InboundSms(optedIn, Config, InSpot, T0 + 600,
                              Answered([FunctionCallItem(Some(ArrivalCall()))]), NoVoice).0;
    assert placed.customers == map[Jane := Customer(1, "Jane", false, None)] && placed.orders == [PlacedOrder()]
        && |placed.conversations| == 1 && placed.conversations[0].createdAt == T0 && placed.conversations[0].phone == Jane
        && HasSubstring(placed.conversations[0].aiResponse, OptInMarker) && placed.conversations[0].parkingSpot.None?
        && placed.vapiCalls == [] by {
      PlaceStep(start);
    }
    assert optedIn.customers == map[Jane := Customer(1, "Jane", true, Some(T0 + 60))]
        && optedIn.orders == [PlacedOrder()] && optedIn.vapiCalls == []
        && forall t :: t in optedIn.conversations ==> t.createdAt <= T0 + 60 by {
      OptInStep(placed);
    }
    ArrivalStep(optedIn);
    ArrivalLogged(optedIn);
    AfterArrival(arrived);
  }
}
