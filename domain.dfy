/**
 * The records of the pickup relay's store (customers, orders, conversation
 * turns, voice-call rows, sent text messages), the fixed message texts the
 * handlers send, and the small string rules the handlers apply: JavaScript
 * truthiness of optional strings, the affirmative-reply test and the SQL
 * `LIKE '%…%'` substring match.
 */
module Domain {
  import opened Wrappers

  type Phone = string

  /** Order status, a closed enumeration; COMPLETED is the only terminal status. */
  datatype OrderStatus = New | ReadyForPickup | CustomerArrived | Completed

  /** A row of `customers`, keyed by phone in the store. */
  datatype Customer = Customer(id: nat, name: string, optedIn: bool, optedInAt: Option<int>)

  /** A row of `orders`. `orderNumber` is the store system's order id. */
  datatype Order = Order(
    id: nat,
    orderNumber: string,
    customerPhone: Phone,
    customerName: string,
    storeName: string,
    storeAddress: string,
    status: OrderStatus,
    createdAt: int)

  /** The only message type the handlers write explicitly. */
  datatype MessageType = Inbound

  datatype Sentiment = Positive | Neutral

  /**
   * A row of `conversations`: append-only, and the only carrier of state
   * across turns (opt-in requests, known parking spots).
   * `messageType` and `sentiment` are None where the insert leaves the column to its default.
   */
  datatype Turn = Turn(
    id: nat,
    customerId: Option<nat>,
    orderId: Option<nat>,
    phone: Phone,
    messageType: Option<MessageType>,
    messageContent: string,
    aiResponse: string,
    sentiment: Option<Sentiment>,
    parkingSpot: Option<string>,
    createdAt: int)

  datatype CallStatus = Initiated | CallCompleted

  /** A row of `vapi_calls`: one outbound escalation call to the store manager. */
  datatype VapiCall = VapiCall(
    id: nat,
    orderId: nat,
    callId: string,
    status: CallStatus,
    transcript: Option<string>,
    summary: Option<string>,
    durationSeconds: Option<int>,
    endedReason: Option<string>,
    createdAt: int,
    endedAt: Option<int>)

  /** One text message handed to the messaging provider. */
  datatype Sms = Sms(to: Phone, body: string)

  /** The configuration the handlers read from the process environment. */
  datatype Env = Env(storeManagerPhone: Phone, customerPhone: Phone)

  /** The whole store: the four tables, the outbox of sent messages, and the customer id sequence. */
  datatype Db = Db(
    customers: map<Phone, Customer>,
    orders: seq<Order>,
    conversations: seq<Turn>,
    vapiCalls: seq<VapiCall>,
    outbox: seq<Sms>,
    customerSeq: nat)

  /** The opt-in window, 24 hours, on a clock that counts seconds. */
  const OptInWindow: int := 24 * 60 * 60

  // ---------------------------------------------------------------------
  // Fixed texts

  const OptInPrefix: string := "Rural King: Thank you for order #"
  /** What the opt-in check looks for with `ai_response LIKE '%Reply YES%'`. */
  const OptInMarker: string := "Reply YES"
  const OptInLead: string := "!\n\n "
  const OptInTail: string := " to receive pickup notifications and support for this order. Standard msg rates may apply."
  const OptInConfirmation: string := "✅ You're now opted in for order notifications. Thank you!"
  const FallbackGreeting: string := "Hi! I'm Rural King's assistant. How can I help with your pickup today?"
  const AskForParkingSpot: string := "I understand you're frustrated. To help you as quickly as possible, please let me know your parking spot number so I can escalate this to the store manager."
  const PostCallFallback: string := "Update from store manager about your order."
  const NewOrderContent: string := "NEW_ORDER_CREATED"
  const UnknownSpot: string := "Unknown"

  function OptInMessage(orderNumber: string): string {
    OptInPrefix + orderNumber + OptInLead + OptInMarker + OptInTail
  }

  const ReadyOrderLead: string := "! Your Rural King order #"
  const ReadyTail: string := " is ready.\n\nPark in a Pickup spot & reply: \"I'm in spot X\". We'll bring it out. "

  function ReadyMessage(name: string, orderNumber: string, storeName: string): string {
    "Hi " + name + ReadyOrderLead + orderNumber + ReadyTail + storeName
  }

  const ArrivalLead: string := "RURAL KING PICKUP ALERT: Customer arrived!\n\nOrder #"
  const CustomerLabel: string := ",\nCustomer: "

  function ArrivalAlert(orderNumber: string, spot: string, name: string): string {
    ArrivalLead + orderNumber + ",\nSpot " + spot + CustomerLabel + name
  }

  const CallStartedLead: string := "🚨 RURAL KING ESCALATION - AiPRL Calling Manager NOW!\nCustomer: "
  const CallStartedTail: string := "\nThis issue has been escalated and you are being contacted for resolution."

  function CallStartedAlert(name: string, orderNumber: string, spot: string, complaint: string): string {
    CallStartedLead + name + "\nOrder: #" + orderNumber + "\nSpot: " + spot + "\n\nIssue: " + complaint + CallStartedTail
  }

  const ResolvedLead: string := "🚨 RURAL KING ESCALATION - Manager Assigned/Call Ended!\nOrder: #"
  const CompletedAtLabel: string := "\nCall completed at: "
  const ResolvedTail: string := "\nStatus: Resolved"

  function ResolvedAlert(orderNumber: string, spot: string, name: string, clockText: string): string {
    ResolvedLead + orderNumber + "\nSpot: " + spot + "\nCustomer: " + name + CompletedAtLabel + clockText + ResolvedTail
  }

  const ReviewLead: string := "⭐ Thanks for choosing Rural King! Your order #"
  const ReviewTail: string := " has been completed. Please leave us a review: http://bit.ly/3VE1Nx0"

  function ReviewMessage(orderNumber: string): string {
    ReviewLead + orderNumber + ReviewTail
  }

  // ---------------------------------------------------------------------
  // JavaScript truthiness of an optional string (`x || fallback`)

  /** `x` as a JavaScript condition sees it: the empty string is as absent as null. */
  function Truthy(x: Option<string>): (r: Option<string>)
    ensures r.Some? <==> x.Some? && x.value != ""
    ensures r.Some? ==> r == x
  {
    if x.Some? && x.value != "" then x else None
  }

  /** `x || 'Unknown'` */
  function OrUnknown(x: Option<string>): string {
    Truthy(x).GetOr(UnknownSpot)
  }

  // ---------------------------------------------------------------------
  // SQL `LIKE '%pat%'` on a pattern without wildcards

  predicate HasSubstring(s: string, pat: string)
    decreases |s|
  {
    |pat| <= |s| && (s[..|pat|] == pat || HasSubstring(s[1..], pat))
  }

  lemma {:induction false} HasSubstringAt(s: string, pat: string, i: nat)
    requires i + |pat| <= |s| && s[i..i + |pat|] == pat
    ensures HasSubstring(s, pat)
    decreases i
  {
    if i > 0 {
      assert s[1..][i - 1..i - 1 + |pat|] == s[i..i + |pat|];
      HasSubstringAt(s[1..], pat, i - 1);
    }
  }

  /** Every opt-in request carries the marker the opt-in check searches for. */
  lemma OptInMessageHasMarker(orderNumber: string)
    ensures HasSubstring(OptInMessage(orderNumber), OptInMarker)
  {
    HasSubstringBetween(OptInPrefix + orderNumber + OptInLead, OptInMarker, OptInTail);
  }

  lemma HasSubstringBetween(a: string, pat: string, b: string)
    ensures HasSubstring(a + pat + b, pat)
  {
    var s := a + pat + b;
    assert s[|a|..|a| + |pat|] == pat;
    HasSubstringAt(s, pat, |a|);
  }

  // ---------------------------------------------------------------------
  // `Body.toLowerCase().trim() === 'yes'`

  /** The characters JavaScript's `trim` removes (WhiteSpace and LineTerminator). */
  predicate IsJsWhitespace(c: char) {
    c == '\t' || c == '\n' || c == '\U{000B}' || c == '\U{000C}' || c == '\r' || c == ' '
    || c == '\U{00A0}' || c == '\U{1680}' || ('\U{2000}' <= c <= '\U{200A}') || c == '\U{2028}'
    || c == '\U{2029}' || c == '\U{202F}' || c == '\U{205F}' || c == '\U{3000}' || c == '\U{FEFF}'
  }

  function LowerChar(c: char): char {
    if 'A' <= c <= 'Z' then (c as int + 32) as char else c
  }

  function ToLower(s: string): (r: string)
    ensures |r| == |s| && forall i :: 0 <= i < |s| ==> r[i] == LowerChar(s[i])
  {
    seq(|s|, i requires 0 <= i < |s| => LowerChar(s[i]))
  }

  function TrimStart(s: string): string
    decreases |s|
  {
    if |s| > 0 && IsJsWhitespace(s[0]) then TrimStart(s[1..]) else s
  }

  function TrimEnd(s: string): string
    decreases |s|
  {
    if |s| > 0 && IsJsWhitespace(s[|s| - 1]) then TrimEnd(s[..|s| - 1]) else s
  }

  function Trim(s: string): string {
    TrimEnd(TrimStart(s))
  }

  /** The affirmative reply that confirms an opt-in. */
  predicate IsAffirmative(body: string) {
    Trim(ToLower(body)) == "yes"
  }

  ghost predicate AllWhitespace(s: string) {
    forall i :: 0 <= i < |s| ==> IsJsWhitespace(s[i])
  }

  /**
   * The affirmative test read without `toLowerCase` and `trim`: the body is the
   * three letters y, e, s in any case, with only whitespace around them.
   */
  ghost predicate AffirmativeShape(body: string) {
    exists i :: 0 <= i && i + 3 <= |body| && AllWhitespace(body[..i]) && AllWhitespace(body[i + 3..])
      && LowerChar(body[i]) == 'y' && LowerChar(body[i + 1]) == 'e' && LowerChar(body[i + 2]) == 's'
  }

  lemma AffirmativeIsShape(body: string)
    ensures IsAffirmative(body) <==> AffirmativeShape(body)
  {
    if IsAffirmative(body) {
      AffirmativeHasShape(body);
    }
    if AffirmativeShape(body) {
      var i :| 0 <= i && i + 3 <= |body| && AllWhitespace(body[..i]) && AllWhitespace(body[i + 3..])
        && LowerChar(body[i]) == 'y' && LowerChar(body[i + 1]) == 'e' && LowerChar(body[i + 2]) == 's';
      ShapeIsAffirmative(body, i);
    }
  }

  lemma AffirmativeHasShape(body: string)
    requires IsAffirmative(body)
    ensures AffirmativeShape(body)
  {
    var lower := ToLower(body);
    var k := TrimStartSplit(lower);
    var m := TrimEndSplit(lower[k..]);
    var core := lower[k..][..m];
    assert core == "yes";
    assert m == 3 && core[0] == lower[k] && core[1] == lower[k + 1] && core[2] == lower[k + 2];
    assert lower[k..][m..] == lower[k + 3..];
    LowerSlice(body, 0, k);
    LowerSlice(body, k + 3, |body|);
    LowerAllWhitespace(body[..k]);
    LowerAllWhitespace(body[k + 3..]);
    assert AllWhitespace(body[..k]) && AllWhitespace(body[k + 3..]);
  }

  lemma ShapeIsAffirmative(body: string, i: nat)
    requires i + 3 <= |body| && AllWhitespace(body[..i]) && AllWhitespace(body[i + 3..])
    requires LowerChar(body[i]) == 'y' && LowerChar(body[i + 1]) == 'e' && LowerChar(body[i + 2]) == 's'
    ensures IsAffirmative(body)
  {
    var lower := ToLower(body);
    var w1, w2 := lower[..i], lower[i + 3..];
    LowerSlice(body, 0, i);
    LowerSlice(body, i + 3, |body|);
    assert w1 == ToLower(body[..i]) && w2 == ToLower(body[i + 3..]);
    LowerAllWhitespace(body[..i]);
    LowerAllWhitespace(body[i + 3..]);
    assert lower[i..i + 3] == "yes";
    assert lower == w1 + ("yes" + w2);
    TrimStartSkips(w1, "yes" + w2);
    TrimEndSkips("yes", w2);
  }

  lemma LowerSlice(s: string, a: nat, b: nat)
    requires a <= b <= |s|
    ensures ToLower(s)[a..b] == ToLower(s[a..b])
  {
  }

  /** Lower-casing turns whitespace into whitespace and nothing else into it. */
  lemma LowerAllWhitespace(s: string)
    ensures AllWhitespace(ToLower(s)) <==> AllWhitespace(s)
  {
    forall j | 0 <= j < |s| ensures IsJsWhitespace(ToLower(s)[j]) <==> IsJsWhitespace(s[j]) {
      LowerKeepsWhitespace(s[j]);
    }
  }

  lemma LowerKeepsWhitespace(c: char)
    ensures IsJsWhitespace(LowerChar(c)) <==> IsJsWhitespace(c)
  {
  }

  lemma {:induction false} TrimStartSplit(s: string) returns (k: nat)
    ensures k <= |s| && AllWhitespace(s[..k]) && TrimStart(s) == s[k..]
    decreases |s|
  {
    if |s| > 0 && IsJsWhitespace(s[0]) {
      var k' := TrimStartSplit(s[1..]);
      k := k' + 1;
      forall j | 0 <= j < k ensures IsJsWhitespace(s[..k][j]) {
        if j > 0 { assert s[..k][j] == s[1..][..k'][j - 1]; }
      }
      assert s[1..][k'..] == s[k..];
    } else {
      k := 0;
    }
  }

  lemma {:induction false} TrimEndSplit(s: string) returns (m: nat)
    ensures m <= |s| && AllWhitespace(s[m..]) && TrimEnd(s) == s[..m]
    decreases |s|
  {
    if |s| > 0 && IsJsWhitespace(s[|s| - 1]) {
      var init := s[..|s| - 1];
      m := TrimEndSplit(init);
      forall j | 0 <= j < |s| - m ensures IsJsWhitespace(s[m..][j]) {
        if m + j < |s| - 1 { assert s[m..][j] == init[m..][j]; }
      }
      assert init[..m] == s[..m];
    } else {
      m := |s|;
    }
  }

  lemma {:induction false} TrimStartSkips(w: string, s: string)
    requires AllWhitespace(w) && |s| > 0 && !IsJsWhitespace(s[0])
    ensures TrimStart(w + s) == s
    decreases |w|
  {
    if |w| > 0 {
      assert (w + s)[1..] == w[1..] + s;
      TrimStartSkips(w[1..], s);
    } else {
      assert w + s == s;
    }
  }

  lemma {:induction false} TrimEndSkips(s: string, w: string)
    requires AllWhitespace(w) && |s| > 0 && !IsJsWhitespace(s[|s| - 1])
    ensures TrimEnd(s + w) == s
    decreases |w|
  {
    if |w| > 0 {
      assert (s + w)[..|s + w| - 1] == s + w[..|w| - 1];
      TrimEndSkips(s, w[..|w| - 1]);
    } else {
      assert s + w == s;
    }
  }
}
