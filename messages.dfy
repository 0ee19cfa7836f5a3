/**
 * The unified message list of a phone: its SMS turns and its calls, merged,
 * stably sorted by creation time, then paginated by `slice(offset, offset +
 * limit)`. The query parameters arrive as strings, so the end index is
 * computed with JavaScript's `+`, which concatenates; this module models
 * that as written, the numeric pagination that was evidently intended, and
 * the inputs on which the two differ.
 */
module Messages {
  import opened Wrappers
  import opened Domain
  import opened Queries
  import opened Ordering
  import opened Classifier

  // -------------------------------------------------------------------------
  // Items

  datatype Role = User | Assistant | System

  /** One entry of the list: an SMS turn or a call row, with the text and time it is shown with. */
  datatype Item =
    | SmsItem(turn: Turn, content: string, role: Role, createdAt: int)
    | CallItem(call: VapiCall, content: string, createdAt: int)

  const NoTranscript := "VAPI Call - No transcript available"

  function SmsItemOf(t: Turn): (r: Item)
    ensures r.SmsItem? && r.turn == t && r.createdAt == t.createdAt
    ensures r.role == User <==> t.messageType == Some(Inbound)
  {
    SmsItem(t, t.messageContent, if t.messageType == Some(Inbound) then User else Assistant, t.createdAt)
  }

  function CallItemOf(c: VapiCall): (r: Item)
    ensures r.CallItem? && r.call == c && r.createdAt == c.createdAt
    ensures r.content == NoTranscript <==> c.transcript.None? || c.transcript == Some("") || c.transcript == Some(NoTranscript)
  {
    CallItem(c, Truthy(c.transcript).GetOr(NoTranscript), c.createdAt)
  }

  function ItemTime(m: Item): int {
    m.createdAt
  }

  function CallTime(c: VapiCall): int {
    c.createdAt
  }

  /** A call row whose order belongs to the phone. */
  predicate CallOfPhone(c: VapiCall, orders: seq<Order>, phone: Phone) {
    OrderById(orders, c.orderId).Some? && OrderById(orders, c.orderId).value.customerPhone == phone
  }

  /** The call rows whose order belongs to the phone (the join on `order_id`), each as often as it is stored. */
  function CallsOf(calls: seq<VapiCall>, orders: seq<Order>, phone: Phone): (r: seq<VapiCall>)
    ensures forall c :: c in r <==> c in calls && CallOfPhone(c, orders, phone)
    ensures forall c :: multiset(r)[c] == if CallOfPhone(c, orders, phone) then multiset(calls)[c] else 0
  {
    if calls == [] then []
    else
      var rest := CallsOf(calls[1..], orders, phone);
      assert calls == [calls[0]] + calls[1..];
      if CallOfPhone(calls[0], orders, phone) then [calls[0]] + rest else rest
  }

  /** The SMS items of the phone: one per turn of the phone, oldest first. */
  function SmsItems(conversations: seq<Turn>, phone: Phone): (r: seq<Item>)
    ensures |r| == |TurnsOf(conversations, phone)|
    ensures SortedBy(r, ItemTime)
    ensures forall m :: m in r ==> m.SmsItem? && m == SmsItemOf(m.turn) && m.turn in conversations && m.turn.phone == phone
    ensures forall t :: t in conversations && t.phone == phone ==> SmsItemOf(t) in r
  {
    var rows := SortBy(TurnsOf(conversations, phone), CreatedAt);
    var items := seq(|rows|, i requires 0 <= i < |rows| => SmsItemOf(rows[i]));
    SmsItemsOfRows(conversations, phone, rows, items);
    items
  }

  lemma SmsItemsOfRows(conversations: seq<Turn>, phone: Phone, rows: seq<Turn>, items: seq<Item>)
    requires multiset(rows) == multiset(TurnsOf(conversations, phone)) && SortedBy(rows, CreatedAt)
    requires |items| == |rows| && forall i :: 0 <= i < |rows| ==> items[i] == SmsItemOf(rows[i])
    ensures SortedBy(items, ItemTime)
    ensures forall m :: m in items ==> m.SmsItem? && m == SmsItemOf(m.turn) && m.turn in conversations && m.turn.phone == phone
    ensures forall t :: t in conversations && t.phone == phone ==> SmsItemOf(t) in items
  {
    forall m | m in items ensures m.SmsItem? && m == SmsItemOf(m.turn) && m.turn in conversations && m.turn.phone == phone {
      var i :| 0 <= i < |items| && items[i] == m;
      assert rows[i] in multiset(TurnsOf(conversations, phone));
    }
    forall t | t in conversations && t.phone == phone ensures SmsItemOf(t) in items {
      assert t in multiset(TurnsOf(conversations, phone));
      var i :| 0 <= i < |rows| && rows[i] == t;
      assert items[i] == SmsItemOf(t);
    }
  }

  /** The call items of the phone: one per call row of its orders, oldest first. */
  function CallItems(db: Db, phone: Phone): (r: seq<Item>)
    ensures |r| == |CallsOf(db.vapiCalls, db.orders, phone)|
    ensures SortedBy(r, ItemTime)
    ensures forall m :: m in r ==> m.CallItem? && m == CallItemOf(m.call) && m.call in db.vapiCalls
                                   && CallOfPhone(m.call, db.orders, phone)
    ensures forall c :: c in db.vapiCalls && CallOfPhone(c, db.orders, phone) ==> CallItemOf(c) in r
  {
    var rows := SortBy(CallsOf(db.vapiCalls, db.orders, phone), CallTime);
    var items := seq(|rows|, i requires 0 <= i < |rows| => CallItemOf(rows[i]));
    CallItemsOfRows(db, phone, rows, items);
    items
  }

  lemma CallItemsOfRows(db: Db, phone: Phone, rows: seq<VapiCall>, items: seq<Item>)
    requires multiset(rows) == multiset(CallsOf(db.vapiCalls, db.orders, phone)) && SortedBy(rows, CallTime)
    requires |items| == |rows| && forall i :: 0 <= i < |rows| ==> items[i] == CallItemOf(rows[i])
    ensures SortedBy(items, ItemTime)
    ensures forall m :: m in items ==> m.CallItem? && m == CallItemOf(m.call) && m.call in db.vapiCalls
                                       && CallOfPhone(m.call, db.orders, phone)
    ensures forall c :: c in db.vapiCalls && CallOfPhone(c, db.orders, phone) ==> CallItemOf(c) in items
  {
    forall m | m in items
      ensures m.CallItem? && m == CallItemOf(m.call) && m.call in db.vapiCalls && CallOfPhone(m.call, db.orders, phone)
    {
      var i :| 0 <= i < |items| && items[i] == m;
      assert rows[i] in multiset(CallsOf(db.vapiCalls, db.orders, phone));
    }
    forall c | c in db.vapiCalls && CallOfPhone(c, db.orders, phone) ensures CallItemOf(c) in items {
      assert c in multiset(CallsOf(db.vapiCalls, db.orders, phone));
      var i :| 0 <= i < |rows| && rows[i] == c;
      assert items[i] == CallItemOf(c);
    }
  }

  /**
   * Every SMS item and every call item of the phone, in time order; the
   * total is the sum of the two counts.
   */
  function AllMessages(db: Db, phone: Phone): (r: seq<Item>)
    ensures SortedBy(r, ItemTime)
    ensures multiset(r) == multiset(SmsItems(db.conversations, phone) + CallItems(db, phone))
    ensures |r| == |TurnsOf(db.conversations, phone)| + |CallsOf(db.vapiCalls, db.orders, phone)|
  {
    SortBy(SmsItems(db.conversations, phone) + CallItems(db, phone), ItemTime)
  }

  /** The sort is stable: items with the same time keep their order, SMS items before call items. */
  lemma SameTimeKeepsSourceOrder(db: Db, phone: Phone, k: int)
    ensures WithKey(AllMessages(db, phone), ItemTime, k) ==
      WithKey(SmsItems(db.conversations, phone), ItemTime, k) + WithKey(CallItems(db, phone), ItemTime, k)
  {
    SortByIsStable(SmsItems(db.conversations, phone) + CallItems(db, phone), ItemTime, k);
    WithKeyConcat(SmsItems(db.conversations, phone), CallItems(db, phone), ItemTime, k);
  }

  // -------------------------------------------------------------------------
  // JavaScript values for the query parameters

  /** A query parameter: missing (the destructuring default applies) or the string the client sent. */
  datatype QueryParam = Absent | Given(text: string)

  datatype JsValue = Num(n: int) | Str(s: string)

  predicate IsDigit(c: char) {
    '0' <= c <= '9'
  }

  predicate IsDecimal(s: string) {
    |s| > 0 && forall i :: 0 <= i < |s| ==> IsDigit(s[i])
  }

  predicate AllDigits(s: string) {
    forall i :: 0 <= i < |s| ==> IsDigit(s[i])
  }

  /** A parameter the model covers: missing, or a non-empty run of decimal digits. */
  predicate WellFormed(p: QueryParam) {
    p.Given? ==> IsDecimal(p.text)
  }

  function DigitValue(c: char): nat
    requires IsDigit(c)
  {
    (c as int - '0' as int) as nat
  }

  function Digit(d: nat): (c: char)
    requires d < 10
    ensures IsDigit(c) && DigitValue(c) == d
  {
    ('0' as int + d) as char
  }

  /** The number a string of decimal digits denotes (leading zeros allowed). */
  function DecimalValue(s: string): nat
    requires AllDigits(s)
    decreases |s|
  {
    if s == [] then 0 else DecimalValue(s[..|s| - 1]) * 10 + DigitValue(s[|s| - 1])
  }

  function Pow10(k: nat): (r: nat)
    ensures r > 0
  {
    if k == 0 then 1 else 10 * Pow10(k - 1)
  }

  /** `String(n)` for a non-negative integer: its decimal digits, which denote it. */
  function NumberToString(n: nat): (r: string)
    ensures IsDecimal(r) && DecimalValue(r) == n
    decreases n
  {
    if n < 10 then [Digit(n)]
    else
      var prefix := NumberToString(n / 10);
      var r := prefix + [Digit(n % 10)];
      assert r[..|r| - 1] == prefix;
      r
  }

  function ToJsString(v: JsValue): (r: string)
    requires v.Num? ==> v.n >= 0
  {
    match v
    case Num(n) => NumberToString(n)
    case Str(s) => s
  }

  /** JavaScript's binary `+`: string concatenation when either side is a string, else addition. */
  function JsPlus(a: JsValue, b: JsValue): (r: JsValue)
    requires a.Num? ==> a.n >= 0
    requires b.Num? ==> b.n >= 0
    ensures a.Num? && b.Num? ==> r == Num(a.n + b.n)
    ensures a.Str? || b.Str? ==> r == Str(ToJsString(a) + ToJsString(b))
  {
    if a.Num? && b.Num? then Num(a.n + b.n) else Str(ToJsString(a) + ToJsString(b))
  }

  /** The value after `const { limit = 100, offset = 0 } = req.query`. */
  function ParamValue(p: QueryParam, default: nat): (v: JsValue)
    ensures v.Num? <==> p.Absent?
  {
    match p
    case Absent => Num(default)
    case Given(text) => Str(text)
  }

  /** What `slice` and `parseInt` make of a value of the model: the number it denotes. */
  function ToIndex(v: JsValue): int
    requires v.Str? ==> AllDigits(v.s)
  {
    match v
    case Num(n) => n
    case Str(s) => DecimalValue(s)
  }

  /** The number a well-formed parameter denotes, its default when missing. */
  function ParamNumber(p: QueryParam, default: nat): (n: nat)
    requires WellFormed(p)
    ensures p.Absent? ==> n == default
  {
    match p
    case Absent => default
    case Given(text) => DecimalValue(text)
  }

  /** `Array.prototype.slice(start, end)`: negative indices count from the end, both are clamped. */
  function JsSlice<T>(xs: seq<T>, start: int, end: int): (r: seq<T>)
    ensures 0 <= start <= end ==> |r| <= end - start
    ensures 0 <= start <= |xs| && start <= end ==> r == xs[start..if end <= |xs| then end else |xs|]
    ensures start >= |xs| ==> r == []
  {
    var len := |xs|;
    var from := if start < 0 then (if len + start < 0 then 0 else len + start) else (if start < len then start else len);
    var to := if end < 0 then (if len + end < 0 then 0 else len + end) else (if end < len then end else len);
    if from < to then xs[from..to] else []
  }

  // -------------------------------------------------------------------------
  // GET /api/conversations/:phone/messages

  datatype MessagesResponse = MessagesResponse(
    messages: seq<Item>, totalCount: nat, smsCount: nat, callCount: nat, limit: int, offset: int)

  const DefaultLimit: nat := 100
  const DefaultOffset: nat := 0

  /** The end index as written: `offset + limit` on the raw parameter values. */
  function EndAsWritten(limit: QueryParam, offset: QueryParam): int
    requires WellFormed(limit) && WellFormed(offset)
  {
    var sum := JsPlus(ParamValue(offset, DefaultOffset), ParamValue(limit, DefaultLimit));
    assert sum.Str? ==> AllDigits(sum.s);
    ToIndex(sum)
  }

  /** The endpoint as written: the counts, and the slice up to the concatenated end index. */
  function ListMessagesAsWritten(db: Db, phone: Phone, limit: QueryParam, offset: QueryParam): (r: MessagesResponse)
    requires WellFormed(limit) && WellFormed(offset)
    ensures r.totalCount == |AllMessages(db, phone)| == r.smsCount + r.callCount
    ensures r.smsCount == |TurnsOf(db.conversations, phone)|
    ensures r.callCount == |CallsOf(db.vapiCalls, db.orders, phone)|
    ensures r.messages == JsSlice(AllMessages(db, phone), r.offset, EndAsWritten(limit, offset))
  {
    var all := AllMessages(db, phone);
    MessagesResponse(
      JsSlice(all, ToIndex(ParamValue(offset, DefaultOffset)), EndAsWritten(limit, offset)),
      |all|, |TurnsOf(db.conversations, phone)|, |CallsOf(db.vapiCalls, db.orders, phone)|,
      ParamNumber(limit, DefaultLimit), ParamNumber(offset, DefaultOffset))
  }

  /**
   * The endpoint with numeric pagination: at most `limit` messages, the ones
   * starting at `offset` in time order.
   */
  function ListMessages(db: Db, phone: Phone, limit: QueryParam, offset: QueryParam): (r: MessagesResponse)
    requires WellFormed(limit) && WellFormed(offset)
    ensures r.totalCount == |AllMessages(db, phone)| == r.smsCount + r.callCount
    ensures r.limit == ParamNumber(limit, DefaultLimit) && r.offset == ParamNumber(offset, DefaultOffset)
    ensures |r.messages| <= r.limit
    ensures r.offset <= r.totalCount ==>
      r.messages == AllMessages(db, phone)[r.offset..if r.offset + r.limit <= r.totalCount then r.offset + r.limit else r.totalCount]
    ensures r.offset >= r.totalCount ==> r.messages == []
  {
    var all := AllMessages(db, phone);
    var from := ParamNumber(offset, DefaultOffset);
    var count := ParamNumber(limit, DefaultLimit);
    MessagesResponse(Page(all, from, count), |all|, |TurnsOf(db.conversations, phone)|,
                     |CallsOf(db.vapiCalls, db.orders, phone)|, count, from)
  }

  /** `slice(offset, offset + limit)` on numbers: at most `count` elements, starting at `from`. */
  function Page<T>(xs: seq<T>, from: nat, count: nat): (r: seq<T>)
    ensures |r| <= count
    ensures from <= |xs| ==> r == xs[from..if from + count <= |xs| then from + count else |xs|]
    ensures from >= |xs| ==> r == []
  {
    JsSlice(xs, from, from + count)
  }

  // -------------------------------------------------------------------------
  // Where the two differ

  lemma {:induction false} DecimalConcat(a: string, b: string)
    requires AllDigits(a) && AllDigits(b)
    ensures AllDigits(a + b) && DecimalValue(a + b) == DecimalValue(a) * Pow10(|b|) + DecimalValue(b)
    decreases |b|
  {
    if b == [] {
      assert a + b == a;
    } else {
      var b' := b[..|b| - 1];
      var ab := a + b;
      assert ab[..|ab| - 1] == a + b';
      assert ab[|ab| - 1] == b[|b| - 1];
      DecimalConcat(a, b');
      var d := DigitValue(b[|b| - 1]);
      assert DecimalValue(ab) == DecimalValue(a + b') * 10 + d;
      assert DecimalValue(b) == DecimalValue(b') * 10 + d;
      ShiftLeftDigit(DecimalValue(a), Pow10(|b'|), DecimalValue(b'), d,
                     DecimalValue(a + b'), DecimalValue(ab), Pow10(|b|), DecimalValue(b));
    }
  }

  /** Appending a digit `d` to the number `m == x * p + y` and to `y`. */
  lemma ShiftLeftDigit(x: int, p: int, y: int, d: int, m: int, v: int, q: int, w: int)
    requires m == x * p + y && v == m * 10 + d && q == p * 10 && w == y * 10 + d
    ensures v == x * q + w
  {
    calc {
      v;
      (x * p + y) * 10 + d;
      x * p * 10 + y * 10 + d;
    }
  }

  /**
   * The end index as written: the sum only when the offset is missing; with
   * a given offset its digits are followed by the limit's (or by "100").
   */
  lemma EndAsWrittenValue(limit: QueryParam, offset: QueryParam)
    requires WellFormed(limit) && WellFormed(offset)
    ensures offset.Absent? ==> EndAsWritten(limit, offset) == ParamNumber(limit, DefaultLimit)
    ensures offset.Given? ==>
      EndAsWritten(limit, offset) == ParamNumber(offset, DefaultOffset) * Pow10(|ToJsString(ParamValue(limit, DefaultLimit))|)
                                     + ParamNumber(limit, DefaultLimit)
  {
    var o := ToJsString(ParamValue(offset, DefaultOffset));
    var l := ToJsString(ParamValue(limit, DefaultLimit));
    if offset.Absent? && limit.Given? {
      assert o == "0";
      DecimalConcat(o, l);
    } else if offset.Given? {
      DecimalConcat(o, l);
    }
  }

  /** Without an offset parameter the page is the one numeric pagination gives. */
  lemma AsWrittenAgreesWithoutOffset(db: Db, phone: Phone, limit: QueryParam)
    requires WellFormed(limit)
    ensures ListMessagesAsWritten(db, phone, limit, Absent) == ListMessages(db, phone, limit, Absent)
  {
    EndAsWrittenValue(limit, Absent);
  }

  /** `?offset=1&limit=2` on a phone with at least 12 messages returns 11 of them: the end index is "12". */
  lemma AsWrittenOverrunsLimit(db: Db, phone: Phone)
    requires |AllMessages(db, phone)| >= 12
    ensures |ListMessagesAsWritten(db, phone, Given("2"), Given("1")).messages| == 11
    ensures |ListMessages(db, phone, Given("2"), Given("1")).messages| == 2
  {
    EndAsWrittenValue(Given("2"), Given("1"));
    assert ParamNumber(Given("1"), DefaultOffset) == 1;
    assert ParamNumber(Given("2"), DefaultLimit) == 2;
  }
}
