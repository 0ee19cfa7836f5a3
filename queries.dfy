/**
 * The read-only queries the handlers run against the store: customer lookup,
 * the active order, the most recent order, the most recent known parking spot,
 * the pending opt-in request, and order lookup by id. Each `ORDER BY created_at
 * DESC LIMIT 1` is the newest matching row; SQL leaves ties open, and the model
 * gives them to the row inserted last.
 */
module Queries {
  import opened Wrappers
  import opened Domain

  /** Index of the newest element satisfying `keep`: the largest `time`, the later index on ties. */
  function NewestIndex<T>(xs: seq<T>, keep: T -> bool, time: T -> int): (r: Option<nat>)
    ensures r.Some? <==> exists i :: 0 <= i < |xs| && keep(xs[i])
    ensures r.Some? ==> r.value < |xs| && keep(xs[r.value])
    ensures r.Some? ==> forall i :: 0 <= i < |xs| && keep(xs[i]) ==> time(xs[i]) <= time(xs[r.value])
    ensures r.Some? ==> forall i :: r.value < i < |xs| && keep(xs[i]) ==> time(xs[i]) < time(xs[r.value])
  {
    if xs == [] then None
    else
      var n := |xs| - 1;
      var rest := NewestIndex(xs[..n], keep, time);
      assert forall i :: 0 <= i < n ==> xs[..n][i] == xs[i];
      if keep(xs[n]) && (rest.None? || time(xs[rest.value]) <= time(xs[n])) then Some(n)
      else rest
  }

  /** `getCustomer` */
  function GetCustomer(customers: map<Phone, Customer>, phone: Phone): (r: Option<Customer>)
    ensures r.Some? <==> phone in customers
    ensures r.Some? ==> r.value == customers[phone]
  {
    if phone in customers then Some(customers[phone]) else None
  }

  predicate IsActiveFor(o: Order, phone: Phone) {
    o.customerPhone == phone && o.status != Completed
  }

  /** `getActiveOrder`: the newest order of the phone whose status is not COMPLETED. */
  function ActiveOrder(orders: seq<Order>, phone: Phone): (r: Option<Order>)
    ensures r.Some? <==> exists i :: 0 <= i < |orders| && IsActiveFor(orders[i], phone)
    ensures r.Some? ==> r.value in orders && r.value.customerPhone == phone && r.value.status != Completed
    ensures r.Some? ==> forall o :: o in orders && IsActiveFor(o, phone) ==> o.createdAt <= r.value.createdAt
    ensures r.Some? ==> exists i :: 0 <= i < |orders| && orders[i] == r.value
                          && forall j :: i < j < |orders| && IsActiveFor(orders[j], phone) ==> orders[j].createdAt < r.value.createdAt
  {
    var k := NewestIndex(orders, (o: Order) => IsActiveFor(o, phone), (o: Order) => o.createdAt);
    if k.Some? then Some(orders[k.value]) else None
  }

  /** The newest order of the phone, whatever its status (the follow-ups' `ORDER BY created_at DESC LIMIT 1`). */
  function LatestOrder(orders: seq<Order>, phone: Phone): (r: Option<Order>)
    ensures r.Some? <==> exists i :: 0 <= i < |orders| && orders[i].customerPhone == phone
    ensures r.Some? ==> r.value in orders && r.value.customerPhone == phone
    ensures r.Some? ==> forall o :: o in orders && o.customerPhone == phone ==> o.createdAt <= r.value.createdAt
    ensures r.Some? ==> exists i :: 0 <= i < |orders| && orders[i] == r.value
                          && forall j :: i < j < |orders| && orders[j].customerPhone == phone ==> orders[j].createdAt < r.value.createdAt
  {
    var k := NewestIndex(orders, (o: Order) => o.customerPhone == phone, (o: Order) => o.createdAt);
    if k.Some? then Some(orders[k.value]) else None
  }

  predicate HasSpotFor(t: Turn, phone: Phone) {
    t.phone == phone && t.parkingSpot.Some?
  }

  /** Turn `i` is the newest turn of the phone with a spot; of equally new ones, the last inserted. */
  ghost predicate NewestSpotTurn(conversations: seq<Turn>, phone: Phone, i: nat)
    requires i < |conversations|
  {
    && HasSpotFor(conversations[i], phone)
    && (forall j :: 0 <= j < |conversations| && HasSpotFor(conversations[j], phone)
          ==> conversations[j].createdAt <= conversations[i].createdAt)
    && (forall j :: i < j < |conversations| && HasSpotFor(conversations[j], phone)
          ==> conversations[j].createdAt < conversations[i].createdAt)
  }

  /**
   * The parking spot of the newest turn of the phone that recorded one
   * (`parking_spot IS NOT NULL ORDER BY created_at DESC LIMIT 1`).
   */
  function KnownParkingSpot(conversations: seq<Turn>, phone: Phone): (r: Option<string>)
    ensures r.None? <==> forall t :: t in conversations && t.phone == phone ==> t.parkingSpot.None?
    ensures r.Some? ==> (exists i :: 0 <= i < |conversations| && NewestSpotTurn(conversations, phone, i)
                                     && conversations[i].parkingSpot == r)
  {
    var k := NewestIndex(conversations, (t: Turn) => HasSpotFor(t, phone), (t: Turn) => t.createdAt);
    if k.Some? then conversations[k.value].parkingSpot else None
  }

  /** A turn of the phone whose response is an opt-in request and which is younger than 24 hours. */
  predicate IsRecentOptInRequest(t: Turn, phone: Phone, now: int) {
    t.phone == phone && HasSubstring(t.aiResponse, OptInMarker) && t.createdAt > now - OptInWindow
  }

  predicate HasRecentOptInRequest(conversations: seq<Turn>, phone: Phone, now: int) {
    exists i :: 0 <= i < |conversations| && IsRecentOptInRequest(conversations[i], phone, now)
  }

  /** The order with the given id (`WHERE id = $1`; ids are unique in a valid store). */
  function OrderById(orders: seq<Order>, id: nat): (r: Option<Order>)
    ensures r.Some? <==> exists o :: o in orders && o.id == id
    ensures r.Some? ==> r.value in orders && r.value.id == id
  {
    if orders == [] then None
    else if orders[0].id == id then Some(orders[0])
    else OrderById(orders[1..], id)
  }
}
