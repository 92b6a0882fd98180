/** quickCreateInboundOrder: one order row received (or planned) at a hub. */
module Intake {
  import opened Basics
  import opened Sums
  import opened Model
  import opened Consolidation

  /** `code` is the order code after placeholder codes have been replaced by generated ones. */
  datatype Arrival = Arrival(
    code: Code, status: Status, qty: Option<int>, weight: Option<real>, volume: Option<real>, dest: Option<HubId>)
  {
    predicate Draft() {
      DraftLike(status)
    }

    function Qty(): (q: int)
      ensures 1 <= q
    {
      if qty.Some? && qty.value > 0 then qty.value else 1
    }

    function Goods(): Load {
      Load(if weight.Some? && weight.value >= 0.0 then weight.value else 0.0,
           if volume.Some? && volume.value >= 0.0 then volume.value else 0.0)
    }
  }

  function NewOrder(item: Arrival, hub: Option<HubId>): Order {
    var q := if item.Draft() then 0 else item.Qty();
    Order(item.code, item.status, item.Qty(), q, 0, q, item.Goods(), hub, hub, item.dest, None, true)
  }

  /** A second delivery under a code that already has a row. */
  function Absorb(o: Order, item: Arrival, hub: Option<HubId>): Order {
    var q := item.Qty();
    if DraftLike(o.status) && !item.Draft() then
      o.(total := q, inbound := q, remaining := q, load := item.Goods(), status := item.status, currentHub := hub)
    else
      var more := o.(total := o.total + q, load := AddLoad(o.load, item.Goods()));
      if item.Draft() then more
      else more.(inbound := o.inbound + q, remaining := o.remaining + q, status := INBOUND, currentHub := hub)
  }

  function IntakeLine(o: OrderId, item: Arrival, hub: Option<HubId>, trip: Code, dest: Option<HubId>): Line {
    Line(o, Some(trip), hub, dest, InboundLine, if item.Draft() then LinePending else LineCompleted,
         Some(item.Qty()), true)
  }

  function ReceiptTx(o: OrderId, item: Arrival, hub: Option<HubId>, trip: Option<Code>, line: Option<nat>,
        running: int): Tx
  {
    Tx(o, InboundTx, hub, trip, line, item.Qty(), Some(item.Qty()), 0, running, true)
  }

  /** The row an existing code is booked on: its first real row, else its first row. */
  function ActiveRow(orders: map<OrderId, Order>, sibs: seq<OrderId>): (r: OrderId)
    requires |sibs| > 0
    ensures r in sibs
  {
    var stocked := NonDrafts(orders, sibs);
    if |stocked| > 0 then assert stocked[0] in stocked; stocked[0] else sibs[0]
  }

  /** Where the goods are booked: the state with the order row saved, and that row's id. */
  function Book(s: State, item: Arrival, hub: Option<HubId>): (r: (State, OrderId))
    ensures r.1 in r.0.orders
  {
    var sibs := SiblingsOf(s, item.code);
    if |sibs| == 0 then
      (s.(orders := s.orders[s.nextOrder := NewOrder(item, hub)], nextOrder := s.nextOrder + 1), s.nextOrder)
    else
      var active := ActiveRow(s.orders, sibs);
      assert sibs[0] in sibs;
      var one := if |sibs| > 1 then Consolidate(s, active) else s;
      var booked := Absorb(one.orders[active], item, hub)
                    .(destHub := s.orders[sibs[0]].destHub.OrElse(item.dest));
      (one.(orders := one.orders[active := booked]), active)
  }

  /** The trip line, the hub's stop and the first receipt that go with a booked row. */
  function Record(s: State, o: OrderId, item: Arrival, hub: Option<HubId>, trip: Option<Code>): State
    requires o in s.orders
  {
    s.(lines := if trip.Some? then s.lines + [IntakeLine(o, item, hub, trip.value, s.orders[o].destHub)] else s.lines,
       stops := if trip.Some? && hub.Some?
                then UpsertStop(s.stops, trip.value, hub.value, if item.Draft() then StopPending else StopCompleted,
                                DestinationStop, 1)
                else s.stops,
       ledger := if item.Draft() then s.ledger
                 else s.ledger + [ReceiptTx(o, item, hub, trip, if trip.Some? then Some(|s.lines|) else None,
                                            s.orders[o].remaining)])
  }

  /** `trip` is present exactly when a vehicle plate was given. */
  function QuickCreate(s: State, item: Arrival, hub: Option<HubId>, trip: Option<Code>): State {
    var (booked, o) := Book(s, item, hub);
    Record(booked, o, item, hub, trip)
  }
}
