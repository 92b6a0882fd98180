/** confirmInbound with a counted (non-KEEP) target status: receipts at the current hub. */
module Receiving {
  import opened Basics
  import opened Sums
  import opened Model
  import opened Dispatch

  /**
   * One row of the request. `code` is absent for placeholder codes; `upper` is the code in upper case and `newCode`
   * the code the counter would allocate. `destHub` distinguishes "not sent" from "sent as null".
   */
  datatype Row = Row(
    id: Option<OrderId>, code: Option<Code>, upper: Code, newCode: Code,
    actual: Option<int>, total: Option<int>, expected: Option<int>,
    weight: Option<real>, volume: Option<real>, actualWeight: Option<real>, actualVolume: Option<real>,
    destHub: Option<Option<HubId>>)
  {
    /** row.actualQuantity ?? row.totalQuantity */
    function Counted(): Option<int> {
      actual.OrElse(total)
    }
  }

  /** `plateCode` is the trip code the sequence yields when a plate was given without a trip. */
  datatype Tally = Tally(
    rows: seq<Row>, hub: Option<HubId>, trip: Option<Code>, plateCode: Option<Code>,
    keepPending: bool, superAdmin: bool)

  /** What the row loop carries: the tables, the shared trip code, the orders and trips it has handled. */
  datatype Progress = Progress(s: State, shared: Option<Code>, saved: seq<OrderId>, codes: seq<Code>)

  /** What one row turned out to be, before it is linked to its trip. */
  datatype Counting = Counting(s: State, order: OrderId, trip: Option<Code>, qty: int, expected: Option<int>)

  /** Number(x) || 1 */
  function OrOne(q: int): int {
    if q == 0 then 1 else q
  }

  function Sent(x: Option<real>, default: real): real {
    if x.Some? && x.value >= 0.0 then x.value else default
  }

  /** Proportional share of a contract metric for a partial quantity. */
  function Share(total: real, qty: int, whole: int): real {
    if whole == 0 || qty >= whole then total
    else Round3(total * qty as real / whole as real)
  }

  function FindRow(s: State, row: Row): (r: Option<OrderId>)
    ensures r.Some? ==> IsLive(s.orders, r.value)
  {
    if row.id.Some? && IsLive(s.orders, row.id.value) then row.id
    else if row.code.Some? then FindByCode(s, row.code.value)
    else None
  }

  // ----- A draft of this hub enters stock ------------------------------------------------------

  predicate EditableDraft(o: Order, t: Tally) {
    DraftLike(o.status) && (o.originHub.None? || o.originHub == t.hub || t.superAdmin)
  }

  function Renamed(s: State, o: Order, row: Row): Code {
    if row.code.Some? && |row.upper| > 0 && row.upper != o.code && FindByCode(s, row.upper).None?
    then row.upper else o.code
  }

  function Accepted(s: State, o: Order, row: Row, hub: Option<HubId>): Order {
    var total := if row.total.Some? && row.total.value > 0 then row.total.value else o.total;
    var q := OrOne(total);
    o.(code := Renamed(s, o, row), total := total,
       load := Load(Sent(row.weight, o.load.weight), Sent(row.volume, o.load.volume)),
       originHub := o.originHub.OrElse(hub),
       destHub := if row.destHub.Some? then row.destHub.value else o.destHub,
       status := INBOUND, inbound := q, remaining := q, outbound := 0, currentHub := hub, currentTrip := None)
  }

  // ----- A locked contract is counted ----------------------------------------------------------

  function FirstReceipt(l: seq<Tx>, o: OrderId, c: Code, h: HubId, from: nat): (r: Option<nat>)
    requires from <= |l|
    ensures r.Some? ==> from <= r.value < |l| && l[r.value].live && l[r.value].order == o &&
                        l[r.value].trip == Some(c) && l[r.value].hub == Some(h) && l[r.value].kind.InboundTx?
    decreases |l| - from
  {
    if from == |l| then None
    else if l[from].live && l[from].order == o && l[from].trip == Some(c) && l[from].hub == Some(h) &&
      l[from].kind.InboundTx?
    then Some(from)
    else FirstReceipt(l, o, c, h, from + 1)
  }

  function FirstLine(ls: seq<Line>, o: OrderId, c: Code, from: nat): (r: Option<nat>)
    requires from <= |ls|
    ensures r.Some? ==> from <= r.value < |ls| && OnTrip(ls[r.value], c) && ls[r.value].order == o
    decreases |ls| - from
  {
    if from == |ls| then None
    else if OnTrip(ls[from], c) && ls[from].order == o then Some(from)
    else FirstLine(ls, o, c, from + 1)
  }

  /** A super admin corrects an existing receipt. */
  function Recounted(o: Order, row: Row, diff: int): Order {
    var inbound := if diff == 0 then o.inbound else Max(0, o.inbound + diff);
    o.(inbound := inbound,
       total := if diff == 0 then o.total else Max(o.total, inbound),
       remaining := if diff == 0 then o.remaining else Max(0, inbound - o.outbound),
       load := Load(Sent(row.weight, o.load.weight), Sent(row.volume, o.load.volume)))
  }

  function Recount(s: State, o: OrderId, row: Row, c: Code, i: nat, q: int): State
    requires o in s.orders && i < |s.ledger|
  {
    var line := FirstLine(s.lines, o, c, 0);
    s.(ledger := s.ledger[i := s.ledger[i].(qty := q)],
       orders := s.orders[o := Recounted(s.orders[o], row, q - s.ledger[i].qty)],
       lines := if line.Some? then s.lines[line.value := s.lines[line.value].(qty := Some(q))] else s.lines)
  }

  /** Quantity still on the trip, when the trip was loaded for this order at all. */
  function OnTheWay(s: State, o: OrderId, trip: Option<Code>): Option<int> {
    if trip.Some? && Loaded(s.ledger, o, trip.value) > 0 then Some(InTransit(s.ledger, o, trip.value)) else None
  }

  function CountedOrder(o: Order, row: Row, hub: Option<HubId>, trip: Option<Code>, qty: int, onTheWay: Option<int>)
        : Order
  {
    var weight := if row.actualWeight.Some? then row.actualWeight.value else Share(o.load.weight, qty, o.total);
    var volume := if row.actualVolume.Some? then row.actualVolume.value else Share(o.load.volume, qty, o.total);
    var inbound := o.inbound + qty;
    o.(inbound := inbound,
       total := Max(o.total, inbound),
       load := if inbound > o.total then AddLoad(o.load, Load(weight, volume)) else o.load,
       remaining := Max(0, inbound - o.outbound),
       status := INBOUND, currentHub := hub,
       currentTrip := if trip.Some? && o.currentTrip == trip && (onTheWay.None? || onTheWay.value - qty <= 0)
                      then None else o.currentTrip)
  }

  function CountedQty(o: Order, row: Row, expected: Option<int>): int {
    if row.Counted().Some? then row.Counted().value
    else if expected.Some? then expected.value
    else OrOne(o.total)
  }

  function CountLocked(s: State, o: OrderId, row: Row, hub: Option<HubId>, trip: Option<Code>): Result<Counting>
    requires o in s.orders
  {
    var onTheWay := OnTheWay(s, o, trip);
    var expected := row.expected.OrElse(onTheWay);
    var qty := CountedQty(s.orders[o], row, expected);
    if qty <= 0 then Err(Unprocessable)
    else
      Ok(Counting(s.(orders := s.orders[o := CountedOrder(s.orders[o], row, hub, trip, qty, onTheWay)]),
                  o, trip, qty, expected))
  }

  // ----- A row nobody announced ----------------------------------------------------------------

  function NewContract(row: Row, hub: Option<HubId>): Order {
    var q := OrOne(row.total.GetOr(0));
    Order(row.code.GetOr(row.newCode), INBOUND, q, q, 0, q, Load(row.weight.GetOr(0.0), row.volume.GetOr(0.0)),
          hub, hub, if row.destHub.Some? then row.destHub.value else None, None, true)
  }

  // ----- Linking to the trip and writing the receipt -------------------------------------------

  function LinkLine(s: State, o: OrderId, row: Row, t: Tally, c: Code): (r: (seq<Line>, nat))
    requires o in s.orders
    ensures |s.lines| <= |r.0|
  {
    var qty := Some(OrOne(row.Counted().GetOr(s.orders[o].total)));
    var dest := if row.destHub.Some? then row.destHub.value else s.orders[o].destHub;
    match FirstLine(s.lines, o, c, 0)
    case Some(i) =>
      (s.lines[i := s.lines[i].(qty := qty, dest := dest,
                                status := if t.keepPending then s.lines[i].status else LineCompleted)], i)
    case None =>
      (s.lines + [Line(o, Some(c), t.hub, dest, InboundLine, if t.keepPending then LinePending else LineCompleted,
                       qty, true)], |s.lines|)
  }

  function CountTx(k: Counting, hub: Option<HubId>, trip: Option<Code>, line: Option<nat>, running: int): Tx {
    Tx(k.order, InboundTx, hub, trip, line, k.qty, k.expected,
       if k.expected.Some? then k.qty - k.expected.value else 0, running, true)
  }

  function Link(g: Progress, k: Counting, row: Row, t: Tally): Progress
    requires k.order in k.s.orders
  {
    var shared := if k.trip.None? then g.shared.OrElse(t.plateCode) else g.shared;
    var trip := k.trip.OrElse(shared);
    var (lines, line) := if trip.Some? then LinkLine(k.s, k.order, row, t, trip.value) else (k.s.lines, 0);
    var ledger :=
      if k.qty > 0
      then k.s.ledger + [CountTx(k, t.hub, trip, if trip.Some? then Some(line)
        else None, k.s.orders[k.order].remaining)]
      else k.s.ledger;
    Progress(k.s.(lines := lines, ledger := ledger), shared, g.saved + [k.order],
             if trip.Some? && trip.value !in g.codes then g.codes + [trip.value] else g.codes)
  }

  function Skip(g: Progress, s: State, o: OrderId, c: Code): Progress {
    g.(s := s, saved := g.saved + [o], codes := if c !in g.codes then g.codes + [c] else g.codes)
  }

  function ReceiveRow(g: Progress, row: Row, t: Tally): Result<Progress> {
    match FindRow(g.s, row)
    case None =>
      var o := g.s.nextOrder;
      var made := NewContract(row, t.hub);
      var s := g.s.(orders := g.s.orders[o := made], nextOrder := o + 1);
      Ok(Link(g, Counting(s, o, g.shared, made.inbound, Some(made.inbound)), row, t))
    case Some(o) =>
      var order := g.s.orders[o];
      if EditableDraft(order, t) then
        var taken := Accepted(g.s, order, row, t.hub);
        var s := g.s.(orders := g.s.orders[o := taken]);
        Ok(Link(g, Counting(s, o, g.shared, taken.inbound, Some(taken.inbound)), row, t))
      else
        var trip := g.shared.OrElse(order.currentTrip);
        var receipt := if trip.Some? && t.hub.Some? then FirstReceipt(g.s.ledger, o, trip.value, t.hub.value,
            0) else None;
        if receipt.Some? then
          var q := row.Counted().GetOr(0);
          Ok(Skip(g, if t.superAdmin && q > 0 then Recount(g.s, o, row, trip.value, receipt.value, q)
            else g.s, o, trip.value))
        else
          var k :- CountLocked(g.s, o, row, t.hub, trip);
          Ok(Link(g, k, row, t))
  }

  function ReceiveRows(g: Progress, t: Tally, n: nat): Result<Progress>
    requires n <= |t.rows|
    decreases n
  {
    if n == 0 then Ok(g)
    else
      var before :- ReceiveRows(g, t, n - 1);
      ReceiveRow(before, t.rows[n - 1], t)
  }

  // ----- After the rows: lines taken off the vehicle, stops, completed trips -------------------

  predicate TakenOff(line: Line, c: Code, hub: Option<HubId>, kept: seq<OrderId>) {
    OnTrip(line, c) && line.kind.InboundLine? && line.order !in kept &&
    (hub.None? || line.origin.None? || line.origin == hub)
  }

  function TakeOff(ls: seq<Line>, c: Code, hub: Option<HubId>, kept: seq<OrderId>): (r: seq<Line>)
    ensures |r| == |ls|
    ensures forall i :: 0 <= i < |ls| ==> r[i] == if TakenOff(ls[i], c, hub, kept) then ls[i].(live := false) else ls[i]
  {
    seq(|ls|, i requires 0 <= i < |ls| => if TakenOff(ls[i], c, hub, kept) then ls[i].(live := false) else ls[i])
  }

  predicate EverReceived(s: State, o: OrderId)
    requires o in s.orders
  {
    exists i :: 0 <= i < |s.ledger| && s.ledger[i].live && s.ledger[i].kind.InboundTx? &&
      (s.ledger[i].order == o ||
       (IsLive(s.orders, s.ledger[i].order) && s.orders[s.ledger[i].order].code == s.orders[o].code))
  }

  /** A draft that only existed for this vehicle is removed; an order with earlier deliveries only leaves the trip. */
  function LeftBehind(s: State, ls: seq<Line>, o: OrderId, c: Code): Order
    requires o in s.orders
  {
    if DraftLike(s.orders[o].status) && !EverReceived(s, o) &&
       !(exists i :: 0 <= i < |ls| && ls[i].live && ls[i].order == o)
    then s.orders[o].(live := false)
    else if s.orders[o].currentTrip == Some(c) then s.orders[o].(currentTrip := None)
    else s.orders[o]
  }

  function SyncRemoved(s: State, c: Code, hub: Option<HubId>, kept: seq<OrderId>): (r: State)
    ensures r.orders.Keys == s.orders.Keys
  {
    var ls := TakeOff(s.lines, c, hub, kept);
    s.(lines := ls,
       orders := map o | o in s.orders ::
         if s.orders[o].live &&
           exists i :: 0 <= i < |s.lines| && TakenOff(s.lines[i], c, hub, kept) && s.lines[i].order == o
         then LeftBehind(s, ls, o, c) else s.orders[o])
  }

  predicate AwaitsStop(stops: map<(Code, HubId), Stop>, c: Code) {
    exists k :: k in stops && k.0 == c && stops[k].live && stops[k].status.StopPending?
  }

  function CompleteLines(ls: seq<Line>, c: Code): (r: seq<Line>)
    ensures |r| == |ls|
    ensures forall i :: 0 <= i < |ls| ==> r[i] == if OnTrip(ls[i], c) then ls[i].(status := LineCompleted) else ls[i]
  {
    seq(|ls|, i requires 0 <= i < |ls| => if OnTrip(ls[i], c) then ls[i].(status := LineCompleted) else ls[i])
  }

  function CloseStop(s: State, c: Code, hub: HubId, keepPending: bool): State {
    var stops := UpsertStop(s.stops, c, hub, if keepPending then StopPending else StopCompleted, DestinationStop, 1);
    s.(stops := stops,
       lines := if keepPending || AwaitsStop(stops, c) then s.lines else CompleteLines(s.lines, c))
  }

  function CloseStops(s: State, codes: seq<Code>, hub: HubId, keepPending: bool, n: nat): State
    requires n <= |codes|
    decreases n
  {
    if n == 0 then s
    else CloseStop(CloseStops(s, codes, hub, keepPending, n - 1), codes[n - 1], hub, keepPending)
  }

  function Finish(g: Progress, t: Tally): State {
    var synced :=
      if g.shared.Some? && |g.saved| > 0 && !t.keepPending then SyncRemoved(g.s, g.shared.value, t.hub,
        g.saved) else g.s;
    if t.hub.Some? then CloseStops(synced, g.codes, t.hub.value, t.keepPending, |g.codes|) else synced
  }

  function Receive(s: State, t: Tally): Result<State> {
    if |t.rows| == 0 then Err(Unprocessable)
    else
      var g :- ReceiveRows(Progress(s, t.trip, [], []), t, |t.rows|);
      Ok(Finish(g, t))
  }
}
