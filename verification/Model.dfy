/**
 * The four tables of the warehouse and the aggregates the services read from them.
 *
 * A row's key in `ledger` and `lines` is its position, so position order is `ORDER BY id ASC`; rows are
 * only ever appended or soft-deleted (`live == false` stands for a non-null `deletedAt`).
 */
module Model {
  import opened Basics
  import opened Sums

  type OrderId = nat
  type HubId = nat
  type Code = string

  datatype Status =
    | DRAFT | PENDING | WAITING
    | INBOUND | STORED | LUU_KHO | IN_WAREHOUSE
    | PENDING_INBOUND | IN_TRANSIT | PARTIALLY_DELIVERED
    | COMPLETED_INBOUND | OUT_FOR_DELIVERY | DELIVERED | COMPLETED_OUTBOUND
    | OTHER(name: string)

  /** DRAFT_LIKE_STATUSES: still a draft at the hub that created it. */
  predicate DraftLike(st: Status) {
    st.DRAFT? || st.PENDING? || st.WAITING?
  }

  /** Weight and volume travel together everywhere. */
  datatype Load = Load(weight: real, volume: real)

  /** Math.round(x * 1000) / 1000 over the reals. */
  function Round3(x: real): real {
    (x * 1000.0 + 0.5).Floor as real / 1000.0
  }

  function AddLoad(a: Load, b: Load): Load {
    Load(Round3(a.weight + b.weight), Round3(a.volume + b.volume))
  }

  datatype Order = Order(
    code: Code, status: Status,
    total: int, inbound: int, outbound: int, remaining: int, load: Load,
    originHub: Option<HubId>, currentHub: Option<HubId>, destHub: Option<HubId>,
    currentTrip: Option<Code>, live: bool)

  predicate SameQuantities(a: Order, b: Order) {
    a.total == b.total && a.inbound == b.inbound && a.outbound == b.outbound && a.remaining == b.remaining
  }

  datatype TxType = InboundTx | OutboundTx | TransferTx | AdjustmentTx

  /** An invoice row; `line` is the trip row it was issued for, `running` the balance stored with it. */
  datatype Tx = Tx(
    order: OrderId, kind: TxType, hub: Option<HubId>, trip: Option<Code>, line: Option<nat>,
    qty: int, expected: Option<int>, discrepancy: int, running: int, live: bool)

  datatype LineType = InboundLine | OutboundLine | TransferLine
  datatype LineStatus = LinePending | LineInTransit | LineCompleted

  /** One order's allocation on a trip. */
  datatype Line = Line(
    order: OrderId, trip: Option<Code>, origin: Option<HubId>, dest: Option<HubId>,
    kind: LineType, status: LineStatus, qty: Option<int>, live: bool)

  datatype StopStatus = StopPending | StopCompleted
  datatype StopType = OriginStop | TransitStop | DestinationStop
  datatype Stop = Stop(status: StopStatus, kind: StopType, position: nat, live: bool)

  datatype State = State(
    orders: map<OrderId, Order>, nextOrder: OrderId,
    ledger: seq<Tx>, lines: seq<Line>, stops: map<(Code, HubId), Stop>)

  const EMPTY := State(map[], 0, [], [], map[])

  predicate IsLive(orders: map<OrderId, Order>, o: OrderId) {
    o in orders && orders[o].live
  }

  // ----- Orders sharing a code, ORDER BY id ASC ------------------------------------------------

  function Siblings(orders: map<OrderId, Order>, code: Code, bound: OrderId): (r: seq<OrderId>)
    ensures forall i, j :: 0 <= i < j < |r| ==> r[i] < r[j]
    ensures forall o: OrderId :: o in r <==> o < bound && IsLive(orders, o) && orders[o].code == code
  {
    if bound == 0 then []
    else
      var lower := Siblings(orders, code, bound - 1);
      assert forall i :: 0 <= i < |lower| ==> lower[i] in lower;
      if IsLive(orders, bound - 1) && orders[bound - 1].code == code then lower + [bound - 1] else lower
  }

  function SiblingsOf(s: State, code: Code): seq<OrderId> {
    Siblings(s.orders, code, s.nextOrder)
  }

  /** The row `findOne({ where: { orderCode } })` reads. */
  function FindByCode(s: State, code: Code): (r: Option<OrderId>)
    ensures r.Some? ==> IsLive(s.orders, r.value) && s.orders[r.value].code == code
    ensures r.None? ==> forall o: OrderId :: o < s.nextOrder && IsLive(s.orders, o) ==> s.orders[o].code != code
  {
    var sibs := SiblingsOf(s, code);
    if |sibs| == 0 then None else assert sibs[0] in sibs; Some(sibs[0])
  }

  // ----- Ledger aggregates ---------------------------------------------------------------------

  predicate IsDispatch(k: TxType) {
    k.OutboundTx? || k.TransferTx?
  }

  /** INBOUND counts up, OUTBOUND and TRANSFER count down, ADJUSTMENT does not count. */
  function Signed(t: Tx): int {
    if t.kind.InboundTx? then t.qty else if IsDispatch(t.kind) then -t.qty else 0
  }

  function InboundOf(o: OrderId): Tx -> int {
    (t: Tx) => if t.live && t.order == o && t.kind.InboundTx? then t.qty else 0
  }

  function DispatchedOf(o: OrderId): Tx -> int {
    (t: Tx) => if t.live && t.order == o && IsDispatch(t.kind) then t.qty else 0
  }

  function StockAt(o: OrderId, h: Option<HubId>): Tx -> int {
    (t: Tx) => if t.live && t.order == o && t.hub == h then Signed(t) else 0
  }

  function DispatchedOn(o: OrderId, h: Option<HubId>, c: Code): Tx -> int {
    (t: Tx) => if t.live && t.order == o && t.hub == h && t.trip == Some(c) && IsDispatch(t.kind) then t.qty else 0
  }

  function LoadedOn(o: OrderId, c: Code): Tx -> int {
    (t: Tx) => if t.live && t.order == o && t.trip == Some(c) && t.kind.TransferTx? then t.qty else 0
  }

  function ReceivedOn(o: OrderId, c: Code): Tx -> int {
    (t: Tx) => if t.live && t.order == o && t.trip == Some(c) && t.kind.InboundTx? then t.qty else 0
  }

  function Inbound(l: seq<Tx>, o: OrderId): int { Sum(l, InboundOf(o)) }
  function Dispatched(l: seq<Tx>, o: OrderId): int { Sum(l, DispatchedOf(o)) }
  function Stock(l: seq<Tx>, o: OrderId, h: Option<HubId>): int { Sum(l, StockAt(o, h)) }

  predicate HasRows(l: seq<Tx>, o: OrderId, h: Option<HubId>) {
    exists i :: 0 <= i < |l| && l[i].live && l[i].order == o && l[i].hub == h
  }

  /** getHubStock: null when the hub has no live row for the order. */
  function GetHubStock(l: seq<Tx>, o: OrderId, h: HubId): Option<int> {
    if HasRows(l, o, Some(h)) then Some(Stock(l, o, Some(h))) else None
  }

  function DispatchedVia(l: seq<Tx>, o: OrderId, h: Option<HubId>, c: Code): int { Sum(l, DispatchedOn(o, h, c)) }
  function Loaded(l: seq<Tx>, o: OrderId, c: Code): int { Sum(l, LoadedOn(o, c)) }
  function Received(l: seq<Tx>, o: OrderId, c: Code): int { Sum(l, ReceivedOn(o, c)) }

  /** getInTransitQuantity(...).inTransit */
  function InTransit(l: seq<Tx>, o: OrderId, c: Code): int {
    Max(0, Loaded(l, o, c) - Received(l, o, c))
  }

  // ----- Reservations --------------------------------------------------------------------------

  predicate IsOutboundLine(k: LineType) {
    k.OutboundLine? || k.TransferLine?
  }

  /** A planned outbound line that is still waiting to leave. */
  predicate IsPlanned(t: Line) {
    t.live && t.status.LinePending? && IsOutboundLine(t.kind)
  }

  /** COALESCE("quantityAllocated", 0) */
  function Allocated(t: Line): int {
    t.qty.GetOr(0)
  }

  /** The SQL test ($3 IS NULL OR "tripCode" != $3): a null trip code fails once something is excluded. */
  predicate NotExcluded(trip: Option<Code>, except: Option<Code>) {
    except.None? || (trip.Some? && trip.value != except.value)
  }

  function ReservedAt(o: OrderId, h: HubId, except: Option<Code>): Line -> int {
    (t: Line) =>
      if IsPlanned(t) && t.order == o && t.origin == Some(h) && NotExcluded(t.trip, except) then Allocated(t) else 0
  }

  function Reserved(ls: seq<Line>, o: OrderId, h: HubId, except: Option<Code>): int {
    Sum(ls, ReservedAt(o, h, except))
  }

  /** getPendingOutboundAllocation(...).pendingQty */
  function PendingOutbound(ls: seq<Line>, o: OrderId, h: Option<HubId>, except: Option<Code>): int {
    if h.None? then 0 else Reserved(ls, o, h.value, except)
  }

  /** Outbound lines of a trip that have left the PENDING state. */
  function MovingOn(o: OrderId, h: Option<HubId>, c: Code): Line -> int {
    (t: Line) =>
      if t.live && !t.status.LinePending? && IsOutboundLine(t.kind) && t.order == o && t.origin == h &&
        t.trip == Some(c)
      then Allocated(t) else 0
  }

  function Moving(ls: seq<Line>, o: OrderId, h: Option<HubId>, c: Code): int {
    Sum(ls, MovingOn(o, h, c))
  }

  // ----- Trip stops ----------------------------------------------------------------------------

  /**
   * upsertTripStop: type and position are kept on conflict, a COMPLETED stop is never downgraded and a
   * soft-deleted stop comes back.
   */
  function UpsertStop(stops: map<(Code, HubId), Stop>, c: Code, h: HubId, st: StopStatus, kind: StopType, position: nat)
    : map<(Code, HubId), Stop>
  {
    if (c, h) in stops then
      var kept := stops[(c, h)];
      stops[(c, h) := kept.(status := if kept.status.StopCompleted? then StopCompleted else st, live := true)]
    else
      stops[(c, h) := Stop(st, kind, position, true)]
  }
}
