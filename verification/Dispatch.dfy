/** Outbound: draft trips, dispatch, cancellation and roll-back. */
module Dispatch {
  import opened Basics
  import opened Sums
  import opened Model
  import opened Consolidation

  datatype Delivery = Unspecified | DirectCustomer | HubLevel1 | FeederTruck
  datatype Item = Item(order: OrderId, qty: Option<int>, dest: Option<HubId>, delivery: Delivery)

  /**
   * ConfirmOutboundDto as the transaction sees it. `found` is what `find({ id: In(...) })` returned, in whatever
   * order the database chose; `freshCode` is what the trip-code sequence would yield; `transfer` is mode TRANSFER.
   */
  datatype Request = Request(
    items: seq<Item>, found: seq<OrderId>, transfer: bool, dest: Option<HubId>,
    draftCode: Option<Code>, freshCode: Code, userHub: Option<HubId>)
  {
    function TripCode(): Code {
      draftCode.GetOr(freshCode)
    }
  }

  // ----- Gathering the orders of a request -----------------------------------------------------

  datatype Target = Target(order: OrderId, merged: seq<OrderId>)

  function TargetOf(s: State, o: OrderId): (r: Target)
    requires o in s.orders
    ensures r.order == o
  {
    var code := s.orders[o].code;
    var sibs := SiblingsOf(s, code);
    Target(o, if |code| == 0 || |sibs| <= 1 then [o] else sibs)
  }

  /** One target per order code, split rows consolidated on the way. */
  function Gather(s: State, found: seq<OrderId>, seen: set<Code>): (r: (State, seq<Target>))
    requires forall i :: 0 <= i < |found| ==> found[i] in s.orders
    ensures r.0.orders.Keys == s.orders.Keys
    ensures forall t :: t in r.1 ==> t.order in s.orders
    decreases |found|
  {
    if |found| == 0 then (s, [])
    else
      var code := s.orders[found[0]].code;
      if |code| > 0 && code in seen then Gather(s, found[1..], seen)
      else
        var one := Consolidate(s, found[0]);
        var rest := Gather(one, found[1..], seen + {code});
        (rest.0, [TargetOf(s, found[0])] + rest.1)
  }

  function Matching(items: seq<Item>, merged: seq<OrderId>): seq<Item> {
    if |items| == 0 then []
    else
      var front := Matching(items[..|items| - 1], merged);
      if items[|items| - 1].order in merged then front + [items[|items| - 1]] else front
  }

  function QtyOf(): Item -> int {
    (i: Item) => i.qty.GetOr(0)
  }

  /** mergeOutboundItemsForOrder */
  function MergeItems(items: seq<Item>, target: Target): Option<Item> {
    var matched := Matching(items, target.merged);
    if |matched| == 0 then None
    else if |matched| == 1 then Some(matched[0])
    else Some(matched[0].(order := target.order, qty := Some(Sum(matched, QtyOf()))))
  }

  // ----- Planning one line ---------------------------------------------------------------------

  datatype Plan = Plan(order: OrderId, hub: Option<HubId>, qty: int, available: int, transfer: bool,
    dest: Option<HubId>)

  function ActingHub(s: State, userHub: Option<HubId>, o: OrderId): Option<HubId>
    requires o in s.orders
  {
    userHub.OrElse(s.orders[o].currentHub).OrElse(s.orders[o].originHub)
  }

  /** Ledger stock of the acting hub; the cached remaining quantity for drafts and for hubs without rows. */
  function Available(s: State, o: OrderId, hub: Option<HubId>): int
    requires o in s.orders
  {
    if DraftLike(s.orders[o].status) || hub.None? then s.orders[o].remaining
    else GetHubStock(s.ledger, o, hub.value).GetOr(s.orders[o].remaining)
  }

  function Effective(s: State, o: OrderId, hub: Option<HubId>, except: Option<Code>): int
    requires o in s.orders
  {
    Max(0, Available(s, o, hub) - PendingOutbound(s.lines, o, hub, except))
  }

  function IsDirect(req: Request, item: Option<Item>): bool {
    match item
    case None => !req.transfer
    case Some(i) =>
      i.delivery.DirectCustomer? ||
      (i.dest.None? && !i.delivery.HubLevel1? && !i.delivery.FeederTruck? && !req.transfer)
  }

  function Elsewhere(dest: Option<HubId>, hub: Option<HubId>): Option<HubId> {
    if dest.Some? && dest != hub then dest else None
  }

  /** (isTransferLine, destination written on the trip row) when saving a draft. */
  function DraftRoute(req: Request, item: Option<Item>, hub: Option<HubId>): (bool, Option<HubId>) {
    if IsDirect(req, item) then (false, None)
    else
      var named := if item.Some? then item.value.dest else None;
      var dest := Elsewhere(named.OrElse(if req.transfer then req.dest else None), hub);
      (req.transfer || dest.Some?, dest)
  }

  /** (isTransferLine, destination written on the trip row) when dispatching. */
  function DispatchRoute(req: Request, item: Option<Item>, hub: Option<HubId>): (bool, Option<HubId>) {
    if IsDirect(req, item) then (false, None)
    else
      var named := if item.Some? then item.value.dest else None;
      var dest := named.OrElse(if req.transfer then Elsewhere(req.dest, hub) else None);
      (dest.Some? || req.transfer, Elsewhere(dest, hub))
  }

  function PlanOne(s: State, req: Request, target: Target, leaving: bool): Result<Plan>
    requires target.order in s.orders
  {
    var item := MergeItems(req.items, target);
    var hub := ActingHub(s, req.userHub, target.order);
    var effective := Effective(s, target.order, hub, req.draftCode);
    var qty := if item.Some? && item.value.qty.Some? then item.value.qty.value else effective;
    var (transfer, dest) := if leaving then DispatchRoute(req, item, hub) else DraftRoute(req, item, hub);
    if qty <= 0 || qty > effective then Err(Unprocessable)
    else Ok(Plan(target.order, hub, qty, Available(s, target.order, hub), transfer, dest))
  }

  /** All lines planned on the state the request found; the first refused line aborts. */
  function PlanAll(s: State, req: Request, targets: seq<Target>, leaving: bool): (r: Result<seq<Plan>>)
    requires forall i :: 0 <= i < |targets| ==> targets[i].order in s.orders
    ensures r.Ok? ==> |r.value| == |targets|
    ensures r.Ok? ==> forall i :: 0 <= i < |targets| ==> r.value[i].order == targets[i].order
    ensures r.Ok? ==> forall i :: 0 <= i < |targets| ==> PlanOne(s, req, targets[i], leaving) == Ok(r.value[i])
    decreases |targets|
  {
    if |targets| == 0 then Ok([])
    else
      var n := |targets| - 1;
      var front :- PlanAll(s, req, targets[..n], leaving);
      var last :- PlanOne(s, req, targets[n], leaving);
      Ok(front + [last])
  }

  // ----- Draft lines ---------------------------------------------------------------------------

  predicate OnTrip(t: Line, c: Code) {
    t.live && t.trip == Some(c)
  }

  predicate IsDraftLine(t: Line) {
    t.status.LinePending? && t.qty.Some? && IsOutboundLine(t.kind)
  }

  predicate HasLine(ls: seq<Line>, c: Code) {
    exists i :: 0 <= i < |ls| && OnTrip(ls[i], c)
  }

  predicate Departed(l: seq<Tx>, c: Code) {
    exists i :: 0 <= i < |l| && l[i].live && l[i].trip == Some(c) && IsDispatch(l[i].kind)
  }

  function DropLines(ls: seq<Line>, c: Code): (r: seq<Line>)
    ensures |r| == |ls|
    ensures forall i :: 0 <= i < |ls| ==> r[i] == if OnTrip(ls[i], c) then ls[i].(live := false) else ls[i]
  {
    seq(|ls|, i requires 0 <= i < |ls| => if OnTrip(ls[i], c) then ls[i].(live := false) else ls[i])
  }

  /** discardOutboundDraftLines */
  function Discard(s: State, c: Code, userHub: Option<HubId>): Result<State> {
    if !HasLine(s.lines, c) then Err(NotFound)
    else if exists i :: 0 <= i < |s.lines| && OnTrip(s.lines[i], c) && !IsDraftLine(s.lines[i]) then Err(Unprocessable)
    else if Departed(s.ledger, c) then Err(Unprocessable)
    else if userHub.Some? && exists i :: 0 <= i < |s.lines| && OnTrip(s.lines[i], c) && s.lines[i].origin != userHub
    then Err(Unprocessable)
    else Ok(s.(lines := DropLines(s.lines, c)))
  }

  function DiscardDraft(s: State, req: Request): Result<State> {
    if req.draftCode.Some? then Discard(s, req.draftCode.value, req.userHub) else Ok(s)
  }

  // ----- Stops along the route -----------------------------------------------------------------

  function Distinct(hs: seq<HubId>): seq<HubId> {
    if |hs| == 0 then []
    else
      var front := Distinct(hs[..|hs| - 1]);
      if hs[|hs| - 1] in front then front else front + [hs[|hs| - 1]]
  }

  /** The non-null hubs of a list other than the one the vehicle leaves from. */
  function OtherHubs(hs: seq<Option<HubId>>, origin: Option<HubId>): seq<HubId> {
    if |hs| == 0 then []
    else
      var front := OtherHubs(hs[..|hs| - 1], origin);
      var h := hs[|hs| - 1];
      if h.Some? && h != origin then front + [h.value] else front
  }

  function PlannedHubs(items: seq<Item>): seq<Option<HubId>> {
    if |items| == 0 then []
    else
      var front := PlannedHubs(items[..|items| - 1]);
      var i := items[|items| - 1];
      if i.delivery.DirectCustomer? then front else front + [i.dest]
  }

  function ContractHubs(orders: map<OrderId, Order>, targets: seq<Target>): seq<Option<HubId>> {
    seq(|targets|, i requires 0 <= i < |targets| =>
      if targets[i].order in orders then orders[targets[i].order].destHub else None)
  }

  function StopAtEach(stops: map<(Code, HubId), Stop>, c: Code, hubs: seq<HubId>, n: nat): map<(Code, HubId), Stop>
    requires n <= |hubs|
    decreases n
  {
    if n == 0 then stops
    else
      UpsertStop(StopAtEach(stops, c, hubs, n - 1), c, hubs[n - 1], StopPending,
                 if n == |hubs| then DestinationStop else TransitStop, n + 1)
  }

  function Route(stops: map<(Code, HubId), Stop>, c: Code, origin: Option<HubId>, st: StopStatus, hubs: seq<HubId>)
    : map<(Code, HubId), Stop>
  {
    var left := if origin.Some? then UpsertStop(stops, c, origin.value, st, OriginStop, 1) else stops;
    StopAtEach(left, c, hubs, |hubs|)
  }

  function ModeHub(req: Request): seq<Option<HubId>> {
    [if req.transfer then req.dest else None]
  }

  /** hasTransferItem */
  predicate NamesOtherHub(req: Request, targets: seq<Target>, origin: Option<HubId>) {
    exists i :: 0 <= i < |targets| &&
      var item := MergeItems(req.items, targets[i]);
      !(item.Some? && item.value.delivery.DirectCustomer?) &&
      var named := if item.Some? then item.value.dest else None;
      Elsewhere(named.OrElse(if req.transfer then req.dest else None), origin).Some?
  }

  // ----- saveOutboundDraft ---------------------------------------------------------------------

  function PlannedLine(c: Code, origin: Option<HubId>, p: Plan): Line {
    Line(p.order, Some(c), p.hub.OrElse(origin), p.dest, if p.transfer then TransferLine else OutboundLine,
         LinePending, Some(p.qty), true)
  }

  function ReserveAll(s: State, c: Code, origin: Option<HubId>, plans: seq<Plan>): State
    decreases |plans|
  {
    if |plans| == 0 then s
    else
      var before := ReserveAll(s, c, origin, plans[..|plans| - 1]);
      before.(lines := before.lines + [PlannedLine(c, origin, plans[|plans| - 1])])
  }

  predicate FoundIn(s: State, req: Request) {
    forall i :: 0 <= i < |req.found| ==> IsLive(s.orders, req.found[i])
  }

  function SaveDraft(s: State, req: Request): Result<State>
    requires FoundIn(s, req)
  {
    if |req.found| == 0 then Err(NotFound)
    else
      var dropped :- DiscardDraft(s, req);
      var (clean, targets) := Gather(dropped, req.found, {});
      var plans :- PlanAll(clean, req, targets, false);
      if |targets| == 0 then Err(NotFound)
      else
        var origin := ActingHub(clean, req.userHub, targets[0].order);
        var c := req.TripCode();
        var planned := ReserveAll(clean, c, origin, plans);
        var hubs := Distinct(OtherHubs(PlannedHubs(req.items) + ModeHub(req), origin));
        Ok(planned.(stops := Route(planned.stops, c, origin, StopPending, hubs)))
  }

  // ----- confirmOutbound -----------------------------------------------------------------------

  function AfterDispatch(o: Order, c: Code, p: Plan): Order {
    var left := Max(0, o.remaining - p.qty);
    o.(outbound := o.outbound + p.qty,
       remaining := left,
       status := if left == 0 then COMPLETED_INBOUND else INBOUND,
       currentTrip := if p.transfer then Some(c) else o.currentTrip,
       currentHub := if Max(0, p.available - p.qty) == 0 && o.currentHub == p.hub then None else o.currentHub)
  }

  function DispatchedLine(c: Code, p: Plan): Line {
    Line(p.order, Some(c), p.hub, p.dest, if p.transfer then TransferLine else OutboundLine,
         LineInTransit, Some(p.qty), true)
  }

  function DispatchTx(c: Code, p: Plan, line: nat): Tx {
    Tx(p.order, if p.transfer then TransferTx else OutboundTx, p.hub, Some(c), Some(line),
       p.qty, Some(p.qty), 0, Max(0, p.available - p.qty), true)
  }

  function DispatchOne(s: State, c: Code, p: Plan): State
    requires p.order in s.orders
  {
    s.(orders := s.orders[p.order := AfterDispatch(s.orders[p.order], c, p)],
       lines := s.lines + [DispatchedLine(c, p)],
       ledger := s.ledger + [DispatchTx(c, p, |s.lines|)])
  }

  function DispatchAll(s: State, c: Code, plans: seq<Plan>): (r: State)
    requires forall i :: 0 <= i < |plans| ==> plans[i].order in s.orders
    ensures r.orders.Keys == s.orders.Keys
    decreases |plans|
  {
    if |plans| == 0 then s
    else DispatchOne(DispatchAll(s, c, plans[..|plans| - 1]), c, plans[|plans| - 1])
  }

  function Confirm(s: State, req: Request): Result<State>
    requires FoundIn(s, req)
  {
    if |req.found| == 0 then Err(NotFound)
    else
      var (whole, targets) := Gather(s, req.found, {});
      if exists i :: 0 <= i < |targets| && DraftLike(whole.orders[targets[i].order].status) then Err(BadRequest)
      else if |targets| == 0 then Err(NotFound)
      else
        var origin := ActingHub(whole, req.userHub, targets[0].order);
        var clean :- DiscardDraft(whole, req);
        var plans :- PlanAll(clean, req, targets, true);
        var c := req.TripCode();
        var gone := DispatchAll(clean, c, plans);
        var transferring := req.transfer || NamesOtherHub(req, targets, origin);
        var hubs :=
          if transferring
          then Distinct(OtherHubs(ModeHub(req) + PlannedHubs(req.items) + ContractHubs(gone.orders, targets), origin))
          else [];
        Ok(gone.(stops := Route(gone.stops, c, origin, StopCompleted, hubs)))
  }

  // ----- cancelOutboundDraft -------------------------------------------------------------------

  function DropPendingStops(stops: map<(Code, HubId), Stop>, c: Code): map<(Code, HubId), Stop> {
    map k | k in stops ::
      if k.0 == c && stops[k].status.StopPending? then stops[k].(live := false) else stops[k]
  }

  function CancelDraft(s: State, c: Code, userHub: Option<HubId>): Result<State> {
    var dropped :- Discard(s, c, userHub);
    Ok(dropped.(stops := DropPendingStops(dropped.stops, c)))
  }

  // ----- rollbackTrip, outbound branch ---------------------------------------------------------

  /** Rows the roll-back takes back: live dispatch rows of the trip, at the operating hub when one is given. */
  predicate TakenBack(t: Tx, c: Code, hub: Option<HubId>) {
    t.live && t.trip == Some(c) && IsDispatch(t.kind) && (hub.None? || t.hub == hub)
  }

  function PutBack(o: Order, t: Tx, c: Code): Order {
    o.(outbound := Max(0, o.outbound - t.qty),
       remaining := o.remaining + t.qty,
       status := INBOUND,
       currentHub := t.hub.OrElse(o.currentHub),
       currentTrip := if o.currentTrip == Some(c) then None else o.currentTrip)
  }

  /** The order table after the loop has visited the first n ledger rows. */
  function PutBackAll(orders: map<OrderId, Order>, l: seq<Tx>, c: Code, hub: Option<HubId>, n: nat)
        : (r: map<OrderId, Order>)
    requires n <= |l|
    ensures r.Keys == orders.Keys
    ensures forall o :: o in orders ==> r[o].live == orders[o].live && r[o].code == orders[o].code
    decreases n
  {
    if n == 0 then orders
    else
      var before := PutBackAll(orders, l, c, hub, n - 1);
      var t := l[n - 1];
      if TakenBack(t, c, hub) && IsLive(before, t.order) then before[t.order := PutBack(before[t.order], t,
        c)] else before
  }

  function TakeBack(l: seq<Tx>, c: Code, hub: Option<HubId>): (r: seq<Tx>)
    ensures |r| == |l|
    ensures forall i :: 0 <= i < |l| ==> r[i] == if TakenBack(l[i], c, hub) then l[i].(live := false) else l[i]
  {
    seq(|l|, i requires 0 <= i < |l| => if TakenBack(l[i], c, hub) then l[i].(live := false) else l[i])
  }

  /** What an older line without a planned quantity is given: its order's dispatched quantity, or 1. */
  function RestoredQty(t: Line, l: seq<Tx>, c: Code, hub: Option<HubId>, from: nat): int
    requires from <= |l|
    decreases |l| - from
  {
    if from == |l| then 1
    else if TakenBack(l[from], c, hub) && l[from].order == t.order then (if l[from].qty == 0 then 1 else l[from].qty)
    else RestoredQty(t, l, c, hub, from + 1)
  }

  function Reopened(t: Line, l: seq<Tx>, c: Code, hub: Option<HubId>): Line {
    t.(status := LinePending, qty := if t.qty.Some? then t.qty else Some(RestoredQty(t, l, c, hub, 0)))
  }

  function ReopenLines(ls: seq<Line>, l: seq<Tx>, c: Code, hub: Option<HubId>): (r: seq<Line>)
    ensures |r| == |ls|
    ensures forall i :: 0 <= i < |ls| ==> r[i] == if OnTrip(ls[i], c) then Reopened(ls[i], l, c, hub) else ls[i]
  {
    seq(|ls|, i requires 0 <= i < |ls| => if OnTrip(ls[i], c) then Reopened(ls[i], l, c, hub) else ls[i])
  }

  function ReleaseTrip(orders: map<OrderId, Order>, ls: seq<Line>, c: Code): (r: map<OrderId, Order>)
    ensures r.Keys == orders.Keys
    ensures forall o :: o in orders ==>
      r[o] == orders[o].(currentTrip := r[o].currentTrip)
  {
    map o | o in orders ::
      if orders[o].live && orders[o].currentTrip == Some(c) &&
        exists i :: 0 <= i < |ls| && OnTrip(ls[i], c) && ls[i].order == o
      then orders[o].(currentTrip := None) else orders[o]
  }

  function ReopenStops(stops: map<(Code, HubId), Stop>, c: Code, hub: Option<HubId>): map<(Code, HubId), Stop> {
    map k | k in stops ::
      if k.0 == c && stops[k].live && (hub.None? || k.1 == hub.value) then stops[k].(status := StopPending)
        else stops[k]
  }

  /** The trip is rolled back as an outbound one when it has an outbound line or leaves from the operating hub. */
  predicate RollsBackOutbound(s: State, c: Code, hub: Option<HubId>) {
    (exists i :: 0 <= i < |s.lines| && OnTrip(s.lines[i], c) && IsOutboundLine(s.lines[i].kind)) ||
    (hub.Some? && (c, hub.value) in s.stops && s.stops[(c, hub.value)].live && s.stops[(c, hub.value)].kind.OriginStop?)
  }

  function RollbackOutbound(s: State, c: Code, hub: Option<HubId>): State {
    s.(orders := ReleaseTrip(PutBackAll(s.orders, s.ledger, c, hub, |s.ledger|), s.lines, c),
       ledger := TakeBack(s.ledger, c, hub),
       lines := ReopenLines(s.lines, s.ledger, c, hub),
       stops := ReopenStops(s.stops, c, hub))
  }
}
