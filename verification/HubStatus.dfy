/** hubStatusSql: the status of an order as one hub sees it, derived from ledger and stops. */
module HubStatus {
  import opened Basics
  import opened Sums
  import opened Model
  import opened Intake
  import opened BatchIntake
  import opened BatchLaws
  import opened Dispatch
  import opened Receiving
  import opened Invariant
  import opened OutboundLaws
  import opened RequestLaws
  import opened RollbackLaws
  import opened InboundLaws
  import opened ReceiptLaws
  import opened RoundTrip
  import opened Runs
  import opened Partition
  import opened TransferRuns
  import opened Requests
  import opened OutboundEffects

  predicate StoredStatus(st: Status) {
    st.INBOUND? || st.STORED? || st.LUU_KHO? || st.IN_WAREHOUSE?
  }

  predicate StopsAt(stops: map<(Code, HubId), Stop>, c: Code, h: HubId) {
    (c, h) in stops && stops[(c, h)].live
  }

  /** On a trip still to stop at the hub, and meant to be unloaded there. */
  predicate ComingIn(s: State, o: Order, h: HubId) {
    o.currentTrip.Some? &&
    var c := o.currentTrip.value;
    StopsAt(s.stops, c, h) && s.stops[(c, h)].status.StopPending? &&
    (o.destHub == Some(h) || o.destHub.None? || !StopsAt(s.stops, c, o.destHub.value))
  }

  predicate HubDispatched(l: seq<Tx>, o: OrderId, h: HubId) {
    exists i :: 0 <= i < |l| && l[i].live && l[i].order == o && l[i].hub == Some(h) && IsDispatch(l[i].kind)
  }

  function StatusAt(s: State, o: OrderId, h: HubId): Status
    requires o in s.orders
  {
    var order, stock := s.orders[o], Stock(s.ledger, o, Some(h));
    if DraftLike(order.status) && order.currentHub.OrElse(order.originHub) == Some(h) then DRAFT
    else if stock > 0 then INBOUND
    else if ComingIn(s, order, h) then PENDING_INBOUND
    else if HubDispatched(s.ledger, o, h) && stock <= 0 then COMPLETED_INBOUND
    else if order.remaining == 0 || order.outbound >= order.total then COMPLETED_INBOUND
    else if StoredStatus(order.status) && stock <= 0 then COMPLETED_INBOUND
    else order.status
  }

  /** WAITING_STATUSES, STORED_STATUSES, DISPATCHED_STATUSES and everything else. */
  datatype Class = Waiting | Held | Gone | Away

  function ClassOf(st: Status): Class {
    if DraftLike(st) || st.PENDING_INBOUND? then Waiting
    else if StoredStatus(st) then Held
    else if st.COMPLETED_INBOUND? || st.OUT_FOR_DELIVERY? || st.DELIVERED? || st.COMPLETED_OUTBOUND? then Gone
    else Away
  }

  // ----- Orders handled at one hub -------------------------------------------------------------

  /** Every live invoice of the order is the hub's, and none is a transfer. */
  ghost predicate RowsLocal(l: seq<Tx>, o: OrderId, h: HubId) {
    forall i :: 0 <= i < |l| && l[i].live && l[i].order == o ==> l[i].hub == Some(h) && !l[i].kind.TransferTx?
  }

  ghost predicate OrderLocal(order: Order, h: HubId) {
    order.originHub == Some(h) && order.currentTrip.None? && (order.currentHub == Some(h) || order.currentHub.None?) &&
    (DraftLike(order.status) ||
     if order.remaining > 0 then StoredStatus(order.status) else order.status == COMPLETED_INBOUND)
  }

  ghost predicate Local(s: State, o: OrderId, h: HubId) {
    RowsLocal(s.ledger, o, h) && (IsLive(s.orders, o) ==> OrderLocal(s.orders[o], h))
  }

  /** The derived status falls in the class of the stored one. */
  lemma {:induction false} ClassesAgree(s: State, o: OrderId, h: HubId)
    requires Inv(s) && Local(s, o, h) && IsLive(s.orders, o)
    ensures ClassOf(StatusAt(s, o, h)) == ClassOf(s.orders[o].status)
  {
    HubStocksAddUp(s.ledger, o, [Some(h)]);
    OneHub(s.ledger, o, h);
    SyncedAt(s, o);
    StockWithinRemaining(s, o, None);
    hide Inv, Stock, Inbound, Dispatched, HubDispatched;
  }

  lemma {:induction false} OneHub(l: seq<Tx>, o: OrderId, h: HubId)
    ensures Sum([Some(h)], HubStocks(l, o)) == Stock(l, o, Some(h))
  {
    assert [Some(h)][..0] == [];
    assert Sum([Some(h)], HubStocks(l, o)) == Sum([Some(h)][..0], HubStocks(l, o)) + HubStocks(l, o)(Some(h));
  }

  // ----- What keeps an order local -------------------------------------------------------------

  /** The plan for order o, if the request has one, delivers to a customer from hub h. */
  ghost predicate Delivers(s: State, req: Request, o: OrderId, h: HubId) {
    o in s.orders && o in req.found ==>
      ActingHub(s, req.userHub, o) == Some(h) && !DispatchRoute(req, MergeItems(req.items, Target(o, [o])), Some(h)).0
  }

  predicate PlainStatus(item: Arrival) {
    item.Draft() || StoredStatus(item.status)
  }

  /**
   * Goods booked on the order arrive at its hub, with a status a client is meant to send unless the order has stock
   * already; a draft parcel may be added to an existing order anywhere.
   */
  ghost predicate ArrivesHome(s: State, item: Arrival, hub: Option<HubId>, o: OrderId, h: HubId) {
    Book(s, item, hub).1 == o ==>
      (IsLive(s.orders, o) && item.Draft()) ||
      (hub == Some(h) && (PlainStatus(item) || (IsLive(s.orders, o) && !DraftLike(s.orders[o].status))))
  }

  ghost predicate ArriveHome(s: State, items: seq<Parcel>, hub: Option<HubId>, c: Code, n: nat, o: OrderId, h: HubId)
    requires n <= |items|
    decreases n
  {
    n == 0 ||
    (ArriveHome(s, items, hub, c, n - 1, o, h) &&
     ArrivesHome(OneByOne(s, items, hub, c, n - 1), items[n - 1].item, hub, o, h))
  }

  /** The row corrects an earlier receipt of the order. */
  predicate Corrects(g: Progress, row: Row, t: Tally, o: OrderId)
    requires o in g.s.orders
  {
    !EditableDraft(g.s.orders[o], t) && Earlier(g, o, t).Some? && t.superAdmin && 0 < row.Counted().GetOr(0)
  }

  /** A row for the order is counted at its hub; a correction takes no last unit away and brings no first one back. */
  predicate CountedHome(g: Progress, row: Row, t: Tally, o: OrderId, h: HubId) {
    match FindRow(g.s, row)
    case None => g.s.nextOrder == o ==> t.hub == Some(h)
    case Some(x) =>
      x == o ==>
        if Corrects(g, row, t, o) then
          var was := g.s.orders[o].remaining;
          0 < was <==> 0 < was + row.Counted().GetOr(0) - g.s.ledger[Earlier(g, o, t).value].qty
        else (!EditableDraft(g.s.orders[o], t) && Earlier(g, o, t).Some?) || t.hub == Some(h)
  }

  predicate RowsHome(g: Progress, t: Tally, n: nat, o: OrderId, h: HubId)
    requires n <= |t.rows|
    decreases n
  {
    n == 0 ||
    (RowsHome(g, t, n - 1, o, h) &&
     (ReceiveRows(g, t, n - 1).Ok? ==> CountedHome(ReceiveRows(g, t, n - 1).value, t.rows[n - 1], t, o, h)))
  }

  /** The step handles order o at hub h only: received and counted there, delivered to customers from there. */
  ghost predicate StaysLocal(s: State, step: Step, o: OrderId, h: HubId) {
    match step
    case Arrive(item, hub, _) => ArrivesHome(s, item, hub, o, h)
    case ArriveAll(items, hub, c) => BatchCreate(s, items, hub, c).Ok? ==> ArriveHome(s, items, hub, c, |items|, o, h)
    case Count(t) => Receive(s, t).Ok? ==> RowsHome(Progress(s, t.trip, [], []), t, |t.rows|, o, h)
    case Send(req) => FoundIn(s, req) && Confirm(s, req).Ok? ==> Delivers(s, req, o, h)
    case _ => true
  }

  lemma {:induction false} ArrivalLocal(s: State, item: Arrival, hub: Option<HubId>, trip: Option<Code>, o: OrderId,
        h: HubId)
    requires Inv(s) && Local(s, o, h) && ArrivesHome(s, item, hub, o, h)
    ensures Local(QuickCreate(s, item, hub, trip), o, h)
  {
    hide Book, Inv, Inbound, Dispatched;
    CodesKnown(s);
    BookedAlone(s, item, hub);
    SyncedAt(s, o);
    NotYet(s);
    StockWithinRemaining(s, o, None);
  }

  // ----- Counted receipts ----------------------------------------------------------------------

  /** Linking writes at most one receipt, of the counted order and at the counting hub. */
  lemma {:induction false} LinkLocal(g: Progress, k: Counting, row: Row, t: Tally, o: OrderId, h: HubId)
    requires k.order in k.s.orders && Local(k.s, o, h) && (k.order == o && 0 < k.qty ==> t.hub == Some(h))
    ensures Local(Link(g, k, row, t).s, o, h)
  {
    hide LinkLine, OrderLocal;
  }

  lemma {:induction false} NewRowLocal(g: Progress, row: Row, t: Tally, o: OrderId, h: HubId)
    requires Steady(g, t) && Local(g.s, o, h) && FindRow(g.s, row).None? && CountedHome(g, row, t, o, h)
    requires RowSafe(g, row, t)
    ensures ReceiveRow(g, row, t).Ok? && Local(ReceiveRow(g, row, t).value.s, o, h)
  {
    hide Inv, Link, FindRow, Earlier;
    var x, made := g.s.nextOrder, NewContract(row, t.hub);
    var k := Counting(g.s.(orders := g.s.orders[x := made], nextOrder := x + 1), x, g.shared, made.inbound,
        Some(made.inbound));
    NotYet(g.s);
    LinkLocal(g, k, row, t, o, h);
  }

  lemma {:induction false} AcceptedLocal(g: Progress, row: Row, t: Tally, x: OrderId, o: OrderId, h: HubId)
    requires Steady(g, t) && Local(g.s, o, h) && FindRow(g.s, row) == Some(x) && EditableDraft(g.s.orders[x], t)
    requires CountedHome(g, row, t, o, h)
    ensures ReceiveRow(g, row, t).Ok? && Local(ReceiveRow(g, row, t).value.s, o, h)
  {
    hide Inv, Link, FindRow, Earlier;
    var taken := Accepted(g.s, g.s.orders[x], row, t.hub);
    var k := Counting(g.s.(orders := g.s.orders[x := taken]), x, g.shared, taken.inbound, Some(taken.inbound));
    LinkLocal(g, k, row, t, o, h);
  }

  lemma {:induction false} CountLocal(g: Progress, row: Row, t: Tally, x: OrderId, trip: Option<Code>, k: Counting,
        o: OrderId, h: HubId)
    requires Inv(g.s) && Local(g.s, o, h) && IsLive(g.s.orders, x) && (x == o ==> t.hub == Some(h))
    requires CountLocked(g.s, x, row, t.hub, trip) == Ok(k)
    ensures Local(Link(g, k, row, t).s, o, h)
  {
    hide Inv, Link, OnTheWay, CountedQty, Share, Inbound, Dispatched;
    SyncedAt(g.s, o);
    StockWithinRemaining(g.s, o, None);
    LinkLocal(g, k, row, t, o, h);
  }

  lemma {:induction false} RecountLocal(s: State, x: OrderId, row: Row, c: Code, i: nat, q: int, o: OrderId, h: HubId)
    requires Inv(s) && Local(s, o, h) && IsLive(s.orders, x) && !DraftLike(s.orders[x].status) && i < |s.ledger|
    requires s.ledger[i].live && s.ledger[i].order == x && s.ledger[i].kind.InboundTx? && 0 < q
    requires x == o ==> (0 < s.orders[o].remaining <==> 0 < s.orders[o].remaining + q - s.ledger[i].qty)
    requires x == o ==> 0 <= Inbound(s.ledger, o) + q - s.ledger[i].qty - Dispatched(s.ledger, o)
    ensures Local(Recount(s, x, row, c, i, q), o, h)
  {
    hide Inv, FirstLine, Inbound, Dispatched;
    SyncedAt(s, x);
    DispatchedNonNegative(s, x);
  }

  lemma {:induction false} CorrectedWithin(g: Progress, row: Row, t: Tally, o: OrderId)
    requires Steady(g, t) && FindRow(g.s, row) == Some(o) && Corrects(g, row, t, o) && RowSafe(g, row, t)
    ensures var i := Earlier(g, o, t).value; var q := row.Counted().GetOr(0);
      0 <= Inbound(g.s.ledger, o) + q - g.s.ledger[i].qty - Dispatched(g.s.ledger, o)
  {
    hide Inv, FirstReceipt, FindRow, Inbound, Dispatched, Stock, Reserved;
    var i := Earlier(g, o, t).value;
    ReservedWithin(g.s, o, t.hub.value, None);
    StockWithinRemaining(g.s, o, t.hub);
  }

  lemma {:induction false} RowLocal(g: Progress, row: Row, t: Tally, o: OrderId, h: HubId)
    requires Steady(g, t) && Local(g.s, o, h) && RowSafe(g, row, t) && CountedHome(g, row, t, o, h)
    requires ReceiveRow(g, row, t).Ok?
    ensures Local(ReceiveRow(g, row, t).value.s, o, h)
  {
    hide Inv, Link, FindRow, FirstReceipt, CountLocked, Local, HasPlan, Recount;
    match FindRow(g.s, row)
    case None => NewRowLocal(g, row, t, o, h);
    case Some(x) =>
      FoundLive(g.s, row);
      var trip := g.shared.OrElse(g.s.orders[x].currentTrip);
      if EditableDraft(g.s.orders[x], t) {
        AcceptedLocal(g, row, t, x, o, h);
      } else if Earlier(g, x, t).Some? {
        if Corrects(g, row, t, x) {
          CorrectedWithin(g, row, t, x);
          ReceivedIsStored(g.s, x, trip.value, t.hub.value);
          RecountLocal(g.s, x, row, trip.value, Earlier(g, x, t).value, row.Counted().value, o, h);
        }
      } else {
        CountLocal(g, row, t, x, trip, CountLocked(g.s, x, row, t.hub, trip).value, o, h);
      }
  }

  lemma {:induction false} RowsLocalKept(g: Progress, t: Tally, n: nat, o: OrderId, h: HubId)
    requires n <= |t.rows| && Steady(g, t) && RowsSafe(g, t, n) && ReceiveRows(g, t, n).Ok?
    requires Local(g.s, o, h) && RowsHome(g, t, n, o, h)
    ensures Local(ReceiveRows(g, t, n).value.s, o, h)
    decreases n
  {
    hide Steady, RowSafe, ReceiveRow, Local, CountedHome;
    if n > 0 {
      RowsLocalKept(g, t, n - 1, o, h);
      RowsKeepInv(g, t, n - 1);
      RowLocal(ReceiveRows(g, t, n - 1).value, t.rows[n - 1], t, o, h);
    }
  }

  lemma {:induction false} SyncLocal(s: State, c: Code, hub: Option<HubId>, kept: seq<OrderId>, o: OrderId, h: HubId)
    requires Local(s, o, h)
    ensures Local(SyncRemoved(s, c, hub, kept), o, h)
  {
    hide TakeOff, EverReceived;
  }

  lemma {:induction false} StopsLocal(s: State, codes: seq<Code>, hub: HubId, keepPending: bool, n: nat, o: OrderId,
        h: HubId)
    requires n <= |codes| && Local(s, o, h)
    ensures Local(CloseStops(s, codes, hub, keepPending, n), o, h)
    decreases n
  {
    hide Local, CompleteLines, AwaitsStop, UpsertStop;
    if n > 0 {
      StopsLocal(s, codes, hub, keepPending, n - 1, o, h);
      var before := CloseStops(s, codes, hub, keepPending, n - 1);
      LocalSame(before, CloseStop(before, codes[n - 1], hub, keepPending), o, h);
    }
  }

  lemma {:induction false} ReceiveLocal(s: State, t: Tally, o: OrderId, h: HubId)
    requires Inv(s) && Sized(s.orders) && Unplanned(s.lines, t.trip) && Unplanned(s.lines, t.plateCode)
    requires RowsSafe(Progress(s, t.trip, [], []), t, |t.rows|) && Receive(s, t).Ok?
    requires Local(s, o, h) && RowsHome(Progress(s, t.trip, [], []), t, |t.rows|, o, h)
    ensures Local(Receive(s, t).value, o, h)
  {
    hide Inv, HasPlan, RowsSafe, RowsHome, ReceiveRows, SyncRemoved, CloseStops, Sized, Local;
    RowsLocalKept(Progress(s, t.trip, [], []), t, |t.rows|, o, h);
    var g := ReceiveRows(Progress(s, t.trip, [], []), t, |t.rows|).value;
    var synced := g.s;
    if g.shared.Some? && |g.saved| > 0 && !t.keepPending {
      SyncLocal(g.s, g.shared.value, t.hub, g.saved, o, h);
      synced := SyncRemoved(g.s, g.shared.value, t.hub, g.saved);
    }
    if t.hub.Some? { StopsLocal(synced, g.codes, t.hub.value, t.keepPending, |g.codes|, o, h); }
  }

  // ----- Dispatch, roll-back, batches ----------------------------------------------------------

  lemma {:induction false} DispatchLocal(s: State, c: Code, plans: seq<Plan>, o: OrderId, h: HubId)
    requires Local(s, o, h) && forall i :: 0 <= i < |plans| ==> plans[i].order in s.orders
    requires forall i :: 0 <= i < |plans| && plans[i].order == o ==> plans[i].hub == Some(h) && !plans[i].transfer
    requires forall i :: 0 <= i < |plans| ==> !DraftLike(s.orders[plans[i].order].status)
    ensures Local(DispatchAll(s, c, plans), o, h)
    decreases |plans|
  {
    if |plans| > 0 {
      var n := |plans| - 1;
      assert forall i :: 0 <= i < n ==> plans[..n][i] == plans[i];
      DispatchLocal(s, c, plans[..n], o, h);
    }
  }

  lemma {:induction false} SendLocal(s: State, req: Request, o: OrderId, h: HubId)
    requires Inv(s) && Sensible(s, req) && Confirm(s, req).Ok? && Local(s, o, h) && Delivers(s, req, o, h)
    ensures Local(Confirm(s, req).value, o, h)
  {
    hide Inv, Confirm, PlanAll, Local, HubsHoldRows, Discard, MergeItems, DispatchRoute;
    var clean, plans := DispatchAccepted(s, req);
    DraftDiscarded(s, req);
    PlansFit(clean, req, plans, true);
    LocalSame(s, clean, o, h);
    forall i | 0 <= i < |plans|
      ensures !DraftLike(clean.orders[plans[i].order].status)
      ensures plans[i].order == o ==> plans[i].hub == Some(h) && !plans[i].transfer
    {
      PlanIsFitting(clean, req, req.found[i], true);
      PlanRoute(clean, req, req.found[i]);
    }
    DispatchLocal(clean, req.TripCode(), plans, o, h);
    LocalSame(DispatchAll(clean, req.TripCode(), plans), Confirm(s, req).value, o, h);
  }

  lemma {:induction false} PlanRoute(s: State, req: Request, o: OrderId)
    requires o in s.orders && PlanOne(s, req, Target(o, [o]), true).Ok?
    ensures PlanOne(s, req, Target(o, [o]), true).value.transfer ==
            DispatchRoute(req, MergeItems(req.items, Target(o, [o])), ActingHub(s, req.userHub, o)).0
  {
  }

  lemma {:induction false} LocalSame(s: State, r: State, o: OrderId, h: HubId)
    requires Local(s, o, h) && r.orders == s.orders && r.ledger == s.ledger
    ensures Local(r, o, h)
  {
  }

  lemma {:induction false} ReopenLocal(s: State, c: Code, hub: Option<HubId>, o: OrderId, h: HubId)
    requires Inv(s) && Local(s, o, h)
    ensures Local(RollbackOutbound(s, c, hub), o, h)
  {
    hide Inv, Inbound, Dispatched, Taken, ReopenLines, ReopenStops, PutBackAll, TakeBack;
    if IsLive(s.orders, o) {
      OrderPutBack(s, c, hub, o);
      SyncedAt(s, o);
      StockWithinRemaining(s, o, None);
      PutBackLocal(s.orders, s.ledger, c, hub, |s.ledger|, o, h);
    }
  }

  lemma {:induction false} PutBackLocal(orders: map<OrderId, Order>, l: seq<Tx>, c: Code, hub: Option<HubId>, n: nat,
        o: OrderId, h: HubId)
    requires n <= |l| && IsLive(orders, o) && RowsLocal(l, o, h) && OrderLocal(orders[o], h)
    ensures var r := PutBackAll(orders, l, c, hub, n)[o];
      r.originHub == Some(h) && r.currentTrip.None? && (r.currentHub == Some(h) || r.currentHub.None?)
    decreases n
  {
    hide PutBackAll;
    if n == 0 {
      NoneBack(orders, l, c, hub);
    } else {
      PutBackLocal(orders, l, c, hub, n - 1, o, h);
      PutBackStep(orders, l, c, hub, n, o);
    }
  }

  lemma {:induction false} NoneBack(orders: map<OrderId, Order>, l: seq<Tx>, c: Code, hub: Option<HubId>)
    ensures PutBackAll(orders, l, c, hub, 0) == orders
  {
  }

  lemma {:induction false} OneByOneLocal(s: State, items: seq<Parcel>, hub: Option<HubId>, c: Code, n: nat,
        o: OrderId, h: HubId)
    requires Inv(s) && Sized(s.orders) && !HasPlan(s.lines, c) && n <= |items| && Local(s, o, h)
    requires ArriveHome(s, items, hub, c, n, o, h)
    ensures Local(OneByOne(s, items, hub, c, n), o, h)
    decreases n
  {
    hide QuickCreate, Local, Inv, HasPlan, Sized, ArrivesHome;
    if n > 0 {
      OneByOneLocal(s, items, hub, c, n - 1, o, h);
      OneByOneKeepsInv(s, items, hub, c, n - 1);
      ArrivalLocal(OneByOne(s, items, hub, c, n - 1), items[n - 1].item, hub, Some(c), o, h);
    }
  }

  lemma {:induction false} BatchLocal(s: State, items: seq<Parcel>, hub: Option<HubId>, c: Code, o: OrderId, h: HubId)
    requires Sound(s) && !HasPlan(s.lines, c) && BatchCreate(s, items, hub, c).Ok?
    requires forall i :: 0 <= i < |items| ==> Looked(s, items, items[i].item.code)
    requires Local(s, o, h) && ArriveHome(s, items, hub, c, |items|, o, h)
    ensures Local(BatchCreate(s, items, hub, c).value, o, h)
  {
    hide Inv, Sized, HasPlan, OneByOne, Commit, PrepareAll, Looked, Single, Numbered, ArriveHome, OrderLocal;
    CodesKnown(s);
    BatchRefinesOneByOne(s, items, hub.value, c);
    OneByOneLocal(s, items, hub, c, |items|, o, h);
  }

  lemma {:induction false} StepLocal(s: State, step: Step, o: OrderId, h: HubId)
    requires Sound(s) && Admissible(s, step) && Local(s, o, h) && StaysLocal(s, step, o, h)
    ensures Local(Apply(s, step), o, h)
  {
    hide Inv, SaveDraft, Confirm, Receive, QuickCreate, BatchCreate, RollbackOutbound, Sized, Delivers, Local, RowsSafe,
        RowsHome, ArriveHome, ArrivesHome, DraftCovered, DispatchCovered, Sensible, RollsBackOutbound, CancelDraft;
    match step
    case Arrive(item, hub, trip) => ArrivalLocal(s, item, hub, trip, o, h);
    case ArriveAll(items, hub, c) => if BatchCreate(s, items, hub, c).Ok? { BatchLocal(s, items, hub, c, o, h); }
    case Count(t) => if Receive(s, t).Ok? { ReceiveLocal(s, t, o, h); }
    case Draft(req) => if FoundIn(s, req) && SaveDraft(s, req).Ok? { PlanLocal(s, req, o, h); }
    case Send(req) => if FoundIn(s, req) && Confirm(s, req).Ok? { SendLocal(s, req, o, h); }
    case Cancel(c, userHub) => if CancelDraft(s, c, userHub).Ok? { CancelLocal(s, c, userHub, o, h); }
    case Reopen(c, hub) => ReopenLocal(s, c, hub, o, h);
  }

  lemma {:induction false} CancelLocal(s: State, c: Code, userHub: Option<HubId>, o: OrderId, h: HubId)
    requires Local(s, o, h) && CancelDraft(s, c, userHub).Ok?
    ensures Local(CancelDraft(s, c, userHub).value, o, h)
  {
    LocalSame(s, CancelDraft(s, c, userHub).value, o, h);
  }

  lemma {:induction false} PlanLocal(s: State, req: Request, o: OrderId, h: HubId)
    requires Inv(s) && Sensible(s, req) && SaveDraft(s, req).Ok? && Local(s, o, h)
    ensures Local(SaveDraft(s, req).value, o, h)
  {
    hide Inv, SaveDraft, PlanAll;
    var clean, plans, origin := DraftSaved(s, req);
    DraftDiscarded(s, req);
    ReserveAllShape(clean, req.TripCode(), origin, plans);
    LocalSame(s, SaveDraft(s, req).value, o, h);
  }

  ghost predicate LocalRun(s: State, steps: seq<Step>, o: OrderId, h: HubId)
    decreases |steps|
  {
    |steps| == 0 ||
    (LocalRun(s, steps[..|steps| - 1], o, h) && StaysLocal(Run(s, steps[..|steps| - 1]), steps[|steps| - 1], o, h))
  }

  lemma {:induction false} RunLocal(s: State, steps: seq<Step>, o: OrderId, h: HubId)
    requires Sound(s) && AdmissibleRun(s, steps) && Local(s, o, h) && LocalRun(s, steps, o, h)
    ensures Local(Run(s, steps), o, h)
    decreases |steps|
  {
    hide Apply, Sound, Local, Admissible, StaysLocal;
    if |steps| > 0 {
      RunLocal(s, steps[..|steps| - 1], o, h);
      RunKeepsInv(s, steps[..|steps| - 1]);
      StepLocal(Run(s, steps[..|steps| - 1]), steps[|steps| - 1], o, h);
    }
  }

  /**
   * On every run that handles an order at one hub and delivers it to customers from there, whatever it does to other
   * orders, the status the hub derives is waiting, stored or dispatched exactly when the stored status is.
   */
  lemma {:induction false} RunClassesAgree(steps: seq<Step>, o: OrderId, h: HubId)
    requires AdmissibleRun(EMPTY, steps) && LocalRun(EMPTY, steps, o, h) && IsLive(Run(EMPTY, steps).orders, o)
    ensures ClassOf(StatusAt(Run(EMPTY, steps), o, h)) == ClassOf(Run(EMPTY, steps).orders[o].status)
    ensures ClassOf(Run(EMPTY, steps).orders[o].status) != Away
  {
    hide Inv, Sized, Apply, StatusAt;
    var s := Reachable(steps);
    var none := Reachable([]);
    RunLocal(EMPTY, steps, o, h);
    ClassesAgree(s, o, h);
  }

  /** A client that invents a status for new goods is shown another class by the hub: exactly then they disagree. */
  lemma {:induction false} NewOrderAgrees(s: State, item: Arrival, h: HubId, trip: Option<Code>)
    requires Inv(s) && FindByCode(s, item.code).None?
    ensures s.nextOrder in QuickCreate(s, item, Some(h), trip).orders
    ensures var r := QuickCreate(s, item, Some(h), trip);
      ClassOf(StatusAt(r, s.nextOrder, h)) == ClassOf(r.orders[s.nextOrder].status) <==> PlainStatus(item)
  {
    hide Book, Inv, StatusAt, ClassOf, Stock;
    CodesKnown(s);
    BookedAlone(s, item, Some(h));
    NotYet(s);
    FreshBooked(s, item, Some(h));
    var o, r := s.nextOrder, QuickCreate(s, item, Some(h), trip);
    StockNonNegative(s, o, Some(h));
    if !item.Draft() {
      LedgerAppended(s.ledger, r.ledger[|s.ledger|]);
      assert Stock(r.ledger, o, Some(h)) == Stock(s.ledger, o, Some(h)) + item.Qty();
    }
    ShownAs(r, item, o, h);
  }

  lemma {:induction false} FreshBooked(s: State, item: Arrival, hub: Option<HubId>)
    requires Numbered(s) && FindByCode(s, item.code).None? && Single(s, item.code)
    ensures Book(s, item, hub).1 == s.nextOrder
  {
    BookedAlone(s, item, hub);
  }

  lemma {:induction false} ShownAs(r: State, item: Arrival, o: OrderId, h: HubId)
    requires o in r.orders && r.orders[o].status == item.status && r.orders[o].currentHub == Some(h)
    requires item.Draft() || 0 < Stock(r.ledger, o, Some(h))
    ensures ClassOf(StatusAt(r, o, h)) == ClassOf(r.orders[o].status) <==> PlainStatus(item)
  {
    hide Stock, HubDispatched, ComingIn;
  }

  // ----- A draft, and goods on their way -------------------------------------------------------

  /** A draft is shown as one exactly at the hub that holds it (where it came from, when no hub does). */
  lemma {:induction false} DraftSeen(s: State, o: OrderId, h: HubId)
    requires Inv(s) && IsLive(s.orders, o) && s.orders[o].status in {DRAFT, PENDING, WAITING}
    ensures StatusAt(s, o, h) == DRAFT <==>
      if s.orders[o].currentHub.Some? then s.orders[o].currentHub == Some(h) else s.orders[o].originHub == Some(h)
  {
    hide Inv, Stock, HubDispatched, ComingIn;
    SyncedAt(s, o);
  }

  /**
   * A hub that has none of a stored order, sent none out and awaits none is shown it as gone exactly when nothing
   * remains of it, all of it has left, or it is stored elsewhere; otherwise it is shown the order's own status.
   */
  lemma {:induction false} BystanderSees(s: State, o: OrderId, h: HubId)
    requires o in s.orders && s.orders[o].status !in {DRAFT, PENDING, WAITING}
    requires Stock(s.ledger, o, Some(h)) == 0
    requires forall i ::
      0 <= i < |s.ledger| && s.ledger[i].live && s.ledger[i].order == o && s.ledger[i].hub == Some(h) ==>
      s.ledger[i].kind.InboundTx? || s.ledger[i].kind.AdjustmentTx?
    requires forall k :: k in s.stops && s.orders[o].currentTrip == Some(k.0) && k.1 == h && s.stops[k].live ==>
      s.stops[k].status.StopCompleted?
    ensures var order := s.orders[o];
      StatusAt(s, o, h) ==
      if order.remaining == 0 || order.total <= order.outbound ||
         order.status in {INBOUND, STORED, LUU_KHO, IN_WAREHOUSE}
      then COMPLETED_INBOUND else order.status
  {
    hide Stock;
  }

  /** A hub that sent an order out, has none of it left and awaits none is shown it as gone, whatever its status. */
  lemma {:induction false} SenderSees(s: State, o: OrderId, h: HubId, i: nat)
    requires o in s.orders && s.orders[o].status !in {DRAFT, PENDING, WAITING}
    requires i < |s.ledger| && s.ledger[i].live && s.ledger[i].order == o && s.ledger[i].hub == Some(h)
    requires s.ledger[i].kind in {OutboundTx, TransferTx} && Stock(s.ledger, o, Some(h)) <= 0
    requires forall k :: k in s.stops && s.orders[o].currentTrip == Some(k.0) && k.1 == h && s.stops[k].live ==>
      s.stops[k].status.StopCompleted?
    ensures StatusAt(s, o, h) == COMPLETED_INBOUND
  {
    hide Stock;
    assert HubDispatched(s.ledger, o, h);
  }

  /**
   * After a transfer has left hub h for hub g: h shows the order as stored while it has some of it left and as gone
   * otherwise; g, which had none, shows it as coming in exactly when the order is contracted for g or for no hub.
   */
  lemma {:induction false} TransferSeen(s: State, req: Request, k: nat, h: HubId, g: HubId)
    requires Inv(s) && Sensible(s, req) && Confirm(s, req).Ok? && k < |req.found|
    requires Transferred(req, req.found[k]) && Bound(req, req.found[k], Some(h)) == Some(g)
    requires SendingHub(s, req, req.found[k]) == Some(h) && SendingHub(s, req, req.found[0]) == Some(h)
    requires (CodeOf(req), g) in s.stops ==> s.stops[(CodeOf(req), g)].status.StopPending?
    ensures var r, o := Confirm(s, req).value, req.found[k];
      o in r.orders &&
      StatusAt(r, o, h) ==
      (if LineQty(s, req, o) < Stock(s.ledger, o, Some(h)) then INBOUND else COMPLETED_INBOUND) &&
      (Stock(s.ledger, o, Some(g)) == 0 ==>
        (StatusAt(r, o, g) == PENDING_INBOUND <==> s.orders[o].destHub.None? || s.orders[o].destHub == Some(g)))
  {
    hide Inv, Confirm, Stock, LineQty, Transferred, InHand, Bound, SendingHub, StatusAt;
    SenderShows(s, req, k, h, g);
    ReceiverShows(s, req, k, h, g);
  }

  /** What a transfer leaves for a hub's status to read: the order's row, the stops of its trip and the invoice. */
  lemma {:induction false} TransferLeft(s: State, req: Request, k: nat, h: HubId, g: HubId)
    requires Inv(s) && Sensible(s, req) && Confirm(s, req).Ok? && k < |req.found|
    requires Transferred(req, req.found[k]) && Bound(req, req.found[k], Some(h)) == Some(g)
    requires SendingHub(s, req, req.found[k]) == Some(h) && SendingHub(s, req, req.found[0]) == Some(h)
    requires (CodeOf(req), g) in s.stops ==> s.stops[(CodeOf(req), g)].status.StopPending?
    ensures var r, o, c := Confirm(s, req).value, req.found[k], CodeOf(req);
      o in r.orders && !DraftLike(r.orders[o].status) && r.orders[o].currentTrip == Some(c) &&
      r.orders[o].destHub == s.orders[o].destHub && h != g &&
      Stock(r.ledger, o, Some(h)) == Stock(s.ledger, o, Some(h)) - LineQty(s, req, o) &&
      Stock(r.ledger, o, Some(g)) == Stock(s.ledger, o, Some(g)) && HubDispatched(r.ledger, o, h) &&
      StopsAt(r.stops, c, h) && r.stops[(c, h)].status.StopCompleted? && StopsAt(r.stops, c, g) &&
      r.stops[(c, g)].status.StopPending? &&
      (s.orders[o].destHub.Some? ==> StopsAt(r.stops, c, s.orders[o].destHub.value))
  {
    hide Inv, Confirm, Stock, LineQty, Transferred, InHand, HasRow, StopIs;
    var r, o := Confirm(s, req).value, req.found[k];
    DispatchedOrders(s, req, o);
    DispatchMoves(s, req, k);
    DispatchInvoices(s, req);
    OtherHubKeeps(s, req, k, g);
    DispatchLoads(s, req);
    var hubs := DispatchTravels(s, req);
    TransferRoute(s, req, k, h, g, hubs);
    assert r.ledger[|s.ledger| + k].live;
    NeverDraft(s, req, k);
  }

  lemma {:induction false} SenderShows(s: State, req: Request, k: nat, h: HubId, g: HubId)
    requires Inv(s) && Sensible(s, req) && Confirm(s, req).Ok? && k < |req.found|
    requires Transferred(req, req.found[k]) && Bound(req, req.found[k], Some(h)) == Some(g)
    requires SendingHub(s, req, req.found[k]) == Some(h) && SendingHub(s, req, req.found[0]) == Some(h)
    requires (CodeOf(req), g) in s.stops ==> s.stops[(CodeOf(req), g)].status.StopPending?
    ensures var r, o := Confirm(s, req).value, req.found[k];
      o in r.orders &&
      StatusAt(r, o, h) == if LineQty(s, req, o) < Stock(s.ledger, o, Some(h)) then INBOUND else COMPLETED_INBOUND
  {
    hide Inv, Confirm, Stock, LineQty, Transferred, InHand, Bound, SendingHub, HubDispatched;
    TransferLeft(s, req, k, h, g);
  }

  lemma {:induction false} ReceiverShows(s: State, req: Request, k: nat, h: HubId, g: HubId)
    requires Inv(s) && Sensible(s, req) && Confirm(s, req).Ok? && k < |req.found|
    requires Transferred(req, req.found[k]) && Bound(req, req.found[k], Some(h)) == Some(g)
    requires SendingHub(s, req, req.found[k]) == Some(h) && SendingHub(s, req, req.found[0]) == Some(h)
    requires (CodeOf(req), g) in s.stops ==> s.stops[(CodeOf(req), g)].status.StopPending?
    ensures var r, o := Confirm(s, req).value, req.found[k];
      o in r.orders &&
      (Stock(s.ledger, o, Some(g)) == 0 ==>
        (StatusAt(r, o, g) == PENDING_INBOUND <==> s.orders[o].destHub.None? || s.orders[o].destHub == Some(g)))
  {
    hide Inv, Confirm, Stock, LineQty, Transferred, InHand, Bound, SendingHub, HubDispatched;
    TransferLeft(s, req, k, h, g);
    NeverDraft(s, req, k);
  }

  lemma {:induction false} NeverDraft(s: State, req: Request, k: nat)
    requires Inv(s) && Sensible(s, req) && Confirm(s, req).Ok? && k < |req.found|
    ensures req.found[k] in Confirm(s, req).value.orders
    ensures Confirm(s, req).value.orders[req.found[k]].status in {INBOUND, COMPLETED_INBOUND}
  {
    hide Inv, Confirm, LineQty, Transferred, InHand, SendingHub;
    DispatchedOrders(s, req, req.found[k]);
  }

  lemma {:induction false} OtherHubKeeps(s: State, req: Request, k: nat, g: HubId)
    requires Inv(s) && Sensible(s, req) && Confirm(s, req).Ok? && k < |req.found|
    requires SendingHub(s, req, req.found[k]) != Some(g)
    ensures Stock(Confirm(s, req).value.ledger, req.found[k], Some(g)) == Stock(s.ledger, req.found[k], Some(g))
  {
    hide Inv, CanHave, PlanAll, Confirm, DiscardDraft, LineQty, Transferred, Bound, InHand, SendingHub, WithoutOld;
    var clean, plans := DispatchTables(s, req);
    DispatchPlans(s, req, clean, plans);
    var rows := DispatchTxs(CodeOf(req), plans, |s.lines|);
    SumConcat(s.ledger, rows, StockAt(req.found[k], Some(g)));
    OwnTx(CodeOf(req), plans, |s.lines|, k, StockAt(req.found[k], Some(g)));
  }

  /** The vehicle has left h, g is still to come, and so is the hub the order is contracted for. */
  lemma {:induction false} TransferRoute(s: State, req: Request, k: nat, h: HubId, g: HubId, hubs: seq<HubId>)
    requires FoundIn(s, req) && k < |req.found| && Confirm(s, req).Ok?
    requires Transferred(req, req.found[k]) && Bound(req, req.found[k], Some(h)) == Some(g)
    requires (CodeOf(req), g) in s.stops ==> s.stops[(CodeOf(req), g)].status.StopPending?
    requires Travels(s.stops, Confirm(s, req).value.stops, CodeOf(req), Some(h), StopCompleted, hubs)
    requires forall x :: x in hubs <==>
      GoesOn(s, req, Some(h)) && Some(h) != Some(x) && (SentTo(req, x) || ContractedFor(s, req, x))
    ensures var stops, c := Confirm(s, req).value.stops, CodeOf(req);
      StopsAt(stops, c, h) && stops[(c, h)].status.StopCompleted? && StopsAt(stops, c, g) &&
      stops[(c, g)].status.StopPending? &&
      (s.orders[req.found[k]].destHub.Some? ==> StopsAt(stops, c, s.orders[req.found[k]].destHub.value))
  {
    hide Confirm, First;
    var o := req.found[k];
    assert Meant(req, o) == Some(g) && g != h;
    assert GoesOn(s, req, Some(h));
    assert SentTo(req, g) by { MeantIsSentTo(req, o, g); }
    assert g in hubs;
    var d := s.orders[o].destHub;
    if d.Some? && d != Some(h) {
      assert ContractedFor(s, req, d.value);
      assert d.value in hubs;
    }
  }

  lemma {:induction false} MeantIsSentTo(req: Request, o: OrderId, g: HubId)
    requires Meant(req, o) == Some(g) && !ToCustomer(req, o)
    ensures SentTo(req, g)
  {
    var first := First(req.items, o);
    if first.Some? && first.value.dest.Some? {
      var i :| 0 <= i < |req.items| && req.items[i] == first.value;
      assert req.items[i].dest == Some(g);
    }
  }
}
