/** What cancelling, re-opening and reconciling leave in the tables, row by row. */
module TripEffects {
  import opened Basics
  import opened Sums
  import opened Model
  import opened Dispatch
  import opened Invariant
  import opened InboundLaws
  import opened RollbackLaws
  import opened Reconcile
  import opened ReconcileLaws
  import opened RequestLaws
  import opened Requests
  import opened RunningBalance
  import opened Intake
  import opened IntakeEffects
  import opened OutboundEffects

  // ----- cancelOutboundDraft -------------------------------------------------------------------

  /** A draft that may be taken up may be cancelled: its lines and its pending stops go, nothing else moves. */
  lemma {:induction false} DraftCancelled(s: State, c: Code, userHub: Option<HubId>)
    ensures CancelDraft(s, c, userHub).Ok? <==> MayResume(s, c, userHub)
    ensures CancelDraft(s, c, userHub).Ok? ==>
      var r := CancelDraft(s, c, userHub).value;
      r == s.(lines := r.lines, stops := r.stops) && |r.lines| == |s.lines| && r.stops.Keys == s.stops.Keys &&
      (forall i :: 0 <= i < |s.lines| ==>
        r.lines[i] == if OnCode(s.lines[i], c) then s.lines[i].(live := false) else s.lines[i]) &&
      (forall k :: k in s.stops ==>
        r.stops[k] ==
        if k.0 == c && s.stops[k].status.StopPending? then s.stops[k].(live := false) else s.stops[k])
  {
    hide Discard, MayResume;
    DiscardReads(s, c, userHub);
  }

  // ----- rollbackTrip, outbound branch ---------------------------------------------------------

  /** A live invoice that took goods out on the trip, at the operating hub when one is given. */
  predicate TookOut(t: Tx, c: Code, hub: Option<HubId>) {
    t.live && t.trip == Some(c) && (t.kind.OutboundTx? || t.kind.TransferTx?) && (hub.Some? ==> t.hub == hub)
  }

  /** Those invoices go; every live line of the trip is pending again; the stops are to be done again. */
  lemma {:induction false} TripReopened(s: State, c: Code, hub: Option<HubId>)
    ensures var r := RollbackOutbound(s, c, hub);
      r.nextOrder == s.nextOrder && r.orders.Keys == s.orders.Keys && |r.ledger| == |s.ledger| &&
      |r.lines| == |s.lines| && r.stops.Keys == s.stops.Keys &&
      (forall i :: 0 <= i < |s.ledger| ==>
        r.ledger[i] == if TookOut(s.ledger[i], c, hub) then s.ledger[i].(live := false) else s.ledger[i]) &&
      (forall i :: 0 <= i < |s.lines| ==>
        r.lines[i] ==
        if OnCode(s.lines[i], c) then s.lines[i].(status := LinePending, qty := r.lines[i].qty) else s.lines[i]) &&
      (forall k :: k in s.stops ==>
        r.stops[k] ==
        if k.0 == c && s.stops[k].live && (hub.Some? ==> k.1 == hub.value) then s.stops[k].(status := StopPending)
        else s.stops[k])
  {
    hide PutBackAll, RestoredQty, ReleaseTrip;
  }

  lemma {:induction false} RestoredIs(t: Line, l: seq<Tx>, c: Code, hub: Option<HubId>, from: nat, k: nat)
    requires from <= k <= |l|
    requires forall j :: from <= j < k ==> !(TookOut(l[j], c, hub) && l[j].order == t.order)
    requires k < |l| ==> TookOut(l[k], c, hub) && l[k].order == t.order
    ensures RestoredQty(t, l, c, hub, from) == if k < |l| && l[k].qty != 0 then l[k].qty else 1
    decreases |l| - from
  {
    if from < k { RestoredIs(t, l, c, hub, from + 1, k); }
  }

  /** A line keeps its quantity; one without any gets that of the first invoice of its order taken back, or one. */
  lemma {:induction false} LineRestored(s: State, c: Code, hub: Option<HubId>, i: nat, k: nat)
    requires i < |s.lines| && OnCode(s.lines[i], c) && k <= |s.ledger|
    requires forall j :: 0 <= j < k ==> !(TookOut(s.ledger[j], c, hub) && s.ledger[j].order == s.lines[i].order)
    requires k < |s.ledger| ==> TookOut(s.ledger[k], c, hub) && s.ledger[k].order == s.lines[i].order
    ensures |RollbackOutbound(s, c, hub).lines| == |s.lines|
    ensures RollbackOutbound(s, c, hub).lines[i].qty ==
      if s.lines[i].qty.Some? then s.lines[i].qty
      else if k < |s.ledger| && s.ledger[k].qty != 0 then Some(s.ledger[k].qty) else Some(1)
  {
    hide PutBackAll, ReleaseTrip;
    RestoredIs(s.lines[i], s.ledger, c, hub, 0, k);
  }

  function BackFor(o: OrderId, c: Code, hub: Option<HubId>): Tx -> int {
    (t: Tx) => if TookOut(t, c, hub) && t.order == o then t.qty else 0
  }

  lemma {:induction false} BackIs(l: seq<Tx>, o: OrderId, c: Code, hub: Option<HubId>)
    ensures Taken(l, o, c, hub) == Sum(l, BackFor(o, c, hub))
  {
    SumPointwise(l, TakenOf(o, c, hub), l, BackFor(o, c, hub));
  }

  /**
   * A live order gets back all that its invoices took out: from outbound to remaining, stored again when that is
   * anything. It is off the trip when something came back or a line of it is on the trip.
   */
  lemma {:induction false} OrderReturned(s: State, c: Code, hub: Option<HubId>, o: OrderId)
    requires Inv(s) && IsLive(s.orders, o)
    ensures o in RollbackOutbound(s, c, hub).orders
    ensures var was, now := s.orders[o], RollbackOutbound(s, c, hub).orders[o];
      var back := Sum(s.ledger, BackFor(o, c, hub));
      0 <= back &&
      now == was.(outbound := was.outbound - back, remaining := was.remaining + back, status := now.status,
                  currentHub := now.currentHub, currentTrip := now.currentTrip) &&
      now.status == (if 0 < back then INBOUND else was.status) &&
      now.currentTrip ==
      if was.currentTrip == Some(c) &&
        (0 < back || exists i :: 0 <= i < |s.lines| && OnCode(s.lines[i], c) && s.lines[i].order == o)
      then None else was.currentTrip
  {
    hide Inv, PutBackAll, TakeBack, ReopenLines, ReopenStops, ReleaseTrip, Taken, Inbound, Dispatched, BackFor,
        Positive, OnCode;
    RowsPositiveOf(s);
    SyncedAt(s, o);
    StockWithinRemaining(s, o, None);
    assert s.ledger[..|s.ledger|] == s.ledger;
    PutBackAmounts(s.orders, s.ledger, c, hub, |s.ledger|, o);
    BackIs(s.ledger, o, c, hub);
    Released(PutBackAll(s.orders, s.ledger, c, hub, |s.ledger|), s.lines, c, o);
  }

  lemma {:induction false} Released(orders: map<OrderId, Order>, ls: seq<Line>, c: Code, o: OrderId)
    requires o in orders
    ensures var now := ReleaseTrip(orders, ls, c);
      o in now && now[o] == orders[o].(currentTrip :=
        if orders[o].live && orders[o].currentTrip == Some(c) &&
           exists i :: 0 <= i < |ls| && OnCode(ls[i], c) && ls[i].order == o
        then None else orders[o].currentTrip)
  {
    assert forall i :: 0 <= i < |ls| ==> (OnCode(ls[i], c) <==> OnTrip(ls[i], c));
  }

  // ----- Which trips are rolled back as outbound ones ------------------------------------------

  /**
   * Goods arriving on a vehicle make its roll-back an outbound one exactly when it was one, or the hub's stop on it is
   * a place it was once planned to leave from: a cancelled draft's stop comes back with its kind.
   */
  lemma {:induction false} ArrivalOutbound(s: State, item: Arrival, hub: Option<HubId>, c: Code, o: OrderId,
        user: Option<HubId>)
    requires Receives(s, item.code, o)
    ensures RollsBackOutbound(QuickCreate(s, item, hub, Some(c)), c, user) <==>
      RollsBackOutbound(s, c, user) ||
      (hub.Some? && user == hub && (c, hub.value) in s.stops && s.stops[(c, hub.value)].kind.OriginStop?)
  {
    hide Book;
    BookedAlone(s, item, hub);
    var r := QuickCreate(s, item, hub, Some(c));
    forall i | 0 <= i < |r.lines| && OnTrip(r.lines[i], c) && IsOutboundLine(r.lines[i].kind)
      ensures i < |s.lines| && s.lines[i] == r.lines[i]
    {
    }
    forall i | 0 <= i < |s.lines| ensures i < |r.lines| && r.lines[i] == s.lines[i] {}
  }

  /**
   * A trip dispatched under a new code is rolled back as an outbound one; and even when every line has been taken off
   * it, the hub it left still rolls it back so, and no other hub does.
   */
  lemma {:induction false} DispatchIsOutbound(s: State, req: Request, user: Option<HubId>)
    requires Inv(s) && Sensible(s, req) && Confirm(s, req).Ok?
    requires forall k :: k in s.stops ==> k.0 != CodeOf(req)
    ensures 0 < |req.found|
    ensures var r, c := Confirm(s, req).value, CodeOf(req);
      RollsBackOutbound(r, c, user) &&
      (RollsBackOutbound(r.(lines := DropLines(r.lines, c)), c, user) <==>
        user.Some? && SendingHub(s, req, req.found[0]) == user)
  {
    hide Inv, Confirm, LineQty, Transferred, Bound, InHand, SendingHub, GoesOn, SentTo, ContractedFor;
    var r, c := Confirm(s, req).value, CodeOf(req);
    DispatchLoads(s, req);
    var hubs := DispatchTravels(s, req);
  }

  /** On any tables, a roll-back that takes back more than had left leaves nothing as left, and returns all of it. */
  lemma {:induction false} ReturnedClamped(s: State, c: Code, hub: Option<HubId>, o: OrderId)
    requires IsLive(s.orders, o) && 0 <= s.orders[o].outbound
    requires forall i :: 0 <= i < |s.ledger| && TookOut(s.ledger[i], c, hub) ==> 0 <= s.ledger[i].qty
    ensures o in RollbackOutbound(s, c, hub).orders
    ensures var was, now := s.orders[o], RollbackOutbound(s, c, hub).orders[o];
      var back := Sum(s.ledger, BackFor(o, c, hub));
      now.outbound == (if back <= was.outbound then was.outbound - back else 0) &&
      now.remaining == was.remaining + back && now.total == was.total && now.inbound == was.inbound
  {
    hide PutBackAll, TakeBack, ReopenLines, ReopenStops;
    assert s.ledger[..|s.ledger|] == s.ledger;
    ClampedUpTo(s.orders, s.ledger, c, hub, |s.ledger|, o);
  }

  lemma {:induction false} ClampedUpTo(orders: map<OrderId, Order>, l: seq<Tx>, c: Code, hub: Option<HubId>, n: nat,
        o: OrderId)
    requires n <= |l| && IsLive(orders, o) && 0 <= orders[o].outbound
    requires forall i :: 0 <= i < |l| && TookOut(l[i], c, hub) ==> 0 <= l[i].qty
    ensures var was, now := orders[o], PutBackAll(orders, l, c, hub, n)[o];
      var back := Sum(l[..n], BackFor(o, c, hub));
      0 <= back && now.outbound == (if back <= was.outbound then was.outbound - back else 0) &&
      now.remaining == was.remaining + back && now.total == was.total && now.inbound == was.inbound
    decreases n
  {
    hide PutBackAll;
    if n > 0 {
      ClampedUpTo(orders, l, c, hub, n - 1, o);
      PutBackStep(orders, l, c, hub, n, o);
      assert l[..n] == l[..n - 1] + [l[n - 1]];
      SumSnoc(l[..n - 1], l[n - 1], BackFor(o, c, hub));
    } else {
      NothingPutBack(orders, l, c, hub);
    }
  }

  lemma {:induction false} RowsPositiveOf(s: State)
    requires Inv(s)
    ensures Positive(s.ledger)
  {
    RowsPositive(s);
  }

  /** It is back at the hub of the last invoice taken back that names one. */
  lemma {:induction false} ReturnedTo(orders: map<OrderId, Order>, l: seq<Tx>, c: Code, hub: Option<HubId>, n: nat,
        o: OrderId, k: nat)
    requires n <= |l| && k <= n && IsLive(orders, o)
    requires forall j :: k <= j < n ==> !(TookOut(l[j], c, hub) && l[j].order == o && l[j].hub.Some?)
    requires 0 < k ==> TookOut(l[k - 1], c, hub) && l[k - 1].order == o && l[k - 1].hub.Some?
    ensures PutBackAll(orders, l, c, hub, n)[o].currentHub == if 0 < k then l[k - 1].hub else orders[o].currentHub
    decreases n
  {
    hide PutBackAll;
    if n > 0 {
      PutBackStep(orders, l, c, hub, n, o);
      if k < n { ReturnedTo(orders, l, c, hub, n - 1, o, k); }
    } else {
      NothingPutBack(orders, l, c, hub);
    }
  }

  lemma {:induction false} NothingPutBack(orders: map<OrderId, Order>, l: seq<Tx>, c: Code, hub: Option<HubId>)
    ensures PutBackAll(orders, l, c, hub, 0) == orders
  {
  }

  lemma {:induction false} OrderBackAtHub(s: State, c: Code, hub: Option<HubId>, o: OrderId, k: nat)
    requires IsLive(s.orders, o) && k <= |s.ledger|
    requires forall j :: k <= j < |s.ledger| ==>
      !(TookOut(s.ledger[j], c, hub) && s.ledger[j].order == o && s.ledger[j].hub.Some?)
    requires 0 < k ==> TookOut(s.ledger[k - 1], c, hub) && s.ledger[k - 1].order == o && s.ledger[k - 1].hub.Some?
    ensures o in RollbackOutbound(s, c, hub).orders
    ensures RollbackOutbound(s, c, hub).orders[o].currentHub ==
      if 0 < k then s.ledger[k - 1].hub else s.orders[o].currentHub
  {
    hide PutBackAll, TakeBack, ReopenLines, ReopenStops;
    ReturnedTo(s.orders, s.ledger, c, hub, |s.ledger|, o, k);
  }

  // ----- reconcileOrderQuantities --------------------------------------------------------------

  function PendingFor(o: OrderId): Line -> int {
    (t: Line) => if t.live && t.order == o && t.status.LinePending? && t.qty.Some? then t.qty.value else 0
  }

  /** The row of a reconciled order: the ledger's sums, and a total of what came in and all that is pending. */
  predicate Reconciled(was: Order, now: Order, received: int, sent: int, pending: int) {
    now == was.(inbound := received, outbound := sent, remaining := now.remaining, total := received + pending,
                status := now.status) &&
    now.remaining == (if sent <= received then received - sent else 0) &&
    (now.status == was.status || now.status == INBOUND || now.status == COMPLETED_INBOUND) &&
    (0 < sent && received <= sent ==> now.status == COMPLETED_INBOUND) &&
    (!(0 < sent && received <= sent) && 0 < received ==> now.status == INBOUND) &&
    (!(0 < sent && received <= sent) && received <= 0 ==> now.status == was.status)
  }

  lemma {:induction false} RowReconciled(o: Order, received: int, sent: int, ls: seq<Line>, x: OrderId)
    ensures Reconciled(o, ReconciledRow(o, received, sent, PendingAllocation(ls, x)), received, sent,
                       Sum(ls, PendingFor(x)))
  {
    SumPointwise(ls, PendingOn(x), ls, PendingFor(x));
  }

  /** For a code with one live row that has a live invoice; without an invoice, or for another code, the row stays. */
  lemma {:induction false} CodeReconciled(s: State, o: OrderId, code: Code)
    requires Numbered(s) && IsLive(s.orders, o) && Single(s, s.orders[o].code)
    ensures ReconcileCode(s, code) == s.(orders := ReconcileCode(s, code).orders) && o in ReconcileCode(s, code).orders
    ensures var now := ReconcileCode(s, code).orders[o];
      if code == s.orders[o].code && exists i :: 0 <= i < |s.ledger| && s.ledger[i].live && s.ledger[i].order == o
      then Reconciled(s.orders[o], now, Inbound(s.ledger, o), Dispatched(s.ledger, o), Sum(s.lines, PendingFor(o)))
      else now == s.orders[o]
  {
    hide ReconcileCode, Inbound, Dispatched, PendingAllocation, Reconciled, ReconciledRow;
    ReconcileFrame(s, code);
    ReconcileAlone(s, o);
    RowReconciled(s.orders[o], Inbound(s.ledger, o), Dispatched(s.ledger, o), s.lines, o);
    InvoicedAlone(s.ledger, o);
  }

  lemma {:induction false} InvoicedAlone(l: seq<Tx>, o: OrderId)
    ensures HasActive(l, [o]) <==> exists i :: 0 <= i < |l| && l[i].live && l[i].order == o
  {
    assert forall t: Tx :: LiveIn(t, [o]) <==> t.live && t.order == o;
    if exists i :: 0 <= i < |l| && l[i].live && l[i].order == o {
      var i :| 0 <= i < |l| && l[i].live && l[i].order == o;
      assert LiveIn(l[i], [o]);
    }
  }

  // ----- cancelInboundDraft --------------------------------------------------------------------

  /** A line announced for the vehicle and not unloaded. */
  predicate Announces(t: Line, c: Code) {
    t.live && t.trip == Some(c) && t.status.LinePending?
  }

  /** Accepted when a stop of the vehicle (at the user's hub) or a line is still pending. */
  lemma {:induction false} InboundCancellable(s: State, c: Code, userHub: Option<HubId>)
    ensures CancelInbound(s, c, userHub).Ok? <==>
      0 < |c| &&
      ((exists k :: k in s.stops && k.0 == c && s.stops[k].live && s.stops[k].status.StopPending? &&
         (userHub.Some? ==> k.1 == userHub.value)) ||
       exists i :: 0 <= i < |s.lines| && Announces(s.lines[i], c))
  {
    hide ReconcileCodes, CodesToReconcile, DropOrders, DropPending, DropStops;
    assert forall i :: 0 <= i < |s.lines| ==> (Announces(s.lines[i], c) <==> IsPendingLine(s.lines[i], c));
  }

  lemma {:induction false} ReconcilesOrders(s: State, codes: seq<Code>)
    ensures ReconcileCodes(s, codes) == s.(orders := ReconcileCodes(s, codes).orders)
    ensures ReconcileCodes(s, codes).orders.Keys == s.orders.Keys
    ensures forall o :: o in s.orders && !(s.orders[o].live && s.orders[o].code in codes) ==>
      ReconcileCodes(s, codes).orders[o] == s.orders[o]
    ensures forall o :: o in s.orders ==>
      ReconcileCodes(s, codes).orders[o].code == s.orders[o].code &&
      ReconcileCodes(s, codes).orders[o].live == s.orders[o].live
    decreases |codes|
  {
    hide ReconcileCode, SiblingsOf;
    if |codes| > 0 {
      ReconcilesOrders(s, codes[..|codes| - 1]);
      ReconcileFrame(ReconcileCodes(s, codes[..|codes| - 1]), codes[|codes| - 1]);
    }
  }

  /** Its pending lines and pending stops (of the user's hub) go; invoices stay. */
  lemma {:induction false} AnnouncementGone(s: State, c: Code, userHub: Option<HubId>)
    requires CancelInbound(s, c, userHub).Ok?
    ensures var r := CancelInbound(s, c, userHub).value;
      r.ledger == s.ledger && r.nextOrder == s.nextOrder && |r.lines| == |s.lines| && r.stops.Keys == s.stops.Keys &&
      r.orders.Keys == s.orders.Keys &&
      (forall i :: 0 <= i < |s.lines| ==>
        r.lines[i] == if Announces(s.lines[i], c) then s.lines[i].(live := false) else s.lines[i]) &&
      (forall k :: k in s.stops ==>
        r.stops[k] ==
        if k.0 == c && s.stops[k].status.StopPending? && (userHub.Some? ==> k.1 == userHub.value)
        then s.stops[k].(live := false) else s.stops[k])
  {
    hide ReconcileCodes, CodesToReconcile;
    var dropped := s.(stops := DropStops(s.stops, c, userHub), orders := DropOrders(s, c),
        lines := DropPending(s.lines, c));
    ReconcilesOrders(dropped, CodesToReconcile(s, c, |s.lines|));
  }

  /** An order announced only (DRAFT or PENDING, but not WAITING) that ever had a row on the vehicle is removed. */
  lemma {:induction false} AnnouncedOrderGone(s: State, c: Code, userHub: Option<HubId>, o: OrderId)
    requires CancelInbound(s, c, userHub).Ok? && o in s.orders && s.orders[o].status in {DRAFT, PENDING}
    requires exists i :: 0 <= i < |s.lines| && s.lines[i].trip == Some(c) && s.lines[i].order == o
    ensures o in CancelInbound(s, c, userHub).value.orders
    ensures CancelInbound(s, c, userHub).value.orders[o] == s.orders[o].(live := false)
  {
    hide ReconcileCodes, CodesToReconcile;
    var dropped := s.(stops := DropStops(s.stops, c, userHub), orders := DropOrders(s, c),
        lines := DropPending(s.lines, c));
    ReconcilesOrders(dropped, CodesToReconcile(s, c, |s.lines|));
  }

  /** No other order is removed: one in status WAITING, or stored, or never on the vehicle, is as live as before. */
  lemma {:induction false} OtherOrdersLive(s: State, c: Code, userHub: Option<HubId>, o: OrderId)
    requires CancelInbound(s, c, userHub).Ok? && o in s.orders
    requires s.orders[o].status !in {DRAFT, PENDING} ||
      forall i :: 0 <= i < |s.lines| && s.lines[i].trip == Some(c) ==> s.lines[i].order != o
    ensures o in CancelInbound(s, c, userHub).value.orders
    ensures CancelInbound(s, c, userHub).value.orders[o].live == s.orders[o].live
    ensures CancelInbound(s, c, userHub).value.orders[o].code == s.orders[o].code
  {
    hide ReconcileCodes, CodesToReconcile;
    var dropped := s.(stops := DropStops(s.stops, c, userHub), orders := DropOrders(s, c),
        lines := DropPending(s.lines, c));
    ReconcilesOrders(dropped, CodesToReconcile(s, c, |s.lines|));
  }

  lemma {:induction false} OnlyCancelledCodes(s: State, c: Code, n: nat, code: Code)
    requires n <= |s.lines| && code in CodesToReconcile(s, c, n)
    ensures exists i ::
      0 <= i < n && Announces(s.lines[i], c) && s.lines[i].order in s.orders &&
      s.orders[s.lines[i].order].code == code && s.orders[s.lines[i].order].status !in {DRAFT, PENDING}
    decreases n
  {
    if code in CodesToReconcile(s, c, n - 1) {
      OnlyCancelledCodes(s, c, n - 1, code);
    } else {
      assert Announces(s.lines[n - 1], c);
    }
  }

  /**
   * An order that is not removed stays as it was when every cancelled line of its code belongs to an order that was
   * only announced.
   */
  lemma {:induction false} OtherOrdersStay(s: State, c: Code, userHub: Option<HubId>, o: OrderId)
    requires CancelInbound(s, c, userHub).Ok? && o in s.orders
    requires s.orders[o].status !in {DRAFT, PENDING} ||
      forall i :: 0 <= i < |s.lines| && s.lines[i].trip == Some(c) ==> s.lines[i].order != o
    requires forall i :: 0 <= i < |s.lines| && Announces(s.lines[i], c) && s.lines[i].order in s.orders ==>
      s.orders[s.lines[i].order].code != s.orders[o].code || s.orders[s.lines[i].order].status in {DRAFT, PENDING}
    ensures o in CancelInbound(s, c, userHub).value.orders
    ensures CancelInbound(s, c, userHub).value.orders[o] == s.orders[o]
  {
    hide ReconcileCodes, CodesToReconcile;
    var dropped := s.(stops := DropStops(s.stops, c, userHub), orders := DropOrders(s, c),
        lines := DropPending(s.lines, c));
    var codes := CodesToReconcile(s, c, |s.lines|);
    ReconcilesOrders(dropped, codes);
    if s.orders[o].code in codes { OnlyCancelledCodes(s, c, |s.lines|, s.orders[o].code); }
  }

  /** A stored order with a cancelled line is reconciled against the lines that are left. */
  lemma {:induction false} StoredOrderReconciled(s: State, c: Code, userHub: Option<HubId>, o: OrderId, i: nat)
    requires Numbered(s) && InStock(s, o) && 0 < |c|
    requires i < |s.lines| && Announces(s.lines[i], c) && s.lines[i].order == o
    ensures CancelInbound(s, c, userHub).Ok? && o in CancelInbound(s, c, userHub).value.orders
    ensures var r := CancelInbound(s, c, userHub).value;
      Reconciled(s.orders[o], r.orders[o], Inbound(s.ledger, o), Dispatched(s.ledger, o), Sum(r.lines, PendingFor(o)))
  {
    hide ReconcileCodes, CodesToReconcile, PendingAllocation, Inbound, Dispatched, Reconciled, ReconciledRow, HasActive;
    InboundCancellable(s, c, userHub);
    var dropped := s.(stops := DropStops(s.stops, c, userHub), orders := DropOrders(s, c),
        lines := DropPending(s.lines, c));
    var codes := CodesToReconcile(s, c, |s.lines|);
    ToBeReconciled(s, c, |s.lines|, i);
    ReconcileCodesAt(dropped, codes, o);
    ReconcilesOrders(dropped, codes);
    RowReconciled(s.orders[o], Inbound(s.ledger, o), Dispatched(s.ledger, o), dropped.lines, o);
  }
}
