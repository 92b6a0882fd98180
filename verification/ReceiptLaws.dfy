/** A counted receipt keeps the invariant, row by row and as a whole. */
module ReceiptLaws {
  import opened Basics
  import opened Sums
  import opened Model
  import opened Dispatch
  import opened Invariant
  import opened Receiving
  import opened InboundLaws
  import opened Intake
  import Partition

  /** A live order has a positive total, which covers what it received. */
  ghost predicate Sized(orders: map<OrderId, Order>) {
    forall o :: IsLive(orders, o) ==> 0 < orders[o].total && orders[o].inbound <= orders[o].total
  }

  lemma {:induction false} ArrivalSized(s: State, item: Arrival, hub: Option<HubId>, trip: Option<Code>)
    requires Inv(s) && Sized(s.orders)
    ensures Sized(QuickCreate(s, item, hub, trip).orders)
  {
    hide Inv, Book;
    CodesKnown(s);
    BookedAlone(s, item, hub);
    SyncedAt(s, Book(s, item, hub).1);
  }

  predicate Unplanned(ls: seq<Line>, trip: Option<Code>) {
    trip.Some? ==> !HasPlan(ls, trip.value)
  }

  /** The loop's state is sound and it has handled no outbound draft. */
  ghost predicate Steady(g: Progress, t: Tally) {
    Inv(g.s) && Sized(g.s.orders) && Unplanned(g.s.lines, g.shared) && Unplanned(g.s.lines, t.plateCode) &&
    forall i :: 0 <= i < |g.codes| ==> !HasPlan(g.s.lines, g.codes[i])
  }

  /** What a row must not do: announce a negative total or a code in use, or re-count below what is reserved. */
  predicate RowSafe(g: Progress, row: Row, t: Tally) {
    match FindRow(g.s, row)
    case None => 0 <= row.total.GetOr(0) && FindByCode(g.s, row.code.GetOr(row.newCode)).None?
    case Some(o) =>
      var trip := g.shared.OrElse(g.s.orders[o].currentTrip);
      if EditableDraft(g.s.orders[o], t) || trip.None? || t.hub.None? then true
      else
        var receipt := FirstReceipt(g.s.ledger, o, trip.value, t.hub.value, 0);
        var q := row.Counted().GetOr(0);
        receipt.Some? && t.superAdmin && q > 0 ==>
          Reserved(g.s.lines, o, t.hub.value, None) <= Stock(g.s.ledger, o, t.hub) + q - g.s.ledger[receipt.value].qty
  }

  // ----- Linking a counted order to its trip ---------------------------------------------------

  /** One order row was saved for this count, and the receipt about to be written settles it. */
  ghost predicate Counts(s: State, k: Counting, hub: Option<HubId>) {
    Saves(s, k.s, k.order) && k.s.ledger == s.ledger && k.s.stops == s.stops && 0 < k.qty &&
    (forall trip, line, running :: Synced(k.s.orders, s.ledger + [CountTx(k, hub, trip, line, running)], k.order))
  }

  lemma {:induction false} LinkedLines(s: State, o: OrderId, row: Row, t: Tally, c: Code)
    requires o in s.orders && o < s.nextOrder && !HasPlan(s.lines, c)
    ensures Relines(s.lines, LinkLine(s, o, row, t, c).0, c, s.nextOrder)
  {
  }

  lemma {:induction false} LinkSteady(g: Progress, k: Counting, row: Row, t: Tally)
    requires Steady(g, t) && Counts(g.s, k, t.hub) && Unplanned(g.s.lines, k.trip) && Sized(k.s.orders)
    ensures Steady(Link(g, k, row, t), t)
  {
    hide Inv, LinkLine, Synced, NothingReceived, HasPlan, Relines, Sized;
    var shared := if k.trip.None? then g.shared.OrElse(t.plateCode) else g.shared;
    var trip := k.trip.OrElse(shared);
    var r := Link(g, k, row, t);
    var line := if trip.Some? then Some(LinkLine(k.s, k.order, row, t, trip.value).1) else None;
    var tx := CountTx(k, t.hub, trip, line, k.s.orders[k.order].remaining);
    var mid := k.s.(ledger := k.s.ledger + [tx]);
    ReceiptKeepsInv(g.s, mid, k.order, tx);
    if trip.Some? {
      LinkedLines(k.s, k.order, row, t, trip.value);
      ReceivedNow(k.s.ledger, tx, trip.value);
      LinesChangedKeepInv(mid, r.s, trip.value);
    } else {
      assert r.s == mid;
    }
  }

  /** The cached quantities a receipt of `qty` must find on the order row it is written for. */
  lemma {:induction false} Settles(s: State, k: Counting, hub: Option<HubId>)
    requires Saves(s, k.s, k.order) && k.s.ledger == s.ledger && k.s.stops == s.stops && 0 < k.qty
    requires !DraftLike(k.s.orders[k.order].status)
    requires var o := k.s.orders[k.order];
      o.inbound == Inbound(s.ledger, k.order) + k.qty && o.outbound == Dispatched(s.ledger, k.order) &&
      o.remaining == o.inbound - o.outbound
    ensures Counts(s, k, hub)
  {
    forall trip, line, running ensures Synced(k.s.orders, s.ledger + [CountTx(k, hub, trip, line, running)], k.order) {
      LedgerAppended(s.ledger, CountTx(k, hub, trip, line, running));
    }
  }

  // ----- The four kinds of row -----------------------------------------------------------------

  lemma {:induction false} NewRowSafe(g: Progress, row: Row, t: Tally)
    requires Steady(g, t) && FindRow(g.s, row).None? && RowSafe(g, row, t)
    ensures ReceiveRow(g, row, t).Ok? && Steady(ReceiveRow(g, row, t).value, t)
  {
    hide Inv, Link;
    var o, made := g.s.nextOrder, NewContract(row, t.hub);
    var k := Counting(g.s.(orders := g.s.orders[o := made], nextOrder := o + 1), o, g.shared, made.inbound,
        Some(made.inbound));
    NotYet(g.s);
    SyncedAt(g.s, o);
    RowsKnown(g.s);
    Settles(g.s, k, t.hub);
    LinkSteady(g, k, row, t);
  }

  /** A draft of this hub enters stock with its whole quantity. */
  lemma {:induction false} AcceptedSafe(g: Progress, row: Row, t: Tally, o: OrderId)
    requires Steady(g, t) && FindRow(g.s, row) == Some(o) && EditableDraft(g.s.orders[o], t)
    ensures ReceiveRow(g, row, t).Ok? && Steady(ReceiveRow(g, row, t).value, t)
  {
    hide Inv, Link;
    var taken := Accepted(g.s, g.s.orders[o], row, t.hub);
    var k := Counting(g.s.(orders := g.s.orders[o := taken]), o, g.shared, taken.inbound, Some(taken.inbound));
    RowsKnown(g.s);
    SyncedAt(g.s, o);
    Settles(g.s, k, t.hub);
    LinkSteady(g, k, row, t);
  }

  /** A locked contract is counted on top of what it already received. */
  lemma {:induction false} CountedSafe(g: Progress, row: Row, t: Tally, o: OrderId, trip: Option<Code>, k: Counting)
    requires Steady(g, t) && IsLive(g.s.orders, o) && trip == g.shared.OrElse(g.s.orders[o].currentTrip)
    requires CountLocked(g.s, o, row, t.hub, trip) == Ok(k)
    ensures Steady(Link(g, k, row, t), t)
  {
    hide Inv, Link, OnTheWay, CountedQty, Share;
    RowsKnown(g.s);
    SyncedAt(g.s, o);
    StockWithinRemaining(g.s, o, None);
    TripUnplanned(g.s, o);
    Settles(g.s, k, t.hub);
    LinkSteady(g, k, row, t);
  }

  lemma {:induction false} TripUnplanned(s: State, o: OrderId)
    requires Inv(s) && IsLive(s.orders, o)
    ensures Unplanned(s.lines, s.orders[o].currentTrip)
  {
  }

  // ----- A super admin re-counts a receipt -----------------------------------------------------

  lemma {:induction false} QtyRewritten(l: seq<Tx>, i: nat, q: int)
    requires i < |l| && l[i].live && l[i].kind.InboundTx?
    ensures var r, t := l[i := l[i].(qty := q)], l[i];
      (forall x: OrderId :: Inbound(r, x) == Inbound(l, x) + if x == t.order then q - t.qty else 0) &&
      (forall x: OrderId :: Dispatched(r, x) == Dispatched(l, x)) &&
      (forall x: OrderId, h: Option<HubId> ::
        Stock(r, x, h) == Stock(l, x, h) + if x == t.order && h == t.hub then q - t.qty else 0) &&
      (forall x: OrderId, h: Option<HubId>, c: Code :: DispatchedVia(r, x, h, c) == DispatchedVia(l, x, h, c))
  {
    var t := l[i].(qty := q);
    forall x: OrderId
      ensures Inbound(l[i := t], x) == Inbound(l, x) + if x == t.order then q - l[i].qty else 0
      ensures Dispatched(l[i := t], x) == Dispatched(l, x)
    {
      SumUpdate(l, i, t, InboundOf(x));
      SumUpdate(l, i, t, DispatchedOf(x));
    }
    forall x: OrderId, h: Option<HubId>
      ensures Stock(l[i := t], x, h) == Stock(l, x, h) + if x == t.order && h == t.hub then q - l[i].qty else 0
    {
      SumUpdate(l, i, t, StockAt(x, h));
    }
    forall x: OrderId, h: Option<HubId>, c: Code
      ensures DispatchedVia(l[i := t], x, h, c) == DispatchedVia(l, x, h, c)
    {
      SumUpdate(l, i, t, DispatchedOn(x, h, c));
    }
  }

  lemma {:induction false} ReceiptsRewritten(l: seq<Tx>, i: nat, q: int)
    requires i < |l| && l[i].live && l[i].kind.InboundTx?
    ensures forall c :: NothingReceived(l[i := l[i].(qty := q)], c) <==> NothingReceived(l, c)
    ensures forall c :: NoInvoice(l, c) ==> NoInvoice(l[i := l[i].(qty := q)], c)
  {
    var r := l[i := l[i].(qty := q)];
    forall c ensures NothingReceived(r, c) <==> NothingReceived(l, c) {
      if NothingReceived(r, c) {
        forall j | 0 <= j < |l| && l[j].live && l[j].trip == Some(c) ensures !l[j].kind.InboundTx? {
          assert r[j].trip == l[j].trip && r[j].live && r[j].kind == l[j].kind;
        }
      }
    }
  }

  /** The order row stays synced because no hub, hence not the order, goes below zero. */
  lemma {:induction false} RecountSynced(s: State, mid: State, o: OrderId, row: Row, i: nat, q: int)
    requires Inv(s) && IsLive(s.orders, o) && !DraftLike(s.orders[o].status) && i < |s.ledger| && 0 < q
    requires s.ledger[i].live && s.ledger[i].order == o && s.ledger[i].kind.InboundTx?
    requires mid == s.(ledger := s.ledger[i := s.ledger[i].(qty := q)],
                       orders := s.orders[o := Recounted(s.orders[o], row, q - s.ledger[i].qty)])
    requires 0 <= Inbound(mid.ledger, o) - Dispatched(mid.ledger, o)
    ensures AllSynced(mid.orders, mid.ledger)
  {
    hide Inv, Inbound, Dispatched;
    QtyRewritten(s.ledger, i, q);
    DispatchedNonNegative(s, o);
    forall x: OrderId ensures Synced(mid.orders, mid.ledger, x) {
      SyncedAt(s, x);
    }
  }

  lemma {:induction false} DispatchedNonNegative(s: State, o: OrderId)
    requires Inv(s)
    ensures 0 <= Dispatched(s.ledger, o)
  {
    forall i | 0 <= i < |s.ledger| ensures 0 <= DispatchedOf(o)(s.ledger[i]) {
      assert TxOk(s.ledger[i], s.nextOrder);
    }
    SumBoundsTerms(s.ledger, DispatchedOf(o));
  }

  lemma {:induction false} RecountCovered(s: State, mid: State, o: OrderId, i: nat, q: int)
    requires Inv(s) && i < |s.ledger| && 0 < q
    requires s.ledger[i].live && s.ledger[i].order == o && s.ledger[i].kind.InboundTx? && s.ledger[i].hub.Some?
    requires mid.ledger == s.ledger[i := s.ledger[i].(qty := q)] && mid.lines == s.lines && mid.nextOrder == s.nextOrder
    requires mid.orders.Keys == s.orders.Keys
    ensures Covered(mid.ledger, mid.lines) <==>
            Reserved(s.lines, o, s.ledger[i].hub.value, None) <= Stock(s.ledger, o,
              s.ledger[i].hub) + q - s.ledger[i].qty
    ensures RowsOk(mid) && DraftsClean(mid.ledger, mid.lines) && Matched(mid.ledger, mid.lines)
    ensures Covered(mid.ledger, mid.lines) ==> 0 <= Inbound(mid.ledger, o) - Dispatched(mid.ledger, o)
  {
    QtyRewritten(s.ledger, i, q);
    ReceiptsRewritten(s.ledger, i, q);
    assert Stock(mid.ledger, o, s.ledger[i].hub) == Stock(s.ledger, o, s.ledger[i].hub) + q - s.ledger[i].qty;
    assert RowsOk(mid) by {
      forall j | 0 <= j < |mid.lines| ensures LineOk(mid.lines[j], mid.ledger, mid.nextOrder) {
        assert LineOk(s.lines[j], s.ledger, s.nextOrder);
      }
    }
    if Covered(mid.ledger, mid.lines) {
      forall h ensures 0 <= Stock(mid.ledger, o, h) {
        if h.Some? {
          ReservedNonNegative(mid, o, h.value, None);
          assert Reserved(mid.lines, o, h.value, None) <= Stock(mid.ledger, o, Some(h.value));
        }
      }
      Partition.HubStockWithinOrder(mid.ledger, o, None);
    }
  }

  lemma {:induction false} RecountTrips(s: State, mid: State, o: OrderId, row: Row, diff: int)
    requires Inv(s) && IsLive(s.orders, o) && mid.lines == s.lines
    requires mid.orders == s.orders[o := Recounted(s.orders[o], row, diff)]
    ensures UniqueCodes(mid.orders) && TripsKnown(mid.orders, mid.lines)
  {
    forall a, b | IsLive(mid.orders, a) && IsLive(mid.orders, b) && a != b
      ensures mid.orders[a].code != mid.orders[b].code
    {
      assert IsLive(s.orders, a) && IsLive(s.orders, b);
    }
    forall x | IsLive(mid.orders, x) && mid.orders[x].currentTrip.Some?
      ensures Aboard(mid.lines, x, mid.orders[x].currentTrip.value)
      ensures !HasPlan(mid.lines, mid.orders[x].currentTrip.value)
    {
      assert IsLive(s.orders, x);
    }
  }

  /** A trip with an invoice carries no plan. */
  lemma {:induction false} InvoicedUnplanned(s: State, i: nat)
    requires Inv(s) && i < |s.ledger| && s.ledger[i].live && s.ledger[i].trip.Some?
    ensures !HasPlan(s.lines, s.ledger[i].trip.value)
  {
  }

  lemma {:induction false} Assembled(s: State)
    requires RowsOk(s) && UniqueCodes(s.orders) && AllSynced(s.orders, s.ledger) && Covered(s.ledger, s.lines)
    requires DraftsClean(s.ledger, s.lines) && Matched(s.ledger, s.lines) && TripsKnown(s.orders, s.lines)
    ensures Inv(s)
  {
  }

  /** A re-count rewrites the quantity of one line of a trip that has been invoiced: no plan moves. */
  lemma {:induction false} RecountRelined(s: State, o: OrderId, row: Row, c: Code, i: nat, q: int)
    requires o in s.orders && i < |s.ledger| && s.ledger[i].live && s.ledger[i].trip == Some(c)
    requires s.ledger[i].kind.InboundTx?
    requires !HasPlan(s.lines, c)
    ensures var r := Recount(s, o, row, c, i, q);
      Relines(s.lines, r.lines, c, s.nextOrder) && KeepsPlans(s.lines, r.lines, c) &&
      !NothingReceived(r.ledger, c) && (forall d :: HasPlan(r.lines, d) <==> HasPlan(s.lines, d))
  {
    var r := Recount(s, o, row, c, i, q);
    assert r.ledger[i].trip == Some(c) && r.ledger[i].kind.InboundTx?;
    SamePlans(s, r, c);
    PlansKept(s.lines, r.lines, c);
  }

  /** Reservations decide coverage, so an uncovered ledger stays uncovered. */
  lemma {:induction false} StillUncovered(s: State, a: seq<Line>, c: Code)
    requires KeepsPlans(s.lines, a, c) && !Covered(s.ledger, s.lines)
    ensures !Inv(s.(lines := a))
  {
    PlansKept(s.lines, a, c);
  }

  /** A re-count keeps the invariant exactly when the hub still holds what it has promised to trips. */
  lemma {:induction false} RecountKeepsInv(s: State, o: OrderId, row: Row, c: Code, h: HubId, q: int)
    requires Inv(s) && IsLive(s.orders, o) && !DraftLike(s.orders[o].status) && 0 < q
    requires FirstReceipt(s.ledger, o, c, h, 0).Some?
    ensures var i := FirstReceipt(s.ledger, o, c, h, 0).value;
      (Inv(Recount(s, o, row, c, i, q)) <==>
        Reserved(s.lines, o, h, None) <= Stock(s.ledger, o, Some(h)) + q - s.ledger[i].qty) &&
      (forall d :: HasPlan(Recount(s, o, row, c, i, q).lines, d) <==> HasPlan(s.lines, d))
  {
    hide Inv, FirstReceipt, Synced, Covered, RowsOk, Matched, DraftsClean, TripsKnown, UniqueCodes;
    var i := FirstReceipt(s.ledger, o, c, h, 0).value;
    var r := Recount(s, o, row, c, i, q);
    var mid := r.(lines := s.lines);
    InvoicedUnplanned(s, i);
    RecountCovered(s, mid, o, i, q);
    RecountTrips(s, mid, o, row, q - s.ledger[i].qty);
    RecountRelined(s, o, row, c, i, q);
    if Covered(mid.ledger, s.lines) {
      RecountSynced(s, mid, o, row, i, q);
      Assembled(mid);
      LinesChangedKeepInv(mid, r, c);
    } else {
      StillUncovered(mid, r.lines, c);
      assert mid.(lines := r.lines) == r;
    }
  }

  lemma {:induction false} RecountSteady(g: Progress, row: Row, t: Tally, o: OrderId, c: Code, h: HubId, q: int)
    requires Steady(g, t) && IsLive(g.s.orders, o) && !DraftLike(g.s.orders[o].status) && 0 < q
    requires FirstReceipt(g.s.ledger, o, c, h, 0).Some?
    ensures var i := FirstReceipt(g.s.ledger, o, c, h, 0).value;
      Steady(Skip(g, Recount(g.s, o, row, c, i, q), o, c), t) <==>
        Reserved(g.s.lines, o, h, None) <= Stock(g.s.ledger, o, Some(h)) + q - g.s.ledger[i].qty
  {
    hide Inv, FirstReceipt, HasPlan;
    InvoicedUnplanned(g.s, FirstReceipt(g.s.ledger, o, c, h, 0).value);
    RecountKeepsInv(g.s, o, row, c, h, q);
  }

  /** A row nobody announced breaks the books when its total is negative, and the codes when its code is taken. */
  lemma {:induction false} NewRowUnsafe(g: Progress, row: Row, t: Tally)
    requires Steady(g, t) && FindRow(g.s, row).None? && !RowSafe(g, row, t)
    ensures ReceiveRow(g, row, t).Ok? && !Inv(ReceiveRow(g, row, t).value.s)
  {
    var o := g.s.nextOrder;
    var r := ReceiveRow(g, row, t).value.s;
    NotYet(g.s);
    SyncedAt(g.s, o);
    RowsKnown(g.s);
    assert r.orders == g.s.orders[o := NewContract(row, t.hub)] by { hide Inv, LinkLine, FindByCode; }
    var taken := FindByCode(g.s, row.code.GetOr(row.newCode));
    if taken.Some? {
      assert IsLive(r.orders, taken.value) && IsLive(r.orders, o) && r.orders[o].code == r.orders[taken.value].code;
    } else {
      assert r.ledger == g.s.ledger;
      assert !Synced(r.orders, r.ledger, o);
    }
  }

  /** One row keeps the loop sound exactly when it is safe. */
  lemma {:induction false} RowKeepsInv(g: Progress, row: Row, t: Tally)
    requires Steady(g, t) && ReceiveRow(g, row, t).Ok?
    ensures Steady(ReceiveRow(g, row, t).value, t) <==> RowSafe(g, row, t)
  {
    hide Inv, Link, FirstReceipt, Recount, CountLocked, FindRow, HasPlan;
    match FindRow(g.s, row)
    case None =>
      if RowSafe(g, row, t) { NewRowSafe(g, row, t); } else { NewRowUnsafe(g, row, t); }
    case Some(o) =>
      FoundLive(g.s, row);
      var order := g.s.orders[o];
      var trip := g.shared.OrElse(order.currentTrip);
      if EditableDraft(order, t) {
        AcceptedSafe(g, row, t, o);
      } else {
        var receipt := if trip.Some? && t.hub.Some? then FirstReceipt(g.s.ledger, o, trip.value, t.hub.value,
            0) else None;
        if receipt.Some? {
          var q := row.Counted().GetOr(0);
          ReceiptTrip(g.s, o, trip.value, t.hub.value);
          if t.superAdmin && q > 0 {
            ReceivedIsStored(g.s, o, trip.value, t.hub.value);
            RecountSteady(g, row, t, o, trip.value, t.hub.value, q);
          }
        } else {
          CountedSafe(g, row, t, o, trip, CountLocked(g.s, o, row, t.hub, trip).value);
        }
      }
  }

  lemma {:induction false} FoundLive(s: State, row: Row)
    ensures FindRow(s, row).Some? ==> IsLive(s.orders, FindRow(s, row).value)
  {
  }

  lemma {:induction false} ReceiptTrip(s: State, o: OrderId, c: Code, h: HubId)
    requires Inv(s) && FirstReceipt(s.ledger, o, c, h, 0).Some?
    ensures !HasPlan(s.lines, c)
  {
    InvoicedUnplanned(s, FirstReceipt(s.ledger, o, c, h, 0).value);
  }

  /** An order with a receipt is no draft. */
  lemma {:induction false} ReceivedIsStored(s: State, o: OrderId, c: Code, h: HubId)
    requires Inv(s) && IsLive(s.orders, o) && FirstReceipt(s.ledger, o, c, h, 0).Some?
    ensures !DraftLike(s.orders[o].status)
  {
    var i := FirstReceipt(s.ledger, o, c, h, 0).value;
    forall j | 0 <= j < |s.ledger| ensures 0 <= InboundOf(o)(s.ledger[j]) {
      assert TxOk(s.ledger[j], s.nextOrder);
    }
    SumBoundsTerms(s.ledger, InboundOf(o));
    assert TxOk(s.ledger[i], s.nextOrder);
    assert InboundOf(o)(s.ledger[i]) > 0;
    assert Synced(s.orders, s.ledger, o);
  }

  // ----- All rows, then the stops --------------------------------------------------------------

  /** Every row is safe at the moment the loop reaches it. */
  predicate RowsSafe(g: Progress, t: Tally, n: nat)
    requires n <= |t.rows|
    decreases n
  {
    n == 0 ||
    (RowsSafe(g, t, n - 1) &&
     (ReceiveRows(g, t, n - 1).Ok? ==> RowSafe(ReceiveRows(g, t, n - 1).value, t.rows[n - 1], t)))
  }

  lemma {:induction false} RowsKeepInv(g: Progress, t: Tally, n: nat)
    requires n <= |t.rows| && Steady(g, t) && RowsSafe(g, t, n) && ReceiveRows(g, t, n).Ok?
    ensures Steady(ReceiveRows(g, t, n).value, t)
    decreases n
  {
    hide Steady, RowSafe, ReceiveRow;
    if n > 0 {
      RowsKeepInv(g, t, n - 1);
      RowKeepsInv(ReceiveRows(g, t, n - 1).value, t.rows[n - 1], t);
    }
  }

  lemma {:induction false} LinesTakenOff(s: State, c: Code, hub: Option<HubId>, kept: seq<OrderId>)
    requires Inv(s)
    ensures Inv(s.(lines := TakeOff(s.lines, c, hub, kept)))
    ensures forall d :: HasPlan(TakeOff(s.lines, c, hub, kept), d) <==> HasPlan(s.lines, d)
  {
    var ls := TakeOff(s.lines, c, hub, kept);
    var r := s.(lines := ls);
    forall d ensures HasPlan(ls, d) <==> HasPlan(s.lines, d) {
      if HasPlan(s.lines, d) {
        var i :| 0 <= i < |s.lines| && IsPlanned(s.lines[i]) && s.lines[i].trip == Some(d);
        assert ls[i] == s.lines[i];
      }
    }
    forall o: OrderId, h: HubId, x: Option<Code> ensures Reserved(ls, o, h, x) == Reserved(s.lines, o, h, x) {
      SumPointwise(ls, ReservedAt(o, h, x), s.lines, ReservedAt(o, h, x));
    }
    forall o: OrderId, h: Option<HubId>, d: Code ensures Moving(ls, o, h, d) == Moving(s.lines, o, h, d) {
      SumPointwise(ls, MovingOn(o, h, d), s.lines, MovingOn(o, h, d));
    }
    forall i | 0 <= i < |ls| ensures LineOk(ls[i], s.ledger, s.nextOrder) {
      assert LineOk(s.lines[i], s.ledger, s.nextOrder);
    }
    forall o, d | Aboard(s.lines, o, d) ensures Aboard(ls, o, d) {
      var i :| 0 <= i < |s.lines| && OnTrip(s.lines[i], d) && s.lines[i].order == o && IsOutboundLine(s.lines[i].kind);
      assert ls[i] == s.lines[i];
    }
  }

  /** Rows that lose their current trip, or drafts that are removed. */
  lemma {:induction false} OrdersLetGo(s: State, r: State)
    requires Inv(s) && r == s.(orders := r.orders) && r.orders.Keys == s.orders.Keys
    requires forall o :: o in s.orders && r.orders[o] != s.orders[o] ==>
      (r.orders[o] == s.orders[o].(live := false) &&
        DraftLike(s.orders[o].status)) || r.orders[o] == s.orders[o].(currentTrip := None)
    ensures Inv(r)
  {
    forall o: OrderId ensures Synced(r.orders, r.ledger, o) {
      assert Synced(s.orders, s.ledger, o);
    }
    forall a, b | IsLive(r.orders, a) && IsLive(r.orders, b) && a != b ensures r.orders[a].code != r.orders[b].code {
      assert IsLive(s.orders, a) && IsLive(s.orders, b);
    }
    forall o | IsLive(r.orders, o) && r.orders[o].currentTrip.Some?
      ensures Aboard(r.lines, o, r.orders[o].currentTrip.value) && !HasPlan(r.lines, r.orders[o].currentTrip.value)
    {
      assert IsLive(s.orders, o) && s.orders[o].currentTrip == r.orders[o].currentTrip;
    }
  }

  /** Taking inbound lines off a trip, and the drafts that came only with it. */
  lemma {:induction false} SyncKeepsInv(s: State, c: Code, hub: Option<HubId>, kept: seq<OrderId>)
    requires Inv(s)
    ensures Inv(SyncRemoved(s, c, hub, kept))
    ensures forall d :: HasPlan(SyncRemoved(s, c, hub, kept).lines, d) <==> HasPlan(s.lines, d)
  {
    hide Inv, HasPlan, TakeOff, EverReceived;
    LinesTakenOff(s, c, hub, kept);
    OrdersLetGo(s.(lines := TakeOff(s.lines, c, hub, kept)), SyncRemoved(s, c, hub, kept));
  }

  lemma {:induction false} SyncSized(s: State, c: Code, hub: Option<HubId>, kept: seq<OrderId>)
    requires Sized(s.orders)
    ensures Sized(SyncRemoved(s, c, hub, kept).orders)
  {
  }

  lemma {:induction false} CloseStopsKeepInv(s: State, codes: seq<Code>, hub: HubId, keepPending: bool, n: nat)
    requires Inv(s) && n <= |codes| && forall i :: 0 <= i < |codes| ==> !HasPlan(s.lines, codes[i])
    ensures var r := CloseStops(s, codes, hub, keepPending, n);
      Inv(r) && r.orders == s.orders && forall d :: HasPlan(r.lines, d) <==> HasPlan(s.lines, d)
    decreases n
  {
    hide Inv, HasPlan;
    if n > 0 {
      CloseStopsKeepInv(s, codes, hub, keepPending, n - 1);
      CloseStopKeepsInv(CloseStops(s, codes, hub, keepPending, n - 1), codes[n - 1], hub, keepPending);
    }
  }

  lemma {:induction false} CloseStopKeepsInv(s: State, c: Code, hub: HubId, keepPending: bool)
    requires Inv(s) && !HasPlan(s.lines, c)
    ensures var r := CloseStop(s, c, hub, keepPending);
      Inv(r) && r.orders == s.orders && forall d :: HasPlan(r.lines, d) <==> HasPlan(s.lines, d)
  {
    var r := CloseStop(s, c, hub, keepPending);
    forall i | 0 <= i < |s.lines| && (IsPlanned(s.lines[i]) || IsPlanned(r.lines[i]))
      ensures s.lines[i] == r.lines[i]
    {}
    PlansKept(s.lines, r.lines, c);
    forall d | HasPlan(s.lines, d) ensures HasPlan(r.lines, d) {
      var i :| 0 <= i < |s.lines| && IsPlanned(s.lines[i]) && s.lines[i].trip == Some(d);
      assert r.lines[i] == s.lines[i];
    }
    forall o: OrderId, h: Option<HubId> ensures Moving(r.lines, o, h, c) == Moving(s.lines, o, h, c) {
      SumPointwise(r.lines, MovingOn(o, h, c), s.lines, MovingOn(o, h, c));
    }
    assert RowsOk(r) by {
      forall i | 0 <= i < |r.lines| ensures LineOk(r.lines[i], r.ledger, r.nextOrder) {
        assert LineOk(s.lines[i], s.ledger, s.nextOrder);
      }
    }
    assert DraftsClean(r.ledger, r.lines) by {
      forall d | HasPlan(r.lines, d) ensures NoInvoice(r.ledger, d) && AllDraftLines(r.lines, d) {
        forall i | 0 <= i < |r.lines| && OnTrip(r.lines[i], d) ensures IsDraftLine(r.lines[i]) {
          assert r.lines[i] == s.lines[i];
        }
      }
    }
    forall o | IsLive(r.orders, o) && r.orders[o].currentTrip.Some?
      ensures Aboard(r.lines, o, r.orders[o].currentTrip.value) && !HasPlan(r.lines, r.orders[o].currentTrip.value)
    {
      var d := r.orders[o].currentTrip.value;
      assert IsLive(s.orders, o);
      var i :| 0 <= i < |s.lines| && OnTrip(s.lines[i], d) && s.lines[i].order == o && IsOutboundLine(s.lines[i].kind);
      assert OnTrip(r.lines[i], d) && r.lines[i].order == o && IsOutboundLine(r.lines[i].kind);
    }
  }

  /** confirmInbound keeps the invariant when it names no outbound draft and every row is safe when it is reached. */
  lemma {:induction false} ReceiveKeepsInv(s: State, t: Tally)
    requires Inv(s) && Sized(s.orders) && Unplanned(s.lines, t.trip) && Unplanned(s.lines, t.plateCode)
    requires RowsSafe(Progress(s, t.trip, [], []), t, |t.rows|) && Receive(s, t).Ok?
    ensures Inv(Receive(s, t).value) && Sized(Receive(s, t).value.orders)
  {
    hide Inv, HasPlan, RowsSafe, ReceiveRows, SyncRemoved, CloseStops, Sized;
    RowsKeepInv(Progress(s, t.trip, [], []), t, |t.rows|);
    var g := ReceiveRows(Progress(s, t.trip, [], []), t, |t.rows|).value;
    var synced := g.s;
    if g.shared.Some? && |g.saved| > 0 && !t.keepPending {
      SyncKeepsInv(g.s, g.shared.value, t.hub, g.saved);
      SyncSized(g.s, g.shared.value, t.hub, g.saved);
      synced := SyncRemoved(g.s, g.shared.value, t.hub, g.saved);
    }
    if t.hub.Some? { CloseStopsKeepInv(synced, g.codes, t.hub.value, t.keepPending, |g.codes|); }
  }
}
