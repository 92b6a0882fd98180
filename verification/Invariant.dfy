/** What every reachable state of the warehouse satisfies. */
module Invariant {
  import opened Basics
  import opened Sums
  import opened Model
  import opened Dispatch
  import Partition

  /** At most one live order per code, so consolidation never has anything to merge. */
  ghost predicate UniqueCodes(orders: map<OrderId, Order>) {
    forall a, b :: IsLive(orders, a) && IsLive(orders, b) && a != b ==> orders[a].code != orders[b].code
  }

  /** The cached quantities are the ledger sums; a draft (or a removed order) has neither. */
  ghost predicate Synced(orders: map<OrderId, Order>, l: seq<Tx>, o: OrderId) {
    if IsLive(orders, o) && !DraftLike(orders[o].status) then
      orders[o].inbound == Inbound(l, o) && orders[o].outbound == Dispatched(l, o) &&
      orders[o].remaining == Inbound(l, o) - Dispatched(l, o)
    else
      Inbound(l, o) == 0 && Dispatched(l, o) == 0 &&
      (IsLive(orders, o) ==> orders[o].inbound == 0 && orders[o].outbound == 0 && orders[o].remaining == 0)
  }

  ghost predicate AllSynced(orders: map<OrderId, Order>, l: seq<Tx>) {
    forall o: OrderId :: Synced(orders, l, o)
  }

  /** Goods are never over-allocated: what is planned to leave a hub is in that hub's stock. */
  ghost predicate Covered(l: seq<Tx>, ls: seq<Line>) {
    (forall o: OrderId, h: HubId :: Reserved(ls, o, h, None) <= Stock(l, o, Some(h))) &&
    (forall o: OrderId :: 0 <= Stock(l, o, None))
  }

  /** The trip code has an outbound line that has not left. */
  predicate HasPlan(ls: seq<Line>, c: Code) {
    exists i :: 0 <= i < |ls| && IsPlanned(ls[i]) && ls[i].trip == Some(c)
  }

  predicate NoInvoice(l: seq<Tx>, c: Code) {
    forall i :: 0 <= i < |l| && l[i].live ==> l[i].trip != Some(c)
  }

  predicate AllDraftLines(ls: seq<Line>, c: Code) {
    forall i :: 0 <= i < |ls| && OnTrip(ls[i], c) ==> IsDraftLine(ls[i])
  }

  /** No trip code is both reserved and dispatched: a planned code has draft lines only and no invoice. */
  ghost predicate DraftsClean(l: seq<Tx>, ls: seq<Line>) {
    forall c :: HasPlan(ls, c) ==> NoInvoice(l, c) && AllDraftLines(ls, c)
  }

  predicate NothingReceived(l: seq<Tx>, c: Code) {
    forall i :: 0 <= i < |l| && l[i].live && l[i].trip == Some(c) ==> !l[i].kind.InboundTx?
  }

  /** Until something is received on a trip, the lines that left carry exactly what its invoices say. */
  ghost predicate Matched(l: seq<Tx>, ls: seq<Line>) {
    forall c, o: OrderId, h: Option<HubId> :: NothingReceived(l, c) ==> Moving(ls, o, h, c) == DispatchedVia(l, o, h, c)
  }

  ghost predicate TxOk(t: Tx, next: OrderId) {
    t.live ==> t.order < next && 0 < t.qty && !t.kind.AdjustmentTx?
  }

  ghost predicate LineOk(t: Line, l: seq<Tx>, next: OrderId) {
    t.live ==>
      (t.order < next &&
       (IsOutboundLine(t.kind) ==>
         t.trip.Some? && (NothingReceived(l, t.trip.value) ==> t.qty.Some? && 0 < t.qty.value)))
  }

  ghost predicate RowsOk(s: State) {
    (forall o :: o in s.orders ==> o < s.nextOrder) &&
    (forall i :: 0 <= i < |s.ledger| ==> TxOk(s.ledger[i], s.nextOrder)) &&
    (forall i :: 0 <= i < |s.lines| ==> LineOk(s.lines[i], s.ledger, s.nextOrder))
  }

  predicate Aboard(ls: seq<Line>, o: OrderId, c: Code) {
    exists i :: 0 <= i < |ls| && OnTrip(ls[i], c) && ls[i].order == o && IsOutboundLine(ls[i].kind)
  }

  /** A live order's current trip carries a line of it and is not a draft trip. */
  ghost predicate TripsKnown(orders: map<OrderId, Order>, ls: seq<Line>) {
    forall o :: IsLive(orders, o) && orders[o].currentTrip.Some? ==>
      Aboard(ls, o, orders[o].currentTrip.value) && !HasPlan(ls, orders[o].currentTrip.value)
  }

  ghost predicate Inv(s: State) {
    RowsOk(s) && UniqueCodes(s.orders) && AllSynced(s.orders, s.ledger) && Covered(s.ledger, s.lines) &&
    DraftsClean(s.ledger, s.lines) && Matched(s.ledger, s.lines) && TripsKnown(s.orders, s.lines)
  }

  lemma {:induction false} EmptyHolds()
    ensures Inv(EMPTY)
  {
  }

  // ----- First consequences --------------------------------------------------------------------

  lemma {:induction false} ReservedNonNegative(s: State, o: OrderId, h: HubId, except: Option<Code>)
    requires RowsOk(s) && DraftsClean(s.ledger, s.lines)
    ensures 0 <= Reserved(s.lines, o, h, except)
  {
    forall i | 0 <= i < |s.lines| ensures 0 <= ReservedAt(o, h, except)(s.lines[i]) {
      var t := s.lines[i];
      assert LineOk(t, s.ledger, s.nextOrder);
      if IsPlanned(t) {
        assert HasPlan(s.lines, t.trip.value);
      }
    }
    SumBoundsTerms(s.lines, ReservedAt(o, h, except));
  }

  lemma {:induction false} StockNonNegative(s: State, o: OrderId, h: Option<HubId>)
    requires Inv(s)
    ensures 0 <= Stock(s.ledger, o, h)
  {
    if h.Some? {
      ReservedNonNegative(s, o, h.value, None);
      assert Reserved(s.lines, o, h.value, None) <= Stock(s.ledger, o, Some(h.value));
    }
  }

  /** One hub's stock is never more than the order's remaining quantity. */
  lemma {:induction false} StockWithinRemaining(s: State, o: OrderId, h: Option<HubId>)
    requires Inv(s)
    ensures 0 <= Inbound(s.ledger, o) - Dispatched(s.ledger, o)
    ensures Stock(s.ledger, o, h) <= Inbound(s.ledger, o) - Dispatched(s.ledger, o)
  {
    forall k ensures 0 <= Stock(s.ledger, o, k) {
      StockNonNegative(s, o, k);
    }
    Partition.HubStockWithinOrder(s.ledger, o, h);
  }

  // ----- How the aggregates answer to one appended row -----------------------------------------

  lemma {:induction false} LedgerAppended(l: seq<Tx>, t: Tx)
    ensures forall o: OrderId :: Inbound(l + [t], o) == Inbound(l, o) + InboundOf(o)(t)
    ensures forall o: OrderId :: Dispatched(l + [t], o) == Dispatched(l, o) + DispatchedOf(o)(t)
    ensures forall o: OrderId, h: Option<HubId> :: Stock(l + [t], o, h) == Stock(l, o, h) + StockAt(o, h)(t)
    ensures forall o: OrderId, h: Option<HubId>, c: Code ::
      DispatchedVia(l + [t], o, h, c) == DispatchedVia(l, o, h, c) + DispatchedOn(o, h, c)(t)
  {
    forall o: OrderId ensures Inbound(l + [t], o) == Inbound(l, o) + InboundOf(o)(t) {
      SumSnoc(l, t, InboundOf(o));
    }
    forall o: OrderId ensures Dispatched(l + [t], o) == Dispatched(l, o) + DispatchedOf(o)(t) {
      SumSnoc(l, t, DispatchedOf(o));
    }
    forall o: OrderId, h: Option<HubId> ensures Stock(l + [t], o, h) == Stock(l, o, h) + StockAt(o, h)(t) {
      SumSnoc(l, t, StockAt(o, h));
    }
    forall o: OrderId, h: Option<HubId>, c: Code
      ensures DispatchedVia(l + [t], o, h, c) == DispatchedVia(l, o, h, c) + DispatchedOn(o, h, c)(t)
    {
      SumSnoc(l, t, DispatchedOn(o, h, c));
    }
  }

  lemma {:induction false} LineAppended(ls: seq<Line>, t: Line)
    ensures forall o: OrderId, h: HubId, x: Option<Code> ::
      Reserved(ls + [t], o, h, x) == Reserved(ls, o, h, x) + ReservedAt(o, h, x)(t)
    ensures forall o: OrderId, h: Option<HubId>, c: Code ::
      Moving(ls + [t], o, h, c) == Moving(ls, o, h, c) + MovingOn(o, h, c)(t)
  {
    forall o: OrderId, h: HubId, x: Option<Code>
      ensures Reserved(ls + [t], o, h, x) == Reserved(ls, o, h, x) + ReservedAt(o, h, x)(t)
    {
      SumSnoc(ls, t, ReservedAt(o, h, x));
    }
    forall o: OrderId, h: Option<HubId>, c: Code
      ensures Moving(ls + [t], o, h, c) == Moving(ls, o, h, c) + MovingOn(o, h, c)(t)
    {
      SumSnoc(ls, t, MovingOn(o, h, c));
    }
  }

  // ----- Line tables that agree on everything planned ------------------------------------------

  /** b keeps every planned line of a, adds none, and differs from a only in lines of trip c. */
  ghost predicate KeepsPlans(a: seq<Line>, b: seq<Line>, c: Code) {
    |a| <= |b| &&
    (forall i :: 0 <= i < |a| && (IsPlanned(a[i]) || IsPlanned(b[i])) ==> a[i] == b[i]) &&
    (forall i :: 0 <= i < |a| && a[i] != b[i] ==> a[i].trip == Some(c) && b[i].trip == Some(c)) &&
    (forall i :: |a| <= i < |b| ==> !IsPlanned(b[i]) && b[i].trip == Some(c))
  }

  lemma {:induction false} PlansKept(a: seq<Line>, b: seq<Line>, c: Code)
    requires KeepsPlans(a, b, c)
    ensures forall o: OrderId, h: HubId, x: Option<Code> :: Reserved(b, o, h, x) == Reserved(a, o, h, x)
    ensures forall o: OrderId, h: Option<HubId>, d: Code :: d != c ==> Moving(b, o, h, d) == Moving(a, o, h, d)
    ensures forall d: Code :: HasPlan(b, d) ==> HasPlan(a, d)
  {
    var front, rest := b[..|a|], b[|a|..];
    assert b == front + rest;
    forall o: OrderId, h: HubId, x: Option<Code> ensures Reserved(b, o, h, x) == Reserved(a, o, h, x) {
      SumConcat(front, rest, ReservedAt(o, h, x));
      SumPointwise(front, ReservedAt(o, h, x), a, ReservedAt(o, h, x));
      SumZero(rest, ReservedAt(o, h, x));
    }
    forall o: OrderId, h: Option<HubId>, d: Code | d != c ensures Moving(b, o, h, d) == Moving(a, o, h, d) {
      SumConcat(front, rest, MovingOn(o, h, d));
      SumPointwise(front, MovingOn(o, h, d), a, MovingOn(o, h, d));
      SumZero(rest, MovingOn(o, h, d));
    }
    forall d | HasPlan(b, d) ensures HasPlan(a, d) {
      var i :| 0 <= i < |b| && IsPlanned(b[i]) && b[i].trip == Some(d);
      assert i < |a|;
      assert a[i] == b[i];
    }
  }
}
