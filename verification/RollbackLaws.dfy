/** Re-opening a dispatched trip. */
module RollbackLaws {
  import opened Basics
  import opened Sums
  import opened Model
  import opened Dispatch
  import opened Invariant

  predicate NothingAnnounced(ls: seq<Line>, c: Code) {
    forall i :: 0 <= i < |ls| && OnTrip(ls[i], c) ==> IsOutboundLine(ls[i].kind)
  }

  /** Every live dispatch invoice of the trip was issued by the operating hub (or none is given). */
  predicate DispatchedOnlyBy(l: seq<Tx>, c: Code, hub: Option<HubId>) {
    forall i :: 0 <= i < |l| && l[i].live && l[i].trip == Some(c) && IsDispatch(l[i].kind) ==> TakenBack(l[i], c, hub)
  }

  predicate HasOutboundLine(ls: seq<Line>, c: Code) {
    exists i :: 0 <= i < |ls| && OnTrip(ls[i], c) && IsOutboundLine(ls[i].kind)
  }

  predicate Reopenable(s: State, c: Code, hub: Option<HubId>) {
    NothingReceived(s.ledger, c) && NothingAnnounced(s.lines, c) && DispatchedOnlyBy(s.ledger, c, hub)
  }

  function TakenOf(o: OrderId, c: Code, hub: Option<HubId>): Tx -> int {
    (t: Tx) => if TakenBack(t, c, hub) && t.order == o then t.qty else 0
  }

  function Taken(l: seq<Tx>, o: OrderId, c: Code, hub: Option<HubId>): int {
    Sum(l, TakenOf(o, c, hub))
  }

  ghost predicate Positive(l: seq<Tx>) {
    forall i :: 0 <= i < |l| && l[i].live ==> 0 < l[i].qty
  }

  // ----- The order loop ------------------------------------------------------------------------

  lemma {:induction false} TakenPrefix(l: seq<Tx>, n: nat, o: OrderId, c: Code, hub: Option<HubId>)
    requires n <= |l| && Positive(l)
    ensures 0 <= Taken(l[..n], o, c, hub) <= Dispatched(l[..n], o)
    ensures Dispatched(l[..n], o) <= Dispatched(l, o)
  {
    var a, b := l[..n], l[n..];
    assert l == a + b;
    SumConcat(a, b, DispatchedOf(o));
    SumBoundsTerms(b, DispatchedOf(o));
    SumBoundsTerms(a, TakenOf(o, c, hub));
    SumCombine(a, DispatchedOf(o), a, TakenOf(o, c, hub), a, LeftOf(o, c, hub));
    SumBoundsTerms(a, LeftOf(o, c, hub));
  }

  lemma {:induction false} TakenStep(l: seq<Tx>, n: nat, o: OrderId, c: Code, hub: Option<HubId>)
    requires 0 < n <= |l|
    ensures Taken(l[..n], o, c, hub) == Taken(l[..n - 1], o, c, hub) + TakenOf(o, c, hub)(l[n - 1])
  {
    assert l[..n] == l[..n - 1] + [l[n - 1]];
    SumSnoc(l[..n - 1], l[n - 1], TakenOf(o, c, hub));
  }

  /** Dispatch rows the roll-back leaves alone. */
  function LeftOf(o: OrderId, c: Code, hub: Option<HubId>): Tx -> int {
    (t: Tx) => DispatchedOf(o)(t) - TakenOf(o, c, hub)(t)
  }

  lemma {:induction false} PutBackStep(orders: map<OrderId, Order>, l: seq<Tx>, c: Code, hub: Option<HubId>, n: nat,
        o: OrderId)
    requires 0 < n <= |l| && IsLive(orders, o)
    ensures var before := PutBackAll(orders, l, c, hub, n - 1)[o];
      PutBackAll(orders, l, c, hub, n)[o] ==
      if TakenBack(l[n - 1], c, hub) && l[n - 1].order == o then PutBack(before, l[n - 1], c) else before
  {
  }

  /** r is o with `back` units given back: no clamp fired on the way. */
  predicate GivenBack(o: Order, r: Order, back: int, c: Code) {
    if back == 0 then r == o
    else r == o.(outbound := o.outbound - back, remaining := o.remaining + back, status := INBOUND,
      currentHub := r.currentHub,
                 currentTrip := if o.currentTrip == Some(c) then None else o.currentTrip)
  }

  lemma {:induction false} GivenMore(o: Order, before: Order, back: nat, t: Tx, c: Code)
    requires GivenBack(o, before, back, c) && 0 < t.qty && back + t.qty <= o.outbound
    ensures GivenBack(o, PutBack(before, t, c), back + t.qty, c)
  {
  }

  /** The loop gives each live order back exactly the quantity its rows took; no clamp fires. */
  lemma {:induction false} PutBackAmounts(orders: map<OrderId, Order>, l: seq<Tx>, c: Code, hub: Option<HubId>,
        n: nat, o: OrderId)
    requires n <= |l| && Positive(l) && IsLive(orders, o) && Dispatched(l, o) <= orders[o].outbound
    ensures 0 <= Taken(l[..n], o, c, hub)
    ensures GivenBack(orders[o], PutBackAll(orders, l, c, hub, n)[o], Taken(l[..n], o, c, hub), c)
    decreases n
  {
    hide PutBackAll, PutBack, GivenBack, Dispatched, Taken, Positive;
    if n == 0 {
      NothingBack(orders, l, c, hub, o);
    } else {
      PositiveAt(l, n - 1);
      PutBackStep(orders, l, c, hub, n, o);
      PutBackAmounts(orders, l, c, hub, n - 1, o);
      TakenStep(l, n, o, c, hub);
      TakenPrefix(l, n, o, c, hub);
      if TakenBack(l[n - 1], c, hub) && l[n - 1].order == o {
        GivenMore(orders[o], PutBackAll(orders, l, c, hub, n - 1)[o], Taken(l[..n - 1], o, c, hub), l[n - 1], c);
      }
    }
  }

  lemma {:induction false} PositiveAt(l: seq<Tx>, i: nat)
    requires i < |l| && Positive(l)
    ensures l[i].live ==> 0 < l[i].qty
  {
  }

  lemma {:induction false} NothingBack(orders: map<OrderId, Order>, l: seq<Tx>, c: Code, hub: Option<HubId>, o: OrderId)
    requires o in orders
    ensures Taken(l[..0], o, c, hub) == 0 && GivenBack(orders[o], PutBackAll(orders, l, c, hub, 0)[o], 0, c)
  {
    assert l[..0] == [];
  }

  // ----- The ledger and the lines --------------------------------------------------------------

  lemma {:induction false} LedgerTakenBack(l: seq<Tx>, c: Code, hub: Option<HubId>)
    requires Positive(l)
    ensures forall o: OrderId :: Inbound(TakeBack(l, c, hub), o) == Inbound(l, o)
    ensures forall o: OrderId :: Dispatched(TakeBack(l, c, hub), o) == Dispatched(l, o) - Taken(l, o, c, hub)
    ensures forall o: OrderId, h: Option<HubId>, d: Code :: d != c ==>
      DispatchedVia(TakeBack(l, c, hub), o, h, d) == DispatchedVia(l, o, h, d)
  {
    var r := TakeBack(l, c, hub);
    forall o: OrderId
      ensures Inbound(r, o) == Inbound(l, o) && Dispatched(r, o) == Dispatched(l, o) - Taken(l, o, c, hub)
    {
      SumPointwise(r, InboundOf(o), l, InboundOf(o));
      SumCombine(l, DispatchedOf(o), r, DispatchedOf(o), l, TakenOf(o, c, hub));
    }
    forall o: OrderId, h: Option<HubId>, d: Code | d != c
      ensures DispatchedVia(r, o, h, d) == DispatchedVia(l, o, h, d)
    {
      SumPointwise(r, DispatchedOn(o, h, d), l, DispatchedOn(o, h, d));
    }
  }

  /** Stock comes back by exactly what was dispatched under the code. */
  lemma {:induction false} StockTakenBack(l: seq<Tx>, c: Code, hub: Option<HubId>)
    requires DispatchedOnlyBy(l, c, hub)
    ensures forall o: OrderId, h: Option<HubId> ::
      Stock(TakeBack(l, c, hub), o, h) == Stock(l, o, h) + DispatchedVia(l, o, h, c)
    ensures forall o: OrderId, h: Option<HubId> :: DispatchedVia(TakeBack(l, c, hub), o, h, c) == 0
  {
    var r := TakeBack(l, c, hub);
    forall o: OrderId, h: Option<HubId>
      ensures Stock(r, o, h) == Stock(l, o, h) + DispatchedVia(l, o, h, c) && DispatchedVia(r, o, h, c) == 0
    {
      SumCombine(r, StockAt(o, h), l, StockAt(o, h), l, DispatchedOn(o, h, c));
      SumZero(r, DispatchedOn(o, h, c));
    }
  }

  lemma {:induction false} LinesReopened(s: State, c: Code, hub: Option<HubId>)
    requires Inv(s) && NothingReceived(s.ledger, c)
    ensures var r := ReopenLines(s.lines, s.ledger, c, hub);
      (forall o: OrderId, h: HubId ::
        Reserved(r, o, h, None) == Reserved(s.lines, o, h, None) + Moving(s.lines, o, Some(h), c)) &&
      (forall o: OrderId, h: Option<HubId>, d: Code ::
        Moving(r, o, h, d) == if d == c then 0 else Moving(s.lines, o, h, d))
  {
    var r := ReopenLines(s.lines, s.ledger, c, hub);
    forall i | 0 <= i < |s.lines| && OnTrip(s.lines[i], c) && IsOutboundLine(s.lines[i].kind)
      ensures s.lines[i].qty.Some?
    {
      assert LineOk(s.lines[i], s.ledger, s.nextOrder);
    }
    forall o: OrderId, h: HubId
      ensures Reserved(r, o, h, None) == Reserved(s.lines, o, h, None) + Moving(s.lines, o, Some(h), c)
    {
      SumCombine(r, ReservedAt(o, h, None), s.lines, ReservedAt(o, h, None), s.lines, MovingOn(o, Some(h), c));
    }
    forall o: OrderId, h: Option<HubId>, d: Code
      ensures Moving(r, o, h, d) == if d == c then 0 else Moving(s.lines, o, h, d)
    {
      if d == c {
        SumZero(r, MovingOn(o, h, c));
      } else {
        SumPointwise(r, MovingOn(o, h, d), s.lines, MovingOn(o, h, d));
      }
    }
  }

  // ----- The invariant -------------------------------------------------------------------------

  lemma {:induction false} RowsPositive(s: State)
    requires RowsOk(s)
    ensures Positive(s.ledger)
  {
    forall i | 0 <= i < |s.ledger| && s.ledger[i].live ensures 0 < s.ledger[i].qty {
      assert TxOk(s.ledger[i], s.nextOrder);
    }
  }

  /** One live order after the loop: out by what was taken, in by the same; untouched when nothing was. */
  lemma {:induction false} OrderPutBack(s: State, c: Code, hub: Option<HubId>, o: OrderId)
    requires Inv(s) && IsLive(s.orders, o)
    ensures var r := RollbackOutbound(s, c, hub).orders[o]; var back := Taken(s.ledger, o, c, hub);
      0 <= back && r.inbound == s.orders[o].inbound && r.outbound == s.orders[o].outbound - back &&
      r.remaining == s.orders[o].remaining + back && r.total == s.orders[o].total &&
      r.status == (if back == 0 then s.orders[o].status else INBOUND) &&
      (r.currentTrip.Some? ==> r.currentTrip == s.orders[o].currentTrip && (back > 0 ==> r.currentTrip != Some(c)))
  {
    RowsPositive(s);
    assert Synced(s.orders, s.ledger, o);
    assert s.ledger[..|s.ledger|] == s.ledger;
    PutBackAmounts(s.orders, s.ledger, c, hub, |s.ledger|, o);
  }

  lemma {:induction false} OrderSynced(s: State, c: Code, hub: Option<HubId>, o: OrderId)
    requires Inv(s)
    ensures Synced(RollbackOutbound(s, c, hub).orders, RollbackOutbound(s, c, hub).ledger, o)
  {
    hide Reserved, Stock, Inbound, Dispatched, Moving, DispatchedVia, Taken, PutBackAll, TakeBack, ReopenLines,
        ReopenStops, GivenBack, ReleaseTrip;
    RowsPositive(s);
    LedgerTakenBack(s.ledger, c, hub);
    assert Synced(s.orders, s.ledger, o);
    assert s.ledger[..|s.ledger|] == s.ledger;
    TakenPrefix(s.ledger, |s.ledger|, o, c, hub);
    if IsLive(s.orders, o) {
      OrderPutBack(s, c, hub, o);
    }
  }

  lemma {:induction false} RollbackSynced(s: State, c: Code, hub: Option<HubId>)
    requires Inv(s)
    ensures AllSynced(RollbackOutbound(s, c, hub).orders, RollbackOutbound(s, c, hub).ledger)
    ensures UniqueCodes(RollbackOutbound(s, c, hub).orders)
  {
    var r := RollbackOutbound(s, c, hub);
    forall o: OrderId ensures Synced(r.orders, r.ledger, o) {
      OrderSynced(s, c, hub, o);
    }
    forall a, b | IsLive(r.orders, a) && IsLive(r.orders, b) && a != b ensures r.orders[a].code != r.orders[b].code {
      assert IsLive(s.orders, a) && IsLive(s.orders, b);
    }
  }

  lemma {:induction false} RollbackCovered(s: State, c: Code, hub: Option<HubId>)
    requires Inv(s) && Reopenable(s, c, hub)
    ensures var r := RollbackOutbound(s, c, hub);
      Covered(r.ledger, r.lines) &&
      (forall o: OrderId, h: HubId ::
        Stock(r.ledger, o, Some(h)) - Reserved(r.lines, o, h, None) ==
          Stock(s.ledger, o, Some(h)) - Reserved(s.lines, o, h, None))
  {
    StockTakenBack(s.ledger, c, hub);
    LinesReopened(s, c, hub);
    forall o: OrderId ensures 0 <= DispatchedVia(s.ledger, o, None, c) {
      forall i | 0 <= i < |s.ledger| ensures 0 <= DispatchedOn(o, None, c)(s.ledger[i]) {
        assert TxOk(s.ledger[i], s.nextOrder);
      }
      SumBoundsTerms(s.ledger, DispatchedOn(o, None, c));
    }
    forall o: OrderId, h: HubId
      ensures Moving(s.lines, o, Some(h), c) == DispatchedVia(s.ledger, o, Some(h), c) {}
  }

  lemma {:induction false} PlansAfterRollback(s: State, c: Code, hub: Option<HubId>)
    requires RowsOk(s)
    ensures forall d :: d != c ==>
      (HasPlan(ReopenLines(s.lines, s.ledger, c, hub), d) <==> HasPlan(s.lines, d))
  {
    var ls := ReopenLines(s.lines, s.ledger, c, hub);
    forall d | d != c ensures HasPlan(ls, d) <==> HasPlan(s.lines, d) {
      if HasPlan(s.lines, d) {
        var i :| 0 <= i < |s.lines| && IsPlanned(s.lines[i]) && s.lines[i].trip == Some(d);
        assert ls[i] == s.lines[i];
      }
    }
  }

  lemma {:induction false} RollbackClean(s: State, c: Code, hub: Option<HubId>)
    requires Inv(s) && Reopenable(s, c, hub)
    ensures var r := RollbackOutbound(s, c, hub);
      DraftsClean(r.ledger, r.lines) && Matched(r.ledger, r.lines) && NoInvoice(r.ledger, c) &&
        AllDraftLines(r.lines, c)
  {
    var r := RollbackOutbound(s, c, hub);
    PlansAfterRollback(s, c, hub);
    assert NoInvoice(r.ledger, c) by {
      forall i | 0 <= i < |r.ledger| && r.ledger[i].live ensures r.ledger[i].trip != Some(c) {
        assert TxOk(s.ledger[i], s.nextOrder);
      }
    }
    assert AllDraftLines(r.lines, c);
    forall d | HasPlan(r.lines, d) ensures NoInvoice(r.ledger, d) && AllDraftLines(r.lines, d) {
      if d != c {
        assert HasPlan(s.lines, d);
      }
    }
    StockTakenBack(s.ledger, c, hub);
    LinesReopened(s, c, hub);
    RowsPositive(s);
    LedgerTakenBack(s.ledger, c, hub);
    forall d, o: OrderId, h: Option<HubId> | NothingReceived(r.ledger, d)
      ensures Moving(r.lines, o, h, d) == DispatchedVia(r.ledger, o, h, d)
    {
      ReceiptsSurvive(s.ledger, c, hub, d);
    }
  }

  lemma {:induction false} ReceiptsSurvive(l: seq<Tx>, c: Code, hub: Option<HubId>, d: Code)
    ensures NothingReceived(TakeBack(l, c, hub), d) <==> NothingReceived(l, d)
  {
    var r := TakeBack(l, c, hub);
    if NothingReceived(r, d) {
      forall i | 0 <= i < |l| && l[i].live && l[i].trip == Some(d) ensures !l[i].kind.InboundTx? {
        assert r[i] == if TakenBack(l[i], c, hub) then l[i].(live := false) else l[i];
      }
    }
  }

  lemma {:induction false} RollbackRows(s: State, c: Code, hub: Option<HubId>)
    requires Inv(s)
    ensures RowsOk(RollbackOutbound(s, c, hub))
  {
    var r := RollbackOutbound(s, c, hub);
    forall i | 0 <= i < |r.ledger| ensures TxOk(r.ledger[i], r.nextOrder) {
      assert TxOk(s.ledger[i], s.nextOrder);
    }
    forall i | 0 <= i < |r.lines| ensures LineOk(r.lines[i], r.ledger, r.nextOrder) {
      assert LineOk(s.lines[i], s.ledger, s.nextOrder);
      if s.lines[i].trip.Some? {
        ReceiptsSurvive(s.ledger, c, hub, s.lines[i].trip.value);
      }
    }
  }

  lemma {:induction false} RollbackTrips(s: State, c: Code, hub: Option<HubId>)
    requires Inv(s)
    ensures TripsKnown(RollbackOutbound(s, c, hub).orders, RollbackOutbound(s, c, hub).lines)
    ensures forall o :: IsLive(s.orders, o) ==> RollbackOutbound(s, c, hub).orders[o].currentTrip != Some(c)
  {
    var r := RollbackOutbound(s, c, hub);
    PlansAfterRollback(s, c, hub);
    forall o | IsLive(r.orders, o) && r.orders[o].currentTrip.Some?
      ensures Aboard(r.lines, o, r.orders[o].currentTrip.value) && !HasPlan(r.lines, r.orders[o].currentTrip.value)
      ensures r.orders[o].currentTrip != Some(c)
    {
      var d := r.orders[o].currentTrip.value;
      OrderPutBack(s, c, hub, o);
      assert IsLive(s.orders, o) && s.orders[o].currentTrip == Some(d);
      var i :| 0 <= i < |s.lines| && OnTrip(s.lines[i], d) && s.lines[i].order == o && IsOutboundLine(s.lines[i].kind);
      assert OnTrip(r.lines[i], d) && r.lines[i].order == o && IsOutboundLine(r.lines[i].kind);
    }
  }

  lemma {:induction false} RollbackSafe(s: State, c: Code, hub: Option<HubId>)
    requires Inv(s) && Reopenable(s, c, hub)
    ensures Inv(RollbackOutbound(s, c, hub))
  {
    RollbackSynced(s, c, hub);
    RollbackCovered(s, c, hub);
    RollbackClean(s, c, hub);
    RollbackRows(s, c, hub);
    RollbackTrips(s, c, hub);
  }

  // ----- A trip that is outbound by its origin stop only ---------------------------------------

  lemma {:induction false} NoMovingLines(s: State, c: Code, o: OrderId, h: Option<HubId>)
    requires !HasOutboundLine(s.lines, c)
    ensures Moving(s.lines, o, h, c) == 0
  {
    forall i | 0 <= i < |s.lines| ensures MovingOn(o, h, c)(s.lines[i]) == 0 {
      assert OnTrip(s.lines[i], c) ==> !IsOutboundLine(s.lines[i].kind);
    }
    SumZero(s.lines, MovingOn(o, h, c));
  }

  /** Without an outbound line there is nothing to take back, unless something was received under the code. */
  lemma {:induction false} NothingToTake(s: State, c: Code, hub: Option<HubId>)
    requires Inv(s) && !HasOutboundLine(s.lines, c) && NothingReceived(s.ledger, c)
    ensures TakeBack(s.ledger, c, hub) == s.ledger
  {
    forall i | 0 <= i < |s.ledger| ensures !TakenBack(s.ledger[i], c, hub) {
      var t := s.ledger[i];
      NoMovingLines(s, c, t.order, t.hub);
      forall j | 0 <= j < |s.ledger| ensures 0 <= DispatchedOn(t.order, t.hub, c)(s.ledger[j]) {
        assert TxOk(s.ledger[j], s.nextOrder);
      }
      SumBoundsTerms(s.ledger, DispatchedOn(t.order, t.hub, c));
      assert DispatchedOn(t.order, t.hub, c)(t) <= 0;
      assert TxOk(t, s.nextOrder);
    }
  }

  function FreedAt(o: OrderId, h: Option<HubId>, c: Code, hub: Option<HubId>): Tx -> int {
    (t: Tx) => if TakenBack(t, c, hub) && t.order == o && t.hub == h then t.qty else 0
  }

  /** Whatever is taken back, no stock falls. */
  lemma {:induction false} StockRises(l: seq<Tx>, c: Code, hub: Option<HubId>, o: OrderId, h: Option<HubId>)
    requires Positive(l)
    ensures Stock(l, o, h) <= Stock(TakeBack(l, c, hub), o, h)
  {
    SumCombine(TakeBack(l, c, hub), StockAt(o, h), l, StockAt(o, h), l, FreedAt(o, h, c, hub));
    SumBoundsTerms(l, FreedAt(o, h, c, hub));
  }

  lemma {:induction false} OtherLinesReopened(s: State, c: Code, hub: Option<HubId>)
    requires !HasOutboundLine(s.lines, c)
    ensures var r := ReopenLines(s.lines, s.ledger, c, hub);
      (forall i :: 0 <= i < |s.lines| && IsOutboundLine(s.lines[i].kind) ==> r[i] == s.lines[i]) &&
      (forall o: OrderId, h: HubId, x: Option<Code> :: Reserved(r, o, h, x) == Reserved(s.lines, o, h, x)) &&
      (forall o: OrderId, h: Option<HubId>, d: Code :: Moving(r, o, h, d) == Moving(s.lines, o, h, d)) &&
      (forall d :: HasPlan(r, d) <==> HasPlan(s.lines, d))
  {
    var r := ReopenLines(s.lines, s.ledger, c, hub);
    forall i | 0 <= i < |s.lines| && IsOutboundLine(s.lines[i].kind) && s.lines[i].live ensures r[i] == s.lines[i] {
      assert !OnTrip(s.lines[i], c);
    }
    forall o: OrderId, h: HubId, x: Option<Code> ensures Reserved(r, o, h, x) == Reserved(s.lines, o, h, x) {
      SumPointwise(r, ReservedAt(o, h, x), s.lines, ReservedAt(o, h, x));
    }
    forall o: OrderId, h: Option<HubId>, d: Code ensures Moving(r, o, h, d) == Moving(s.lines, o, h, d) {
      SumPointwise(r, MovingOn(o, h, d), s.lines, MovingOn(o, h, d));
    }
    forall d ensures HasPlan(r, d) <==> HasPlan(s.lines, d) {
      if HasPlan(s.lines, d) {
        var i :| 0 <= i < |s.lines| && IsPlanned(s.lines[i]) && s.lines[i].trip == Some(d);
        assert r[i] == s.lines[i];
      }
    }
  }

  lemma {:induction false} StopOnlyCovered(s: State, c: Code, hub: Option<HubId>)
    requires Inv(s) && !HasOutboundLine(s.lines, c)
    ensures Covered(TakeBack(s.ledger, c, hub), ReopenLines(s.lines, s.ledger, c, hub))
    ensures Matched(TakeBack(s.ledger, c, hub), ReopenLines(s.lines, s.ledger, c, hub))
  {
    hide Reserved, Stock, Moving, DispatchedVia;
    var l, ls := TakeBack(s.ledger, c, hub), ReopenLines(s.lines, s.ledger, c, hub);
    RowsPositive(s);
    OtherLinesReopened(s, c, hub);
    LedgerTakenBack(s.ledger, c, hub);
    forall o: OrderId, h: Option<HubId> ensures Stock(s.ledger, o, h) <= Stock(l, o, h) {
      StockRises(s.ledger, c, hub, o, h);
    }
    forall d, o: OrderId, h: Option<HubId> | NothingReceived(l, d)
      ensures Moving(ls, o, h, d) == DispatchedVia(l, o, h, d)
    {
      ReceiptsSurvive(s.ledger, c, hub, d);
      if d == c { NothingToTake(s, c, hub); }
    }
  }

  lemma {:induction false} StopOnlyClean(s: State, c: Code, hub: Option<HubId>)
    requires Inv(s) && !HasOutboundLine(s.lines, c)
    ensures DraftsClean(TakeBack(s.ledger, c, hub), ReopenLines(s.lines, s.ledger, c, hub))
  {
    hide Reserved, Stock, Moving, DispatchedVia;
    var l, ls := TakeBack(s.ledger, c, hub), ReopenLines(s.lines, s.ledger, c, hub);
    OtherLinesReopened(s, c, hub);
    forall d | HasPlan(ls, d) ensures NoInvoice(l, d) && AllDraftLines(ls, d) {
      assert HasPlan(s.lines, d);
      forall i | 0 <= i < |ls| && OnTrip(ls[i], d) ensures IsDraftLine(ls[i]) {
        assert OnTrip(s.lines[i], d) && IsDraftLine(s.lines[i]);
      }
    }
  }

  lemma {:induction false} StopOnlySafe(s: State, c: Code, hub: Option<HubId>)
    requires Inv(s) && !HasOutboundLine(s.lines, c)
    ensures Inv(RollbackOutbound(s, c, hub))
  {
    hide Covered, Matched, DraftsClean, AllSynced, UniqueCodes, RowsOk, TripsKnown;
    RollbackSynced(s, c, hub);
    StopOnlyCovered(s, c, hub);
    StopOnlyClean(s, c, hub);
    RollbackRows(s, c, hub);
    RollbackTrips(s, c, hub);
  }

  /** With an outbound line and a condition unmet, the code ends up both reserved and invoiced (or announced). */
  lemma {:induction false} RollbackUnsafe(s: State, c: Code, hub: Option<HubId>)
    requires Inv(s) && HasOutboundLine(s.lines, c) && !Reopenable(s, c, hub)
    ensures !Inv(RollbackOutbound(s, c, hub))
  {
    var r := RollbackOutbound(s, c, hub);
    var k :| 0 <= k < |s.lines| && OnTrip(s.lines[k], c) && IsOutboundLine(s.lines[k].kind);
    assert IsPlanned(r.lines[k]) && r.lines[k].trip == Some(c);
    assert HasPlan(r.lines, c);
    if !NothingAnnounced(s.lines, c) {
      var i :| 0 <= i < |s.lines| && OnTrip(s.lines[i], c) && !IsOutboundLine(s.lines[i].kind);
      assert OnTrip(r.lines[i], c) && !IsDraftLine(r.lines[i]);
    } else {
      var i :| 0 <= i < |s.ledger| && s.ledger[i].live && s.ledger[i].trip == Some(c) &&
        !TakenBack(s.ledger[i], c, hub);
      assert r.ledger[i] == s.ledger[i];
    }
  }

  /**
   * The outbound roll-back of any trip keeps the invariant exactly when the trip has no outbound line, or nothing was
   * received or announced under its code and every dispatch invoice is the operating hub's.
   */
  lemma {:induction false} RollbackKeepsInv(s: State, c: Code, hub: Option<HubId>)
    requires Inv(s)
    ensures Inv(RollbackOutbound(s, c, hub)) <==> (HasOutboundLine(s.lines, c) ==> Reopenable(s, c, hub))
  {
    hide Inv, RollbackOutbound, Reopenable, HasOutboundLine;
    if !HasOutboundLine(s.lines, c) {
      StopOnlySafe(s, c, hub);
    } else if Reopenable(s, c, hub) {
      RollbackSafe(s, c, hub);
    } else {
      RollbackUnsafe(s, c, hub);
    }
  }
}
