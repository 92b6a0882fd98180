/** Intake and counted receipts keep the invariant. */
module InboundLaws {
  import opened Basics
  import opened Sums
  import opened Model
  import opened Consolidation
  import opened Dispatch
  import opened Invariant
  import opened Intake
  import opened Receiving
  import RequestLaws

  // ----- One order row saved, at most one receipt appended -------------------------------------

  predicate IsReceipt(t: Tx, o: OrderId) {
    t.live && t.order == o && t.kind.InboundTx? && 0 < t.qty
  }

  /** Row o is saved as `row`: its code is nobody else's, and it kept or lost its current trip. */
  ghost predicate Saves(s: State, r: State, o: OrderId) {
    o in r.orders && r.orders[o].live && r.orders == s.orders[o := r.orders[o]] &&
    s.nextOrder <= r.nextOrder && o < r.nextOrder && r.lines == s.lines &&
    (forall a :: IsLive(s.orders, a) && a != o ==> s.orders[a].code != r.orders[o].code) &&
    (r.orders[o].currentTrip.Some? ==> IsLive(s.orders, o) && s.orders[o].currentTrip == r.orders[o].currentTrip)
  }

  lemma {:induction false} OrderSavedKeepsInv(s: State, r: State, o: OrderId)
    requires Inv(s) && Saves(s, r, o) && r.ledger == s.ledger && Synced(r.orders, r.ledger, o)
    ensures Inv(r)
  {
    forall x: OrderId ensures Synced(r.orders, r.ledger, x) {
      assert Synced(s.orders, s.ledger, x);
    }
    assert RowsOk(r);
    assert UniqueCodes(r.orders) by {
      forall a, b | IsLive(r.orders, a) && IsLive(r.orders, b) && a != b ensures r.orders[a].code != r.orders[b].code {
        assert a != o ==> IsLive(s.orders, a);
        assert b != o ==> IsLive(s.orders, b);
      }
    }
    forall x | IsLive(r.orders, x) && r.orders[x].currentTrip.Some?
      ensures Aboard(r.lines, x, r.orders[x].currentTrip.value) && !HasPlan(r.lines, r.orders[x].currentTrip.value)
    {
      assert IsLive(s.orders, x);
    }
  }

  lemma {:induction false} ReceiptKeepsInv(s: State, r: State, o: OrderId, t: Tx)
    requires Inv(s) && Saves(s, r, o) && r.ledger == s.ledger + [t] && IsReceipt(t, o)
    requires t.trip.Some? ==> !HasPlan(s.lines, t.trip.value)
    requires Synced(r.orders, r.ledger, o)
    ensures Inv(r)
  {
    hide Reserved, Stock, Inbound, Dispatched, Moving, DispatchedVia;
    LedgerAppended(s.ledger, t);
    assert RowsOk(r) by {
      forall i | 0 <= i < |r.lines| ensures LineOk(r.lines[i], r.ledger, r.nextOrder) {
        assert LineOk(s.lines[i], s.ledger, s.nextOrder);
        if s.lines[i].trip.Some? { ReceiptAppended(s.ledger, t, s.lines[i].trip.value); }
      }
    }
    forall x: OrderId ensures Synced(r.orders, r.ledger, x) {
      assert Synced(s.orders, s.ledger, x);
    }
    assert UniqueCodes(r.orders) by {
      forall a, b | IsLive(r.orders, a) && IsLive(r.orders, b) && a != b ensures r.orders[a].code != r.orders[b].code {
        assert a != o ==> IsLive(s.orders, a);
        assert b != o ==> IsLive(s.orders, b);
      }
    }
    assert Covered(r.ledger, r.lines);
    assert Matched(r.ledger, r.lines) by {
      forall c, x: OrderId, h: Option<HubId> | NothingReceived(r.ledger, c)
        ensures Moving(r.lines, x, h, c) == DispatchedVia(r.ledger, x, h, c)
      {
        ReceiptAppended(s.ledger, t, c);
      }
    }
    forall x | IsLive(r.orders, x) && r.orders[x].currentTrip.Some?
      ensures Aboard(r.lines, x, r.orders[x].currentTrip.value) && !HasPlan(r.lines, r.orders[x].currentTrip.value)
    {
      assert IsLive(s.orders, x);
    }
  }

  lemma {:induction false} ReceiptAppended(l: seq<Tx>, t: Tx, c: Code)
    requires t.live && t.kind.InboundTx?
    ensures NothingReceived(l + [t], c) <==> NothingReceived(l, c) && t.trip != Some(c)
  {
    var r := l + [t];
    assert r[|l|] == t;
    if NothingReceived(r, c) {
      forall i | 0 <= i < |l| && l[i].live && l[i].trip == Some(c) ensures !l[i].kind.InboundTx? {
        assert r[i] == l[i];
      }
    }
  }

  // ----- Lines of one trip that carries no plan ------------------------------------------------

  /** Only lines of trip c change; none of them plans anything; nobody leaves the trip. */
  ghost predicate Relines(a: seq<Line>, b: seq<Line>, c: Code, next: OrderId) {
    |a| <= |b| &&
    (forall i :: 0 <= i < |a| && a[i] != b[i] ==>
      OnTrip(a[i], c) && OnTrip(b[i], c) && !IsPlanned(b[i]) && b[i].order == a[i].order && b[i].kind == a[i].kind) &&
    (forall i :: |a| <= i < |b| ==> OnTrip(b[i], c) && b[i].kind.InboundLine? && b[i].order < next)
  }

  /** Either something was received on the trip, or its outbound lines are as they were. */
  ghost predicate Harmless(s: State, r: State, c: Code) {
    !NothingReceived(s.ledger, c) ||
    (|s.lines| <= |r.lines| && forall i :: 0 <= i < |s.lines| && IsOutboundLine(s.lines[i].kind) ==>
      s.lines[i] == r.lines[i])
  }

  lemma {:induction false} LinesChangedKeepInv(s: State, r: State, c: Code)
    requires Inv(s) && r == s.(lines := r.lines) && Relines(s.lines, r.lines, c, s.nextOrder)
    requires !HasPlan(s.lines, c) && Harmless(s, r, c)
    ensures Inv(r) && forall d :: HasPlan(r.lines, d) <==> HasPlan(s.lines, d)
  {
    SamePlans(s, r, c);
    PlansKept(s.lines, r.lines, c);
    forall i | 0 <= i < |r.lines| ensures LineOk(r.lines[i], r.ledger, r.nextOrder) {
      if i < |s.lines| { assert LineOk(s.lines[i], s.ledger, s.nextOrder); }
    }
    assert DraftsClean(r.ledger, r.lines) by {
      forall d | HasPlan(r.lines, d) ensures NoInvoice(r.ledger, d) && AllDraftLines(r.lines, d) {
        forall i | 0 <= i < |r.lines| && OnTrip(r.lines[i], d) ensures IsDraftLine(r.lines[i]) {
          assert r.lines[i] == s.lines[i];
        }
      }
    }
    assert Matched(r.ledger, r.lines) by {
      forall d, o: OrderId, h: Option<HubId> | NothingReceived(r.ledger, d)
        ensures Moving(r.lines, o, h, d) == DispatchedVia(r.ledger, o, h, d)
      {
        if d == c { SameMoving(s.lines, r.lines, o, h, c); }
      }
    }
    forall o | IsLive(r.orders, o) && r.orders[o].currentTrip.Some?
      ensures Aboard(r.lines, o, r.orders[o].currentTrip.value) && !HasPlan(r.lines, r.orders[o].currentTrip.value)
    {
      var d := r.orders[o].currentTrip.value;
      var i :| 0 <= i < |s.lines| && OnTrip(s.lines[i], d) && s.lines[i].order == o && IsOutboundLine(s.lines[i].kind);
      assert OnTrip(r.lines[i], d) && r.lines[i].order == o && IsOutboundLine(r.lines[i].kind);
    }
  }

  lemma {:induction false} SamePlans(s: State, r: State, c: Code)
    requires Relines(s.lines, r.lines, c, s.nextOrder) && !HasPlan(s.lines, c)
    ensures KeepsPlans(s.lines, r.lines, c) && forall d :: HasPlan(s.lines, d) ==> HasPlan(r.lines, d)
  {
    forall i | 0 <= i < |s.lines| && (IsPlanned(s.lines[i]) || IsPlanned(r.lines[i]))
      ensures s.lines[i] == r.lines[i]
    {}
    forall d | HasPlan(s.lines, d) ensures HasPlan(r.lines, d) {
      var i :| 0 <= i < |s.lines| && IsPlanned(s.lines[i]) && s.lines[i].trip == Some(d);
      assert r.lines[i] == s.lines[i];
    }
  }

  lemma {:induction false} SameMoving(a: seq<Line>, b: seq<Line>, o: OrderId, h: Option<HubId>, c: Code)
    requires |a| <= |b|
    requires forall i :: 0 <= i < |a| && a[i] != b[i] ==> !IsOutboundLine(a[i].kind) && !IsOutboundLine(b[i].kind)
    requires forall i :: |a| <= i < |b| ==> !IsOutboundLine(b[i].kind)
    ensures Moving(b, o, h, c) == Moving(a, o, h, c)
  {
    var front, rest := b[..|a|], b[|a|..];
    assert b == front + rest;
    SumConcat(front, rest, MovingOn(o, h, c));
    SumPointwise(front, MovingOn(o, h, c), a, MovingOn(o, h, c));
    SumZero(rest, MovingOn(o, h, c));
  }

  // ----- quickCreateInboundOrder ---------------------------------------------------------------

  lemma {:induction false} CodesKnown(s: State)
    requires Inv(s)
    ensures RequestLaws.Numbered(s) && forall c :: RequestLaws.Single(s, c)
  {
    RequestLaws.CodesSingle(s);
  }

  lemma {:induction false} RowsKnown(s: State)
    requires Inv(s)
    ensures forall o :: o in s.orders ==> o < s.nextOrder
    ensures forall a, b :: IsLive(s.orders, a) && IsLive(s.orders, b) && a != b ==> s.orders[a].code != s.orders[b].code
  {
  }

  lemma {:induction false} ActiveAlone(orders: map<OrderId, Order>, o: OrderId)
    ensures ActiveRow(orders, [o]) == o
  {
    assert ActiveRow(orders, [o]) in [o];
  }

  /** For a code with at most one live row, booking touches one order row: the live one under the code, or a new one. */
  lemma {:induction false} BookedAlone(s: State, item: Arrival, hub: Option<HubId>)
    requires RequestLaws.Numbered(s) && RequestLaws.Single(s, item.code)
    ensures var (r, o) := Book(s, item, hub);
      o in r.orders && r == s.(orders := s.orders[o := r.orders[o]], nextOrder := r.nextOrder) &&
      if o == s.nextOrder
      then r.nextOrder == o + 1 && r.orders[o] == NewOrder(item, hub) && FindByCode(s, item.code).None?
      else r.nextOrder == s.nextOrder && IsLive(s.orders, o) && s.orders[o].code == item.code &&
           r.orders[o] == Absorb(s.orders[o], item, hub).(destHub := s.orders[o].destHub.OrElse(item.dest))
  {
    hide Absorb, NewOrder, Consolidate, ActiveRow, Siblings;
    var sibs := SiblingsOf(s, item.code);
    if |sibs| > 0 {
      assert sibs[0] in sibs;
      RequestLaws.SiblingsAlone(s, sibs[0]);
      ActiveAlone(s.orders, sibs[0]);
    }
  }

  lemma {:induction false} BookedSaves(s: State, item: Arrival, hub: Option<HubId>, r: State, o: OrderId)
    requires Inv(s) && Book(s, item, hub) == (r, o)
    ensures Saves(s, r, o) && r.ledger == s.ledger && r.stops == s.stops
  {
    hide Book, Inv;
    CodesKnown(s);
    RowsKnown(s);
    BookedAlone(s, item, hub);
    if o != s.nextOrder {
      forall a | IsLive(s.orders, a) && a != o ensures s.orders[a].code != r.orders[o].code {
        assert s.orders[a].code != s.orders[o].code;
      }
    }
  }

  lemma {:induction false} SyncedAt(s: State, o: OrderId)
    requires Inv(s)
    ensures Synced(s.orders, s.ledger, o)
  {
  }

  lemma {:induction false} BookedSynced(s: State, item: Arrival, hub: Option<HubId>, r: State, o: OrderId, t: Tx)
    requires Inv(s) && Book(s, item, hub) == (r, o)
    requires t.order == o && t.live && t.kind.InboundTx? && t.qty == item.Qty()
    ensures if item.Draft() then Synced(r.orders, s.ledger, o) else Synced(r.orders, s.ledger + [t], o)
  {
    hide Inv, Book, Inbound, Dispatched;
    CodesKnown(s);
    BookedAlone(s, item, hub);
    LedgerAppended(s.ledger, t);
    SyncedAt(s, o);
    if o == s.nextOrder { NotYet(s); }
  }

  lemma {:induction false} NotYet(s: State)
    requires Inv(s)
    ensures s.nextOrder !in s.orders
  {
  }

  /** The booked order and its receipt, before the trip is told. */
  lemma {:induction false} BookedKeepsInv(s: State, item: Arrival, hub: Option<HubId>, r: State, o: OrderId, t: Tx)
    requires Inv(s) && Book(s, item, hub) == (r, o) && (t.trip.Some? ==> !HasPlan(s.lines, t.trip.value))
    requires t.order == o && t.live && t.kind.InboundTx? && t.qty == item.Qty()
    ensures Inv(if item.Draft() then r else r.(ledger := r.ledger + [t]))
  {
    hide Book, Inv, Saves;
    BookedSaves(s, item, hub, r, o);
    BookedSynced(s, item, hub, r, o, t);
    SavesLedger(s, r, o, r.ledger + [t]);
    if item.Draft() { OrderSavedKeepsInv(s, r, o); } else { ReceiptKeepsInv(s, r.(ledger := r.ledger + [t]), o, t); }
  }

  lemma {:induction false} SavesLedger(s: State, r: State, o: OrderId, l: seq<Tx>)
    requires Saves(s, r, o)
    ensures Saves(s, r.(ledger := l), o) && r.lines == s.lines && o in r.orders && o < r.nextOrder
  {
  }

  lemma {:induction false} IntakeSafe(s: State, item: Arrival, hub: Option<HubId>, trip: Option<Code>)
    requires Inv(s) && (trip.Some? ==> !HasPlan(s.lines, trip.value))
    ensures Inv(QuickCreate(s, item, hub, trip))
    ensures forall d :: HasPlan(QuickCreate(s, item, hub, trip).lines, d) <==> HasPlan(s.lines, d)
  {
    hide Inv, Book, Saves, HasPlan;
    var (booked, o) := Book(s, item, hub);
    var t := ReceiptTx(o, item, hub, trip, if trip.Some? then Some(|s.lines|) else None, booked.orders[o].remaining);
    BookedKeepsInv(s, item, hub, booked, o, t);
    BookedSaves(s, item, hub, booked, o);
    SavesLedger(s, booked, o, booked.ledger);
    var mid := if item.Draft() then booked else booked.(ledger := booked.ledger + [t]);
    var r := QuickCreate(s, item, hub, trip);
    if trip.Some? {
      ReceivedNow(s.ledger, t, trip.value);
      LinesChangedKeepInv(mid, r.(stops := mid.stops), trip.value);
    }
    RequestLaws.StopsDoNotMatter(r.(stops := mid.stops), r);
  }

  lemma {:induction false} ReceivedNow(l: seq<Tx>, t: Tx, c: Code)
    requires t.live && t.kind.InboundTx? && t.trip == Some(c)
    ensures !NothingReceived(l + [t], c)
  {
    ReceiptAppended(l, t, c);
  }

  /** Receiving an order keeps the invariant exactly when the vehicle it comes on is not an outbound draft. */
  lemma {:induction false} IntakeKeepsInv(s: State, item: Arrival, hub: Option<HubId>, trip: Option<Code>)
    requires Inv(s)
    ensures Inv(QuickCreate(s, item, hub, trip)) <==> (trip.Some? ==> !HasPlan(s.lines, trip.value))
  {
    if trip.Some? && HasPlan(s.lines, trip.value) {
      var c, r := trip.value, QuickCreate(s, item, hub, trip);
      CodesKnown(s);
      BookedAlone(s, item, hub);
      var i :| 0 <= i < |s.lines| && IsPlanned(s.lines[i]) && s.lines[i].trip == Some(c);
      assert r.lines[i] == s.lines[i];
      assert HasPlan(r.lines, c);
      assert OnTrip(r.lines[|s.lines|], c) && !IsDraftLine(r.lines[|s.lines|]);
    } else {
      IntakeSafe(s, item, hub, trip);
    }
  }
}
