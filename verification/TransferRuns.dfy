/** Every run that is fair to an order conserves its goods. */
module TransferRuns {
  import opened Basics
  import opened Sums
  import opened Model
  import opened Intake
  import opened BatchIntake
  import opened BatchLaws
  import opened Dispatch
  import opened Receiving
  import opened Invariant
  import opened OutboundLaws
  import opened RequestLaws
  import opened RollbackLaws
  import opened InboundLaws
  import opened ReceiptLaws
  import opened RoundTrip
  import opened Runs
  import opened Transfers
  import opened Partition

  lemma {:induction false} HonestAppend(l: seq<Tx>, t: Tx, o: OrderId)
    requires Honest(l, o)
    ensures Honest(l + [t], o) <==> HonestRow(l, t, o)
  {
    var r := l + [t];
    assert r[..|l|] == l;
    forall i | 0 <= i < |l| ensures HonestRow(r[..i], r[i], o) {
      assert r[..i] == l[..i];
    }
  }

  // ----- Arrivals ------------------------------------------------------------------------------

  /** Goods booked on the order, off a vehicle loaded with that order, are exactly what is still on it. */
  ghost predicate FairArrival(s: State, item: Arrival, hub: Option<HubId>, trip: Option<Code>, o: OrderId) {
    Book(s, item, hub).1 == o && !item.Draft() && trip.Some? && 0 < Loaded(s.ledger, o, trip.value) ==>
      item.Qty() == InTransit(s.ledger, o, trip.value)
  }

  lemma {:induction false} ArrivalHonest(s: State, item: Arrival, hub: Option<HubId>, trip: Option<Code>, o: OrderId)
    requires Honest(s.ledger, o) && Numbered(s) && Single(s, item.code)
    ensures Honest(QuickCreate(s, item, hub, trip).ledger, o) <==> FairArrival(s, item, hub, trip, o)
  {
    hide Book, Honest, Loaded, Received;
    BookedAlone(s, item, hub);
    var (booked, x) := Book(s, item, hub);
    HonestAppend(s.ledger, ReceiptTx(x, item, hub, trip, if trip.Some? then Some(|s.lines|)
      else None, booked.orders[x].remaining), o);
  }

  /** Each of the first n items is fair when its turn comes. */
  ghost predicate FairItems(s: State, items: seq<Parcel>, hub: Option<HubId>, c: Code, n: nat, o: OrderId)
    requires n <= |items|
    decreases n
  {
    n == 0 ||
    (FairItems(s, items, hub, c, n - 1, o) &&
     FairArrival(OneByOne(s, items, hub, c, n - 1), items[n - 1].item, hub, Some(c), o))
  }

  lemma {:induction false} OneByOneHonest(s: State, items: seq<Parcel>, hub: Option<HubId>, c: Code, n: nat, o: OrderId)
    requires Inv(s) && Sized(s.orders) && !HasPlan(s.lines, c) && n <= |items| && Honest(s.ledger, o)
    requires FairItems(s, items, hub, c, n, o)
    ensures Honest(OneByOne(s, items, hub, c, n).ledger, o)
    decreases n
  {
    hide QuickCreate, Honest, Inv, HasPlan, Sized, FairArrival;
    if n > 0 {
      OneByOneHonest(s, items, hub, c, n - 1, o);
      OneByOneKeepsInv(s, items, hub, c, n - 1);
      var q := OneByOne(s, items, hub, c, n - 1);
      CodesKnown(q);
      ArrivalHonest(q, items[n - 1].item, hub, Some(c), o);
    }
  }

  lemma {:induction false} AlikeTrips(a: seq<Tx>, b: seq<Tx>, o: OrderId, c: Code)
    requires Alike(a, b)
    ensures Loaded(a, o, c) == Loaded(b, o, c) && Received(a, o, c) == Received(b, o, c)
  {
    SumPointwise(a, LoadedOn(o, c), b, LoadedOn(o, c));
    SumPointwise(a, ReceivedOn(o, c), b, ReceivedOn(o, c));
  }

  lemma {:induction false} AlikeHonest(a: seq<Tx>, b: seq<Tx>, o: OrderId)
    requires Alike(a, b) && Honest(b, o)
    ensures Honest(a, o)
  {
    forall i | 0 <= i < |a| ensures HonestRow(a[..i], a[i], o) {
      assert HonestRow(b[..i], b[i], o);
      assert Alike(a[..i], b[..i]);
      if a[i].trip.Some? { AlikeTrips(a[..i], b[..i], o, a[i].trip.value); }
    }
  }

  // ----- Dispatch ------------------------------------------------------------------------------

  lemma {:induction false} NothingReceivedOn(l: seq<Tx>, o: OrderId, c: Code)
    requires NothingReceived(l, c)
    ensures Received(l, o, c) == 0
  {
    SumZero(l, ReceivedOn(o, c));
  }

  lemma {:induction false} DispatchHonest(s: State, c: Code, plans: seq<Plan>, o: OrderId)
    requires Honest(s.ledger, o) && NothingReceived(s.ledger, c)
    requires forall i :: 0 <= i < |plans| ==> plans[i].order in s.orders && 0 < plans[i].qty
    ensures Honest(DispatchAll(s, c, plans).ledger, o) && NothingReceived(DispatchAll(s, c, plans).ledger, c)
    decreases |plans|
  {
    hide Honest, NothingReceived, AfterDispatch;
    if |plans| > 0 {
      var n := |plans| - 1;
      DispatchHonest(s, c, plans[..n], o);
      var before := DispatchAll(s, c, plans[..n]);
      var t := DispatchTx(c, plans[n], |before.lines|);
      NothingReceivedOn(before.ledger, o, c);
      HonestAppend(before.ledger, t, o);
      ReceiptsUntouched(before.ledger, t, c);
    }
  }

  lemma {:induction false} SendHonest(s: State, req: Request, o: OrderId)
    requires Inv(s) && Honest(s.ledger, o) && Sensible(s, req) && Confirm(s, req).Ok?
    ensures Honest(Confirm(s, req).value.ledger, o)
  {
    hide Inv, Confirm, Honest, PlanAll, HubsHoldRows, Discard, Ships, Shippable, Holds, Reservable;
    var clean, plans := DispatchAccepted(s, req);
    DraftDiscarded(s, req);
    PlansFit(clean, req, plans, true);
    DispatchHonest(clean, req.TripCode(), plans, o);
  }

  lemma {:induction false} PlanHonest(s: State, req: Request)
    requires Inv(s) && Sensible(s, req) && SaveDraft(s, req).Ok?
    ensures SaveDraft(s, req).value.ledger == s.ledger
  {
    hide Inv, SaveDraft, PlanAll;
    var clean, plans, origin := DraftSaved(s, req);
    DraftDiscarded(s, req);
    ReserveAllShape(clean, req.TripCode(), origin, plans);
  }

  // ----- Roll-back -----------------------------------------------------------------------------

  lemma {:induction false} TakenBackTrips(l: seq<Tx>, c: Code, hub: Option<HubId>, o: OrderId, d: Code)
    ensures d != c ==> Loaded(TakeBack(l, c, hub), o, d) == Loaded(l, o, d)
    ensures Received(TakeBack(l, c, hub), o, d) == Received(l, o, d)
  {
    if d != c { SumPointwise(TakeBack(l, c, hub), LoadedOn(o, d), l, LoadedOn(o, d)); }
    SumPointwise(TakeBack(l, c, hub), ReceivedOn(o, d), l, ReceivedOn(o, d));
  }

  /** Taking dispatch rows back is honest while nothing of the order was received on the trip. */
  lemma {:induction false} ReopenHonest(l: seq<Tx>, c: Code, hub: Option<HubId>, o: OrderId)
    requires Honest(l, o) && Positive(l) && Received(l, o, c) == 0
    ensures Honest(TakeBack(l, c, hub), o)
  {
    hide Loaded, Received;
    var r := TakeBack(l, c, hub);
    forall i | 0 <= i < |r| ensures HonestRow(r[..i], r[i], o) {
      assert HonestRow(l[..i], l[i], o);
      assert r[..i] == TakeBack(l[..i], c, hub);
      if r[i].trip.Some? { TakenBackTrips(l[..i], c, hub, o, r[i].trip.value); }
      if l[i].live && l[i].order == o && l[i].trip == Some(c) { NoReceiptAt(l, o, c, i); }
    }
  }

  lemma {:induction false} NoReceiptAt(l: seq<Tx>, o: OrderId, c: Code, i: nat)
    requires Positive(l) && Received(l, o, c) == 0 && i < |l| && l[i].live && l[i].order == o && l[i].trip == Some(c)
    ensures !l[i].kind.InboundTx?
  {
    SumBoundsTerms(l, ReceivedOn(o, c));
    assert ReceivedOn(o, c)(l[i]) <= 0;
  }

  // ----- Counted receipts ----------------------------------------------------------------------

  /** An order without stock was never loaded. */
  lemma {:induction false} DraftUnloaded(s: State, o: OrderId, c: Code)
    requires Inv(s) && (IsLive(s.orders, o) ==> DraftLike(s.orders[o].status))
    ensures Loaded(s.ledger, o, c) == 0
  {
    assert Synced(s.orders, s.ledger, o);
    forall i | 0 <= i < |s.ledger| ensures 0 <= LoadedOn(o, c)(s.ledger[i]) <= DispatchedOf(o)(s.ledger[i]) {
      assert TxOk(s.ledger[i], s.nextOrder);
    }
    SumBoundsTerms(s.ledger, DispatchedOf(o));
    SumBoundsTerms(s.ledger, LoadedOn(o, c));
    SumAtMost(s.ledger, LoadedOn(o, c), DispatchedOf(o));
  }

  lemma {:induction false} SumAtMost(l: seq<Tx>, f: Tx -> int, g: Tx -> int)
    requires forall i :: 0 <= i < |l| ==> f(l[i]) <= g(l[i])
    ensures Sum(l, f) <= Sum(l, g)
  {
    if |l| > 0 { SumAtMost(l[..|l| - 1], f, g); }
  }

  /** The trip Link writes the receipt for. */
  function TripOf(g: Progress, k: Counting, t: Tally): Option<Code> {
    k.trip.OrElse(g.shared.OrElse(t.plateCode))
  }

  /** A receipt off a trip loaded with the order: what the counter expected is what is still on the way. */
  predicate Expects(l: seq<Tx>, o: OrderId, trip: Option<Code>, qty: int, expected: Option<int>) {
    trip.Some? && 0 < Loaded(l, o, trip.value) ==> expected.GetOr(qty) == InTransit(l, o, trip.value)
  }

  lemma {:induction false} LinkHonest(g: Progress, k: Counting, row: Row, t: Tally, o: OrderId)
    requires Honest(k.s.ledger, o) && k.order in k.s.orders
    ensures Honest(Link(g, k, row, t).s.ledger, o) <==>
            (k.order == o && 0 < k.qty ==> Expects(k.s.ledger, o, TripOf(g, k, t), k.qty, k.expected))
  {
    hide Honest, LinkLine, Loaded, Received;
    if k.qty > 0 {
      var trip := TripOf(g, k, t);
      var line := if trip.Some? then Some(LinkLine(k.s, k.order, row, t, trip.value).1) else None;
      HonestAppend(k.s.ledger, CountTx(k, t.hub, trip, line, k.s.orders[k.order].remaining), o);
    }
  }

  /** The receipt of a locked contract that the row would re-count, if there is one. */
  function Earlier(g: Progress, o: OrderId, t: Tally): Option<nat>
    requires o in g.s.orders
  {
    var trip := g.shared.OrElse(g.s.orders[o].currentTrip);
    if trip.Some? && t.hub.Some? then FirstReceipt(g.s.ledger, o, trip.value, t.hub.value, 0) else None
  }

  /**
   * What a row must leave to the ledger: a re-count of a receipt off a loaded trip changes nothing, and a locked
   * contract counted off a trip loaded with it expects what is still on the way. Drafts and new rows are always fair.
   */
  predicate FairRow(g: Progress, row: Row, t: Tally, o: OrderId) {
    FindRow(g.s, row) == Some(o) && !EditableDraft(g.s.orders[o], t) ==>
      var l, trip, receipt := g.s.ledger, g.shared.OrElse(g.s.orders[o].currentTrip), Earlier(g, o, t);
      if receipt.Some? then
        var q := row.Counted().GetOr(0);
        t.superAdmin && 0 < q && 0 < Loaded(l, o, trip.value) ==> q == l[receipt.value].qty
      else
        var expected := row.expected.OrElse(OnTheWay(g.s, o, trip));
        Expects(l, o, trip.OrElse(t.plateCode), CountedQty(g.s.orders[o], row, expected), expected)
  }

  lemma {:induction false} NewRowHonest(g: Progress, row: Row, t: Tally, o: OrderId)
    requires Inv(g.s) && Honest(g.s.ledger, o) && FindRow(g.s, row).None?
    ensures ReceiveRow(g, row, t).Ok? && Honest(ReceiveRow(g, row, t).value.s.ledger, o)
  {
    hide Inv, Link, Honest, FindRow, Loaded;
    var x, made := g.s.nextOrder, NewContract(row, t.hub);
    var k := Counting(g.s.(orders := g.s.orders[x := made], nextOrder := x + 1), x, g.shared, made.inbound,
        Some(made.inbound));
    NotYet(g.s);
    if TripOf(g, k, t).Some? { DraftUnloaded(g.s, x, TripOf(g, k, t).value); }
    LinkHonest(g, k, row, t, o);
  }

  lemma {:induction false} AcceptedHonest(g: Progress, row: Row, t: Tally, x: OrderId, o: OrderId)
    requires Inv(g.s) && Honest(g.s.ledger, o) && FindRow(g.s, row) == Some(x) && EditableDraft(g.s.orders[x], t)
    ensures ReceiveRow(g, row, t).Ok? && Honest(ReceiveRow(g, row, t).value.s.ledger, o)
  {
    hide Inv, Link, Honest, FindRow, Loaded;
    var taken := Accepted(g.s, g.s.orders[x], row, t.hub);
    var k := Counting(g.s.(orders := g.s.orders[x := taken]), x, g.shared, taken.inbound, Some(taken.inbound));
    if TripOf(g, k, t).Some? { DraftUnloaded(g.s, x, TripOf(g, k, t).value); }
    LinkHonest(g, k, row, t, o);
  }

  lemma {:induction false} LoadsNeverFall(l: seq<Tx>, o: OrderId, c: Code, n: nat)
    requires Honest(l, o) && n <= |l|
    ensures 0 <= Loaded(l[..n], o, c) <= Loaded(l, o, c)
  {
    HonestPrefix(l, o, n);
    LoadedNonNegative(l[..n], o, c);
    assert l == l[..n] + l[n..];
    SumConcat(l[..n], l[n..], LoadedOn(o, c));
    forall i | 0 <= i < |l[n..]| ensures 0 <= LoadedOn(o, c)(l[n..][i]) {
      assert l[n..][i] == l[n + i];
      assert HonestRow(l[..n + i], l[n + i], o);
    }
    SumBoundsTerms(l[n..], LoadedOn(o, c));
  }

  /** Loading stops at the first receipt, so what a trip was loaded with it was loaded with before it. */
  lemma {:induction false} LoadedBefore(l: seq<Tx>, o: OrderId, c: Code, i: nat)
    requires Honest(l, o) && Positive(l) && i < |l| && l[i].live && l[i].order == o && l[i].trip == Some(c)
    requires l[i].kind.InboundTx?
    ensures Loaded(l[..i], o, c) == Loaded(l, o, c)
  {
    assert l == l[..i] + l[i..];
    SumConcat(l[..i], l[i..], LoadedOn(o, c));
    forall j | 0 <= j < |l[i..]| ensures LoadedOn(o, c)(l[i..][j]) == 0 {
      assert l[i..][j] == l[i + j];
      assert HonestRow(l[..i + j], l[i + j], o);
      if 0 < j { ReceivedByThen(l, o, c, i, i + j); }
    }
    SumZero(l[i..], LoadedOn(o, c));
  }

  lemma {:induction false} ReceivedByThen(l: seq<Tx>, o: OrderId, c: Code, i: nat, n: nat)
    requires Positive(l) && i < n <= |l| && l[i].live && l[i].order == o && l[i].trip == Some(c) && l[i].kind.InboundTx?
    ensures 0 < Received(l[..n], o, c)
  {
    SumBoundsTerms(l[..n], ReceivedOn(o, c));
    assert ReceivedOn(o, c)(l[..n][i]) == l[i].qty;
  }

  lemma {:induction false} RewrittenTrips(l: seq<Tx>, i: nat, q: int, o: OrderId, c: Code)
    requires i < |l| && l[i].kind.InboundTx?
    ensures Loaded(l[i := l[i].(qty := q)], o, c) == Loaded(l, o, c)
    ensures l[i].trip != Some(c) ==> Received(l[i := l[i].(qty := q)], o, c) == Received(l, o, c)
  {
    SumUpdate(l, i, l[i].(qty := q), LoadedOn(o, c));
    SumUpdate(l, i, l[i].(qty := q), ReceivedOn(o, c));
  }

  /** A receipt can be corrected exactly when it came off no loaded trip: its discrepancy is not corrected with it. */
  lemma {:induction false} RecountHonest(l: seq<Tx>, i: nat, q: int, o: OrderId, c: Code)
    requires Honest(l, o) && Positive(l) && i < |l| && l[i].live && l[i].trip == Some(c) && l[i].kind.InboundTx?
    requires 0 < q
    ensures Honest(l[i := l[i].(qty := q)], o) <==> (l[i].order == o && 0 < Loaded(l, o, c) ==> q == l[i].qty)
  {
    hide Loaded, Received;
    var r := l[i := l[i].(qty := q)];
    if l[i].order == o && 0 < Loaded(l, o, c) {
      LoadedBefore(l, o, c, i);
      assert r[..i] == l[..i];
      assert HonestRow(l[..i], l[i], o);
      if q == l[i].qty { assert r == l; } else { assert !HonestRow(r[..i], r[i], o); }
    } else {
      forall j | 0 <= j < |r| ensures HonestRow(r[..j], r[j], o) {
        CorrectedRow(l, i, q, o, c, j);
      }
    }
  }

  lemma {:induction false} CorrectedRow(l: seq<Tx>, i: nat, q: int, o: OrderId, c: Code, j: nat)
    requires Honest(l, o) && Positive(l) && i < |l| && l[i].live && l[i].trip == Some(c) && l[i].kind.InboundTx?
    requires 0 < q
    requires l[i].order == o ==> Loaded(l, o, c) <= 0
    requires j < |l|
    ensures HonestRow(l[i := l[i].(qty := q)][..j], l[i := l[i].(qty := q)][j], o)
  {
    hide Loaded, Received, Honest, Positive;
    var r := l[i := l[i].(qty := q)];
    HonestPrefix(l, o, j);
    PositiveAt(l, j);
    if j <= i {
      assert r[..j] == l[..j];
      if j == i && l[i].order == o { LoadsNeverFall(l, o, c, i); }
    } else {
      assert r[..j] == l[..j][i := l[i].(qty := q)];
      if l[j].trip.Some? {
        RewrittenTrips(l[..j], i, q, o, l[j].trip.value);
        OthersRewritten(l[..j], i, q, o, l[j].trip.value);
      }
      if l[i].order == o && l[j].trip == Some(c) {
        LoadsNeverFall(l, o, c, j);
        ReceivedByThen(l, o, c, i, j);
      }
    }
  }

  lemma {:induction false} OthersRewritten(l: seq<Tx>, i: nat, q: int, o: OrderId, c: Code)
    requires i < |l|
    ensures l[i].order != o ==> Received(l[i := l[i].(qty := q)], o, c) == Received(l, o, c)
  {
    SumUpdate(l, i, l[i].(qty := q), ReceivedOn(o, c));
  }

  /** One row keeps the order's history honest exactly when it is fair. */
  lemma {:induction false} RowHonest(g: Progress, row: Row, t: Tally, o: OrderId)
    requires Inv(g.s) && Honest(g.s.ledger, o) && ReceiveRow(g, row, t).Ok?
    ensures Honest(ReceiveRow(g, row, t).value.s.ledger, o) <==> FairRow(g, row, t, o)
  {
    hide Inv, Link, Honest, FindRow, FirstReceipt, CountedOrder, CountedQty, OnTheWay, Expects, Loaded, FirstLine;
    match FindRow(g.s, row)
    case None => NewRowHonest(g, row, t, o);
    case Some(x) =>
      FoundLive(g.s, row);
      if EditableDraft(g.s.orders[x], t) {
        AcceptedHonest(g, row, t, x, o);
      } else if Earlier(g, x, t).Some? {
        LedgerPositive(g.s);
        var q := row.Counted().GetOr(0);
        if t.superAdmin && 0 < q {
          RecountHonest(g.s.ledger, Earlier(g, x, t).value, q, o, g.shared.OrElse(g.s.orders[x].currentTrip).value);
        }
      } else {
        var trip := g.shared.OrElse(g.s.orders[x].currentTrip);
        LinkHonest(g, CountLocked(g.s, x, row, t.hub, trip).value, row, t, o);
      }
  }

  lemma {:induction false} LedgerPositive(s: State)
    requires Inv(s)
    ensures Positive(s.ledger)
  {
    RowsPositive(s);
  }

  predicate FairRows(g: Progress, t: Tally, n: nat, o: OrderId)
    requires n <= |t.rows|
    decreases n
  {
    n == 0 ||
    (FairRows(g, t, n - 1, o) &&
     (ReceiveRows(g, t, n - 1).Ok? ==> FairRow(ReceiveRows(g, t, n - 1).value, t.rows[n - 1], t, o)))
  }

  lemma {:induction false} RowsHonest(g: Progress, t: Tally, n: nat, o: OrderId)
    requires n <= |t.rows| && Steady(g, t) && RowsSafe(g, t, n) && ReceiveRows(g, t, n).Ok?
    requires Honest(g.s.ledger, o) && FairRows(g, t, n, o)
    ensures Honest(ReceiveRows(g, t, n).value.s.ledger, o)
    decreases n
  {
    hide Inv, RowSafe, ReceiveRow, Honest, FairRow;
    if n > 0 {
      RowsHonest(g, t, n - 1, o);
      RowsKeepInv(g, t, n - 1);
      RowHonest(ReceiveRows(g, t, n - 1).value, t.rows[n - 1], t, o);
    }
  }

  lemma {:induction false} CloseStopsLedger(s: State, codes: seq<Code>, hub: HubId, keepPending: bool, n: nat)
    requires n <= |codes|
    ensures CloseStops(s, codes, hub, keepPending, n).ledger == s.ledger
    decreases n
  {
    if n > 0 { CloseStopsLedger(s, codes, hub, keepPending, n - 1); }
  }

  lemma {:induction false} CountHonest(s: State, t: Tally, o: OrderId)
    requires Inv(s) && Sized(s.orders) && Unplanned(s.lines, t.trip) && Unplanned(s.lines, t.plateCode)
    requires RowsSafe(Progress(s, t.trip, [], []), t, |t.rows|) && Receive(s, t).Ok?
    requires Honest(s.ledger, o) && FairRows(Progress(s, t.trip, [], []), t, |t.rows|, o)
    ensures Honest(Receive(s, t).value.ledger, o)
  {
    hide Inv, HasPlan, RowsSafe, ReceiveRows, CloseStops, Sized, Honest, FairRows;
    RowsHonest(Progress(s, t.trip, [], []), t, |t.rows|, o);
    var g := ReceiveRows(Progress(s, t.trip, [], []), t, |t.rows|).value;
    var synced :=
      if g.shared.Some? && |g.saved| > 0 && !t.keepPending then SyncRemoved(g.s, g.shared.value, t.hub,
        g.saved) else g.s;
    if t.hub.Some? { CloseStopsLedger(synced, g.codes, t.hub.value, t.keepPending, |g.codes|); }
  }

  // ----- Whole runs ----------------------------------------------------------------------------

  /**
   * What the step must respect about one order: arrivals and receipts off a trip loaded with it take their expectation
   * from the ledger, and a trip without outbound lines is rolled back before anything of it was received.
   */
  ghost predicate Fair(s: State, step: Step, o: OrderId) {
    match step
    case Arrive(item, hub, trip) => FairArrival(s, item, hub, trip, o)
    case ArriveAll(items, hub, c) => BatchCreate(s, items, hub, c).Ok? ==> FairItems(s, items, hub, c, |items|, o)
    case Count(t) => Receive(s, t).Ok? ==> FairRows(Progress(s, t.trip, [], []), t, |t.rows|, o)
    case Reopen(c, hub) =>
      RollsBackOutbound(s, c, hub) && !HasOutboundLine(s.lines, c) ==> Received(s.ledger, o, c) == 0
    case _ => true
  }

  ghost predicate FairRun(s: State, steps: seq<Step>, o: OrderId)
    decreases |steps|
  {
    |steps| == 0 ||
    (FairRun(s, steps[..|steps| - 1], o) && Fair(Run(s, steps[..|steps| - 1]), steps[|steps| - 1], o))
  }

  lemma {:induction false} BatchHonest(s: State, items: seq<Parcel>, hub: Option<HubId>, c: Code, o: OrderId)
    requires Sound(s) && Honest(s.ledger, o) && !HasPlan(s.lines, c)
    requires BatchCreate(s, items, hub, c).Ok? && forall i :: 0 <= i < |items| ==> Looked(s, items, items[i].item.code)
    requires FairItems(s, items, hub, c, |items|, o)
    ensures Honest(BatchCreate(s, items, hub, c).value.ledger, o)
  {
    hide Inv, Sized, HasPlan, OneByOne, Commit, PrepareAll, Looked, Single, Numbered, Alike, Honest, FairItems;
    CodesKnown(s);
    BatchRefinesOneByOne(s, items, hub.value, c);
    OneByOneHonest(s, items, hub, c, |items|, o);
    AlikeHonest(BatchCreate(s, items, hub, c).value.ledger, OneByOne(s, items, hub, c, |items|).ledger, o);
  }

  lemma {:induction false} RollbackHonest(s: State, c: Code, hub: Option<HubId>, o: OrderId)
    requires Inv(s) && Honest(s.ledger, o)
    requires if HasOutboundLine(s.lines, c) then Reopenable(s, c, hub) else Received(s.ledger, o, c) == 0
    ensures Honest(RollbackOutbound(s, c, hub).ledger, o)
  {
    hide Inv, Honest, Received, HasOutboundLine, NothingReceived;
    LedgerPositive(s);
    if HasOutboundLine(s.lines, c) { NothingReceivedOn(s.ledger, o, c); }
    ReopenHonest(s.ledger, c, hub, o);
  }

  lemma {:induction false} StepHonest(s: State, step: Step, o: OrderId)
    requires Sound(s) && Admissible(s, step) && Fair(s, step, o) && Honest(s.ledger, o)
    ensures Honest(Apply(s, step).ledger, o)
  {
    hide Inv, SaveDraft, Confirm, Receive, QuickCreate, BatchCreate, RollbackOutbound, Sized, RowsSafe, Honest,
        DraftCovered, DispatchCovered, FairRows, FairItems, FairArrival, Received, HasOutboundLine, RollsBackOutbound,
        Reopenable, Sensible;
    match step
    case Arrive(item, hub, trip) =>
      CodesKnown(s);
      ArrivalHonest(s, item, hub, trip, o);
    case ArriveAll(items, hub, c) =>
      if BatchCreate(s, items, hub, c).Ok? { BatchHonest(s, items, hub, c, o); }
    case Count(t) =>
      if Receive(s, t).Ok? { CountHonest(s, t, o); }
    case Draft(req) =>
      if FoundIn(s, req) && SaveDraft(s, req).Ok? { PlanHonest(s, req); }
    case Send(req) =>
      if FoundIn(s, req) && Confirm(s, req).Ok? { SendHonest(s, req, o); }
    case Cancel(c, userHub) =>
    case Reopen(c, hub) =>
      if RollsBackOutbound(s, c, hub) { RollbackHonest(s, c, hub, o); }
  }

  lemma {:induction false} RunHonest(s: State, steps: seq<Step>, o: OrderId)
    requires Sound(s) && Honest(s.ledger, o) && AdmissibleRun(s, steps) && FairRun(s, steps, o)
    ensures Honest(Run(s, steps).ledger, o)
    decreases |steps|
  {
    hide Apply, Sound, Honest, Admissible, Fair;
    if |steps| > 0 {
      RunHonest(s, steps[..|steps| - 1], o);
      RunKeepsInv(s, steps[..|steps| - 1]);
      StepHonest(Run(s, steps[..|steps| - 1]), steps[|steps| - 1], o);
    }
  }

  /**
   * On every run that is fair to an order: its hub stock, its goods on trips and its goods delivered add up to the
   * original intake plus the recorded overage, whatever the run does to other orders.
   */
  lemma {:induction false} RunConservesGoods(steps: seq<Step>, o: OrderId, hubs: seq<Option<HubId>>, trips: seq<Code>)
    requires AdmissibleRun(EMPTY, steps) && FairRun(EMPTY, steps, o)
    requires NoDuplicates(hubs) && CoversHubs(Run(EMPTY, steps).ledger, o, hubs)
    requires NoDuplicates(trips) && CoversTrips(Run(EMPTY, steps).ledger, o, trips)
    ensures var l := Run(EMPTY, steps).ledger;
      Sum(hubs, HubStocks(l, o)) + Sum(trips, OnTrips(l, o)) + Delivered(l, o) == Intaken(l, o) + Overage(l, o)
  {
    hide Inv, Sized, Apply;
    var s := Reachable([]);
    RunHonest(EMPTY, steps, o);
    GoodsConserved(Run(EMPTY, steps).ledger, o, hubs, trips);
  }
}
