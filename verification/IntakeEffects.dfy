/** What one delivery does to the rows, told by what was sent: how much goes where. */
module IntakeEffects {
  import opened Basics
  import opened Sums
  import opened Model
  import opened Intake
  import opened BatchIntake
  import opened BatchLaws
  import opened Invariant
  import opened RequestLaws
  import opened InboundLaws

  /** The pieces of a parcel: the quantity sent when it is positive, otherwise one. */
  predicate Pieces(item: Arrival, q: int) {
    if item.qty.Some? && 0 < item.qty.value then q == item.qty.value else q == 1
  }

  /** Its weight and volume: those sent when they are not negative, otherwise nothing. */
  predicate Carries(item: Arrival, load: Load) {
    (if item.weight.Some? && 0.0 <= item.weight.value then load.weight == item.weight.value else load.weight == 0.0) &&
    (if item.volume.Some? && 0.0 <= item.volume.value then load.volume == item.volume.value else load.volume == 0.0)
  }

  /** Weight and volume of both, to three decimals. */
  predicate AddedUp(a: Load, b: Load, sum: Load) {
    sum == Load(Round3(a.weight + b.weight), Round3(a.volume + b.volume))
  }

  /** Only row o differs between the tables. */
  ghost predicate OnlyRow(a: map<OrderId, Order>, b: map<OrderId, Order>, o: OrderId) {
    b.Keys == a.Keys + {o} && forall x :: x in a && x != o ==> b[x] == a[x]
  }

  /** o is the row the delivery belongs to: the code's live row, or the next free one when the code has none. */
  ghost predicate Receives(s: State, code: Code, o: OrderId) {
    Numbered(s) && Single(s, code) &&
    if o == s.nextOrder then FindByCode(s, code).None? else IsLive(s.orders, o) && s.orders[o].code == code
  }

  lemma {:induction false} RowReceives(s: State, item: Arrival, hub: Option<HubId>, o: OrderId)
    requires Receives(s, item.code, o)
    ensures Book(s, item, hub).1 == o
  {
    hide Book;
    BookedAlone(s, item, hub);
  }

  /** A first delivery opens a row with the whole quantity, in stock unless it is only announced. */
  lemma {:induction false} FirstDelivery(s: State, item: Arrival, hub: Option<HubId>, trip: Option<Code>, q: int,
        load: Load)
    requires Receives(s, item.code, s.nextOrder) && Pieces(item, q) && Carries(item, load)
    ensures var r := QuickCreate(s, item, hub, trip); var o := s.nextOrder;
      OnlyRow(s.orders, r.orders, o) && r.nextOrder == o + 1 &&
      var now, stocked := r.orders[o], if item.status in {DRAFT, PENDING, WAITING} then 0 else q;
      now.live && now.code == item.code && now.status == item.status && now.load == load &&
      now.total == q && now.inbound == stocked && now.outbound == 0 && now.remaining == stocked &&
      now.originHub == hub && now.currentHub == hub && now.destHub == item.dest && now.currentTrip.None?
  {
    hide Book;
    BookedAlone(s, item, hub);
    RowReceives(s, item, hub, s.nextOrder);
  }

  /**
   * A further delivery under a code: an announced parcel adds its pieces to the total only, a real one to the total,
   * the receipts and the remaining quantity; the first real one on an announced row replaces what was announced.
   */
  lemma {:induction false} FurtherDelivery(s: State, item: Arrival, hub: Option<HubId>, trip: Option<Code>,
        o: OrderId, q: int, load: Load)
    requires Receives(s, item.code, o) && o != s.nextOrder && Pieces(item, q) && Carries(item, load)
    ensures var r := QuickCreate(s, item, hub, trip);
      OnlyRow(s.orders, r.orders, o) && r.nextOrder == s.nextOrder &&
      var was, now := s.orders[o], r.orders[o];
      var announced, wasAnnounced := item.status in {DRAFT, PENDING, WAITING}, was.status in {DRAFT, PENDING, WAITING};
      now.live && now.code == was.code && now.outbound == was.outbound && now.originHub == was.originHub &&
      now.currentTrip == was.currentTrip && now.destHub == (if was.destHub.Some? then was.destHub else item.dest) &&
      (announced ==>
        now.total == was.total + q && now.inbound == was.inbound && now.remaining == was.remaining &&
        AddedUp(was.load, load, now.load) && now.status == was.status && now.currentHub == was.currentHub) &&
      (!announced && wasAnnounced ==>
        now.total == q && now.inbound == q && now.remaining == q && now.load == load && now.status == item.status &&
        now.currentHub == hub) &&
      (!announced && !wasAnnounced ==>
        now.total == was.total + q && now.inbound == was.inbound + q && now.remaining == was.remaining + q &&
        AddedUp(was.load, load, now.load) && now.status == INBOUND && now.currentHub == hub)
  {
    hide Book;
    BookedAlone(s, item, hub);
    RowReceives(s, item, hub, o);
  }

  /** The receipt of a real delivery carries exactly the pieces; an announced one has none. */
  lemma {:induction false} DeliveryInvoiced(s: State, item: Arrival, hub: Option<HubId>, trip: Option<Code>,
        o: OrderId, q: int)
    requires Receives(s, item.code, o) && Pieces(item, q)
    ensures var r := QuickCreate(s, item, hub, trip);
      o in r.orders &&
      if item.status in {DRAFT, PENDING, WAITING} then r.ledger == s.ledger
      else
        |r.ledger| == |s.ledger| + 1 && r.ledger[..|s.ledger|] == s.ledger &&
        var t := r.ledger[|s.ledger|];
        t.live && t.order == o && t.kind.InboundTx? && t.hub == hub && t.trip == trip && t.qty == q &&
        t.expected == Some(q) && t.discrepancy == 0 && t.running == r.orders[o].remaining &&
        t.line == if trip.Some? then Some(|s.lines|) else None
    ensures var r := QuickCreate(s, item, hub, trip);
      var stocked := if item.status in {DRAFT, PENDING, WAITING} then 0 else q;
      Inbound(r.ledger, o) == Inbound(s.ledger, o) + stocked && Dispatched(r.ledger, o) == Dispatched(s.ledger, o) &&
      Stock(r.ledger, o, hub) == Stock(s.ledger, o, hub) + stocked
  {
    hide Book, Inbound, Dispatched, Stock;
    BookedAlone(s, item, hub);
    RowReceives(s, item, hub, o);
    var r := QuickCreate(s, item, hub, trip);
    if item.status !in {DRAFT, PENDING, WAITING} {
      assert r.ledger == s.ledger + [r.ledger[|s.ledger|]];
      LedgerAppended(s.ledger, r.ledger[|s.ledger|]);
    }
  }

  /**
   * On a vehicle, one line with the pieces joins the trip, and the hub's stop is done unless they are only announced.
   */
  lemma {:induction false} DeliveryLoaded(s: State, item: Arrival, hub: Option<HubId>, c: Code, o: OrderId, q: int)
    requires Receives(s, item.code, o) && Pieces(item, q)
    ensures var r := QuickCreate(s, item, hub, Some(c)); var announced := item.status in {DRAFT, PENDING, WAITING};
      o in r.orders && |r.lines| == |s.lines| + 1 && r.lines[..|s.lines|] == s.lines &&
      var t := r.lines[|s.lines|];
      t.live && t.order == o && t.trip == Some(c) && t.kind.InboundLine? && t.qty == Some(q) && t.origin == hub &&
      t.dest == r.orders[o].destHub && t.status == if announced then LinePending else LineCompleted
    ensures var r := QuickCreate(s, item, hub, Some(c)); var announced := item.status in {DRAFT, PENDING, WAITING};
      (forall k :: k in s.stops && (hub.None? || k != (c, hub.value)) ==> k in r.stops && r.stops[k] == s.stops[k]) &&
      (hub.Some? ==>
        (c, hub.value) in r.stops && r.stops[(c, hub.value)].live &&
        (r.stops[(c, hub.value)].status.StopPending? <==>
          announced && ((c, hub.value) in s.stops ==> s.stops[(c, hub.value)].status.StopPending?)))
  {
    hide Book;
    BookedAlone(s, item, hub);
    RowReceives(s, item, hub, o);
  }

  /** Without a vehicle neither trip lines nor stops move. */
  lemma {:induction false} DeliveryOnFoot(s: State, item: Arrival, hub: Option<HubId>, o: OrderId)
    requires Receives(s, item.code, o)
    ensures QuickCreate(s, item, hub, None).lines == s.lines && QuickCreate(s, item, hub, None).stops == s.stops
  {
    hide Book;
    BookedAlone(s, item, hub);
  }

  // ----- A batch -------------------------------------------------------------------------------

  lemma {:induction false} BalancesAre(orders: map<OrderId, Order>, ids: map<Code, OrderId>, metas: seq<Meta>,
        hub: Option<HubId>, trip: Code, base: nat)
    ensures forall i :: 0 <= i < |BatchTxs(orders, ids, metas, hub, trip, base)| ==>
      var t := BatchTxs(orders, ids, metas, hub, trip, base)[i];
      t.order in orders ==> t.running == orders[t.order].remaining
    decreases |metas|
  {
    if |metas| > 0 { BalancesAre(orders, ids, metas[..|metas| - 1], hub, trip, base); }
  }

  /** Every receipt of a batch stores the balance its order ends with, not the one after the receipt. */
  lemma {:induction false} BatchBalances(s: State, items: seq<Parcel>, hub: HubId, c: Code, i: nat)
    requires Unsplit(s, items) && |items| > 0
    ensures BatchCreate(s, items, Some(hub), c).Ok?
    ensures var r := BatchCreate(s, items, Some(hub), c).value;
      |s.ledger| <= |r.ledger| &&
      (|s.ledger| <= i < |r.ledger| && r.ledger[i].order in r.orders ==>
        r.ledger[i].running == r.orders[r.ledger[i].order].remaining)
  {
    hide PrepareAll, SaveOrders, Tidy, BatchTxs, BatchLines, UpsertStop, Looked, Single;
    var b := PrepareAll(s, items, Some(hub), |items|);
    PreparedMirrors(s, items, Some(hub), c, |items|);
    var (saved, ids) := SaveOrders(b.s, b.work, b.queue);
    BalancesAre(saved.orders, ids, b.metas, Some(hub), c, |b.s.lines|);
  }
}
