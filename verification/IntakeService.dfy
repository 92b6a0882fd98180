/** quickCreateInboundOrder and batchCreateInboundOrders on the tables. */
module IntakeService {
  import opened Basics
  import opened Sums
  import opened Model
  import opened Consolidation
  import opened Intake
  import opened BatchIntake
  import opened Tables
  import opened ConsolidateService

  /** The assignments both methods make to the row an item is booked on. */
  method BookOn(row: Order, item: Arrival, hub: Option<HubId>, dest: Option<HubId>) returns (r: Order)
    ensures r == Absorb(row, item, hub).(destHub := dest)
    ensures r.total >= item.Qty() || row.total < 0
  {
    r := row;
    var qty := item.Qty();
    var wasDraft := DraftLike(r.status);
    if wasDraft && !item.Draft() {
      r := r.(total := qty, inbound := qty, remaining := qty);
      r := r.(load := item.Goods());
      r := r.(status := item.status, currentHub := hub);
    } else {
      r := r.(total := r.total + qty);
      r := r.(load := AddLoad(r.load, item.Goods()));
      if !item.Draft() {
        r := r.(inbound := r.inbound + qty);
        r := r.(remaining := r.remaining + qty);
        r := r.(status := INBOUND, currentHub := hub);
      }
    }
    r := r.(destHub := dest);
  }

  method QuickCreateInbound(db: Database, item: Arrival, hub: Option<HubId>, trip: Option<Code>)
    modifies db
    ensures db.Rows() == QuickCreate(old(db.Rows()), item, hub, trip)
  {
    hide Siblings, Consolidate, Absorb, NonDrafts, UpsertStop;
    var siblings := SiblingsOf(db.Rows(), item.code);
    var o: OrderId;
    if |siblings| == 0 {
      o := db.InsertOrder(NewOrder(item, hub));
    } else {
      var active := ActiveRow(db.orders, siblings);
      SiblingsKnown(db.Rows(), item.code);
      var dest := db.orders[siblings[0]].destHub;
      if |siblings| > 1 {
        ConsolidateSiblings(db, active);
      }
      o := active;
      var row := BookOn(db.orders[o], item, hub, dest.OrElse(item.dest));
      db.SaveOrder(o, row);
    }
    var line: Option<nat> := None;
    if trip.Some? {
      var i := db.InsertLine(IntakeLine(o, item, hub, trip.value, db.orders[o].destHub));
      line := Some(i);
      if hub.Some? {
        db.UpsertTripStop(trip.value, hub.value, if item.Draft() then StopPending
          else StopCompleted, DestinationStop, 1);
      }
    }
    if !item.Draft() {
      db.InsertTx(ReceiptTx(o, item, hub, trip, line, db.orders[o].remaining));
    }
  }

  lemma {:induction false} SiblingsKnown(s: State, code: Code)
    ensures forall o :: o in SiblingsOf(s, code) ==> o in s.orders
    ensures |SiblingsOf(s, code)| > 0 ==> SiblingsOf(s, code)[0] in s.orders
  {
    if |SiblingsOf(s, code)| > 0 { assert SiblingsOf(s, code)[0] in SiblingsOf(s, code); }
  }

  // ----- The batch -----------------------------------------------------------------------------

  /** The rows with an id below n, grouped by code. */
  ghost predicate GroupedBelow(existing: map<Code, seq<OrderId>>, orders: map<OrderId, Order>, items: seq<Parcel>,
        n: nat)
  {
    forall c ::
      (if c in existing then existing[c] else []) == if Prefetched(items, c) then Siblings(orders, c, n) else []
  }

  function ListOf(existing: map<Code, seq<OrderId>>, code: Code): seq<OrderId> {
    if code in existing then existing[code] else []
  }

  lemma {:induction false} GroupNext(existing: map<Code, seq<OrderId>>, orders: map<OrderId, Order>,
        items: seq<Parcel>, o: OrderId)
    requires GroupedBelow(existing, orders, items, o)
    ensures GroupedBelow(if IsLive(orders, o) && Prefetched(items, orders[o].code)
                         then existing[orders[o].code := ListOf(existing, orders[o].code) + [o]] else existing,
                         orders, items, o + 1)
  {
    hide Prefetched;
    var next := if IsLive(orders, o) && Prefetched(items, orders[o].code)
                then existing[orders[o].code := ListOf(existing, orders[o].code) + [o]] else existing;
    forall c ensures ListOf(next, c) == if Prefetched(items, c) then Siblings(orders, c, o + 1) else [] {
      assert ListOf(existing, c) == if Prefetched(items, c) then Siblings(orders, c, o) else [];
    }
  }

  lemma {:induction false} NoneGrouped(orders: map<OrderId, Order>, items: seq<Parcel>)
    ensures GroupedBelow(map[], orders, items, 0)
  {
  }

  /** existingOrdersByCode: the rows fetched in one query, grouped by code in id order. */
  method Prefetch(s: State, items: seq<Parcel>) returns (existing: map<Code, seq<OrderId>>)
    ensures forall c :: Fetched(s, items, c) == if c in existing then existing[c] else []
  {
    existing := map[];
    NoneGrouped(s.orders, items);
    for o := 0 to s.nextOrder
      invariant GroupedBelow(existing, s.orders, items, o)
    {
      hide GroupedBelow, Siblings;
      GroupNext(existing, s.orders, items, o);
      if IsLive(s.orders, o) && Prefetched(items, s.orders[o].code) {
        var code := s.orders[o].code;
        var list := if code in existing then existing[code] else [];
        existing := existing[code := list + [o]];
      }
    }
  }

  /** One item of the loop: the entry it is booked on, consolidated first when the code was split. */
  method PrepareItem(db: Database, ghost b: Batch, known: Option<Entry>, fetched: seq<OrderId>, item: Arrival,
        hub: Option<HubId>)
    returns (entry: Entry)
    requires b.s == db.Rows() && forall o :: o in fetched ==> o in db.orders
    requires if item.code in b.work then known == Some(b.work[item.code]) else known.None?
    modifies db
    ensures Prepare(b, fetched, item, hub) ==
            Batch(db.Rows(), b.work[item.code := entry], if item.code in b.work then b.queue else b.queue + [item.code],
                  b.metas + [Meta(item, entry.row.destHub)])
  {
    hide Siblings, Consolidate, Absorb, NonDrafts;
    var activeEntry := known;
    if activeEntry.None? && |fetched| > 0 {
      var active := ActiveRow(db.orders, fetched);
      if |fetched| > 1 {
        ConsolidateSiblings(db, active);
      }
      activeEntry := Some(Entry(Some(active), db.orders[active]));
    }
    if activeEntry.Some? {
      var row := BookOn(activeEntry.value.row, item, hub, activeEntry.value.row.destHub.OrElse(item.dest));
      entry := Entry(activeEntry.value.id, row);
    } else {
      entry := Entry(None, NewOrder(item, hub));
    }
  }

  /** The in-memory loop over the items; only consolidations reach the tables. */
  method PrepareBatch(db: Database, items: seq<Parcel>, hub: Option<HubId>)
    returns (work: map<Code, Entry>, queue: seq<Code>, metas: seq<Meta>)
    modifies db
    ensures Batch(db.Rows(), work, queue, metas) == PrepareAll(old(db.Rows()), items, hub, |items|)
  {
    hide Prepare, Fetched;
    ghost var start := db.Rows();
    var existing := Prefetch(db.Rows(), items);
    work, queue, metas := map[], [], [];
    for i := 0 to |items|
      invariant Batch(db.Rows(), work, queue, metas) == PrepareAll(start, items, hub, i)
    {
      var code := items[i].item.code;
      assert forall o :: o in Fetched(start, items, code) ==> o in db.orders;
      var known := if code in work then Some(work[code]) else None;
      var entry := PrepareItem(db, Batch(db.Rows(), work, queue, metas), known, if code in existing
          then existing[code] else [], items[i].item, hub);
      if code !in work {
        queue := queue + [code];
      }
      work := work[code := entry];
      metas := metas + [Meta(items[i].item, entry.row.destHub)];
    }
  }

  /** orderRepo.save on the values of the working map. */
  method SaveAll(db: Database, work: map<Code, Entry>, queue: seq<Code>) returns (ids: map<Code, OrderId>)
    modifies db
    ensures (db.Rows(), ids) == SaveOrders(old(db.Rows()), work, queue)
  {
    ghost var start := db.Rows();
    ids := map[];
    for i := 0 to |queue|
      invariant (db.Rows(), ids) == SaveOrders(start, work, queue[..i])
    {
      assert queue[..i + 1][..i] == queue[..i];
      var code := queue[i];
      if code in work {
        var o: OrderId;
        if work[code].id.Some? {
          o := work[code].id.value;
          db.SaveOrder(o, work[code].row);
        } else {
          o := db.InsertOrder(work[code].row);
        }
        ids := ids[code := o];
      }
    }
    assert queue[..|queue|] == queue;
  }

  /** tripRepo.save on one row per item. */
  method SaveLines(db: Database, ids: map<Code, OrderId>, metas: seq<Meta>, hub: Option<HubId>, trip: Code)
    modifies db
    ensures db.Rows() == old(db.Rows()).(lines := old(db.lines) + BatchLines(ids, metas, hub, trip))
  {
    ghost var start := db.Rows();
    for i := 0 to |metas|
      invariant db.Rows() == start.(lines := start.lines + BatchLines(ids, metas[..i], hub, trip))
    {
      var o := if metas[i].item.code in ids then ids[metas[i].item.code] else 0;
      var _ := db.InsertLine(IntakeLine(o, metas[i].item, hub, trip, metas[i].dest));
      assert BatchLines(ids, metas[..i + 1], hub, trip) == BatchLines(ids, metas[..i], hub, trip) + [BatchLine(ids,
          metas[i], hub, trip)];
    }
    assert metas[..|metas|] == metas;
  }

  /** txRepo.save on one receipt per item that is no draft. */
  method SaveReceipts(db: Database, ids: map<Code, OrderId>, metas: seq<Meta>, hub: Option<HubId>, trip: Code,
        base: nat)
    modifies db
    ensures db.Rows() == old(db.Rows()).(ledger := old(db.ledger) + BatchTxs(db.orders, ids, metas, hub, trip, base))
  {
    ghost var start := db.Rows();
    for i := 0 to |metas|
      invariant db.Rows() == start.(ledger := start.ledger + BatchTxs(start.orders, ids, metas[..i], hub, trip, base))
    {
      assert metas[..i + 1][..i] == metas[..i];
      var item := metas[i].item;
      if !item.Draft() {
        var o := if item.code in ids then ids[item.code] else 0;
        db.InsertTx(ReceiptTx(o, item, hub, Some(trip), Some(base + i), if o in db.orders
          then db.orders[o].remaining else 0));
      }
    }
    assert metas[..|metas|] == metas;
  }

  method BatchCreateInbound(db: Database, items: seq<Parcel>, hub: Option<HubId>, trip: Code)
    returns (failure: Option<Error>)
    modifies db
    ensures Outcome(BatchCreate(old(db.Rows()), items, hub, trip), old(db.Rows()), db.Rows(), failure)
  {
    hide PrepareAll, SaveOrders, BatchLines, BatchTxs, UpsertStop;
    if |items| == 0 { return Some(Unprocessable); }
    if hub.None? { return Some(BadRequest); }
    ghost var start := db.Rows();
    var work, queue, metas := PrepareBatch(db, items, hub);
    ghost var b := Batch(db.Rows(), work, queue, metas);
    var base := |db.lines|;
    var ids := SaveAll(db, work, queue);
    SaveOrdersFrame(b.s, work, queue);
    SaveLines(db, ids, metas, hub, trip);
    if !AllDraft(items) {
      SaveReceipts(db, ids, metas, hub, trip, base);
    } else {
      MetasAre(start, items, hub, |items|);
      NoReceipts(db.orders, ids, metas, hub, trip, base);
    }
    db.UpsertTripStop(trip, hub.value, if AllDraft(items) then StopPending else StopCompleted, DestinationStop, 1);
    failure := None;
  }

  lemma {:induction false} SaveOrdersFrame(s: State, work: map<Code, Entry>, queue: seq<Code>)
    ensures var r := SaveOrders(s, work, queue).0; r == s.(orders := r.orders, nextOrder := r.nextOrder)
    decreases |queue|
  {
    if |queue| > 0 { SaveOrdersFrame(s, work, queue[..|queue| - 1]); }
  }
}
