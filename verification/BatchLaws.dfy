/** Booking a vehicle as a batch is booking its items one by one. */
module BatchLaws {
  import opened Basics
  import opened Sums
  import opened Model
  import opened Consolidation
  import opened Intake
  import opened BatchIntake
  import opened RequestLaws
  import opened InboundLaws
  import opened Invariant
  import opened ReceiptLaws
  import opened Dispatch

  /** quickCreateInboundOrder for each of the first n items, on one vehicle. */
  function OneByOne(s: State, items: seq<Parcel>, hub: Option<HubId>, trip: Code, n: nat): State
    requires n <= |items|
    decreases n
  {
    if n == 0 then s else QuickCreate(OneByOne(s, items, hub, trip, n - 1), items[n - 1].item, hub, Some(trip))
  }

  // ----- Stops ---------------------------------------------------------------------------------

  function Joined(a: StopStatus, b: StopStatus): StopStatus {
    if a.StopCompleted? then a else b
  }

  /** Stopping twice at the same hub is stopping once with the further status, in either order. */
  lemma {:induction false} StopsJoin(stops: map<(Code, HubId), Stop>, c: Code, h: HubId, a: StopStatus, b: StopStatus,
        kind: StopType, position: nat)
    ensures UpsertStop(UpsertStop(stops, c, h, a, kind, position), c, h, b, kind, position) ==
            UpsertStop(stops, c, h, Joined(a, b), kind, position)
    ensures UpsertStop(UpsertStop(stops, c, h, a, kind, position), c, h, b, kind, position) ==
            UpsertStop(UpsertStop(stops, c, h, b, kind, position), c, h, a, kind, position)
  {
  }

  function StopOf(items: seq<Parcel>, n: nat): StopStatus
    requires n <= |items|
  {
    if AllDraft(items[..n]) then StopPending else StopCompleted
  }

  lemma {:induction false} StopsOneByOne(s: State, items: seq<Parcel>, hub: HubId, trip: Code, n: nat)
    requires 0 < n <= |items|
    ensures OneByOne(s, items, Some(hub), trip, n).stops == UpsertStop(s.stops, trip, hub, StopOf(items, n),
        DestinationStop, 1)
    decreases n
  {
    hide Book;
    var item := items[n - 1].item;
    BookKeepsStops(OneByOne(s, items, Some(hub), trip, n - 1), item, Some(hub));
    assert AllDraft(items[..n]) <==> AllDraft(items[..n - 1]) && item.Draft() by {
      assert items[..n][n - 1] == items[n - 1];
      assert forall i :: 0 <= i < n - 1 ==> items[..n][i] == items[..n - 1][i];
    }
    if n > 1 {
      StopsOneByOne(s, items, hub, trip, n - 1);
      StopsJoin(s.stops, trip, hub, StopOf(items, n - 1), if item.Draft() then StopPending
        else StopCompleted, DestinationStop, 1);
    } else {
      assert items[..0] == [];
    }
  }

  lemma {:induction false} BookKeepsStops(s: State, item: Arrival, hub: Option<HubId>)
    ensures Book(s, item, hub).0.stops == s.stops
  {
  }

  // ----- Saving the working map ----------------------------------------------------------------

  /** The queue lists the working map's codes once each; a fetched entry keeps its own row's code. */
  ghost predicate Tidy(s: State, work: map<Code, Entry>, queue: seq<Code>) {
    (forall i, j :: 0 <= i < j < |queue| ==> queue[i] != queue[j]) &&
    (forall i :: 0 <= i < |queue| ==>
      queue[i] in work && work[queue[i]].row.code == queue[i] && work[queue[i]].row.live) &&
    (forall i :: 0 <= i < |queue| && work[queue[i]].id.Some? ==>
      IsLive(s.orders, work[queue[i]].id.value) && s.orders[work[queue[i]].id.value].code == queue[i])
  }

  /** What saving does: each queued row is stored under its own id, every other row stays. */
  ghost predicate Stored(s: State, work: map<Code, Entry>, queue: seq<Code>, r: State, ids: map<Code, OrderId>) {
    r == s.(orders := r.orders, nextOrder := r.nextOrder) && s.nextOrder <= r.nextOrder && Numbered(r) &&
    (forall c :: c in ids <==> c in queue) &&
    (forall c :: c in ids ==>
      c in work && ids[c] in r.orders && r.orders[ids[c]] == work[c].row && work[c].row.code == c &&
                              (if work[c].id.Some? then ids[c] == work[c].id.value && ids[c] in s.orders &&
                                s.orders[ids[c]].code == c
                               else s.nextOrder <= ids[c])) &&
    (forall o :: o in s.orders ==> o in r.orders) &&
    (forall o :: o in r.orders ==> (o in s.orders && r.orders[o] == s.orders[o]) ||
                                   (r.orders[o].code in ids && ids[r.orders[o].code] == o))
  }

  lemma {:induction false} StoreOne(s: State, work: map<Code, Entry>, front: seq<Code>, code: Code, before: State,
        was: map<Code, OrderId>, o: OrderId)
    requires Stored(s, work, front, before, was) && Numbered(s) && code !in front && code in work
    requires work[code].row.code == code
    requires if work[code].id.Some? then o == work[code].id.value && o in s.orders && s.orders[o].code == code
        else o == before.nextOrder
    ensures Stored(s, work, front + [code],
                   before.(orders := before.orders[o := work[code].row],
                           nextOrder := if work[code].id.None? then before.nextOrder + 1 else before.nextOrder),
                   was[code := o])
  {
    var ids := was[code := o];
    assert forall c :: c in was ==> was[c] != o && ids[c] == was[c];
  }

  lemma {:induction false} QueueSaved(s: State, work: map<Code, Entry>, queue: seq<Code>)
    requires Tidy(s, work, queue) && Numbered(s)
    ensures Stored(s, work, queue, SaveOrders(s, work, queue).0, SaveOrders(s, work, queue).1)
    decreases |queue|
  {
    hide Stored;
    if |queue| == 0 {
      StoredNone(s, work);
    } else {
      var n := |queue| - 1;
      var (before, was) := SaveOrders(s, work, queue[..n]);
      QueueSaved(s, work, queue[..n]);
      assert queue == queue[..n] + [queue[n]];
      StoreOne(s, work, queue[..n], queue[n], before, was, work[queue[n]].id.GetOr(before.nextOrder));
    }
  }

  lemma {:induction false} StoredNone(s: State, work: map<Code, Entry>)
    requires Numbered(s)
    ensures Stored(s, work, [], s, map[])
  {
  }

  lemma {:induction false} SaveUntouched(s: State, work: map<Code, Entry>, queue: seq<Code>, code: Code, e: Entry)
    requires code !in queue
    ensures SaveOrders(s, work[code := e], queue) == SaveOrders(s, work, queue)
    decreases |queue|
  {
    if |queue| > 0 {
      SaveUntouched(s, work, queue[..|queue| - 1], code, e);
    }
  }

  lemma {:induction false} SaveStep(s: State, work: map<Code, Entry>, queue: seq<Code>)
    requires |queue| > 0 && queue[|queue| - 1] in work
    ensures var (before, was) := SaveOrders(s, work, queue[..|queue| - 1]);
      var code := queue[|queue| - 1]; var o := work[code].id.GetOr(before.nextOrder);
      SaveOrders(s, work, queue) ==
      (before.(orders := before.orders[o := work[code].row],
               nextOrder := if work[code].id.None? then before.nextOrder + 1 else before.nextOrder),
       was[code := o])
  {
  }

  /** Booking again on a queued entry moves only its own row. */
  lemma {:induction false} SaveAgain(s: State, work: map<Code, Entry>, queue: seq<Code>, code: Code, e: Entry)
    requires Tidy(s, work, queue) && Numbered(s) && code in queue && e.id == work[code].id
    ensures var (r, ids) := SaveOrders(s, work, queue);
      code in ids && SaveOrders(s, work[code := e], queue) == (r.(orders := r.orders[ids[code] := e.row]), ids)
    decreases |queue|
  {
    hide SaveOrders, Numbered, Stored;
    var n := |queue| - 1;
    var front, last := queue[..n], queue[n];
    var (before, was) := SaveOrders(s, work, front);
    var o := work[last].id.GetOr(before.nextOrder);
    SaveStep(s, work, queue);
    SaveStep(s, work[code := e], queue);
    QueueSaved(s, work, front);
    if last == code {
      SaveUntouched(s, work, front, code, e);
      assert before.orders[o := work[code].row][o := e.row] == before.orders[o := e.row];
    } else {
      assert code in front;
      StoredKey(s, work, front, before, was, code);
      SaveAgain(s, work, front, code, e);
      Apart(s, work, front, before, was, code, last, o);
      assert before.orders[was[code] := e.row][o := work[last].row] ==
          before.orders[o := work[last].row][was[code] := e.row];
    }
  }

  lemma {:induction false} StoredKey(s: State, work: map<Code, Entry>, queue: seq<Code>, r: State,
        ids: map<Code, OrderId>, code: Code)
    requires Stored(s, work, queue, r, ids) && code in queue
    ensures code in ids
  {
  }

  lemma {:induction false} Apart(s: State, work: map<Code, Entry>, front: seq<Code>, before: State,
        was: map<Code, OrderId>, code: Code, last: Code, o: OrderId)
    requires Stored(s, work, front, before, was) && Numbered(s) && code in was && last in work && last != code
    requires if work[last].id.Some? then o == work[last].id.value && o in s.orders && s.orders[o].code == last
        else o == before.nextOrder
    ensures was[code] != o
  {
  }

  // ----- Booking, in memory and in the tables --------------------------------------------------

  /** After some items: saving the batch now gives the order table the one-by-one calls have built. */
  ghost predicate Tracks(s: State, b: Batch, q: State) {
    b.s == s && Tidy(s, b.work, b.queue) && (forall c :: c in b.work ==> c in b.queue) && Numbered(q) &&
    (forall c :: c in b.work && b.work[c].id.None? ==> FindByCode(s, c).None?) &&
    q.orders == SaveOrders(s, b.work, b.queue).0.orders && q.nextOrder == SaveOrders(s, b.work, b.queue).0.nextOrder
  }

  /** The database may be asked about the code, or has never heard of it. */
  predicate Looked(s: State, items: seq<Parcel>, code: Code) {
    (exists i :: 0 <= i < |items| && items[i].given && items[i].item.code == code) || FindByCode(s, code).None?
  }

  lemma {:induction false} OneLookup(s: State, items: seq<Parcel>, code: Code)
    requires Numbered(s) && Single(s, code) && Looked(s, items, code)
    ensures FindByCode(s, code).None? ==>
      Fetched(s, items, code) == [] && forall o :: IsLive(s.orders, o) ==> s.orders[o].code != code
    ensures FindByCode(s, code).Some? ==> Fetched(s, items, code) == [FindByCode(s, code).value]
  {
    if FindByCode(s, code).Some? {
      SiblingsAlone(s, FindByCode(s, code).value);
    }
  }

  /** The one-by-one state has at most one live row per code, and finds the batch's entry or the fetched row. */
  lemma {:induction false} FoundAlike(s: State, b: Batch, q: State, code: Code)
    requires Numbered(s) && Single(s, code) && Tracks(s, b, q)
    ensures var ids := SaveOrders(s, b.work, b.queue).1;
      Single(q, code) &&
      (if code in b.work then code in ids && IsLive(q.orders, ids[code]) &&
        q.orders[ids[code]] == b.work[code].row && b.work[code].row.code == code
       else forall o :: IsLive(q.orders, o) && q.orders[o].code == code ==>
         IsLive(s.orders, o) && s.orders[o] == q.orders[o])
    ensures code !in b.work ==>
      forall o :: IsLive(s.orders, o) && s.orders[o].code == code ==> o in q.orders && q.orders[o] == s.orders[o]
  {
    hide SaveOrders;
    QueueSaved(s, b.work, b.queue);
    if code in b.work && b.work[code].id.None? {
      assert forall o :: IsLive(s.orders, o) ==> s.orders[o].code != code;
    }
  }

  /** Both sides booked one more item alike; `e` is the batch's new entry. */
  ghost predicate Follows(s: State, b: Batch, q: State, item: Arrival, next: Batch, r: State, o: OrderId) {
    Tracks(s, next, r) && r == q.(orders := r.orders, nextOrder := r.nextOrder) && o in r.orders &&
    item.code in next.work && r.orders[o] == next.work[item.code].row &&
    next.metas == b.metas + [Meta(item, r.orders[o].destHub)] &&
    SaveOrders(s, next.work, next.queue).1 == SaveOrders(s, b.work, b.queue).1[item.code := o] &&
    (item.code in b.work ==>
      item.code in SaveOrders(s, b.work, b.queue).1 && SaveOrders(s, b.work, b.queue).1[item.code] == o)
  }

  lemma {:induction false} BookedOnQueued(s: State, b: Batch, q: State, item: Arrival, hub: Option<HubId>,
        fetched: seq<OrderId>)
    requires Numbered(s) && Single(s, item.code) && Tracks(s, b, q) && item.code in b.work
    requires forall o :: o in fetched ==> o in b.s.orders
    ensures Follows(s, b, q, item, Prepare(b, fetched, item, hub), Book(q, item, hub).0, Book(q, item, hub).1)
  {
    hide SaveOrders, Book, Absorb, Siblings, Stored, NewOrder, ActiveRow, Consolidate;
    FoundAlike(s, b, q, item.code);
    BookedAlone(q, item, hub);
    SaveAgain(s, b.work, b.queue, item.code, Prepare(b, fetched, item, hub).work[item.code]);
    AbsorbKeeps(b.work[item.code].row, item, hub);
  }

  lemma {:induction false} AbsorbKeeps(o: Order, item: Arrival, hub: Option<HubId>)
    ensures Absorb(o, item, hub).code == o.code && Absorb(o, item, hub).live == o.live
    ensures NewOrder(item, hub).code == item.code
  {
  }

  lemma {:induction false} TidyGrows(s: State, work: map<Code, Entry>, queue: seq<Code>, code: Code, e: Entry)
    requires Tidy(s, work, queue) && code !in queue && e.row.code == code && e.row.live
    requires e.id.Some? ==> IsLive(s.orders, e.id.value) && s.orders[e.id.value].code == code
    ensures Tidy(s, work[code := e], queue + [code])
  {
  }

  /** A first booking under a code: on the fetched row, or on a new one. */
  lemma {:induction false} BookedFirst(s: State, b: Batch, q: State, item: Arrival, hub: Option<HubId>, e: Entry,
        next: Batch, r: State, o: OrderId)
    requires Numbered(s) && Tracks(s, b, q) && item.code !in b.work && item.code !in b.queue
    requires e.row.code == item.code && e.row.live
    requires next == Batch(s, b.work[item.code := e], b.queue + [item.code], b.metas + [Meta(item, e.row.destHub)])
    requires if e.id.Some?
             then o == e.id.value && IsLive(s.orders, o) && s.orders[o].code == item.code && r.nextOrder == q.nextOrder
             else o == q.nextOrder && r.nextOrder == q.nextOrder + 1 && FindByCode(s, item.code).None?
    requires r == q.(orders := q.orders[o := e.row], nextOrder := r.nextOrder) && o < r.nextOrder
    ensures Follows(s, b, q, item, next, r, o)
  {
    hide SaveOrders, SiblingsOf, FindByCode, Tidy;
    SaveUntouched(s, b.work, b.queue, item.code, e);
    assert next.queue[..|b.queue|] == b.queue;
    SaveStep(s, next.work, next.queue);
    TidyGrows(s, b.work, b.queue, item.code, e);
  }

  lemma {:induction false} Booked(s: State, items: seq<Parcel>, b: Batch, q: State, item: Arrival, hub: Option<HubId>)
    requires Numbered(s) && Single(s, item.code) && Looked(s, items, item.code) && Tracks(s, b, q)
    ensures Follows(s, b, q, item, Prepare(b, Fetched(s, items, item.code), item, hub), Book(q, item, hub).0,
        Book(q, item, hub).1)
  {
    hide SaveOrders, Book, Absorb, NewOrder, Siblings, Follows, FindByCode, Tidy;
    var fetched := Fetched(s, items, item.code);
    if item.code in b.work {
      BookedOnQueued(s, b, q, item, hub, fetched);
    } else {
      FoundAlike(s, b, q, item.code);
      OneLookup(s, items, item.code);
      BookedAlone(q, item, hub);
      var next := Prepare(b, fetched, item, hub);
      var (r, o) := Book(q, item, hub);
      NewIsLive(item, hub);
      if |fetched| > 0 {
        ActiveAlone(s.orders, fetched[0]);
        AbsorbKeeps(s.orders[fetched[0]], item, hub);
      }
      QueueIsWork(s, b, q);
      BookedFirst(s, b, q, item, hub, next.work[item.code], next, r, o);
    }
  }

  lemma {:induction false} QueueIsWork(s: State, b: Batch, q: State)
    requires Tracks(s, b, q)
    ensures forall c :: c in b.queue ==> c in b.work
  {
  }

  lemma {:induction false} NewIsLive(item: Arrival, hub: Option<HubId>)
    ensures NewOrder(item, hub).live && NewOrder(item, hub).code == item.code
    ensures NewOrder(item, hub).destHub == item.dest
  {
  }

  // ----- Lines and receipts --------------------------------------------------------------------

  /** The same invoices, up to the balance stored with each. */
  ghost predicate Alike(a: seq<Tx>, b: seq<Tx>) {
    |a| == |b| && forall i :: 0 <= i < |a| ==> a[i] == b[i].(running := a[i].running)
  }

  ghost predicate Agree(ids: map<Code, OrderId>, more: map<Code, OrderId>, metas: seq<Meta>) {
    forall i :: 0 <= i < |metas| ==> metas[i].item.code in ids && metas[i].item.code in more &&
                                     more[metas[i].item.code] == ids[metas[i].item.code]
  }

  lemma {:induction false} TxsAlike(a: map<OrderId, Order>, ids: map<Code, OrderId>, b: map<OrderId, Order>,
        more: map<Code, OrderId>, metas: seq<Meta>, hub: Option<HubId>, trip: Code, base: nat)
    requires Agree(ids, more, metas)
    ensures Alike(BatchTxs(a, ids, metas, hub, trip, base), BatchTxs(b, more, metas, hub, trip, base))
    decreases |metas|
  {
    if |metas| > 0 {
      TxsAlike(a, ids, b, more, metas[..|metas| - 1], hub, trip, base);
    }
  }

  ghost predicate Mirrors(s: State, b: Batch, q: State, hub: Option<HubId>, trip: Code) {
    Tracks(s, b, q) &&
    var ids := SaveOrders(s, b.work, b.queue).1;
    (forall i :: 0 <= i < |b.metas| ==> b.metas[i].item.code in ids && b.metas[i].item.code in b.work) &&
    q.lines == s.lines + BatchLines(ids, b.metas, hub, trip) &&
    Alike(q.ledger, s.ledger + BatchTxs(q.orders, ids, b.metas, hub, trip, |s.lines|))
  }

  lemma {:induction false} LinesGrow(ids: map<Code, OrderId>, more: map<Code, OrderId>, metas: seq<Meta>, m: Meta,
        hub: Option<HubId>, trip: Code)
    requires Agree(ids, more, metas)
    ensures BatchLines(more, metas + [m], hub, trip) == BatchLines(ids, metas, hub, trip) + [BatchLine(more, m,
        hub, trip)]
  {
  }

  lemma {:induction false} ReceiptsGrow(l: seq<Tx>, a: map<OrderId, Order>, ids: map<Code, OrderId>,
        b: map<OrderId, Order>, more: map<Code, OrderId>, metas: seq<Meta>, m: Meta, hub: Option<HubId>, trip: Code,
        base: nat, ledger: seq<Tx>, running: int)
    requires Agree(ids, more, metas) && m.item.code in more
    requires Alike(ledger, l + BatchTxs(a, ids, metas, hub, trip, base))
    ensures Alike(if m.item.Draft() then ledger
                  else ledger + [ReceiptTx(more[m.item.code], m.item, hub, Some(trip), Some(base + |metas|), running)],
                  l + BatchTxs(b, more, metas + [m], hub, trip, base))
  {
    TxsAlike(a, ids, b, more, metas, hub, trip, base);
    assert (metas + [m])[..|metas|] == metas;
  }

  /** Recording keeps the tables alike. */
  lemma {:induction false} Recorded(s: State, b: Batch, q: State, item: Arrival, hub: Option<HubId>, trip: Code,
        next: Batch, r: State, o: OrderId)
    requires Numbered(s) && Mirrors(s, b, q, hub, trip) && Follows(s, b, q, item, next, r, o)
    ensures Mirrors(s, next, Record(r, o, item, hub, Some(trip)), hub, trip)
  {
    hide SaveOrders, Tidy, BatchLines, BatchTxs, FindByCode, Alike, Numbered, UpsertStop;
    var ids, more := SaveOrders(s, b.work, b.queue).1, SaveOrders(s, next.work, next.queue).1;
    var m := Meta(item, r.orders[o].destHub);
    InWork(s, b, q, next, r);
    LinesGrow(ids, more, b.metas, m, hub, trip);
    LinesLength(ids, b.metas, hub, trip);
    ReceiptsGrow(s.ledger, q.orders, ids, r.orders, more, b.metas, m, hub, trip, |s.lines|, q.ledger,
      r.orders[o].remaining);
    assert s.lines + BatchLines(ids, b.metas, hub, trip) + [BatchLine(more, m, hub, trip)] ==
           s.lines + (BatchLines(ids, b.metas, hub, trip) + [BatchLine(more, m, hub, trip)]);
    SavedTracks(s, next, r, Record(r, o, item, hub, Some(trip)));
  }

  lemma {:induction false} SavedTracks(s: State, b: Batch, q: State, r: State)
    requires Tracks(s, b, q) && r.orders == q.orders && r.nextOrder == q.nextOrder
    ensures Tracks(s, b, r)
  {
  }

  lemma {:induction false} LinesLength(ids: map<Code, OrderId>, metas: seq<Meta>, hub: Option<HubId>, trip: Code)
    ensures |BatchLines(ids, metas, hub, trip)| == |metas|
  {
  }

  lemma {:induction false} InWork(s: State, b: Batch, q: State, next: Batch, r: State)
    requires Tracks(s, b, q) && Tracks(s, next, r) && Numbered(s)
    ensures forall c :: c in SaveOrders(s, b.work, b.queue).1 <==> c in b.work
    ensures forall c :: c in SaveOrders(s, next.work, next.queue).1 <==> c in next.work
  {
    QueueSaved(s, b.work, b.queue);
    QueueSaved(s, next.work, next.queue);
  }

  // ----- The whole vehicle ---------------------------------------------------------------------

  /** Every code of the request has at most one live row, and a code the generator made has none. */
  ghost predicate Unsplit(s: State, items: seq<Parcel>) {
    Numbered(s) && forall i :: 0 <= i < |items| ==>
      Single(s, items[i].item.code) && Looked(s, items, items[i].item.code)
  }

  lemma {:induction false} PreparedMirrors(s: State, items: seq<Parcel>, hub: Option<HubId>, trip: Code, n: nat)
    requires Unsplit(s, items) && n <= |items|
    ensures Mirrors(s, PrepareAll(s, items, hub, n), OneByOne(s, items, hub, trip, n), hub, trip)
    decreases n
  {
    hide Mirrors, Follows, Prepare, Book, Record;
    if n == 0 {
      NothingYet(s, hub, trip);
    } else {
      PreparedMirrors(s, items, hub, trip, n - 1);
      var b, q, item := PrepareAll(s, items, hub, n - 1), OneByOne(s, items, hub, trip, n - 1), items[n - 1].item;
      MirrorsTracks(s, b, q, hub, trip);
      Booked(s, items, b, q, item, hub);
      var (r, o) := Book(q, item, hub);
      Recorded(s, b, q, item, hub, trip, Prepare(b, Fetched(s, items, item.code), item, hub), r, o);
    }
  }

  lemma {:induction false} MirrorsTracks(s: State, b: Batch, q: State, hub: Option<HubId>, trip: Code)
    requires Mirrors(s, b, q, hub, trip)
    ensures Tracks(s, b, q)
  {
  }

  lemma {:induction false} NothingYet(s: State, hub: Option<HubId>, trip: Code)
    requires Numbered(s)
    ensures Mirrors(s, Batch(s, map[], [], []), s, hub, trip)
  {
    assert BatchLines(map[], [], hub, trip) == [];
  }

  /** Everything but the stored running balances. */
  ghost predicate SameTables(a: State, b: State) {
    a.orders == b.orders && a.nextOrder == b.nextOrder && a.lines == b.lines && a.stops == b.stops &&
      Alike(a.ledger, b.ledger)
  }

  /** A whole vehicle booked as a batch leaves the tables that booking its items one by one leaves. */
  lemma {:induction false} BatchRefinesOneByOne(s: State, items: seq<Parcel>, hub: HubId, trip: Code)
    requires Unsplit(s, items) && |items| > 0
    ensures BatchCreate(s, items, Some(hub), trip).Ok?
    ensures SameTables(BatchCreate(s, items, Some(hub), trip).value, OneByOne(s, items, Some(hub), trip, |items|))
  {
    hide PrepareAll, QuickCreate, Tidy, SaveOrders, FindByCode;
    PreparedMirrors(s, items, Some(hub), trip, |items|);
    StopsOneByOne(s, items, hub, trip, |items|);
    assert items[..|items|] == items;
  }

  // ----- The invariant -------------------------------------------------------------------------

  lemma {:induction false} AlikeSums(a: seq<Tx>, b: seq<Tx>)
    requires Alike(a, b)
    ensures forall o: OrderId :: Inbound(a, o) == Inbound(b, o) && Dispatched(a, o) == Dispatched(b, o)
    ensures forall o: OrderId, h: Option<HubId> :: Stock(a, o, h) == Stock(b, o, h)
    ensures forall o: OrderId, h: Option<HubId>, c: Code :: DispatchedVia(a, o, h, c) == DispatchedVia(b, o, h, c)
  {
    forall o: OrderId ensures Inbound(a, o) == Inbound(b, o) && Dispatched(a, o) == Dispatched(b, o) {
      SumPointwise(a, InboundOf(o), b, InboundOf(o));
      SumPointwise(a, DispatchedOf(o), b, DispatchedOf(o));
    }
    forall o: OrderId, h: Option<HubId> ensures Stock(a, o, h) == Stock(b, o, h) {
      SumPointwise(a, StockAt(o, h), b, StockAt(o, h));
    }
    forall o: OrderId, h: Option<HubId>, c: Code ensures DispatchedVia(a, o, h, c) == DispatchedVia(b, o, h, c) {
      SumPointwise(a, DispatchedOn(o, h, c), b, DispatchedOn(o, h, c));
    }
  }

  /** The invariant never looks at a stored balance or a stop. */
  lemma {:induction false} SameTablesSameInv(a: State, b: State)
    requires SameTables(a, b) && Inv(b)
    ensures Inv(a)
  {
    AlikeSums(a.ledger, b.ledger);
    forall i | 0 <= i < |a.ledger| ensures TxOk(a.ledger[i], a.nextOrder) {
      assert TxOk(b.ledger[i], b.nextOrder);
    }
    forall c ensures NothingReceived(a.ledger, c) <==> NothingReceived(b.ledger, c) {}
    forall c ensures NoInvoice(a.ledger, c) <==> NoInvoice(b.ledger, c) {}
    forall i | 0 <= i < |a.lines| ensures LineOk(a.lines[i], a.ledger, a.nextOrder) {
      assert LineOk(b.lines[i], b.ledger, b.nextOrder);
    }
    forall o: OrderId ensures Synced(a.orders, a.ledger, o) {
      assert Synced(b.orders, b.ledger, o);
    }
  }

  lemma {:induction false} OneByOneKeepsInv(s: State, items: seq<Parcel>, hub: Option<HubId>, trip: Code, n: nat)
    requires Inv(s) && Sized(s.orders) && !HasPlan(s.lines, trip) && n <= |items|
    ensures var r := OneByOne(s, items, hub, trip, n); Inv(r) && Sized(r.orders) && !HasPlan(r.lines, trip)
    decreases n
  {
    hide Inv, Sized, HasPlan, QuickCreate;
    if n > 0 {
      OneByOneKeepsInv(s, items, hub, trip, n - 1);
      var q := OneByOne(s, items, hub, trip, n - 1);
      IntakeSafe(q, items[n - 1].item, hub, Some(trip));
      ArrivalSized(q, items[n - 1].item, hub, Some(trip));
    }
  }

  // ----- When it does not ----------------------------------------------------------------------

  /** What the working map holds after n items, whether or not every code was looked up. */
  ghost predicate Prepared(s: State, items: seq<Parcel>, b: Batch, n: nat)
    requires n <= |items|
  {
    b.s == s && Tidy(s, b.work, b.queue) && |b.metas| == n && (forall c :: c in b.work <==> c in b.queue) &&
    (forall c :: c in b.work && b.work[c].id.Some? ==> Prefetched(items, c)) &&
    (forall i :: 0 <= i < n ==> items[i].item.code in b.work)
  }

  lemma {:induction false} FetchedAlone(s: State, items: seq<Parcel>, code: Code)
    requires Numbered(s) && Single(s, code)
    ensures var fetched := Fetched(s, items, code);
      |fetched| <= 1 &&
      (|fetched| == 1 ==>
        IsLive(s.orders, fetched[0]) && s.orders[fetched[0]].code == code && Prefetched(items, code) &&
        ActiveRow(s.orders, fetched) == fetched[0])
  {
    hide ActiveRow;
    var fetched := Fetched(s, items, code);
    if |fetched| > 0 {
      assert fetched[0] in fetched;
      SiblingsAlone(s, fetched[0]);
      ActiveAlone(s.orders, fetched[0]);
    }
  }

  lemma {:induction false} TidyRebooked(s: State, work: map<Code, Entry>, queue: seq<Code>, code: Code, e: Entry)
    requires Tidy(s, work, queue) && code in work && e.id == work[code].id && e.row.code == code && e.row.live
    ensures Tidy(s, work[code := e], queue)
  {
  }

  lemma {:induction false} ParcelPrepared(s: State, items: seq<Parcel>, hub: Option<HubId>, b: Batch, n: nat)
    requires n < |items| && Numbered(s) && Single(s, items[n].item.code) && Prepared(s, items, b, n)
    ensures var item := items[n].item;
      Prepared(s, items, Prepare(b, Fetched(s, items, item.code), item, hub), n + 1)
  {
    hide Single, Numbered, Absorb, NewOrder, Fetched, Consolidate, ActiveRow, Prefetched, Tidy;
    var item := items[n].item;
    var next := Prepare(b, Fetched(s, items, item.code), item, hub);
    FetchedAlone(s, items, item.code);
    NewIsLive(item, hub);
    if item.code in b.work {
      QueuedRow(s, b.work, b.queue, item.code);
      AbsorbKeeps(b.work[item.code].row, item, hub);
      TidyRebooked(s, b.work, b.queue, item.code, next.work[item.code]);
    } else {
      var fetched := Fetched(s, items, item.code);
      if |fetched| > 0 { AbsorbKeeps(s.orders[fetched[0]], item, hub); }
      TidyGrows(s, b.work, b.queue, item.code, next.work[item.code]);
    }
  }

  lemma {:induction false} QueuedRow(s: State, work: map<Code, Entry>, queue: seq<Code>, code: Code)
    requires Tidy(s, work, queue) && code in queue
    ensures code in work && work[code].row.code == code && work[code].row.live
  {
  }

  lemma {:induction false} BatchPrepared(s: State, items: seq<Parcel>, hub: Option<HubId>, n: nat)
    requires n <= |items| && Numbered(s) && forall c :: Single(s, c)
    ensures Prepared(s, items, PrepareAll(s, items, hub, n), n)
    decreases n
  {
    hide Single, Numbered, Prepared, Prepare;
    if n == 0 {
      NonePrepared(s, items);
    } else {
      BatchPrepared(s, items, hub, n - 1);
      ParcelPrepared(s, items, hub, PrepareAll(s, items, hub, n - 1), n - 1);
    }
  }

  lemma {:induction false} NonePrepared(s: State, items: seq<Parcel>)
    ensures Prepared(s, items, Batch(s, map[], [], []), 0)
  {
  }

  /** A generated code that is in use is booked a second time. */
  lemma {:induction false} CodeBookedTwice(s: State, items: seq<Parcel>, b: Batch, n: nat, k: nat)
    requires Numbered(s) && k < n <= |items| && Prepared(s, items, b, n) && !Looked(s, items, items[k].item.code)
    ensures !UniqueCodes(SaveOrders(s, b.work, b.queue).0.orders)
  {
    hide SaveOrders, SiblingsOf;
    var code := items[k].item.code;
    var (r, ids) := SaveOrders(s, b.work, b.queue);
    QueueSaved(s, b.work, b.queue);
    QueuedRow(s, b.work, b.queue, code);
    var held := FindByCode(s, code).value;
    assert code in ids && ids[code] in r.orders;
    assert IsLive(r.orders, ids[code]) && r.orders[ids[code]].code == code && held != ids[code];
    assert IsLive(r.orders, held) && r.orders[held].code == code;
  }

  lemma {:induction false} BatchTables(s: State, items: seq<Parcel>, hub: Option<HubId>, trip: Code, b: Batch)
    requires BatchCreate(s, items, hub, trip).Ok? && b == PrepareAll(s, items, hub, |items|)
    requires Prepared(s, items, b, |items|)
    ensures var r := BatchCreate(s, items, hub, trip).value;
      r.orders == SaveOrders(s, b.work, b.queue).0.orders && |r.lines| == |s.lines| + |items| && s.lines <= r.lines &&
      OnTrip(r.lines[|s.lines|], trip) && r.lines[|s.lines|].kind.InboundLine?
  {
    hide SaveOrders, PrepareAll, Tidy, Prefetched, BatchTxs, UpsertStop;
  }

  lemma {:induction false} PlanJoined(s: State, r: State, trip: Code)
    requires HasPlan(s.lines, trip) && |s.lines| < |r.lines| && s.lines <= r.lines
    requires OnTrip(r.lines[|s.lines|], trip) && r.lines[|s.lines|].kind.InboundLine?
    ensures !Inv(r)
  {
    var i :| 0 <= i < |s.lines| && IsPlanned(s.lines[i]) && s.lines[i].trip == Some(trip);
    assert r.lines[i] == s.lines[i];
    assert HasPlan(r.lines, trip) && !IsDraftLine(r.lines[|s.lines|]);
  }

  lemma {:induction false} BatchUnsafe(s: State, items: seq<Parcel>, hub: Option<HubId>, trip: Code)
    requires Inv(s) && BatchCreate(s, items, hub, trip).Ok?
    requires HasPlan(s.lines, trip) || exists i :: 0 <= i < |items| && !Looked(s, items, items[i].item.code)
    ensures !Inv(BatchCreate(s, items, hub, trip).value)
  {
    hide Inv, BatchCreate, PrepareAll, Prepared, Looked, Single, Numbered, HasPlan, SaveOrders;
    CodesKnown(s);
    var b := PrepareAll(s, items, hub, |items|);
    BatchPrepared(s, items, hub, |items|);
    BatchTables(s, items, hub, trip, b);
    if HasPlan(s.lines, trip) {
      ItemsGiven(s, items, hub, trip);
      PlanJoined(s, BatchCreate(s, items, hub, trip).value, trip);
    } else {
      var k :| 0 <= k < |items| && !Looked(s, items, items[k].item.code);
      CodeBookedTwice(s, items, b, |items|, k);
      InvCodes(BatchCreate(s, items, hub, trip).value);
    }
  }

  lemma {:induction false} ItemsGiven(s: State, items: seq<Parcel>, hub: Option<HubId>, trip: Code)
    ensures BatchCreate(s, items, hub, trip).Ok? <==> |items| > 0 && hub.Some?
  {
  }

  lemma {:induction false} InvCodes(s: State)
    ensures Inv(s) ==> UniqueCodes(s.orders)
  {
  }

  lemma {:induction false} BatchSafe(s: State, items: seq<Parcel>, hub: Option<HubId>, trip: Code)
    requires Inv(s) && Sized(s.orders) && !HasPlan(s.lines, trip) && BatchCreate(s, items, hub, trip).Ok?
    requires forall i :: 0 <= i < |items| ==> Looked(s, items, items[i].item.code)
    ensures Inv(BatchCreate(s, items, hub, trip).value) && Sized(BatchCreate(s, items, hub, trip).value.orders)
  {
    hide Inv, Sized, HasPlan, OneByOne, Commit, PrepareAll, Looked, Single, Numbered, Alike;
    CodesKnown(s);
    BatchRefinesOneByOne(s, items, hub.value, trip);
    OneByOneKeepsInv(s, items, hub, trip, |items|);
    SameTablesSameInv(BatchCreate(s, items, hub, trip).value, OneByOne(s, items, hub, trip, |items|));
  }

  /**
   * An accepted batch keeps the invariant exactly when its vehicle is not an outbound draft and every code the
   * generator made is new.
   */
  lemma {:induction false} BatchKeepsInv(s: State, items: seq<Parcel>, hub: Option<HubId>, trip: Code)
    requires Inv(s) && Sized(s.orders) && BatchCreate(s, items, hub, trip).Ok?
    ensures Inv(BatchCreate(s, items, hub, trip).value) <==>
            !HasPlan(s.lines, trip) && forall i :: 0 <= i < |items| ==> Looked(s, items, items[i].item.code)
    ensures Inv(BatchCreate(s, items, hub, trip).value) ==> Sized(BatchCreate(s, items, hub, trip).value.orders)
  {
    hide Inv, Sized, HasPlan, BatchCreate, Looked;
    if !HasPlan(s.lines, trip) && forall i :: 0 <= i < |items| ==> Looked(s, items, items[i].item.code) {
      BatchSafe(s, items, hub, trip);
    } else {
      BatchUnsafe(s, items, hub, trip);
    }
  }
}
