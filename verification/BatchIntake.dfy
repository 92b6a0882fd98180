/** batchCreateInboundOrders: a whole vehicle booked in memory, then saved table by table. */
module BatchIntake {
  import opened Basics
  import opened Sums
  import opened Model
  import opened Consolidation
  import opened Intake

  /** One row of the request; `given` when the client sent the code rather than a placeholder. */
  datatype Parcel = Parcel(item: Arrival, given: bool)

  /** A row of the working map: an order fetched from the database, or one that has no id yet. */
  datatype Entry = Entry(id: Option<OrderId>, row: Order)

  /** What is remembered of each item: its code, the destination then in force, and the goods. */
  datatype Meta = Meta(item: Arrival, dest: Option<HubId>)

  /** `work` is the working map and `queue` its insertion order; `s` differs from the tables by consolidations only. */
  datatype Batch = Batch(s: State, work: map<Code, Entry>, queue: seq<Code>, metas: seq<Meta>)

  predicate Prefetched(items: seq<Parcel>, code: Code) {
    exists i :: 0 <= i < |items| && items[i].given && items[i].item.code == code
  }

  /** The rows of a code as fetched before the loop. */
  function Fetched(s: State, items: seq<Parcel>, code: Code): (r: seq<OrderId>)
    ensures forall o :: o in r ==> o in s.orders
  {
    if Prefetched(items, code) then SiblingsOf(s, code) else []
  }

  /** The entry a row is booked on: the batch's own, else the fetched one, consolidated when split. */
  function EntryFor(b: Batch, fetched: seq<OrderId>, code: Code): (State, Option<Entry>)
    requires forall o :: o in fetched ==> o in b.s.orders
  {
    if code in b.work then (b.s, Some(b.work[code]))
    else if |fetched| == 0 then (b.s, None)
    else
      var active := ActiveRow(b.s.orders, fetched);
      var one := if |fetched| > 1 then Consolidate(b.s, active) else b.s;
      (one, Some(Entry(Some(active), one.orders[active])))
  }

  function Prepare(b: Batch, fetched: seq<OrderId>, item: Arrival, hub: Option<HubId>): (r: Batch)
    requires forall o :: o in fetched ==> o in b.s.orders
    ensures r.s.orders.Keys == b.s.orders.Keys
  {
    var (one, entry) := EntryFor(b, fetched, item.code);
    var booked :=
      if entry.Some?
      then Entry(entry.value.id, Absorb(entry.value.row, item,
        hub).(destHub := entry.value.row.destHub.OrElse(item.dest)))
      else Entry(None, NewOrder(item, hub));
    Batch(one, b.work[item.code := booked], if item.code in b.work then b.queue else b.queue + [item.code],
          b.metas + [Meta(item, booked.row.destHub)])
  }

  function PrepareAll(s: State, items: seq<Parcel>, hub: Option<HubId>, n: nat): (r: Batch)
    requires n <= |items|
    ensures r.s.orders.Keys == s.orders.Keys
    decreases n
  {
    if n == 0 then Batch(s, map[], [], [])
    else
      var before := PrepareAll(s, items, hub, n - 1);
      Prepare(before, Fetched(s, items, items[n - 1].item.code), items[n - 1].item, hub)
  }

  // ----- Saving --------------------------------------------------------------------------------

  /** orderRepo.save on the queued entries: new rows take the next ids in queue order. */
  function SaveOrders(s: State, work: map<Code, Entry>, queue: seq<Code>): (State, map<Code, OrderId>)
    decreases |queue|
  {
    if |queue| == 0 then (s, map[])
    else
      var code := queue[|queue| - 1];
      var (before, ids) := SaveOrders(s, work, queue[..|queue| - 1]);
      if code !in work then (before, ids)
      else
        var o := work[code].id.GetOr(before.nextOrder);
        (before.(orders := before.orders[o := work[code].row],
                 nextOrder := if work[code].id.None? then before.nextOrder + 1 else before.nextOrder),
         ids[code := o])
  }

  function BatchLine(ids: map<Code, OrderId>, m: Meta, hub: Option<HubId>, trip: Code): Line {
    IntakeLine(if m.item.code in ids then ids[m.item.code] else 0, m.item, hub, trip, m.dest)
  }

  function BatchLines(ids: map<Code, OrderId>, metas: seq<Meta>, hub: Option<HubId>, trip: Code): (r: seq<Line>)
    ensures |r| == |metas| && forall i :: 0 <= i < |metas| ==> r[i] == BatchLine(ids, metas[i], hub, trip)
  {
    seq(|metas|, i requires 0 <= i < |metas| => BatchLine(ids, metas[i], hub, trip))
  }

  /** One receipt per non-draft item, each storing the order's final balance. */
  function BatchTxs(orders: map<OrderId, Order>, ids: map<Code, OrderId>, metas: seq<Meta>, hub: Option<HubId>,
        trip: Code, base: nat): seq<Tx>
    decreases |metas|
  {
    if |metas| == 0 then []
    else
      var n := |metas| - 1;
      var front := BatchTxs(orders, ids, metas[..n], hub, trip, base);
      var m := metas[n];
      var o := if m.item.code in ids then ids[m.item.code] else 0;
      if m.item.Draft() then front
      else front + [ReceiptTx(o, m.item, hub, Some(trip), Some(base + n), if o in orders
        then orders[o].remaining else 0)]
  }

  predicate AllDraft(items: seq<Parcel>) {
    forall i :: 0 <= i < |items| ==> items[i].item.Draft()
  }

  function Commit(b: Batch, items: seq<Parcel>, hub: Option<HubId>, trip: Code): State {
    var (saved, ids) := SaveOrders(b.s, b.work, b.queue);
    saved.(lines := b.s.lines + BatchLines(ids, b.metas, hub, trip),
           ledger := b.s.ledger + BatchTxs(saved.orders, ids, b.metas, hub, trip, |b.s.lines|),
           stops := if hub.Some?
                    then UpsertStop(b.s.stops, trip, hub.value, if AllDraft(items) then StopPending
                      else StopCompleted, DestinationStop, 1)
                    else b.s.stops)
  }

  function BatchCreate(s: State, items: seq<Parcel>, hub: Option<HubId>, trip: Code): Result<State> {
    if |items| == 0 then Err(Unprocessable)
    else if hub.None? then Err(BadRequest)
    else Ok(Commit(PrepareAll(s, items, hub, |items|), items, hub, trip))
  }

  // ----- All-draft vehicles --------------------------------------------------------------------

  lemma {:induction false} MetaAdded(b: Batch, fetched: seq<OrderId>, item: Arrival, hub: Option<HubId>)
    requires forall o :: o in fetched ==> o in b.s.orders
    ensures var metas := Prepare(b, fetched, item, hub).metas;
      |metas| == |b.metas| + 1 && metas[..|b.metas|] == b.metas && metas[|b.metas|].item == item
  {
    hide EntryFor, Absorb, NewOrder;
  }

  /** What is remembered of the items is the items, in order. */
  lemma {:induction false} MetasAre(s: State, items: seq<Parcel>, hub: Option<HubId>, n: nat)
    requires n <= |items|
    ensures var m := PrepareAll(s, items, hub, n).metas;
      |m| == n && forall i :: 0 <= i < n ==> m[i].item == items[i].item
    decreases n
  {
    hide Prepare, Fetched;
    if n > 0 {
      MetasAre(s, items, hub, n - 1);
      var b := PrepareAll(s, items, hub, n - 1);
      MetaAdded(b, Fetched(s, items, items[n - 1].item.code), items[n - 1].item, hub);
      var m := PrepareAll(s, items, hub, n).metas;
      assert forall i :: 0 <= i < n - 1 ==> m[..n - 1][i] == m[i];
    }
  }

  /** Drafts are not invoiced. */
  lemma {:induction false} NoReceipts(orders: map<OrderId, Order>, ids: map<Code, OrderId>, metas: seq<Meta>,
        hub: Option<HubId>, trip: Code, base: nat)
    requires forall i :: 0 <= i < |metas| ==> metas[i].item.Draft()
    ensures BatchTxs(orders, ids, metas, hub, trip, base) == []
    decreases |metas|
  {
    if |metas| > 0 { NoReceipts(orders, ids, metas[..|metas| - 1], hub, trip, base); }
  }
}
