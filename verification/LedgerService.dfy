/** Edits of single invoices, reconciliation and lookups on the tables. */
module LedgerService {
  import opened Basics
  import opened Sums
  import opened Model
  import opened Consolidation
  import opened Dispatch
  import opened RunningBalance
  import opened AdminLedger
  import opened Reconcile
  import opened FindOne
  import opened Tables

  // ----- Administrator edits -------------------------------------------------------------------

  /** The group's sums, written to every row of the code in turn. */
  method SyncSiblings(db: Database, ids: seq<OrderId>, received: int, sent: int)
    requires forall i :: 0 <= i < |ids| ==> ids[i] in db.orders
    requires forall i, j :: 0 <= i < j < |ids| ==> ids[i] < ids[j]
    modifies db`orders
    ensures db.orders == map o | o in old(db.orders) ::
      if o in ids then Recomputed(old(db.orders)[o], received, sent) else old(db.orders)[o]
    ensures forall o :: o in ids ==> Tells(db.orders[o], received, sent)
  {
    hide StatusOf, Tells;
    ghost var start := db.orders;
    var left := Max(0, received - sent);
    var status := StatusOf(received, sent);
    for i := 0 to |ids|
      invariant db.orders.Keys == start.Keys
      invariant forall o :: o in start ==>
        db.orders[o] == if o in ids[..i] then Recomputed(start[o], received, sent) else start[o]
    {
      var o := ids[i];
      assert ids[..i + 1] == ids[..i] + [o] && o !in ids[..i];
      db.SaveOrder(o, db.orders[o].(total := received, inbound := received, outbound := sent, remaining := left,
        status := status));
    }
    assert ids[..|ids|] == ids;
    forall o | o in ids ensures Tells(db.orders[o], received, sent) {
      RecomputedTells(start[o], received, sent);
    }
  }

  /** The guard and the write-back that all three edits end with. */
  method Rebalance(db: Database, ids: seq<OrderId>) returns (failure: Option<Error>)
    requires forall i :: 0 <= i < |ids| ==> ids[i] in db.orders
    requires forall i, j :: 0 <= i < j < |ids| ==> ids[i] < ids[j]
    modifies db`orders
    ensures Outcome(Resync(old(db.Rows()), ids), old(db.Rows()), db.Rows(), failure)
    ensures failure.None? ==> GroupOut(db.ledger, ids) <= GroupIn(db.ledger, ids)
  {
    hide GroupIn, GroupOut, StatusOf;
    var received, sent := GroupIn(db.ledger, ids), GroupOut(db.ledger, ids);
    if received < sent { return Some(BadRequest); }
    SyncSiblings(db, ids, received, sent);
    failure := None;
  }

  /** tripRepo.update on every line of the group on the invoice's trip. */
  method ReallocateLines(db: Database, ids: seq<OrderId>, trip: Option<Code>, q: int)
    modifies db`lines
    ensures db.lines == Reallocated(old(db.lines), ids, trip, q)
  {
    ghost var start := db.lines;
    if trip.Some? && |trip.value| > 0 {
      for i := 0 to |db.lines|
        invariant |db.lines| == |start| && forall j :: i <= j < |start| ==> db.lines[j] == start[j]
        invariant forall j :: 0 <= j < i ==> db.lines[j] == Reallocated(start, ids, trip, q)[j]
      {
        var line := db.lines[i];
        if line.live && line.order in ids && line.trip == trip {
          db.lines := db.lines[i := line.(qty := Some(q))];
        }
      }
    }
  }

  lemma {:induction false} GroupKnown(s: State, code: Code)
    ensures var ids := SiblingsOf(s, code);
      (forall i :: 0 <= i < |ids| ==> ids[i] in s.orders) && forall i, j :: 0 <= i < j < |ids| ==> ids[i] < ids[j]
  {
    var ids := SiblingsOf(s, code);
    forall i | 0 <= i < |ids| ensures ids[i] in s.orders { assert ids[i] in ids; }
  }

  method EditTransaction(db: Database, e: Edit) returns (failure: Option<Error>)
    modifies db
    ensures Outcome(ApplyEdit(old(db.Rows()), e), old(db.Rows()), db.Rows(), failure)
  {
    hide Resync, SiblingsOf, Rewritten, Reallocated;
    var start := db.Rows();
    if e.SetQty? && e.qty < 1 { return Some(BadRequest); }
    if e.row >= |db.ledger| { return Some(NotFound); }
    var tx := db.ledger[e.row];
    if tx.live != !e.Restore? { return Some(BadRequest); }
    if !IsLive(db.orders, tx.order) { return Some(NotFound); }
    var code := db.orders[tx.order].code;
    match e {
      case Delete(i) => db.ledger := db.ledger[i := tx.(live := false)];
      case Restore(i) => db.ledger := db.ledger[i := tx.(live := true)];
      case SetQty(i, q) => db.ledger := db.ledger[i := tx.(qty := q)];
    }
    SameOrdersSameGroup(start, db.Rows(), code);
    var ids := SiblingsOf(db.Rows(), code);
    GroupKnown(db.Rows(), code);
    failure := Rebalance(db, ids);
    if failure.Some? {
      db.Abandon(start);
      return;
    }
    if e.SetQty? {
      var rewritten := RewriteBalances(db.ledger, ids);
      db.ledger := rewritten;
      ReallocateLines(db, ids, tx.trip, e.qty);
    }
  }

  lemma {:induction false} SameOrdersSameGroup(a: State, b: State, code: Code)
    requires a.orders == b.orders && a.nextOrder == b.nextOrder
    ensures SiblingsOf(a, code) == SiblingsOf(b, code)
  {
  }

  // ----- Reconciliation ------------------------------------------------------------------------

  method ReconcileOrder(db: Database, code: Code)
    modifies db`orders
    ensures db.Rows() == ReconcileCode(old(db.Rows()), code)
  {
    hide GroupIn, GroupOut, PendingAllocation, Siblings, HasActive;
    var ids := SiblingsOf(db.Rows(), code);
    GroupKnown(db.Rows(), code);
    if |ids| > 0 && HasActive(db.ledger, ids) {
      var received, sent := GroupIn(db.ledger, ids), GroupOut(db.ledger, ids);
      var exactRemaining := Max(0, received - sent);
      var primary := db.orders[ids[0]];
      primary := primary.(inbound := received, outbound := sent, remaining := exactRemaining);
      primary := primary.(total := received + PendingAllocation(db.lines, ids[0]));
      if exactRemaining == 0 && sent > 0 {
        primary := primary.(status := COMPLETED_INBOUND);
      } else if received > 0 {
        primary := primary.(status := INBOUND);
      }
      db.SaveOrder(ids[0], primary);
    }
  }

  /** The codes of the cancelled lines' orders, each once, skipping orders that were only planned. */
  method ToReconcile(s: State, c: Code) returns (codes: seq<Code>)
    ensures codes == CodesToReconcile(s, c, |s.lines|)
  {
    codes := [];
    for i := 0 to |s.lines|
      invariant codes == CodesToReconcile(s, c, i)
    {
      var line := s.lines[i];
      if IsPendingLine(line, c) && line.order in s.orders && !OnlyPlanned(s.orders[line.order].status) {
        var code := s.orders[line.order].code;
        if |code| > 0 && code !in codes {
          codes := codes + [code];
        }
      }
    }
  }

  method CancelInboundDraft(db: Database, c: Code, userHub: Option<HubId>) returns (failure: Option<Error>)
    modifies db
    ensures Outcome(CancelInbound(old(db.Rows()), c, userHub), old(db.Rows()), db.Rows(), failure)
  {
    hide DropStops, DropOrders, DropPending, CodesToReconcile, ReconcileCode;
    if |c| == 0 { return Some(NotFound); }
    if !HasPendingStop(db.stops, c, userHub) && !(exists i :: 0 <= i < |db.lines| && IsPendingLine(db.lines[i], c)) {
      return Some(NotFound);
    }
    var cancelled := ToReconcile(db.Rows(), c);
    var orders := DropOrders(db.Rows(), c);
    db.stops := DropStops(db.stops, c, userHub);
    db.orders := orders;
    db.lines := DropPending(db.lines, c);
    ghost var dropped := db.Rows();
    for i := 0 to |cancelled|
      invariant db.Rows() == ReconcileCodes(dropped, cancelled[..i])
    {
      ReconcileOrder(db, cancelled[i]);
      assert cancelled[..i + 1][..i] == cancelled[..i];
    }
    assert cancelled[..|cancelled|] == cancelled;
    failure := None;
  }

  // ----- findOne -------------------------------------------------------------------------------

  /** The first matching row, its figures overwritten with the group's. */
  method FindOrder(db: Database, code: Code) returns (r: Result<View>)
    ensures r == Find(db.Rows(), code)
  {
    hide Siblings, SummedLoad, Members, PendingTrips;
    var matching := SiblingsOf(db.Rows(), code);
    if |code| == 0 || |matching| == 0 { return Err(NotFound); }
    GroupKnown(db.Rows(), code);
    var order := db.orders[matching[0]];
    if |matching| > 1 {
      var members := Members(db.orders, matching);
      order := order.(total := Sum(members, TotalCol(db.orders)));
      order := order.(inbound := Sum(members, InboundCol(db.orders)));
      order := order.(outbound := Sum(members, OutboundCol(db.orders)));
      order := order.(remaining := Sum(members, RemainingCol(db.orders)));
      order := order.(load := SummedLoad(db.orders, members));
    }
    var pending := 0;
    for i := 0 to |db.lines|
      invariant pending == Sum(db.lines[..i], PendingOf(matching))
    {
      assert db.lines[..i + 1] == db.lines[..i] + [db.lines[i]];
      SumSnoc(db.lines[..i], db.lines[i], PendingOf(matching));
      var line := db.lines[i];
      if line.order in matching && IsPendingInbound(line) {
        pending := pending + Allocated(line);
      }
    }
    assert db.lines[..|db.lines|] == db.lines;
    r := Ok(View(order.total, order.inbound, order.outbound, order.remaining, order.load, pending,
      PendingTrips(db.lines, matching)));
  }
}
