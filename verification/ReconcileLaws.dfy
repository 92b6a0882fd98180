/** Reconciliation is a fixpoint, and what adding and cancelling an inbound draft leaves behind. */
module ReconcileLaws {
  import opened Basics
  import opened Sums
  import opened Model
  import opened Intake
  import opened Dispatch
  import opened RunningBalance
  import opened Reconcile
  import opened RequestLaws
  import opened InboundLaws
  import opened BatchIntake
  import opened BatchLaws
  import AdminLaws

  // ----- Reconciliation ------------------------------------------------------------------------

  lemma {:induction false} ReconcileFrame(s: State, code: Code)
    ensures var r := ReconcileCode(s, code);
      r == s.(orders := r.orders) && r.orders.Keys == s.orders.Keys &&
      (forall o :: o in s.orders ==> r.orders[o].code == s.orders[o].code && r.orders[o].live == s.orders[o].live) &&
      (forall o :: o in s.orders && !(IsLive(s.orders, o) && s.orders[o].code == code) ==>
        r.orders[o] == s.orders[o]) &&
      (forall c :: SiblingsOf(r, c) == SiblingsOf(s, c))
  {
    hide Siblings;
    var r := ReconcileCode(s, code);
    assert forall i :: 0 <= i < |SiblingsOf(s, code)| ==> SiblingsOf(s, code)[i] in SiblingsOf(s, code);
    SiblingsLive(s, code);
    forall c ensures SiblingsOf(r, c) == SiblingsOf(s, c) {
      AdminLaws.SameGroup(s, r, c);
    }
  }

  lemma {:induction false} SiblingsLive(s: State, code: Code)
    ensures forall o :: o in SiblingsOf(s, code) ==> IsLive(s.orders, o) && s.orders[o].code == code
  {
  }

  /** Reconciling twice is reconciling once. */
  lemma {:induction false} ReconcileTwice(s: State, code: Code)
    ensures ReconcileCode(ReconcileCode(s, code), code) == ReconcileCode(s, code)
  {
    hide SiblingsOf, GroupIn, GroupOut, PendingAllocation, HasActive;
    ReconcileFrame(s, code);
    var ids := SiblingsOf(s, code);
    if |ids| > 0 && HasActive(s.ledger, ids) {
      var o := s.orders[ids[0]];
      var received, sent, pending := GroupIn(s.ledger, ids), GroupOut(s.ledger, ids), PendingAllocation(s.lines,
          ids[0]);
      assert ReconciledRow(ReconciledRow(o, received, sent, pending), received, sent, pending) ==
          ReconciledRow(o, received, sent, pending);
    }
  }

  lemma {:induction false} SingleGroup(l: seq<Tx>, o: OrderId)
    ensures GroupIn(l, [o]) == Inbound(l, o) && GroupOut(l, [o]) == Dispatched(l, o)
  {
    SumPointwise(l, (t: Tx) => if LiveIn(t, [o]) && t.kind.InboundTx? then t.qty else 0, l, InboundOf(o));
    SumPointwise(l, (t: Tx) => if LiveIn(t, [o]) && IsDispatch(t.kind) then t.qty else 0, l, DispatchedOf(o));
  }

  predicate MatchesLedger(s: State, o: OrderId)
    requires o in s.orders
  {
    s.orders[o].inbound == Inbound(s.ledger, o) && s.orders[o].outbound == Dispatched(s.ledger, o) &&
    s.orders[o].remaining == Inbound(s.ledger, o) - Dispatched(s.ledger, o)
  }

  /** What one call makes of a code's only live row. */
  lemma {:induction false} ReconcileAlone(s: State, o: OrderId)
    requires Numbered(s) && IsLive(s.orders, o) && Single(s, s.orders[o].code)
    ensures ReconcileCode(s, s.orders[o].code) ==
            if HasActive(s.ledger, [o])
            then s.(orders := s.orders[o := ReconciledRow(s.orders[o], Inbound(s.ledger, o), Dispatched(s.ledger, o),
              PendingAllocation(s.lines, o))])
            else s
  {
    hide Siblings, GroupIn, GroupOut;
    SiblingsAlone(s, o);
    SingleGroup(s.ledger, o);
  }

  /**
   * For a code with one live row, whatever was cached: the row matches the ledger afterwards exactly when the code has
   * a live invoice and its receipts cover its dispatches; without any invoice the row is left as it was.
   */
  lemma {:induction false} ReconcileMatches(s: State, o: OrderId)
    requires Numbered(s) && IsLive(s.orders, o) && Single(s, s.orders[o].code)
    ensures o in ReconcileCode(s, s.orders[o].code).orders
    ensures MatchesLedger(ReconcileCode(s, s.orders[o].code), o) <==>
            if HasActive(s.ledger, [o]) then Dispatched(s.ledger, o) <= Inbound(s.ledger, o) else MatchesLedger(s, o)
  {
    hide ReconcileCode;
    ReconcileAlone(s, o);
  }

  // ----- Adding an inbound draft ---------------------------------------------------------------

  /** A real order of the warehouse: one live row under its code, not a draft, with invoices. */
  ghost predicate InStock(s: State, o: OrderId) {
    IsLive(s.orders, o) && Single(s, s.orders[o].code) && |s.orders[o].code| > 0 &&
      !DraftLike(s.orders[o].status) && HasActive(s.ledger, [o])
  }

  /** Only the total, the weights and a missing destination may differ. */
  predicate OnlyAnnounced(a: Order, b: Order) {
    b == a.(total := b.total, load := b.load, destHub := b.destHub)
  }

  ghost predicate Announced(s: State, r: State, c: Code) {
    Numbered(r) && r.ledger == s.ledger && |s.lines| <= |r.lines| && r.lines[..|s.lines|] == s.lines &&
      s.nextOrder <= r.nextOrder &&
    (forall i :: |s.lines| <= i < |r.lines| ==> IsPendingLine(r.lines[i], c) && r.lines[i].order in r.orders) &&
    (forall o :: o in s.orders ==> o in r.orders && OnlyAnnounced(s.orders[o], r.orders[o])) &&
    (forall o :: o in r.orders && o !in s.orders ==>
      DraftLike(r.orders[o].status) && forall x :: IsLive(s.orders, x) ==> s.orders[x].code != r.orders[o].code)
  }

  lemma {:induction false} StillSingle(s: State, r: State, c: Code, o: OrderId)
    requires Announced(s, r, c) && IsLive(s.orders, o) && Single(s, s.orders[o].code)
    ensures IsLive(r.orders, o) && Single(r, s.orders[o].code) && r.orders[o].code == s.orders[o].code
  {
  }

  lemma {:induction false} AnnouncedOnce(s: State, r: State, item: Arrival, hub: Option<HubId>, c: Code)
    requires Announced(s, r, c) && item.Draft() && Single(r, item.code)
    ensures Announced(s, QuickCreate(r, item, hub, Some(c)), c)
  {
    hide Book;
    BookedAlone(r, item, hub);
    var (booked, o) := Book(r, item, hub);
    var q := QuickCreate(r, item, hub, Some(c));
    assert q.lines == r.lines + [IntakeLine(o, item, hub, c, booked.orders[o].destHub)];
    if o == r.nextOrder {
      forall x | IsLive(s.orders, x) ensures s.orders[x].code != item.code {
        assert IsLive(r.orders, x) && r.orders[x].code == s.orders[x].code;
      }
    }
  }

  lemma {:induction false} SingleKept(r: State, item: Arrival, hub: Option<HubId>, c: Code, code: Code)
    requires Numbered(r) && Single(r, item.code) && Single(r, code)
    ensures Single(QuickCreate(r, item, hub, Some(c)), code)
  {
    hide Book;
    BookedAlone(r, item, hub);
    var (booked, o) := Book(r, item, hub);
    if o == r.nextOrder && item.code == code {
      assert forall x :: IsLive(r.orders, x) ==> r.orders[x].code != code;
    }
  }

  predicate HasPendingLine(ls: seq<Line>, o: OrderId, c: Code) {
    exists i :: 0 <= i < |ls| && IsPendingLine(ls[i], c) && ls[i].order == o
  }

  /** An all-draft vehicle only announces: totals, and pending lines of its trip. */
  lemma {:induction false} DraftsAnnounce(s: State, items: seq<Parcel>, hub: Option<HubId>, c: Code, n: nat, o: OrderId)
    requires Numbered(s) && n <= |items| && AllDraft(items)
    requires forall i :: 0 <= i < |items| ==> Single(s, items[i].item.code)
    ensures var r := OneByOne(s, items, hub, c, n);
      Announced(s, r, c) && (forall i :: 0 <= i < |items| ==> Single(r, items[i].item.code)) &&
      forall k :: 0 <= k < n && IsLive(s.orders, o) && items[k].item.code == s.orders[o].code ==>
        HasPendingLine(r.lines, o, c)
    decreases n
  {
    hide QuickCreate, Announced, Single, HasPendingLine;
    if n == 0 {
      AnnouncedNone(s, c);
    } else {
      DraftsAnnounce(s, items, hub, c, n - 1, o);
      var r, item := OneByOne(s, items, hub, c, n - 1), items[n - 1].item;
      AnnouncedOnce(s, r, item, hub, c);
      NumberedStill(s, r, c);
      forall i | 0 <= i < |items| ensures Single(QuickCreate(r, item, hub, Some(c)), items[i].item.code) {
        SingleKept(r, item, hub, c, items[i].item.code);
      }
      if IsLive(s.orders, o) { Boarded(s, r, item, hub, c, o); }
    }
  }

  lemma {:induction false} AnnouncedNone(s: State, c: Code)
    requires Numbered(s)
    ensures Announced(s, s, c)
  {
  }

  lemma {:induction false} NumberedStill(s: State, r: State, c: Code)
    requires Announced(s, r, c)
    ensures Numbered(r)
  {
  }

  lemma {:induction false} Boarded(s: State, r: State, item: Arrival, hub: Option<HubId>, c: Code, o: OrderId)
    requires Announced(s, r, c) && item.Draft() && Single(r, item.code) && IsLive(s.orders, o)
    ensures HasPendingLine(r.lines, o, c) || item.code == s.orders[o].code ==>
      HasPendingLine(QuickCreate(r, item, hub, Some(c)).lines, o, c)
  {
    hide Book;
    BookedAlone(r, item, hub);
    var (booked, x) := Book(r, item, hub);
    var q := QuickCreate(r, item, hub, Some(c));
    assert q.lines == r.lines + [IntakeLine(x, item, hub, c, booked.orders[x].destHub)];
    if HasPendingLine(r.lines, o, c) {
      var i :| 0 <= i < |r.lines| && IsPendingLine(r.lines[i], c) && r.lines[i].order == o;
      assert q.lines[i] == r.lines[i];
    } else if item.code == s.orders[o].code {
      assert IsLive(r.orders, o) && r.orders[o].code == item.code;
      assert x == o;
      assert IsPendingLine(q.lines[|r.lines|], c) && q.lines[|r.lines|].order == o;
    }
  }

  /** An all-draft batch stores no balance, so it leaves exactly the tables its items leave one by one. */
  lemma {:induction false} DraftBatch(s: State, items: seq<Parcel>, hub: HubId, c: Code)
    requires Unsplit(s, items) && |items| > 0 && AllDraft(items)
    ensures BatchCreate(s, items, Some(hub), c) == Ok(OneByOne(s, items, Some(hub), c, |items|))
  {
    hide Announced, OneByOne, PrepareAll, SaveOrders, BatchLines, BatchTxs, Tidy;
    var r := OneByOne(s, items, Some(hub), c, |items|);
    BatchRefinesOneByOne(s, items, hub, c);
    DraftsAnnounce(s, items, Some(hub), c, |items|, 0);
    LedgerKept(s, r, c);
    var b := PrepareAll(s, items, Some(hub), |items|);
    PreparedMirrors(s, items, Some(hub), c, |items|);
    MetasAre(s, items, Some(hub), |items|);
    var (saved, ids) := SaveOrders(b.s, b.work, b.queue);
    NoReceipts(saved.orders, ids, b.metas, Some(hub), c, |b.s.lines|);
    assert b.s.ledger + [] == s.ledger;
    assert BatchCreate(s, items, Some(hub), c).value.ledger == s.ledger;
  }

  lemma {:induction false} LedgerKept(s: State, r: State, c: Code)
    requires Announced(s, r, c)
    ensures r.ledger == s.ledger
  {
  }

  /** So an all-draft vehicle booked as a batch only announces. */
  lemma {:induction false} DraftBatchAnnounces(s: State, items: seq<Parcel>, hub: HubId, c: Code, o: OrderId)
    requires Unsplit(s, items) && |items| > 0 && AllDraft(items)
    ensures BatchCreate(s, items, Some(hub), c).Ok?
    ensures var r := BatchCreate(s, items, Some(hub), c).value;
      Announced(s, r, c) &&
      forall k :: 0 <= k < |items| && IsLive(s.orders, o) && items[k].item.code == s.orders[o].code ==>
        HasPendingLine(r.lines, o, c)
  {
    hide Announced, OneByOne, BatchCreate, HasPendingLine, Single, Looked;
    DraftBatch(s, items, hub, c);
    DraftsAnnounce(s, items, Some(hub), c, |items|, o);
  }

  // ----- Cancelling it -------------------------------------------------------------------------

  lemma {:induction false} ReconcileCodesAt(s: State, codes: seq<Code>, o: OrderId)
    requires Numbered(s) && InStock(s, o) && NoDuplicates(codes)
    ensures var r := ReconcileCodes(s, codes);
      r == s.(orders := r.orders) && r.orders.Keys == s.orders.Keys && Numbered(r) &&
      IsLive(r.orders, o) && r.orders[o].code == s.orders[o].code && Single(r, s.orders[o].code) &&
      r.orders[o] == (if s.orders[o].code in codes
                      then ReconciledRow(s.orders[o], Inbound(s.ledger, o), Dispatched(s.ledger, o),
                        PendingAllocation(s.lines, o))
                      else s.orders[o])
    decreases |codes|
  {
    hide ReconcileCode, SiblingsOf, HasActive, PendingAllocation, Inbound, Dispatched;
    if |codes| > 0 {
      var front, last := codes[..|codes| - 1], codes[|codes| - 1];
      ReconcileCodesAt(s, front, o);
      var before := ReconcileCodes(s, front);
      ReconcileFrame(before, last);
      assert last !in front;
      assert s.orders[o].code in codes <==> s.orders[o].code in front || s.orders[o].code == last;
      if last == s.orders[o].code {
        ReconcileAlone(before, o);
      }
    }
  }

  lemma {:induction false} ToBeReconciled(s: State, c: Code, n: nat, i: nat)
    requires i < n <= |s.lines| && IsPendingLine(s.lines[i], c) && s.lines[i].order in s.orders
    requires !OnlyPlanned(s.orders[s.lines[i].order].status) && |s.orders[s.lines[i].order].code| > 0
    ensures s.orders[s.lines[i].order].code in CodesToReconcile(s, c, n)
    decreases n
  {
    if i < n - 1 {
      ToBeReconciled(s, c, n - 1, i);
    }
  }

  lemma {:induction false} PendingBack(base: seq<Line>, ls: seq<Line>, c: Code, o: OrderId)
    requires |base| <= |ls| && ls[..|base|] == base && !HasLine(base, c)
    requires forall i :: |base| <= i < |ls| ==> IsPendingLine(ls[i], c)
    ensures PendingAllocation(DropPending(ls, c), o) == PendingAllocation(base, o)
  {
    var r := DropPending(ls, c);
    forall i | 0 <= i < |base| ensures r[i] == base[i] {
      assert ls[..|base|][i] == ls[i];
    }
    assert r == base + r[|base|..];
    SumConcat(base, r[|base|..], PendingOn(o));
    SumZero(r[|base|..], PendingOn(o));
  }

  /** The row of one stored order after its trip was announced and cancelled. */
  lemma {:induction false} CancelledRow(s: State, r: State, c: Code, userHub: Option<HubId>, o: OrderId)
    requires Announced(s, r, c) && InStock(s, o) && !HasLine(s.lines, c) && |c| > 0 && HasPendingLine(r.lines, o, c)
    ensures CancelInbound(r, c, userHub).Ok? && o in CancelInbound(r, c, userHub).value.orders
    ensures CancelInbound(r, c, userHub).value.orders[o] ==
            ReconciledRow(r.orders[o], Inbound(s.ledger, o), Dispatched(s.ledger, o), PendingAllocation(s.lines, o))
  {
    hide ReconcileCodes, CodesToReconcile, PendingAllocation, Inbound, Dispatched;
    var dropped := r.(stops := DropStops(r.stops, c, userHub), orders := DropOrders(r, c),
        lines := DropPending(r.lines, c));
    StillSingle(s, r, c, o);
    assert dropped.orders[o] == r.orders[o];
    assert Single(dropped, s.orders[o].code);
    PendingBack(s.lines, r.lines, c, o);
    var i :| 0 <= i < |r.lines| && IsPendingLine(r.lines[i], c) && r.lines[i].order == o;
    ToBeReconciled(r, c, |r.lines|, i);
    ReconcileCodesAt(dropped, CodesToReconcile(r, c, |r.lines|), o);
  }

  /** The row already says what a reconciliation would write. */
  predicate Settled(s: State, o: OrderId)
    requires o in s.orders
  {
    s.orders[o].inbound == Inbound(s.ledger, o) && s.orders[o].outbound == Dispatched(s.ledger, o) &&
    s.orders[o].remaining == Max(0, Inbound(s.ledger, o) - Dispatched(s.ledger, o)) &&
    s.orders[o].total == Inbound(s.ledger, o) + PendingAllocation(s.lines, o)
  }

  /**
   * Announcing an all-draft vehicle for a stored order and cancelling it restores the order's quantities exactly when
   * they were settled: the ledger's sums, and a total of what came in plus everything PENDING.
   */
  lemma {:induction false} CancelRestores(s: State, items: seq<Parcel>, hub: Option<HubId>, c: Code,
        userHub: Option<HubId>, o: OrderId, k: nat)
    requires Numbered(s) && AllDraft(items) && forall i :: 0 <= i < |items| ==> Single(s, items[i].item.code)
    requires |c| > 0 && !HasLine(s.lines, c)
    requires InStock(s, o) && k < |items| && items[k].item.code == s.orders[o].code
    ensures var r := CancelInbound(OneByOne(s, items, hub, c, |items|), c, userHub);
      r.Ok? && o in r.value.orders && (SameQuantities(r.value.orders[o], s.orders[o]) <==> Settled(s, o))
  {
    hide CancelInbound, OneByOne, Inbound, Dispatched, PendingAllocation;
    DraftsAnnounce(s, items, hub, c, |items|, o);
    CancelledRow(s, OneByOne(s, items, hub, c, |items|), c, userHub, o);
  }

  /** The same for a vehicle booked as a batch. */
  lemma {:induction false} CancelledBatchRestores(s: State, items: seq<Parcel>, hub: HubId, c: Code,
        userHub: Option<HubId>, o: OrderId, k: nat)
    requires Unsplit(s, items) && AllDraft(items) && |c| > 0 && !HasLine(s.lines, c)
    requires InStock(s, o) && k < |items| && items[k].item.code == s.orders[o].code
    ensures BatchCreate(s, items, Some(hub), c).Ok?
    ensures var r := CancelInbound(BatchCreate(s, items, Some(hub), c).value, c, userHub);
      r.Ok? && o in r.value.orders && (SameQuantities(r.value.orders[o], s.orders[o]) <==> Settled(s, o))
  {
    hide CancelInbound, OneByOne, BatchCreate, InStock, Looked, HasLine, Settled;
    DraftBatch(s, items, hub, c);
    CancelRestores(s, items, Some(hub), c, userHub, o, k);
  }

  /**
   * So an order that is all in stock and has a planned outbound line comes back with an inflated total: the outbound
   * plan is counted as goods still to arrive.
   */
  lemma {:induction false} OutboundPlanInflates(s: State, items: seq<Parcel>, hub: Option<HubId>, c: Code,
        userHub: Option<HubId>, o: OrderId, k: nat, i: nat)
    requires Numbered(s) && AllDraft(items) && forall i :: 0 <= i < |items| ==> Single(s, items[i].item.code)
    requires |c| > 0 && !HasLine(s.lines, c)
    requires InStock(s, o) && k < |items| && items[k].item.code == s.orders[o].code
    requires s.orders[o].total == Inbound(s.ledger, o)
    requires i < |s.lines| && IsPlanned(s.lines[i]) && s.lines[i].order == o && 0 < Allocated(s.lines[i])
    requires forall j :: 0 <= j < |s.lines| ==> 0 <= Allocated(s.lines[j])
    ensures var r := CancelInbound(OneByOne(s, items, hub, c, |items|), c, userHub);
      r.Ok? && o in r.value.orders && s.orders[o].total < r.value.orders[o].total
  {
    hide CancelInbound, OneByOne, Inbound, Dispatched;
    DraftsAnnounce(s, items, hub, c, |items|, o);
    CancelledRow(s, OneByOne(s, items, hub, c, |items|), c, userHub, o);
    SumBoundsTerms(s.lines, PendingOn(o));
    assert PendingOn(o)(s.lines[i]) > 0;
  }
}
