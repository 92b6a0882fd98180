/** Codes split over several rows: every operation that meets one folds it into one row first, then goes on as usual. */
module SplitLaws {
  import opened Basics
  import opened Sums
  import opened Model
  import opened Consolidation
  import opened ConsolidationLaws
  import opened ConsolidationEffects
  import opened Intake
  import opened InboundLaws
  import opened IntakeEffects
  import opened BatchIntake
  import opened BatchLaws
  import opened Dispatch
  import opened RequestLaws

  // ----- One fold ------------------------------------------------------------------------------

  /** No row of the code differs between the tables. */
  ghost predicate SameRows(s: State, r: State, code: Code) {
    SiblingsOf(r, code) == SiblingsOf(s, code) &&
    forall o :: o in SiblingsOf(s, code) ==> o in s.orders && o in r.orders && r.orders[o] == s.orders[o]
  }

  lemma {:induction false} SiblingsDiffer(a: map<OrderId, Order>, b: map<OrderId, Order>, code: Code, n: nat)
    requires forall o: OrderId :: IsLive(b, o) && b[o].code == code <==> IsLive(a, o) && a[o].code == code
    ensures Siblings(b, code, n) == Siblings(a, code, n)
    decreases n
  {
    if n > 0 { SiblingsDiffer(a, b, code, n - 1); }
  }

  /** Folding one code moves no row of another and leaves its own with one. */
  lemma {:induction false} FoldFrame(s: State, p: OrderId, code: Code)
    requires Splits(s, p)
    ensures var r := Consolidate(s, p);
      Numbered(r) && if code == s.orders[p].code then SiblingsOf(r, code) == [p] else SameRows(s, r, code)
  {
    hide Consolidate, SiblingsOf, MergeLines, Repoint, RepointLedger, MergedOrder;
    var sibs, r := SiblingsOf(s, s.orders[p].code), Consolidate(s, p);
    SplitFacts(s, p, sibs);
    TablesAfter(s, p, sibs);
    if code == s.orders[p].code {
      OneRowLeft(s, p);
      SiblingsAlone(r, p);
    } else {
      OthersStay(s, r, sibs, p, code);
    }
  }

  lemma {:induction false} OthersStay(s: State, r: State, sibs: seq<OrderId>, p: OrderId, code: Code)
    requires r.nextOrder == s.nextOrder && r.orders.Keys == s.orders.Keys && p in sibs
    requires forall o :: o in sibs ==> IsLive(s.orders, o) && s.orders[o].code != code
    requires forall o :: o in sibs && o in r.orders ==> r.orders[o].code != code
    requires forall o :: o in s.orders && o !in sibs ==> r.orders[o] == s.orders[o]
    ensures SameRows(s, r, code)
  {
    SiblingsDiffer(s.orders, r.orders, code, s.nextOrder);
  }

  // ----- One delivery --------------------------------------------------------------------------

  /** The oldest row of the code, or of its stored rows only. */
  ghost predicate Oldest(s: State, code: Code, stored: bool, o: OrderId) {
    Counts(s.orders, code, stored, o) && forall x: OrderId :: x < o ==> !Counts(s.orders, code, stored, x)
  }

  /** The row a split code is folded into: its oldest stored row, or its oldest row when none is stored. */
  ghost predicate Chosen(s: State, code: Code, p: OrderId) {
    Oldest(s, code, HasStored(s.orders, code, s.nextOrder), p)
  }

  lemma {:induction false} ActiveIsChosen(s: State, code: Code, p: OrderId)
    requires Numbered(s) && |SiblingsOf(s, code)| > 0
    ensures Chosen(s, code, p) <==> p == ActiveRow(s.orders, SiblingsOf(s, code))
  {
    hide Siblings, NonDrafts, Counts;
    FirstIs(s.orders, code, true, s.nextOrder);
    FirstIs(s.orders, code, false, s.nextOrder);
    var stored := HasStored(s.orders, code, s.nextOrder);
    var first := FirstCounting(s.orders, code, stored, 0, s.nextOrder);
    assert stored <==> FirstCounting(s.orders, code, true, 0, s.nextOrder) < s.nextOrder;
    assert ActiveRow(s.orders, SiblingsOf(s, code)) == first < s.nextOrder;
  }

  lemma {:induction false} OldestIsFirst(s: State, code: Code, f: OrderId)
    requires Numbered(s) && Oldest(s, code, false, f)
    ensures |SiblingsOf(s, code)| > 0 && SiblingsOf(s, code)[0] == f
  {
    hide Siblings;
    FirstIs(s.orders, code, false, s.nextOrder);
  }

  /**
   * A delivery under a split code folds the code into its chosen row and is then booked as under an unsplit one,
   * except for the destination: that of the oldest row, else the parcel's own.
   */
  lemma {:induction false} SplitDelivery(s: State, item: Arrival, hub: Option<HubId>, trip: Option<Code>, p: OrderId,
        f: OrderId)
    requires Numbered(s) && |item.code| > 0 && |SiblingsOf(s, item.code)| > 1
    requires Chosen(s, item.code, p) && Oldest(s, item.code, false, f)
    ensures Splits(s, p) && IntakeEffects.Receives(Consolidate(s, p), item.code, p)
    ensures var r, plain := QuickCreate(s, item, hub, trip), QuickCreate(Consolidate(s, p), item, hub, trip);
      r.nextOrder == plain.nextOrder && r.stops == plain.stops && r.ledger == plain.ledger &&
      OnlyRow(plain.orders, r.orders, p) && p in plain.orders &&
      r.orders[p] == plain.orders[p].(destHub := r.orders[p].destHub) &&
      r.orders[p].destHub == if s.orders[f].destHub.Some? then s.orders[f].destHub else item.dest
    ensures QuickCreate(s, item, hub, trip) == QuickCreate(Consolidate(s, p), item, hub, trip) <==>
      s.orders[f].destHub.Some? || s.orders[p].destHub.None? || s.orders[p].destHub == item.dest
  {
    hide Consolidate, Siblings, Absorb, UpsertStop, Book, Counts;
    SplitBooked(s, item, hub, p, f);
    var one := Consolidate(s, p);
    var booked, plain := Book(s, item, hub).0, Book(one, item, hub).0;
    assert booked.orders == plain.orders[p := booked.orders[p]];
    Absorbed(one.orders[p], item, hub);
  }

  lemma {:induction false} Absorbed(o: Order, item: Arrival, hub: Option<HubId>)
    ensures Absorb(o, item, hub).destHub == o.destHub
  {
  }

  lemma {:induction false} SplitBooked(s: State, item: Arrival, hub: Option<HubId>, p: OrderId, f: OrderId)
    requires Numbered(s) && |item.code| > 0 && |SiblingsOf(s, item.code)| > 1
    requires Chosen(s, item.code, p) && Oldest(s, item.code, false, f)
    ensures Splits(s, p) && IntakeEffects.Receives(Consolidate(s, p), item.code, p)
    ensures var one := Consolidate(s, p);
      f in s.orders && p in one.orders && one.orders[p].destHub == s.orders[f].destHub.OrElse(s.orders[p].destHub) &&
      Book(s, item, hub) ==
        (one.(orders := one.orders[p := Absorb(one.orders[p], item, hub)
           .(destHub := s.orders[f].destHub.OrElse(item.dest))]), p) &&
      Book(one, item, hub) ==
        (one.(orders := one.orders[p := Absorb(one.orders[p], item, hub)
           .(destHub := one.orders[p].destHub.OrElse(item.dest))]), p)
  {
    hide Consolidate, Siblings, Absorb, MergeLines, Repoint, RepointLedger, NonDrafts, Chosen, Oldest, Sum,
        SumWeight, SumVolume;
    var sibs := SiblingsOf(s, item.code);
    ActiveIsChosen(s, item.code, p);
    OldestIsFirst(s, item.code, f);
    assert p in sibs;
    SplitFacts(s, p, sibs);
    TablesAfter(s, p, sibs);
    FoldFrame(s, p, item.code);
    OneRowLeft(s, p);
    ActiveAlone(Consolidate(s, p).orders, p);
  }

  // ----- A batch -------------------------------------------------------------------------------

  /** The code folded into its chosen row when it is split. */
  function Fold(s: State, code: Code): State {
    var sibs := SiblingsOf(s, code);
    if |sibs| <= 1 then s
    else
      var p := ActiveRow(s.orders, sibs);
      assert p in sibs;
      Consolidate(s, p)
  }

  /** Every code a client sent with the first n items, folded. */
  function FoldAll(s: State, items: seq<Parcel>, n: nat): State
    requires n <= |items|
    decreases n
  {
    if n == 0 then s
    else
      var before, code := FoldAll(s, items, n - 1), items[n - 1].item.code;
      if Prefetched(items, code) then Fold(before, code) else before
  }

  lemma {:induction false} FoldIs(s: State, code: Code, other: Code)
    requires Numbered(s) && |code| > 0
    ensures var r := Fold(s, code);
      Numbered(r) && r.nextOrder == s.nextOrder && r.orders.Keys == s.orders.Keys && |SiblingsOf(r, code)| <= 1 &&
      (|SiblingsOf(s, code)| > 1 ==> SiblingsOf(r, code) == [ActiveRow(s.orders, SiblingsOf(s, code))]) &&
      (other != code || |SiblingsOf(s, code)| <= 1 ==> SameRows(s, r, other))
  {
    hide Consolidate, Siblings;
    var sibs := SiblingsOf(s, code);
    if |sibs| > 1 {
      var p := ActiveRow(s.orders, sibs);
      assert p in sibs;
      FoldFrame(s, p, code);
      FoldFrame(s, p, other);
    }
  }

  lemma {:induction false} SameRowsAgain(a: State, b: State, c: State, code: Code)
    requires SameRows(a, b, code) && SameRows(b, c, code)
    ensures SameRows(a, c, code)
  {
  }

  predicate Coded(items: seq<Parcel>) {
    forall i :: 0 <= i < |items| ==> |items[i].item.code| > 0
  }

  lemma {:induction false} FoldedNumbered(s: State, items: seq<Parcel>, n: nat)
    requires n <= |items| && Numbered(s) && Coded(items)
    ensures Numbered(FoldAll(s, items, n)) && FoldAll(s, items, n).orders.Keys == s.orders.Keys
    decreases n
  {
    hide Fold, Prefetched, Numbered;
    if n > 0 {
      FoldedNumbered(s, items, n - 1);
      FoldIs(FoldAll(s, items, n - 1), items[n - 1].item.code, items[n - 1].item.code);
    }
  }

  /** Folding on moves no row of a code that is not split, or not among the codes folded next. */
  lemma {:induction false} FoldedOn(s: State, items: seq<Parcel>, m: nat, n: nat, code: Code)
    requires m <= n <= |items| && Numbered(s) && Coded(items)
    requires |SiblingsOf(FoldAll(s, items, m), code)| <= 1 || forall i :: m <= i < n ==> items[i].item.code != code
    ensures SameRows(FoldAll(s, items, m), FoldAll(s, items, n), code)
    decreases n
  {
    hide Fold, Siblings, Prefetched, Numbered;
    FoldedNumbered(s, items, m);
    if m < n {
      FoldedOn(s, items, m, n - 1, code);
      FoldedNumbered(s, items, n - 1);
      FoldIs(FoldAll(s, items, n - 1), items[n - 1].item.code, code);
    } else {
      SameRowsSelf(FoldAll(s, items, m), code);
    }
  }

  lemma {:induction false} SameRowsSelf(s: State, code: Code)
    ensures SameRows(s, s, code)
  {
  }

  /** Once an item's code has been looked up and folded, it has one row at most. */
  lemma {:induction false} FoldedOnce(s: State, items: seq<Parcel>, k: nat, n: nat)
    requires k < n <= |items| && Numbered(s) && Coded(items) && Prefetched(items, items[k].item.code)
    ensures |SiblingsOf(FoldAll(s, items, n), items[k].item.code)| <= 1
  {
    hide Fold, Siblings, Prefetched, Numbered;
    FoldedNumbered(s, items, k);
    FoldIs(FoldAll(s, items, k), items[k].item.code, items[k].item.code);
    FoldedOn(s, items, k + 1, n, items[k].item.code);
  }

  /** Two runs of the preparing loop that differ in the tables behind them only. */
  ghost predicate SameWork(a: Batch, b: Batch) {
    a.work == b.work && a.queue == b.queue && a.metas == b.metas
  }

  predicate Met(items: seq<Parcel>, n: nat, code: Code)
    requires n <= |items|
  {
    exists i :: 0 <= i < n && items[i].item.code == code
  }

  lemma {:induction false} FoldedPrepares(s: State, items: seq<Parcel>, hub: Option<HubId>, n: nat)
    requires n <= |items| && Numbered(s) && Coded(items)
    ensures var folded := FoldAll(s, items, |items|); var b := PrepareAll(s, items, hub, n);
      SameWork(PrepareAll(folded, items, hub, n), b) && PrepareAll(folded, items, hub, n).s == folded &&
      b.s == FoldAll(s, items, n) && forall x :: x in b.work <==> Met(items, n, x)
    decreases n
  {
    hide Fold, SiblingsOf, Prefetched, Numbered, Prepare;
    if n > 0 {
      var folded, code := FoldAll(s, items, |items|), items[n - 1].item.code;
      FoldedPrepares(s, items, hub, n - 1);
      FoldedNumbered(s, items, |items|);
      var b, c := PrepareAll(s, items, hub, n - 1), PrepareAll(folded, items, hub, n - 1);
      FoldedStep(s, items, hub, n - 1, b, c);
      forall x ensures Met(items, n, x) <==> Met(items, n - 1, x) || x == code {}
    }
  }

  lemma {:induction false} FoldedStep(s: State, items: seq<Parcel>, hub: Option<HubId>, n: nat, b: Batch, c: Batch)
    requires n < |items| && Numbered(s) && Coded(items) && SameWork(b, c)
    requires b.s == FoldAll(s, items, n) && c.s == FoldAll(s, items, |items|)
    requires b.s.orders.Keys == s.orders.Keys == c.s.orders.Keys
    requires forall x :: x in b.work <==> Met(items, n, x)
    ensures var item := items[n].item;
      var next, after := Prepare(b, Fetched(s, items, item.code), item, hub),
                         Prepare(c, Fetched(c.s, items, item.code), item, hub);
      SameWork(next, after) && after.s == c.s && next.s == FoldAll(s, items, n + 1) &&
      next.work.Keys == b.work.Keys + {item.code}
  {
    hide Fold, SiblingsOf, Prefetched, Numbered, Absorb, NewOrder, ActiveRow, Consolidate, SameRows;
    var item := items[n].item;
    if Prefetched(items, item.code) {
      FoldedNumbered(s, items, n);
      if Met(items, n, item.code) {
        var k :| 0 <= k < n && items[k].item.code == item.code;
        FoldedOnce(s, items, k, n);
        FoldSettled(b.s, item.code);
      } else {
        FirstMet(s, items, n, item.code);
        FetchedFolds(s, b, c, FoldAll(s, items, n + 1), item.code);
      }
    }
  }

  lemma {:induction false} FirstMet(s: State, items: seq<Parcel>, n: nat, code: Code)
    requires n < |items| && Numbered(s) && Coded(items) && items[n].item.code == code && Prefetched(items, code)
    requires !Met(items, n, code)
    ensures var before, next := FoldAll(s, items, n), FoldAll(s, items, n + 1);
      next == Fold(before, code) && Numbered(before) && SameRows(s, before, code) &&
      SameRows(next, FoldAll(s, items, |items|), code) &&
      (|SiblingsOf(before, code)| > 1 ==>
        SiblingsOf(next, code) == [ActiveRow(before.orders, SiblingsOf(before, code))])
  {
    hide Fold, SiblingsOf, Prefetched, Numbered, ActiveRow, SameRows;
    FoldedNumbered(s, items, n);
    FoldedOn(s, items, 0, n, code);
    FoldIs(FoldAll(s, items, n), code, code);
    FoldedOn(s, items, n + 1, |items|, code);
  }

  lemma {:induction false} FoldSettled(s: State, code: Code)
    requires |SiblingsOf(s, code)| <= 1
    ensures Fold(s, code) == s
  {
  }

  /** A code met for the first time: the loop folds it, or finds it folded. */
  lemma {:induction false} FetchedFolds(s: State, b: Batch, c: Batch, next: State, code: Code)
    requires code !in b.work && code !in c.work && next == Fold(b.s, code) && Numbered(b.s) && |code| > 0
    requires b.s.orders.Keys == s.orders.Keys == c.s.orders.Keys
    requires SameRows(s, b.s, code) && SameRows(next, c.s, code)
    requires |SiblingsOf(b.s, code)| > 1 ==> SiblingsOf(next, code) == [ActiveRow(b.s.orders, SiblingsOf(b.s, code))]
    ensures EntryFor(b, SiblingsOf(s, code), code) == (next, EntryFor(c, SiblingsOf(c.s, code), code).1)
    ensures EntryFor(c, SiblingsOf(c.s, code), code).0 == c.s
  {
    hide SiblingsOf, Numbered, Consolidate, ActiveRow;
    var sibs := SiblingsOf(s, code);
    if |sibs| > 0 {
      ActiveAlone(b.s.orders, sibs[0]);
      ActiveAlone(c.s.orders, sibs[0]);
      ActiveAlone(c.s.orders, ActiveRow(b.s.orders, sibs));
    }
  }

  /** A vehicle that names split codes: folding them first and then booking it leaves the same tables. */
  lemma {:induction false} SplitBatch(s: State, items: seq<Parcel>, hub: Option<HubId>, trip: Code)
    requires Numbered(s) && Coded(items)
    ensures BatchCreate(s, items, hub, trip) == BatchCreate(FoldAll(s, items, |items|), items, hub, trip)
    ensures forall i :: 0 <= i < |items| && Prefetched(items, items[i].item.code) ==>
      |SiblingsOf(FoldAll(s, items, |items|), items[i].item.code)| <= 1
  {
    hide PrepareAll, SiblingsOf, SaveOrders, FoldAll, Prefetched, Numbered;
    FoldedPrepares(s, items, hub, |items|);
    forall i | 0 <= i < |items| && Prefetched(items, items[i].item.code)
      ensures |SiblingsOf(FoldAll(s, items, |items|), items[i].item.code)| <= 1
    {
      FoldedOnce(s, items, i, |items|);
    }
  }

  lemma {:induction false} AtMostOne(s: State, code: Code)
    requires Numbered(s) && |SiblingsOf(s, code)| <= 1
    ensures Single(s, code)
  {
    hide Siblings;
    var sibs := SiblingsOf(s, code);
    forall a, b | IsLive(s.orders, a) && IsLive(s.orders, b) && s.orders[a].code == code == s.orders[b].code
      ensures a == b
    {
      assert a in sibs && b in sibs;
    }
  }

  /** So a batch over split codes is booking its items one by one, once the codes are folded. */
  lemma {:induction false} SplitBatchOneByOne(s: State, items: seq<Parcel>, hub: HubId, trip: Code)
    requires Numbered(s) && Coded(items) && |items| > 0
    requires forall i :: 0 <= i < |items| ==> Looked(s, items, items[i].item.code)
    ensures BatchCreate(s, items, Some(hub), trip).Ok?
    ensures SameTables(BatchCreate(s, items, Some(hub), trip).value,
                       OneByOne(FoldAll(s, items, |items|), items, Some(hub), trip, |items|))
  {
    hide BatchCreate, Siblings, Fold, Numbered, Single, SameTables;
    var folded := FoldAll(s, items, |items|);
    SplitBatch(s, items, Some(hub), trip);
    FoldedNumbered(s, items, |items|);
    forall i | 0 <= i < |items|
      ensures Single(folded, items[i].item.code) && Looked(folded, items, items[i].item.code)
    {
      if !Prefetched(items, items[i].item.code) {
        assert SiblingsOf(s, items[i].item.code) == [];
        FoldedOn(s, items, 0, |items|, items[i].item.code);
      }
      AtMostOne(folded, items[i].item.code);
    }
    BatchRefinesOneByOne(folded, items, hub, trip);
  }
}
