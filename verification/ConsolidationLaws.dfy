/** Folding the rows of one code into one row conserves everything that counts. */
module ConsolidationLaws {
  import opened Basics
  import opened Sums
  import opened Model
  import opened Consolidation
  import opened Invariant
  import opened RequestLaws

  /** p is a live row of a code that has been split over several rows. */
  predicate Splits(s: State, p: OrderId) {
    Numbered(s) && IsLive(s.orders, p) && |s.orders[p].code| > 0 && |SiblingsOf(s, s.orders[p].code)| > 1
  }

  lemma {:induction false} SplitFacts(s: State, p: OrderId, sibs: seq<OrderId>)
    requires Splits(s, p) && sibs == SiblingsOf(s, s.orders[p].code)
    ensures p in sibs && NoDuplicates(sibs) && Consolidate(s, p) == Merge(s, sibs, p)
    ensures forall o :: o in sibs <==> IsLive(s.orders, o) && s.orders[o].code == s.orders[p].code
  {
  }

  lemma {:induction false} TablesAfter(s: State, p: OrderId, sibs: seq<OrderId>)
    requires Splits(s, p) && sibs == SiblingsOf(s, s.orders[p].code)
    ensures var r := Consolidate(s, p);
      r.lines == Repoint(MergeLines(s.lines, sibs, |s.lines|), sibs, p) &&
        r.ledger == RepointLedger(s.ledger, s.lines, sibs, p) &&
      r.nextOrder == s.nextOrder && |sibs| > 0 && sibs[0] in s.orders && r.orders.Keys == s.orders.Keys &&
        r.orders[p] == MergedOrder(s.orders, sibs, p) &&
      (forall o :: o in s.orders && o != p ==>
        r.orders[o] == if o in sibs then s.orders[o].(live := false) else s.orders[o])
  {
    hide MergedOrder, MergeLines, Repoint, RepointLedger;
    SplitFacts(s, p, sibs);
    assert sibs[0] in sibs;
  }

  // ----- One live row, nothing dangling --------------------------------------------------------

  /** Afterwards the code has one live row, and consolidating once more changes nothing. */
  lemma {:induction false} OneRowLeft(s: State, p: OrderId)
    requires Splits(s, p)
    ensures var r := Consolidate(s, p);
      IsLive(r.orders, p) && Single(r, s.orders[p].code) && r.orders[p].code == s.orders[p].code &&
        Consolidate(r, p) == r
  {
    hide Consolidate, SiblingsOf, MergeLines, Repoint, RepointLedger, MergedOrder;
    var sibs := SiblingsOf(s, s.orders[p].code);
    SplitFacts(s, p, sibs);
    TablesAfter(s, p, sibs);
    MergedKeeps(s.orders, sibs, p);
    NothingToMerge(Consolidate(s, p), p);
  }

  lemma {:induction false} MergedKeeps(orders: map<OrderId, Order>, sibs: seq<OrderId>, p: OrderId)
    requires p in orders && |sibs| > 0 && sibs[0] in orders
    ensures MergedOrder(orders, sibs, p).code == orders[p].code && MergedOrder(orders, sibs, p).live == orders[p].live
  {
  }

  /** No line or invoice of the group is left on a removed order, and no invoice on a merged-away line. */
  lemma {:induction false} NothingDangles(s: State, p: OrderId)
    requires Splits(s, p)
    ensures var r := Consolidate(s, p); var sibs := SiblingsOf(s, s.orders[p].code);
      (forall i :: 0 <= i < |r.lines| && InGroup(r.lines[i], sibs) ==> r.lines[i].order == p) &&
      (forall i :: 0 <= i < |r.ledger| && r.ledger[i].order in sibs ==> r.ledger[i].order == p) &&
      (forall i, k: nat :: 0 <= i < |r.ledger| && r.ledger[i].line == Some(k) && k < |s.lines| && s.lines[k].live ==>
        r.lines[k].live)
  {
    hide Consolidate, SiblingsOf, MergeLines, Repoint, RepointLedger, MergedOrder;
    TablesAfter(s, p, SiblingsOf(s, s.orders[p].code));
    TablesRepointed(s.lines, s.ledger, SiblingsOf(s, s.orders[p].code), p);
  }

  lemma {:induction false} TablesRepointed(ls: seq<Line>, l: seq<Tx>, sibs: seq<OrderId>, p: OrderId)
    ensures var lines := Repoint(MergeLines(ls, sibs, |ls|), sibs, p); var ledger := RepointLedger(l, ls, sibs, p);
      (forall i :: 0 <= i < |ls| && InGroup(lines[i], sibs) ==> lines[i].order == p) &&
      (forall i :: 0 <= i < |l| && ledger[i].order in sibs ==> ledger[i].order == p) &&
      (forall i, k: nat :: 0 <= i < |l| && ledger[i].line == Some(k) && k < |ls| && ls[k].live ==> lines[k].live)
  {
    hide MergeLines, IsDuplicate;
  }

  // ----- Ledger sums ---------------------------------------------------------------------------

  /** An aggregate that looks at neither the order nor the trip row of an invoice: any type, hub, trip, quantity. */
  ghost predicate Blind(g: Tx -> int) {
    forall t: Tx, o: OrderId, i: Option<nat> :: g(t.(order := o, line := i)) == g(t)
  }

  /** The order a live row belongs to. */
  function TxOwner(): Tx -> Option<OrderId> {
    (t: Tx) => if t.live then Some(t.order) else None
  }

  function LineOwner(): Line -> Option<OrderId> {
    (t: Line) => if t.live then Some(t.order) else None
  }

  /** g summed over the live rows of order o. */
  function SumOf(l: seq<Tx>, o: OrderId, g: Tx -> int): int {
    Sum(l, WithKey(TxOwner(), Some(o), g))
  }

  function Owners(ids: seq<OrderId>): (r: seq<Option<OrderId>>)
    ensures |r| == |ids| && forall i :: 0 <= i < |ids| ==> r[i] == Some(ids[i])
    ensures forall x :: x in r <==> x.Some? && x.value in ids
  {
    if |ids| == 0 then []
    else
      var n := |ids| - 1;
      assert forall o :: o in ids <==> o in ids[..n] || o == ids[n];
      Owners(ids[..n]) + [Some(ids[n])]
  }

  function GroupSum(l: seq<Tx>, ids: seq<OrderId>, g: Tx -> int): int {
    Sum(Owners(ids), PerKey(l, TxOwner(), g))
  }

  lemma {:induction false} LedgerRepointed(l: seq<Tx>, ls: seq<Line>, sibs: seq<OrderId>, p: OrderId, g: Tx -> int)
    requires NoDuplicates(sibs) && p in sibs && Blind(g)
    ensures var r := RepointLedger(l, ls, sibs, p);
      SumOf(r, p, g) == GroupSum(l, sibs, g) &&
      (forall o: OrderId :: o in sibs && o != p ==> SumOf(r, o, g) == 0) &&
      (forall o: OrderId :: o !in sibs ==> SumOf(r, o, g) == SumOf(l, o, g))
  {
    hide IsDuplicate;
    var r := RepointLedger(l, ls, sibs, p);
    forall i | 0 <= i < |l| ensures g(r[i]) == g(l[i]) {
      assert r[i] == l[i].(order := r[i].order, line := r[i].line);
    }
    SumByKey(l, Owners(sibs), TxOwner(), g);
    SumPointwise(r, WithKey(TxOwner(), Some(p), g), l, WithKeys(TxOwner(), Owners(sibs), g));
    forall o: OrderId | o in sibs && o != p ensures SumOf(r, o, g) == 0 {
      SumZero(r, WithKey(TxOwner(), Some(o), g));
    }
    forall o: OrderId | o !in sibs ensures SumOf(r, o, g) == SumOf(l, o, g) {
      SumPointwise(r, WithKey(TxOwner(), Some(o), g), l, WithKey(TxOwner(), Some(o), g));
    }
  }

  /** Every ledger aggregate of the group is the primary row's afterwards; other orders keep theirs. */
  lemma {:induction false} LedgerConserved(s: State, p: OrderId, g: Tx -> int)
    requires Splits(s, p) && Blind(g)
    ensures var sibs := SiblingsOf(s, s.orders[p].code); var r := Consolidate(s, p).ledger;
      SumOf(r, p, g) == GroupSum(s.ledger, sibs, g) &&
      (forall o: OrderId :: o in sibs && o != p ==> SumOf(r, o, g) == 0) &&
      (forall o: OrderId :: o !in sibs ==> SumOf(r, o, g) == SumOf(s.ledger, o, g))
  {
    hide Consolidate, SiblingsOf, MergedOrder, RepointLedger, MergeLines, Repoint;
    SplitFacts(s, p, SiblingsOf(s, s.orders[p].code));
    TablesAfter(s, p, SiblingsOf(s, s.orders[p].code));
    LedgerRepointed(s.ledger, s.lines, SiblingsOf(s, s.orders[p].code), p, g);
  }

  // ----- The sums the services ask for ---------------------------------------------------------

  function InboundQty(): Tx -> int { (t: Tx) => if t.kind.InboundTx? then t.qty else 0 }
  function DispatchedQty(): Tx -> int { (t: Tx) => if IsDispatch(t.kind) then t.qty else 0 }

  lemma {:induction false} NamedSums(l: seq<Tx>, o: OrderId)
    ensures SumOf(l, o, InboundQty()) == Inbound(l, o) && SumOf(l, o, DispatchedQty()) == Dispatched(l, o)
  {
    SumPointwise(l, WithKey(TxOwner(), Some(o), InboundQty()), l, InboundOf(o));
    SumPointwise(l, WithKey(TxOwner(), Some(o), DispatchedQty()), l, DispatchedOf(o));
  }

  lemma {:induction false} NoRows(orders: map<OrderId, Order>, l: seq<Tx>)
    ensures Sum<OrderId>([], InboundCol(orders)) == 0 && Sum<OrderId>([], OutboundCol(orders)) == 0
    ensures Sum<OrderId>([], RemainingCol(orders)) == 0
    ensures GroupSum(l, [], InboundQty()) == 0 && GroupSum(l, [], DispatchedQty()) == 0 && NonDrafts(orders, []) == []
  {
  }

  lemma {:induction false} OneMoreOwner(l: seq<Tx>, ids: seq<OrderId>, g: Tx -> int)
    requires |ids| > 0
    ensures GroupSum(l, ids, g) == GroupSum(l, ids[..|ids| - 1], g) + SumOf(l, ids[|ids| - 1], g)
  {
    var n := |ids| - 1;
    SumSnoc(Owners(ids[..n]), Some(ids[n]), PerKey(l, TxOwner(), g));
  }

  lemma {:induction false} OneMoreRow(orders: map<OrderId, Order>, ids: seq<OrderId>)
    requires |ids| > 0 && ids[|ids| - 1] in orders
    ensures var o := ids[|ids| - 1]; var front, all := NonDrafts(orders, ids[..|ids| - 1]), NonDrafts(orders, ids);
      var more := if DraftLike(orders[o].status) then 0 else 1;
      Sum(all, InboundCol(orders)) == Sum(front, InboundCol(orders)) + more * orders[o].inbound &&
      Sum(all, OutboundCol(orders)) == Sum(front, OutboundCol(orders)) + more * orders[o].outbound &&
      Sum(all, RemainingCol(orders)) == Sum(front, RemainingCol(orders)) + more * orders[o].remaining
  {
    var o, front := ids[|ids| - 1], NonDrafts(orders, ids[..|ids| - 1]);
    SumSnoc(front, o, InboundCol(orders));
    SumSnoc(front, o, OutboundCol(orders));
    SumSnoc(front, o, RemainingCol(orders));
  }

  /** The cached column over the rows that count is the ledger sum over all rows: a draft row has neither. */
  lemma {:induction false} ActiveColumns(orders: map<OrderId, Order>, l: seq<Tx>, ids: seq<OrderId>)
    requires forall i :: 0 <= i < |ids| ==> IsLive(orders, ids[i]) && Synced(orders, l, ids[i])
    ensures var stocked := NonDrafts(orders, ids);
      Sum(stocked, InboundCol(orders)) == GroupSum(l, ids, InboundQty()) &&
      Sum(stocked, OutboundCol(orders)) == GroupSum(l, ids, DispatchedQty()) &&
      Sum(stocked, RemainingCol(orders)) == Sum(stocked, InboundCol(orders)) - Sum(stocked, OutboundCol(orders))
    decreases |ids|
  {
    hide Sum, Synced, GroupSum, SumOf, NonDrafts;
    if |ids| == 0 {
      NoRows(orders, l);
    } else {
      var n := |ids| - 1;
      ActiveColumns(orders, l, ids[..n]);
      OneMoreRow(orders, ids);
      OneMoreOwner(l, ids, InboundQty());
      OneMoreOwner(l, ids, DispatchedQty());
      RowColumns(orders, l, ids[n]);
    }
  }

  lemma {:induction false} RowColumns(orders: map<OrderId, Order>, l: seq<Tx>, o: OrderId)
    requires IsLive(orders, o) && Synced(orders, l, o)
    ensures if DraftLike(orders[o].status) then SumOf(l, o, InboundQty()) == 0 && SumOf(l, o, DispatchedQty()) == 0
            else orders[o].inbound == SumOf(l, o, InboundQty()) && orders[o].outbound == SumOf(l, o, DispatchedQty()) &&
                 orders[o].remaining == orders[o].inbound - orders[o].outbound
  {
    NamedSums(l, o);
  }

  lemma {:induction false} AllDraftColumns(orders: map<OrderId, Order>, l: seq<Tx>, ids: seq<OrderId>)
    requires forall i :: 0 <= i < |ids| ==>
      IsLive(orders, ids[i]) && Synced(orders, l, ids[i]) && DraftLike(orders[ids[i]].status)
    ensures Sum(ids, InboundCol(orders)) == 0 && Sum(ids, OutboundCol(orders)) == 0
    ensures Sum(ids, RemainingCol(orders)) == 0
    ensures GroupSum(l, ids, InboundQty()) == 0 && GroupSum(l, ids, DispatchedQty()) == 0
    decreases |ids|
  {
    if |ids| > 0 {
      var n := |ids| - 1;
      NamedSums(l, ids[n]);
      SumSnoc(Owners(ids[..n]), Some(ids[n]), PerKey(l, TxOwner(), InboundQty()));
      SumSnoc(Owners(ids[..n]), Some(ids[n]), PerKey(l, TxOwner(), DispatchedQty()));
      AllDraftColumns(orders, l, ids[..n]);
    }
  }

  /** A group whose rows each agree with the ledger is one row that agrees with the ledger. */
  lemma {:induction false} StaysSynced(s: State, p: OrderId)
    requires Splits(s, p) && AllSynced(s.orders, s.ledger)
    ensures AllSynced(Consolidate(s, p).orders, Consolidate(s, p).ledger)
  {
    hide Consolidate, Synced;
    forall o: OrderId ensures Synced(Consolidate(s, p).orders, Consolidate(s, p).ledger, o) {
      RowStaysSynced(s, p, o);
    }
  }

  lemma {:induction false} RowStaysSynced(s: State, p: OrderId, o: OrderId)
    requires Splits(s, p) && AllSynced(s.orders, s.ledger)
    ensures Synced(Consolidate(s, p).orders, Consolidate(s, p).ledger, o)
  {
    hide Consolidate, SiblingsOf, Inbound, Dispatched, NonDrafts, MergedOrder, MergeLines, Repoint, RepointLedger,
        GroupSum, SumOf;
    var sibs := SiblingsOf(s, s.orders[p].code);
    SplitFacts(s, p, sibs);
    TablesAfter(s, p, sibs);
    LedgerConserved(s, p, InboundQty());
    LedgerConserved(s, p, DispatchedQty());
    NamedSums(Consolidate(s, p).ledger, o);
    NamedSums(s.ledger, o);
    assert Synced(s.orders, s.ledger, o);
    if o == p { MergedSynced(s, p, sibs); }
  }

  lemma {:induction false} MergedSynced(s: State, p: OrderId, sibs: seq<OrderId>)
    requires AllSynced(s.orders, s.ledger) && p in s.orders && p in sibs
    requires forall o :: o in sibs ==> IsLive(s.orders, o)
    requires |sibs| > 0 && sibs[0] in s.orders
    ensures var m := MergedOrder(s.orders, sibs, p);
      m.inbound == GroupSum(s.ledger, sibs, InboundQty()) && m.outbound == GroupSum(s.ledger, sibs, DispatchedQty()) &&
      m.remaining == m.inbound - m.outbound && m.live == s.orders[p].live &&
      (DraftLike(m.status) ==> m.inbound == 0 && m.outbound == 0)
  {
    var stocked := NonDrafts(s.orders, sibs);
    forall i | 0 <= i < |sibs| ensures IsLive(s.orders, sibs[i]) && Synced(s.orders, s.ledger, sibs[i]) {
      assert sibs[i] in sibs;
    }
    ActiveColumns(s.orders, s.ledger, sibs);
    if |stocked| > 0 {
      assert stocked[0] in stocked;
    } else {
      assert forall i :: 0 <= i < |sibs| ==> sibs[i] !in stocked;
      AllDraftColumns(s.orders, s.ledger, sibs);
    }
  }
}
