/** The rows of a code after consolidation, told by the rows before it. */
module ConsolidationEffects {
  import opened Basics
  import opened Sums
  import opened Model
  import opened Consolidation
  import opened ConsolidationLaws

  // ----- What the group adds up to -------------------------------------------------------------

  /** A live row of the code; of its stored rows only, when some row is stored. */
  predicate Counts(orders: map<OrderId, Order>, code: Code, stored: bool, o: OrderId) {
    o in orders && orders[o].live && orders[o].code == code && (stored ==>
      orders[o].status !in {DRAFT, PENDING, WAITING})
  }

  /** A column over the counting rows with ids below n. */
  function Over(orders: map<OrderId, Order>, code: Code, stored: bool, col: Order -> int, n: nat): int {
    if n == 0 then 0
    else Over(orders, code, stored, col, n - 1) + if Counts(orders, code, stored, n - 1) then col(orders[n - 1]) else 0
  }

  function OverReal(orders: map<OrderId, Order>, code: Code, stored: bool, col: Order -> real, n: nat): real {
    if n == 0 then 0.0
    else
      OverReal(orders, code, stored, col, n - 1) +
      if Counts(orders, code, stored, n - 1) then col(orders[n - 1]) else 0.0
  }

  predicate HasStored(orders: map<OrderId, Order>, code: Code, n: nat) {
    exists o: nat :: o < n && Counts(orders, code, true, o)
  }

  /** The id of the first stored row below n, or n. */
  function FirstCounting(orders: map<OrderId, Order>, code: Code, stored: bool, from: nat, n: nat): (r: nat)
    requires from <= n
    ensures from <= r <= n && (r < n ==> Counts(orders, code, stored, r))
    ensures forall o :: from <= o < r ==> !Counts(orders, code, stored, o)
    decreases n - from
  {
    if from == n || Counts(orders, code, stored, from) then from else FirstCounting(orders, code, stored, from + 1, n)
  }

  /** The rows a consolidation adds up, by the group's list. */
  function Rows(orders: map<OrderId, Order>, code: Code, stored: bool, n: nat): seq<OrderId> {
    if stored then NonDrafts(orders, Siblings(orders, code, n)) else Siblings(orders, code, n)
  }

  lemma {:induction false} RowsStep(orders: map<OrderId, Order>, code: Code, stored: bool, n: nat)
    requires 0 < n
    ensures Rows(orders, code, stored, n) ==
      if Counts(orders, code, stored, n - 1) then Rows(orders, code, stored, n - 1) + [n - 1]
      else Rows(orders, code, stored, n - 1)
  {
    var lower := Siblings(orders, code, n - 1);
    if Counts(orders, code, false, n - 1) {
      assert (lower + [n - 1])[..|lower|] == lower;
    }
  }

  lemma {:induction false} ColumnIs(orders: map<OrderId, Order>, code: Code, stored: bool, n: nat,
        col: Order -> int, f: OrderId -> int)
    requires forall o :: o in orders ==> f(o) == col(orders[o])
    ensures Sum(Rows(orders, code, stored, n), f) == Over(orders, code, stored, col, n)
    decreases n
  {
    hide Rows;
    if n == 0 {
      NoRowsYet(orders, code, stored);
      SumZero<OrderId>([], f);
    } else {
      ColumnIs(orders, code, stored, n - 1, col, f);
      RowsStep(orders, code, stored, n);
      if Counts(orders, code, stored, n - 1) { SumSnoc<OrderId>(Rows(orders, code, stored, n - 1), n - 1, f); }
    }
  }

  lemma {:induction false} NoRowsYet(orders: map<OrderId, Order>, code: Code, stored: bool)
    ensures Rows(orders, code, stored, 0) == []
  {
  }

  lemma {:induction false} LoadSnoc(orders: map<OrderId, Order>, ids: seq<OrderId>, o: OrderId)
    requires o in orders
    ensures SumWeight(orders, ids + [o]) == SumWeight(orders, ids) + orders[o].load.weight
    ensures SumVolume(orders, ids + [o]) == SumVolume(orders, ids) + orders[o].load.volume
  {
    assert (ids + [o])[..|ids|] == ids;
  }

  lemma {:induction false} WeightIs(orders: map<OrderId, Order>, code: Code, stored: bool, n: nat, col: Order -> real)
    requires forall o :: o in orders ==> col(orders[o]) == orders[o].load.weight
    ensures SumWeight(orders, Rows(orders, code, stored, n)) == OverReal(orders, code, stored, col, n)
    decreases n
  {
    hide Rows, SumVolume;
    if n == 0 {
      NoRowsYet(orders, code, stored);
    } else {
      hide SumWeight;
      WeightIs(orders, code, stored, n - 1, col);
      RowsStep(orders, code, stored, n);
      if Counts(orders, code, stored, n - 1) { LoadSnoc(orders, Rows(orders, code, stored, n - 1), n - 1); }
    }
  }

  lemma {:induction false} VolumeIs(orders: map<OrderId, Order>, code: Code, stored: bool, n: nat, col: Order -> real)
    requires forall o :: o in orders ==> col(orders[o]) == orders[o].load.volume
    ensures SumVolume(orders, Rows(orders, code, stored, n)) == OverReal(orders, code, stored, col, n)
    decreases n
  {
    hide Rows, SumWeight;
    if n == 0 {
      NoRowsYet(orders, code, stored);
    } else {
      hide SumVolume;
      VolumeIs(orders, code, stored, n - 1, col);
      RowsStep(orders, code, stored, n);
      if Counts(orders, code, stored, n - 1) { LoadSnoc(orders, Rows(orders, code, stored, n - 1), n - 1); }
    }
  }

  lemma {:induction false} FirstIs(orders: map<OrderId, Order>, code: Code, stored: bool, n: nat)
    ensures var rows, first := Rows(orders, code, stored, n), FirstCounting(orders, code, stored, 0, n);
      (|rows| == 0 <==> first == n) && (|rows| > 0 ==> rows[0] == first)
    decreases n
  {
    hide Rows;
    if n == 0 {
      NoRowsYet(orders, code, stored);
    } else {
      FirstIs(orders, code, stored, n - 1);
      RowsStep(orders, code, stored, n);
    }
  }

  /**
   * The primary row of a split code: quantities and load of the stored rows (of all rows when none is stored), and the
   * first row's destination.
   */
  lemma {:induction false} RowsMerged(s: State, p: OrderId)
    requires Splits(s, p)
    ensures p in Consolidate(s, p).orders
    ensures var code, n, was, now := s.orders[p].code, s.nextOrder, s.orders[p], Consolidate(s, p).orders[p];
      var stored := FirstCounting(s.orders, code, true, 0, n) < n;
      var first := FirstCounting(s.orders, code, false, 0, n);
      now.total == Over(s.orders, code, stored, (x: Order) => x.total, n) &&
      now.inbound == Over(s.orders, code, stored, (x: Order) => x.inbound, n) &&
      now.outbound == Over(s.orders, code, stored, (x: Order) => x.outbound, n) &&
      now.remaining == Over(s.orders, code, stored, (x: Order) => x.remaining, n) &&
      now.load == Load(Round3(OverReal(s.orders, code, stored, (x: Order) => x.load.weight, n)),
                       Round3(OverReal(s.orders, code, stored, (x: Order) => x.load.volume, n))) &&
      first in s.orders &&
      now.destHub == if s.orders[first].destHub.Some? then s.orders[first].destHub else was.destHub
  {
    hide Consolidate, Over, OverReal, MergeLines, Repoint, RepointLedger, Siblings, NonDrafts, Sum, SumWeight,
        SumVolume, Counts, Round3;
    var code, n, sibs := s.orders[p].code, s.nextOrder, SiblingsOf(s, s.orders[p].code);
    SplitFacts(s, p, sibs);
    TablesAfter(s, p, sibs);
    FirstIs(s.orders, code, true, n);
    FirstIs(s.orders, code, false, n);
    var stored := FirstCounting(s.orders, code, true, 0, n) < n;
    ColumnIs(s.orders, code, stored, n, (x: Order) => x.total, TotalCol(s.orders));
    ColumnIs(s.orders, code, stored, n, (x: Order) => x.inbound, InboundCol(s.orders));
    ColumnIs(s.orders, code, stored, n, (x: Order) => x.outbound, OutboundCol(s.orders));
    ColumnIs(s.orders, code, stored, n, (x: Order) => x.remaining, RemainingCol(s.orders));
    WeightIs(s.orders, code, stored, n, (x: Order) => x.load.weight);
    VolumeIs(s.orders, code, stored, n, (x: Order) => x.load.volume);
  }

  /**
   * It takes the first stored row's status when its own was a draft's and keeps the rest. The other rows are removed,
   * every other order stays.
   */
  lemma {:induction false} RowsLeft(s: State, p: OrderId, o: OrderId)
    requires Splits(s, p) && o in s.orders
    ensures o in Consolidate(s, p).orders && p in Consolidate(s, p).orders && Consolidate(s, p).stops == s.stops
    ensures o != p ==>
      Consolidate(s, p).orders[o] ==
      if Counts(s.orders, s.orders[p].code, false, o) then s.orders[o].(live := false) else s.orders[o]
    ensures var code, n, was, now := s.orders[p].code, s.nextOrder, s.orders[p], Consolidate(s, p).orders[p];
      var stored := FirstCounting(s.orders, code, true, 0, n);
      now == was.(total := now.total, inbound := now.inbound, outbound := now.outbound, remaining := now.remaining,
                  load := now.load, destHub := now.destHub, status := now.status) &&
      now.status ==
      if was.status in {DRAFT, PENDING, WAITING} && stored < n then s.orders[stored].status else was.status
  {
    hide Consolidate, MergeLines, Repoint, RepointLedger, Siblings, NonDrafts, Sum, SumWeight, SumVolume;
    var sibs := SiblingsOf(s, s.orders[p].code);
    SplitFacts(s, p, sibs);
    TablesAfter(s, p, sibs);
    FirstIs(s.orders, s.orders[p].code, true, s.nextOrder);
  }

  // ----- Invoices and lines --------------------------------------------------------------------

  /** A live line of the group on a trip that an earlier live line of the group is already on. */
  predicate SecondOnTrip(ls: seq<Line>, group: seq<OrderId>, k: nat) {
    k < |ls| && ls[k].live && ls[k].order in group && ls[k].trip.Some? && 0 < |ls[k].trip.value| &&
    exists j :: 0 <= j < k && ls[j].live && ls[j].order in group && ls[j].trip == ls[k].trip
  }

  lemma {:induction false} SecondIs(ls: seq<Line>, group: seq<OrderId>, k: nat)
    ensures IsDuplicate(ls, group, k) <==> SecondOnTrip(ls, group, k)
  {
    if SecondOnTrip(ls, group, k) {
      var j :| 0 <= j < k && ls[j].live && ls[j].order in group && ls[j].trip == ls[k].trip;
      assert Joins(ls, group, j, k);
    }
  }

  /**
   * Every invoice of the group, deleted ones too, is the primary row's and keeps everything else, but loses its line
   * when that line is merged away. Every live line of the group is the primary row's; lines merged away are removed.
   */
  lemma {:induction false} RowsRepointed(s: State, p: OrderId)
    requires Splits(s, p)
    ensures var group, r := SiblingsOf(s, s.orders[p].code), Consolidate(s, p);
      |r.ledger| == |s.ledger| && |r.lines| == |s.lines| &&
      forall i :: 0 <= i < |s.ledger| ==>
        var t := s.ledger[i];
        r.ledger[i] == t.(order := if t.order in group then p else t.order,
                          line := if t.line.Some? && SecondOnTrip(s.lines, group, t.line.value) then None else t.line)
    ensures var group, r := SiblingsOf(s, s.orders[p].code), Consolidate(s, p);
      |r.lines| == |s.lines| &&
      forall i :: 0 <= i < |s.lines| ==>
        var t, gone := s.lines[i], SecondOnTrip(s.lines, group, i);
        r.lines[i] == t.(order := if t.live && t.order in group && !gone then p else t.order, qty := r.lines[i].qty,
                         live := t.live && !gone)
  {
    hide Consolidate, MergeLines, MergedOrder, Keeper, IsDuplicate, SecondOnTrip, Siblings;
    var group := SiblingsOf(s, s.orders[p].code);
    TablesAfter(s, p, group);
    forall k: nat ensures IsDuplicate(s.lines, group, k) <==> SecondOnTrip(s.lines, group, k) {
      SecondIs(s.lines, group, k);
    }
  }
}
