/** consolidateSiblingOrdersByCode: fold the live rows sharing one order code into a primary row. */
module Consolidation {
  import opened Basics
  import opened Sums
  import opened Model

  // ----- Cached columns ------------------------------------------------------------------------

  function TotalCol(orders: map<OrderId, Order>): OrderId -> int {
    (o: OrderId) => if o in orders then orders[o].total else 0
  }

  function InboundCol(orders: map<OrderId, Order>): OrderId -> int {
    (o: OrderId) => if o in orders then orders[o].inbound else 0
  }

  function OutboundCol(orders: map<OrderId, Order>): OrderId -> int {
    (o: OrderId) => if o in orders then orders[o].outbound else 0
  }

  function RemainingCol(orders: map<OrderId, Order>): OrderId -> int {
    (o: OrderId) => if o in orders then orders[o].remaining else 0
  }

  function SumWeight(orders: map<OrderId, Order>, ids: seq<OrderId>): real {
    if |ids| == 0 then 0.0
    else
      var o := ids[|ids| - 1];
      SumWeight(orders, ids[..|ids| - 1]) + if o in orders then orders[o].load.weight else 0.0
  }

  function SumVolume(orders: map<OrderId, Order>, ids: seq<OrderId>): real {
    if |ids| == 0 then 0.0
    else
      var o := ids[|ids| - 1];
      SumVolume(orders, ids[..|ids| - 1]) + if o in orders then orders[o].load.volume else 0.0
  }

  function NonDrafts(orders: map<OrderId, Order>, ids: seq<OrderId>): (r: seq<OrderId>)
    ensures forall o :: o in r <==> o in ids && o in orders && !DraftLike(orders[o].status)
  {
    if |ids| == 0 then []
    else
      var front := NonDrafts(orders, ids[..|ids| - 1]);
      var o := ids[|ids| - 1];
      assert forall x :: x in ids <==> x in ids[..|ids| - 1] || x == o;
      if o in orders && !DraftLike(orders[o].status) then front + [o] else front
  }

  /** Real rows, when there are any, hide leftover drafts. */
  function Active(orders: map<OrderId, Order>, sibs: seq<OrderId>): seq<OrderId> {
    var stocked := NonDrafts(orders, sibs);
    if |stocked| > 0 then stocked else sibs
  }

  function SummedLoad(orders: map<OrderId, Order>, ids: seq<OrderId>): Load {
    Load(Round3(SumWeight(orders, ids)), Round3(SumVolume(orders, ids)))
  }

  function MergedOrder(orders: map<OrderId, Order>, sibs: seq<OrderId>, p: OrderId): (r: Order)
    requires p in orders && |sibs| > 0 && sibs[0] in orders
    ensures r.code == orders[p].code && r.live == orders[p].live
  {
    var nonDrafts := NonDrafts(orders, sibs);
    var active := Active(orders, sibs);
    var o := orders[p];
    o.(total := Sum(active, TotalCol(orders)),
       inbound := Sum(active, InboundCol(orders)),
       outbound := Sum(active, OutboundCol(orders)),
       remaining := Sum(active, RemainingCol(orders)),
       load := SummedLoad(orders, active),
       destHub := orders[sibs[0]].destHub.OrElse(o.destHub),
       status := if |nonDrafts| > 0 && DraftLike(o.status)
                 then assert nonDrafts[0] in nonDrafts; orders[nonDrafts[0]].status
                 else o.status)
  }

  function Retire(orders: map<OrderId, Order>, sibs: seq<OrderId>, p: OrderId): (r: map<OrderId, Order>)
    ensures r.Keys == orders.Keys
    ensures forall o :: o in orders ==> r[o] == if o in sibs && o != p then orders[o].(live := false) else orders[o]
  {
    map o | o in orders :: if o in sibs && o != p then orders[o].(live := false) else orders[o]
  }

  // ----- Trip lines ----------------------------------------------------------------------------

  predicate InGroup(t: Line, sibs: seq<OrderId>) {
    t.live && t.order in sibs
  }

  /** The grouping key is the trip code; a line without one is a group of its own. */
  predicate Joins(ls: seq<Line>, sibs: seq<OrderId>, j: nat, i: nat)
    requires j < |ls| && i < |ls|
  {
    InGroup(ls[j], sibs) && InGroup(ls[i], sibs) && ls[i].trip.Some? && |ls[i].trip.value| > 0 &&
      ls[j].trip == ls[i].trip
  }

  /** The line of the group that row i is merged into: the first earlier one on the same trip. */
  function Keeper(ls: seq<Line>, sibs: seq<OrderId>, i: nat, from: nat): (r: Option<nat>)
    requires from <= i < |ls|
    ensures r.Some? ==> from <= r.value < i && Joins(ls, sibs, r.value, i)
    ensures r.Some? ==> forall j :: from <= j < r.value ==> !Joins(ls, sibs, j, i)
    ensures r.None? ==> forall j :: from <= j < i ==> !Joins(ls, sibs, j, i)
    decreases i - from
  {
    if from == i then None
    else if Joins(ls, sibs, from, i) then Some(from)
    else Keeper(ls, sibs, i, from + 1)
  }

  predicate IsDuplicate(ls: seq<Line>, sibs: seq<OrderId>, i: nat) {
    i < |ls| && Keeper(ls, sibs, i, 0).Some?
  }

  /** The table after the loop has looked at its first n rows. */
  function MergeLines(ls: seq<Line>, sibs: seq<OrderId>, n: nat): (r: seq<Line>)
    requires n <= |ls|
    ensures |r| == |ls|
    ensures forall i :: 0 <= i < |ls| ==> r[i] == ls[i].(qty := r[i].qty, live := r[i].live)
    ensures forall i :: 0 <= i < |ls| ==> r[i].live == (ls[i].live && !(i < n && IsDuplicate(ls, sibs, i)))
    ensures forall i :: n <= i < |ls| ==> r[i] == ls[i]
  {
    if n == 0 then ls
    else
      var done := MergeLines(ls, sibs, n - 1);
      var i := n - 1;
      match Keeper(ls, sibs, i, 0)
      case None => done
      case Some(k) =>
        done[k := done[k].(qty := Some(Allocated(done[k]) + Allocated(ls[i])))][i := ls[i].(live := false)]
  }

  function Repoint(ls: seq<Line>, sibs: seq<OrderId>, p: OrderId): (r: seq<Line>)
    ensures |r| == |ls|
    ensures forall i :: 0 <= i < |ls| ==> r[i] == if InGroup(ls[i], sibs) then ls[i].(order := p) else ls[i]
  {
    seq(|ls|, i requires 0 <= i < |ls| => if InGroup(ls[i], sibs) then ls[i].(order := p) else ls[i])
  }

  // ----- Ledger --------------------------------------------------------------------------------

  function RepointTx(t: Tx, ls: seq<Line>, sibs: seq<OrderId>, p: OrderId): Tx {
    t.(order := if t.order in sibs then p else t.order,
       line := if t.line.Some? && IsDuplicate(ls, sibs, t.line.value) then None else t.line)
  }

  function RepointLedger(l: seq<Tx>, ls: seq<Line>, sibs: seq<OrderId>, p: OrderId): (r: seq<Tx>)
    ensures |r| == |l|
    ensures forall i :: 0 <= i < |l| ==> r[i] == RepointTx(l[i], ls, sibs, p)
  {
    seq(|l|, i requires 0 <= i < |l| => RepointTx(l[i], ls, sibs, p))
  }

  // ----- The whole step ------------------------------------------------------------------------

  function Merge(s: State, sibs: seq<OrderId>, p: OrderId): (r: State)
    requires p in s.orders && |sibs| > 0 && sibs[0] in s.orders
    ensures r.orders.Keys == s.orders.Keys && r.nextOrder == s.nextOrder && r.stops == s.stops
    ensures r.orders[p] == MergedOrder(s.orders, sibs, p)
    ensures forall o :: o in s.orders && o != p ==>
      r.orders[o] == if o in sibs then s.orders[o].(live := false) else s.orders[o]
  {
    s.(orders := Retire(s.orders, sibs, p)[p := MergedOrder(s.orders, sibs, p)],
       lines := Repoint(MergeLines(s.lines, sibs, |s.lines|), sibs, p),
       ledger := RepointLedger(s.ledger, s.lines, sibs, p))
  }

  function Consolidate(s: State, p: OrderId): (r: State)
    requires p in s.orders
    ensures r.orders.Keys == s.orders.Keys && r.nextOrder == s.nextOrder
    ensures forall o :: o in s.orders ==> r.orders[o].code == s.orders[o].code
  {
    var sibs := SiblingsOf(s, s.orders[p].code);
    if |s.orders[p].code| == 0 || |sibs| <= 1 then s
    else assert sibs[0] in sibs; Merge(s, sibs, p)
  }
}
