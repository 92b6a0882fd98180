/** reconcileOrderQuantities and the cancellation of an inbound draft that relies on it. */
module Reconcile {
  import opened Basics
  import opened Sums
  import opened Model
  import opened Dispatch
  import opened RunningBalance

  /** Every PENDING line of the order counts, outbound drafts included. */
  function PendingOn(o: OrderId): Line -> int {
    (t: Line) => if t.live && t.status.LinePending? && t.order == o then Allocated(t) else 0
  }

  function PendingAllocation(ls: seq<Line>, o: OrderId): int {
    Sum(ls, PendingOn(o))
  }

  predicate HasActive(l: seq<Tx>, ids: seq<OrderId>) {
    exists i :: 0 <= i < |l| && LiveIn(l[i], ids)
  }

  function ReconciledRow(o: Order, received: int, sent: int, pending: int): Order {
    var left := Max(0, received - sent);
    o.(inbound := received, outbound := sent, remaining := left, total := received + pending,
       status := if left == 0 && sent > 0 then COMPLETED_INBOUND else if received > 0 then INBOUND else o.status)
  }

  /** The first live row of the code takes the ledger's sums, when the code has a live invoice at all. */
  function ReconcileCode(s: State, code: Code): State {
    var ids := SiblingsOf(s, code);
    if |ids| == 0 || !HasActive(s.ledger, ids) then s
    else
      assert ids[0] in ids;
      s.(orders := s.orders[ids[0] := ReconciledRow(s.orders[ids[0]], GroupIn(s.ledger, ids), GroupOut(s.ledger, ids),
                                              PendingAllocation(s.lines, ids[0]))])
  }

  // ----- cancelInboundDraft --------------------------------------------------------------------

  predicate IsPendingLine(t: Line, c: Code) {
    OnTrip(t, c) && t.status.LinePending?
  }

  predicate OnlyPlanned(st: Status) {
    st.DRAFT? || st.PENDING?
  }

  /** DRAFT and PENDING orders that ever had a row on the trip. */
  function DropOrders(s: State, c: Code): (r: map<OrderId, Order>)
    ensures r.Keys == s.orders.Keys
  {
    map o | o in s.orders ::
      if OnlyPlanned(s.orders[o].status) &&
        exists i :: 0 <= i < |s.lines| && s.lines[i].trip == Some(c) && s.lines[i].order == o
      then s.orders[o].(live := false) else s.orders[o]
  }

  function DropPending(ls: seq<Line>, c: Code): (r: seq<Line>)
    ensures |r| == |ls|
    ensures forall i :: 0 <= i < |ls| ==> r[i] == if IsPendingLine(ls[i], c) then ls[i].(live := false) else ls[i]
  {
    seq(|ls|, i requires 0 <= i < |ls| => if IsPendingLine(ls[i], c) then ls[i].(live := false) else ls[i])
  }

  /** The codes to reconcile: those of cancelled lines whose order was more than planned, each once. */
  function CodesToReconcile(s: State, c: Code, n: nat): (r: seq<Code>)
    requires n <= |s.lines|
    ensures NoDuplicates(r)
    decreases n
  {
    if n == 0 then []
    else
      var front, t := CodesToReconcile(s, c, n - 1), s.lines[n - 1];
      if IsPendingLine(t, c) && t.order in s.orders && !OnlyPlanned(s.orders[t.order].status) &&
         |s.orders[t.order].code| > 0 && s.orders[t.order].code !in front
      then front + [s.orders[t.order].code] else front
  }

  function ReconcileCodes(s: State, codes: seq<Code>): State
    decreases |codes|
  {
    if |codes| == 0 then s else ReconcileCode(ReconcileCodes(s, codes[..|codes| - 1]), codes[|codes| - 1])
  }

  predicate HasPendingStop(stops: map<(Code, HubId), Stop>, c: Code, hub: Option<HubId>) {
    exists k ::
      k in stops && k.0 == c && stops[k].live && stops[k].status.StopPending? && (hub.None? || k.1 == hub.value)
  }

  function DropStops(stops: map<(Code, HubId), Stop>, c: Code, hub: Option<HubId>): map<(Code, HubId), Stop> {
    map k | k in stops ::
      if k.0 == c && stops[k].status.StopPending? && (hub.None? || k.1 == hub.value)
        then stops[k].(live := false) else stops[k]
  }

  function CancelInbound(s: State, c: Code, userHub: Option<HubId>): Result<State> {
    if |c| == 0 ||
      (!HasPendingStop(s.stops, c, userHub) && !(exists i :: 0 <= i < |s.lines| && IsPendingLine(s.lines[i], c)))
    then Err(NotFound)
    else
      var dropped := s.(stops := DropStops(s.stops, c, userHub), orders := DropOrders(s, c),
          lines := DropPending(s.lines, c));
      Ok(ReconcileCodes(dropped, CodesToReconcile(s, c, |s.lines|)))
  }
}
