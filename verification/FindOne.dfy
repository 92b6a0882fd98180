/** Looking an order up by its code: what readers see of a code, split or not. */
module FindOne {
  import opened Basics
  import opened Sums
  import opened Model
  import opened Consolidation

  function UpperChar(c: char): char {
    if 'a' <= c <= 'z' then (c as int - 32) as char
    else if c == '\U{0131}' then 'I'
    else c
  }

  function Upper(s: string): string {
    if |s| == 0 then s else Upper(s[..|s| - 1]) + [UpperChar(s[|s| - 1])]
  }

  /** The reader's draft test ignores case; the writers' test does not. */
  predicate ReadsAsDraft(st: Status) {
    DraftLike(st) || (st.OTHER? && Upper(st.name) in {"DRAFT", "PENDING", "WAITING"})
  }

  predicate IsPendingInbound(t: Line) {
    t.live && t.kind.InboundLine? && t.status.LinePending?
  }

  datatype View = View(
    total: int, inbound: int, outbound: int, remaining: int, load: Load, pendingQty: int, pendingTrips: set<Code>)

  function ReadNonDrafts(orders: map<OrderId, Order>, ids: seq<OrderId>): seq<OrderId> {
    if |ids| == 0 then []
    else
      var front := ReadNonDrafts(orders, ids[..|ids| - 1]);
      var o := ids[|ids| - 1];
      if o in orders && !ReadsAsDraft(orders[o].status) then front + [o] else front
  }

  function Members(orders: map<OrderId, Order>, sibs: seq<OrderId>): seq<OrderId> {
    var stocked := ReadNonDrafts(orders, sibs);
    if |stocked| > 0 then stocked else sibs
  }

  function PendingOf(sibs: seq<OrderId>): Line -> int {
    (t: Line) => if t.order in sibs && IsPendingInbound(t) then Allocated(t) else 0
  }

  function PendingTrips(ls: seq<Line>, sibs: seq<OrderId>): set<Code> {
    set i | 0 <= i < |ls| && ls[i].order in sibs && IsPendingInbound(ls[i]) && ls[i].trip.Some? &&
      |ls[i].trip.value| > 0
      :: ls[i].trip.value
  }

  function ViewOf(s: State, sibs: seq<OrderId>): View
    requires |sibs| > 0 && sibs[0] in s.orders
  {
    var o := s.orders[sibs[0]];
    var pending, trips := Sum(s.lines, PendingOf(sibs)), PendingTrips(s.lines, sibs);
    if |sibs| == 1 then View(o.total, o.inbound, o.outbound, o.remaining, o.load, pending, trips)
    else
      var m := Members(s.orders, sibs);
      View(Sum(m, TotalCol(s.orders)), Sum(m, InboundCol(s.orders)), Sum(m, OutboundCol(s.orders)), Sum(m,
        RemainingCol(s.orders)),
           SummedLoad(s.orders, m), pending, trips)
  }

  /** findOne with a code that does not read as a number. */
  function Find(s: State, code: Code): Result<View> {
    var sibs := SiblingsOf(s, code);
    if |code| == 0 || |sibs| == 0 then Err(NotFound) else assert sibs[0] in sibs; Ok(ViewOf(s, sibs))
  }
}
