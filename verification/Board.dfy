/** The outbound board: what it offers for the lines of a saved draft. */
module Board {
  import opened Basics
  import opened Sums
  import opened Model
  import opened Dispatch
  import opened Invariant
  import opened OutboundLaws
  import opened RequestLaws
  import opened Requests

  // ----- The batched reservation query ---------------------------------------------------------

  predicate Reserves(t: Line, ids: seq<OrderId>, h: HubId, except: Option<Code>) {
    IsPlanned(t) && t.order in ids && t.origin == Some(h) && NotExcluded(t.trip, except)
  }

  /** GROUP BY "orderId": each order with a matching line, once. */
  function GroupedOrders(ls: seq<Line>, ids: seq<OrderId>, h: HubId, except: Option<Code>): (r: seq<OrderId>)
    ensures NoDuplicates(r)
    ensures forall o :: o in r ==> o in ids
    ensures forall i :: 0 <= i < |ls| && Reserves(ls[i], ids, h, except) ==> ls[i].order in r
  {
    if |ls| == 0 then []
    else
      var front, t := GroupedOrders(ls[..|ls| - 1], ids, h, except), ls[|ls| - 1];
      if Reserves(t, ids, h, except) && t.order !in front then front + [t.order] else front
  }

  /** getBatchPendingOutboundAllocations agrees with the query for a single order, a missing entry meaning zero. */
  method BatchAllocations(ls: seq<Line>, ids: seq<OrderId>, hub: Option<HubId>, except: Option<Code>)
    returns (m: map<OrderId, int>)
    ensures forall o :: o in m ==> o in ids
    ensures forall o :: o in ids ==> PendingOutbound(ls, o, hub, except) == if o in m then m[o] else 0
  {
    m := map[];
    if hub.Some? && |ids| > 0 {
      var rows := GroupedOrders(ls, ids, hub.value, except);
      for i := 0 to |rows|
        invariant forall o :: o in m <==> o in rows[..i]
        invariant forall o :: o in m ==> m[o] == Reserved(ls, o, hub.value, except)
      {
        m := m[rows[i] := Reserved(ls, rows[i], hub.value, except)];
      }
      forall o | o in ids && o !in m ensures PendingOutbound(ls, o, hub, except) == 0 {
        SumZero(ls, ReservedAt(o, hub.value, except));
      }
    }
  }

  // ----- The rows of one draft trip ------------------------------------------------------------

  /** computeHubView: stock and reservations of the viewing hub. */
  datatype HubView = HubView(stock: int, pending: int)
  {
    function Offer(): int {
      Max(0, stock - pending)
    }
  }

  function ViewAt(s: State, o: OrderId, h: HubId): HubView {
    HubView(Stock(s.ledger, o, Some(h)), Reserved(s.lines, o, h, None))
  }

  predicate DraftRow(t: Line, c: Code) {
    OnTrip(t, c) && t.status.LinePending? && t.qty.Some?
  }

  function OwnOf(o: OrderId, c: Code): Line -> int {
    (t: Line) =>
      if t.live && t.trip == Some(c) && t.status.LinePending? && t.order == o && t.qty.Some? then t.qty.value else 0
  }

  /** What the trip itself holds of an order. */
  function Own(ls: seq<Line>, o: OrderId, c: Code): int {
    Sum(ls, OwnOf(o, c))
  }

  datatype BoardRow = BoardRow(order: OrderId, exported: int, effective: int, pending: int)

  function At(rows: seq<BoardRow>, o: OrderId): (r: Option<nat>)
    ensures r.Some? ==> r.value < |rows| && rows[r.value].order == o
    ensures r.None? ==> forall k :: 0 <= k < |rows| ==> rows[k].order != o
  {
    if |rows| == 0 then None
    else if rows[|rows| - 1].order == o then Some(|rows| - 1)
    else At(rows[..|rows| - 1], o)
  }

  /** The row shows the trip's own lines on top of what the hub view offers. */
  predicate Shows(row: BoardRow, ls: seq<Line>, view: HubView, c: Code) {
    var own := Own(ls, row.order, c);
    row.exported == own && row.effective == own + if view.pending < view.stock then view.stock - view.pending else 0
  }

  /** No line of the trip has a negative quantity (reachable states have none: see LineOk). */
  predicate Loads(ls: seq<Line>, c: Code) {
    forall i :: 0 <= i < |ls| && DraftRow(ls[i], c) ==> 0 <= Allocated(ls[i])
  }

  predicate OnBoard(rows: seq<BoardRow>, o: OrderId) {
    exists k :: 0 <= k < |rows| && rows[k].order == o
  }

  /** The trip has a draft line of the order. */
  predicate Plans(ls: seq<Line>, o: OrderId, c: Code) {
    exists i :: 0 <= i < |ls| && DraftRow(ls[i], c) && ls[i].order == o
  }

  lemma {:induction false} PlansGrow(ls: seq<Line>, t: Line, c: Code)
    ensures forall o: OrderId :: Plans(ls + [t], o, c) <==> Plans(ls, o, c) || (DraftRow(t, c) && t.order == o)
  {
    assert (ls + [t])[|ls|] == t;
    forall o: OrderId ensures Plans(ls + [t], o, c) <==> Plans(ls, o, c) || (DraftRow(t, c) && t.order == o) {
      if i :| 0 <= i < |ls| && DraftRow(ls[i], c) && ls[i].order == o { assert (ls + [t])[i] == ls[i]; }
    }
  }

  lemma {:induction false} OwnGrows(ls: seq<Line>, t: Line, c: Code)
    ensures forall o: OrderId :: Own(ls + [t], o, c) == Own(ls, o, c) + OwnOf(o, c)(t)
  {
    forall o: OrderId ensures Own(ls + [t], o, c) == Own(ls, o, c) + OwnOf(o, c)(t) {
      SumSnoc(ls, t, OwnOf(o, c));
    }
  }

  lemma {:induction false} NotAboard(ls: seq<Line>, o: OrderId, c: Code)
    requires !Plans(ls, o, c)
    ensures Own(ls, o, c) == 0
  {
    SumZero(ls, OwnOf(o, c));
  }

  lemma {:induction false} NotOnBoard(rows: seq<BoardRow>, o: OrderId)
    requires forall k :: 0 <= k < |rows| ==> rows[k].order != o
    ensures !OnBoard(rows, o)
  {
  }

  lemma {:induction false} OnBoardStill(rows: seq<BoardRow>, k: nat, row: BoardRow)
    requires k < |rows| && row.order == rows[k].order
    ensures OnBoard(rows[k := row], row.order) && forall o :: OnBoard(rows, o) ==> OnBoard(rows[k := row], o)
  {
    assert rows[k := row][k] == row;
    forall o | OnBoard(rows, o) ensures OnBoard(rows[k := row], o) {
      var j :| 0 <= j < |rows| && rows[j].order == o;
      assert rows[k := row][j].order == o;
    }
  }

  lemma {:induction false} OnBoardMore(rows: seq<BoardRow>, row: BoardRow)
    ensures OnBoard(rows + [row], row.order) && forall o :: OnBoard(rows, o) ==> OnBoard(rows + [row], o)
  {
    assert (rows + [row])[|rows|] == row;
    forall o | OnBoard(rows, o) ensures OnBoard(rows + [row], o) {
      var j :| 0 <= j < |rows| && rows[j].order == o;
      assert (rows + [row])[j] == rows[j];
    }
  }

  /** The board after the lines ls: one row per order, each showing the trip's lines so far, and none missing. */
  ghost predicate OnShow(rows: seq<BoardRow>, ls: seq<Line>, views: map<OrderId, HubView>, c: Code) {
    (forall j, k :: 0 <= j < k < |rows| ==> rows[j].order != rows[k].order) &&
    (forall k :: 0 <= k < |rows| ==> rows[k].order in views && Shows(rows[k], ls, views[rows[k].order], c)) &&
    (forall k :: 0 <= k < |rows| && rows[k].order in views && Loads(ls, c) ==>
      rows[k].pending == Max(0, views[rows[k].order].pending - Own(ls, rows[k].order, c))) &&
    (forall o :: o in views && Plans(ls, o, c) ==> OnBoard(rows, o)) &&
    (forall k :: 0 <= k < |rows| ==> Plans(ls, rows[k].order, c))
  }

  lemma {:induction false} LoadsLess(ls: seq<Line>, t: Line, c: Code)
    ensures Loads(ls + [t], c) ==> Loads(ls, c) && (DraftRow(t, c) ==> 0 <= Allocated(t))
  {
    assert (ls + [t])[|ls|] == t;
    assert forall i :: 0 <= i < |ls| ==> (ls + [t])[i] == ls[i];
  }

  /** A line that is not the draft's, or that the viewer has no view of, is passed over. */
  lemma {:induction false} PassedOver(rows: seq<BoardRow>, ls: seq<Line>, views: map<OrderId, HubView>, c: Code,
        t: Line)
    requires OnShow(rows, ls, views, c) && !(DraftRow(t, c) && t.order in views)
    ensures OnShow(rows, ls + [t], views, c)
  {
    hide Own, OnBoard, Loads, Plans;
    OwnGrows(ls, t, c);
    PlansGrow(ls, t, c);
    LoadsLess(ls, t, c);
  }

  /** A further line of an order on the board is added to its row. */
  lemma {:induction false} Accumulated(rows: seq<BoardRow>, ls: seq<Line>, views: map<OrderId, HubView>, c: Code,
        t: Line, k: nat, row: BoardRow)
    requires OnShow(rows, ls, views, c) && DraftRow(t, c) && k < |rows| && rows[k].order == t.order
    requires var was, q := rows[k], Allocated(t);
      row == BoardRow(was.order, was.exported + q, was.effective + q, Max(0, was.pending - q))
    ensures OnShow(rows[k := row], ls + [t], views, c)
  {
    hide Own, OnBoard, Loads, Plans;
    OwnGrows(ls, t, c);
    PlansGrow(ls, t, c);
    LoadsLess(ls, t, c);
    OnBoardStill(rows, k, row);
  }

  /** The first line of an order opens its row. */
  lemma {:induction false} Opened(rows: seq<BoardRow>, ls: seq<Line>, views: map<OrderId, HubView>, c: Code, t: Line,
        row: BoardRow)
    requires OnShow(rows, ls, views, c) && DraftRow(t, c) && t.order in views
    requires forall k :: 0 <= k < |rows| ==> rows[k].order != t.order
    requires var view, q := views[t.order], Allocated(t);
      row == BoardRow(t.order, q, view.Offer() + q, Max(0, view.pending - q))
    ensures OnShow(rows + [row], ls + [t], views, c)
  {
    hide Own, OnBoard, Loads, Plans;
    OwnGrows(ls, t, c);
    PlansGrow(ls, t, c);
    LoadsLess(ls, t, c);
    NotOnBoard(rows, t.order);
    NotAboard(ls, t.order, c);
    OnBoardMore(rows, row);
  }

  /** The loop of getOutboundTrips over a draft's lines: repeated lines of one order accumulate in one row. */
  method DraftRows(ls: seq<Line>, views: map<OrderId, HubView>, c: Code) returns (rows: seq<BoardRow>)
    ensures forall j, k :: 0 <= j < k < |rows| ==> rows[j].order != rows[k].order
    ensures forall k :: 0 <= k < |rows| ==> rows[k].order in views && Shows(rows[k], ls, views[rows[k].order], c)
    ensures Loads(ls, c) ==> forall k :: 0 <= k < |rows| ==>
      rows[k].pending == Max(0, views[rows[k].order].pending - Own(ls, rows[k].order, c))
    ensures forall o :: OnBoard(rows, o) <==>
      o in views && exists i ::
        0 <= i < |ls| && ls[i].live && ls[i].trip == Some(c) && ls[i].status.LinePending? && ls[i].qty.Some? &&
        ls[i].order == o
  {
    hide Own, Loads, Shows;
    rows := [];
    for i := 0 to |ls|
      invariant OnShow(rows, ls[..i], views, c)
    {
      var t := ls[i];
      assert ls[..i + 1] == ls[..i] + [t];
      if DraftRow(t, c) && t.order in views {
        var q := Allocated(t);
        var found := At(rows, t.order);
        if found.Some? {
          var was := rows[found.value];
          var row := BoardRow(was.order, was.exported + q, was.effective + q, Max(0, was.pending - q));
          Accumulated(rows, ls[..i], views, c, t, found.value, row);
          rows := rows[found.value := row];
        } else {
          var view := views[t.order];
          var row := BoardRow(t.order, q, view.Offer() + q, Max(0, view.pending - q));
          Opened(rows, ls[..i], views, c, t, row);
          rows := rows + [row];
        }
      } else {
        PassedOver(rows, ls[..i], views, c, t);
      }
    }
    assert ls[..|ls|] == ls;
  }

  // ----- The board against saveOutboundDraft ---------------------------------------------------

  /** What the board offers for an order of draft trip c to a viewer at hub h. */
  function Offered(s: State, o: OrderId, h: HubId, c: Code): int {
    ViewAt(s, o, h).Offer() + Own(s.lines, o, c)
  }

  /** A draft the viewer may resume: all its lines leave from the viewer's hub. */
  lemma {:induction false} OfferIsEffective(s: State, o: OrderId, h: HubId, c: Code)
    requires Inv(s) && Discard(s, c, Some(h)).Ok?
    ensures Offered(s, o, h, c) == Stock(s.ledger, o, Some(h)) - Reserved(s.lines, o, h, Some(c))
    ensures 0 <= Offered(s, o, h, c)
  {
    forall i | 0 <= i < |s.lines|
      ensures ReservedAt(o, h, None)(s.lines[i]) == ReservedAt(o, h, Some(c))(s.lines[i]) + OwnOf(o, c)(s.lines[i])
    {
      assert LineOk(s.lines[i], s.ledger, s.nextOrder);
    }
    SumCombine(s.lines, ReservedAt(o, h, None), s.lines, ReservedAt(o, h, Some(c)), s.lines, OwnOf(o, c));
    assert Reserved(s.lines, o, h, None) <= Stock(s.ledger, o, Some(h));
    ExclusionFrees(s, c);
    ReservedNonNegative(s, o, h, Some(c));
  }

  lemma {:induction false} PlannedIffOffered(s: State, clean: State, req: Request, o: OrderId, h: HubId, c: Code)
    requires Inv(s) && Discard(s, c, Some(h)) == Ok(clean) && req.draftCode == Some(c) && req.userHub == Some(h)
    requires IsLive(clean.orders, o) && !DraftLike(clean.orders[o].status) && HasRows(s.ledger, o, Some(h))
    ensures PlanOne(clean, req, Target(o, [o]), false).Ok? <==>
      0 < Requested(req.items, o, Offered(s, o, h, c)) <= Offered(s, o, h, c)
  {
    OfferIsEffective(s, o, h, c);
    DiscardKeepsInv(s, c, Some(h));
    MergedIs(req.items, o, Offered(s, o, h, c));
    hide Inv, Offered, Reserved, Stock, MergeItems, DraftRoute, Requested;
  }

  /** What the viewer at hub h is shown for each order of a draft they resume. */
  ghost predicate Resumable(s: State, req: Request, h: HubId, c: Code) {
    Sensible(s, req) && |req.found| > 0 && req.draftCode == Some(c) && req.userHub == Some(h) &&
      Discard(s, c, Some(h)).Ok? &&
    forall i :: 0 <= i < |req.found| ==>
      !DraftLike(s.orders[req.found[i]].status) && HasRows(s.ledger, req.found[i], Some(h))
  }

  /**
   * Re-saving a draft is accepted exactly when every order asks for a positive quantity the board offers: for each
   * line the board shows the largest acceptable quantity.
   */
  lemma {:induction false} BoardIsExact(s: State, req: Request, h: HubId, c: Code)
    requires Inv(s) && Resumable(s, req, h, c)
    ensures SaveDraft(s, req).Ok? <==>
      forall i :: 0 <= i < |req.found| ==>
        0 < Requested(req.items, req.found[i], Offered(s, req.found[i], h, c)) <= Offered(s, req.found[i], h, c)
  {
    hide Inv, Offered, Requested, PlanOne, Gather, ReserveAll, Route, Discard;
    var clean := Discard(s, c, Some(h)).value;
    DraftDiscarded(s, req);
    CleanKeeps(s, req, clean);
    forall i | 0 <= i < |req.found|
      ensures PlanOne(clean, req, Alone(req.found)[i], false).Ok? <==>
        0 < Requested(req.items, req.found[i], Offered(s, req.found[i], h, c)) <= Offered(s, req.found[i], h, c)
    {
      PlannedIffOffered(s, clean, req, req.found[i], h, c);
    }
    AllPlanned(clean, req, Alone(req.found));
  }

  lemma {:induction false} CleanKeeps(s: State, req: Request, clean: State)
    requires Inv(s) && Sensible(s, req) && DiscardDraft(s, req) == Ok(clean)
    ensures FoundIn(clean, req) && clean.orders == s.orders && clean.ledger == s.ledger
    ensures Gather(clean, req.found, {}) == (clean, Alone(req.found))
  {
    hide Gather;
    DraftDiscarded(s, req);
    GatherAlone(clean, req.found, {});
  }

  lemma {:induction false} AllPlanned(s: State, req: Request, targets: seq<Target>)
    requires forall i :: 0 <= i < |targets| ==> targets[i].order in s.orders
    ensures PlanAll(s, req, targets, false).Ok? <==>
      forall i :: 0 <= i < |targets| ==> PlanOne(s, req, targets[i], false).Ok?
    decreases |targets|
  {
    if |targets| > 0 {
      AllPlanned(s, req, targets[..|targets| - 1]);
    }
  }
}
