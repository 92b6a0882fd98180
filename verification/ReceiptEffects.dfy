/** What one row of a counted confirmation, and what follows the rows, does to the tables. */
module ReceiptEffects {
  import opened Basics
  import opened Sums
  import opened Model
  import opened Dispatch
  import opened Receiving
  import opened Invariant
  import opened InboundLaws
  import opened IntakeEffects
  import opened RequestLaws

  // ----- Which order a row means ---------------------------------------------------------------

  predicate ByCode(s: State, row: Row, o: OrderId) {
    IsLive(s.orders, o) && row.code == Some(s.orders[o].code) && o < s.nextOrder &&
    forall x: OrderId :: x < o && IsLive(s.orders, x) ==> row.code != Some(s.orders[x].code)
  }

  /** The row's id names the order; a row whose id is absent or unknown names the first live order of its code. */
  predicate Means(s: State, row: Row, o: OrderId) {
    IsLive(s.orders, o) &&
    (row.id == Some(o) || (!(row.id.Some? && IsLive(s.orders, row.id.value)) && ByCode(s, row, o)))
  }

  predicate MeansNone(s: State, row: Row) {
    !(row.id.Some? && IsLive(s.orders, row.id.value)) && forall o: OrderId :: o < s.nextOrder ==> !ByCode(s, row, o)
  }

  lemma {:induction false} FirstOfCode(s: State, code: Code)
    ensures var f := FindByCode(s, code);
      f.Some? ==>
        f.value < s.nextOrder && forall x: OrderId :: x < f.value && IsLive(s.orders, x) ==> s.orders[x].code != code
  {
    var sibs := SiblingsOf(s, code);
    if |sibs| > 0 {
      assert sibs[0] in sibs;
      assert forall i :: 0 <= i < |sibs| ==> sibs[0] <= sibs[i];
      forall x: OrderId | x < sibs[0] && IsLive(s.orders, x) ensures s.orders[x].code != code {
        assert x !in sibs;
      }
    }
  }

  /** The lookup of a row finds exactly the order the row means. */
  lemma {:induction false} RowFinds(s: State, row: Row, o: OrderId)
    requires Numbered(s)
    ensures FindRow(s, row) == Some(o) <==> Means(s, row, o)
    ensures FindRow(s, row).None? <==> MeansNone(s, row)
  {
    hide SiblingsOf, FindByCode;
    if row.code.Some? {
      FirstOfCode(s, row.code.value);
      var f := FindByCode(s, row.code.value);
      assert f.Some? ==> ByCode(s, row, f.value);
    }
  }

  // ----- The receipt and the trip line ---------------------------------------------------------

  /** The one invoice a counted row writes. */
  predicate Invoiced(a: seq<Tx>, b: seq<Tx>, o: OrderId, hub: Option<HubId>, trip: Option<Code>, line: Option<nat>,
        qty: int, expected: Option<int>, balance: int)
  {
    |b| == |a| + 1 && b[..|a|] == a &&
    var t := b[|a|];
    t.live && t.order == o && t.kind.InboundTx? && t.hub == hub && t.trip == trip && t.line == line && t.qty == qty &&
    t.expected == expected && t.discrepancy == (if expected.Some? then qty - expected.value else 0) &&
    t.running == balance
  }

  /** Row i is the first live line of the order on the trip, or the new one when there is none. */
  predicate LineOf(ls: seq<Line>, o: OrderId, c: Code, i: nat) {
    i <= |ls| && (i < |ls| ==> ls[i].live && ls[i].trip == Some(c) && ls[i].order == o) &&
    forall j :: 0 <= j < i ==> !(ls[j].live && ls[j].trip == Some(c) && ls[j].order == o)
  }

  /** That line carries the counted quantity and destination and is done, unless the trip is to stay pending. */
  predicate Allotted(a: seq<Line>, b: seq<Line>, i: nat, o: OrderId, c: Code, hub: Option<HubId>, qty: int,
        dest: Option<HubId>, keepPending: bool)
    requires i <= |a|
  {
    if i < |a| then
      |b| == |a| && (forall j :: 0 <= j < |a| && j != i ==> b[j] == a[j]) && b[i].live && b[i].order == o &&
      b[i].trip == Some(c) && b[i].origin == a[i].origin && b[i].kind == a[i].kind && b[i].qty == Some(qty) &&
      b[i].dest == dest && b[i].status == if keepPending then a[i].status else LineCompleted
    else
      |b| == |a| + 1 && b[..|a|] == a && b[i].live && b[i].order == o && b[i].trip == Some(c) && b[i].origin == hub &&
      b[i].kind.InboundLine? && b[i].qty == Some(qty) && b[i].dest == dest &&
      b[i].status == if keepPending then LinePending else LineCompleted
  }

  /** The loop's state after a row was saved for order o, counted on the trip, with its line and its receipt. */
  ghost predicate Saved(g: Progress, r: Progress, o: OrderId, row: Row, t: Tally, trip: Option<Code>,
        line: Option<nat>, qty: int, expected: Option<int>)
  {
    OnlyRow(g.s.orders, r.s.orders, o) && r.s.stops == g.s.stops && r.saved == g.saved + [o] &&
    (forall c :: c in r.codes <==> c in g.codes || trip == Some(c)) &&
    var sent := row.actual.OrElse(row.total);
    var now := r.s.orders[o];
    var alloc := if sent.Some? then sent.value else now.total;
    var dest := if row.destHub.Some? then row.destHub.value else now.destHub;
    (if trip.None? then r.s.lines == g.s.lines && line.None?
     else
       line.Some? && LineOf(g.s.lines, o, trip.value, line.value) &&
       Allotted(g.s.lines, r.s.lines, line.value, o, trip.value, t.hub, if alloc == 0 then 1 else alloc, dest,
                t.keepPending)) &&
    if 0 < qty then Invoiced(g.s.ledger, r.s.ledger, o, t.hub, trip, line, qty, expected, now.remaining)
    else r.s.ledger == g.s.ledger
  }

  lemma {:induction false} FirstLineIs(ls: seq<Line>, o: OrderId, c: Code, from: nat)
    requires from <= |ls|
    ensures var f := FirstLine(ls, o, c, from);
      forall j :: from <= j < (if f.Some? then f.value else |ls|) ==>
        !(ls[j].live && ls[j].trip == Some(c) && ls[j].order == o)
    decreases |ls| - from
  {
    if from < |ls| { FirstLineIs(ls, o, c, from + 1); }
  }

  lemma {:induction false} LinkSaves(g: Progress, k: Counting, row: Row, t: Tally) returns (line: Option<nat>)
    requires k.order in k.s.orders && OnlyRow(g.s.orders, k.s.orders, k.order)
    requires k.s.lines == g.s.lines && k.s.ledger == g.s.ledger && k.s.stops == g.s.stops
    ensures var r := Link(g, k, row, t);
      var trip := if k.trip.Some? then k.trip else if g.shared.Some? then g.shared else t.plateCode;
      Saved(g, r, k.order, row, t, trip, line, k.qty, k.expected) && r.s.orders == k.s.orders &&
      r.s.nextOrder == k.s.nextOrder && r.shared == if k.trip.None? && g.shared.None? then t.plateCode else g.shared
  {
    hide LinkLine, LineOf, Allotted;
    var trip := if k.trip.Some? then k.trip else if g.shared.Some? then g.shared else t.plateCode;
    line := None;
    if trip.Some? {
      LineAllotted(k.s, k.order, row, t, trip.value);
      line := Some(LinkLine(k.s, k.order, row, t, trip.value).1);
    }
  }

  /** The order's line on the trip, found or made, takes what the row sends. */
  lemma {:induction false} LineAllotted(s: State, o: OrderId, row: Row, t: Tally, c: Code)
    requires o in s.orders
    ensures var (lines, line) := LinkLine(s, o, row, t, c); var sent := row.actual.OrElse(row.total);
      var alloc := if sent.Some? then sent.value else s.orders[o].total;
      LineOf(s.lines, o, c, line) &&
      Allotted(s.lines, lines, line, o, c, t.hub, if alloc == 0 then 1 else alloc,
               if row.destHub.Some? then row.destHub.value else s.orders[o].destHub, t.keepPending)
  {
    hide FirstLine;
    FirstLineIs(s.lines, o, c, 0);
  }

  // ----- A draft of this hub enters stock ------------------------------------------------------

  /** Without a load of its own the row leaves the contract's. */
  predicate Reweighed(row: Row, was: Load, now: Load) {
    now.weight == (if row.weight.Some? && 0.0 <= row.weight.value then row.weight.value else was.weight) &&
    now.volume == (if row.volume.Some? && 0.0 <= row.volume.value then row.volume.value else was.volume)
  }

  /**
   * A draft of the receiving hub enters stock whole: with the positive total the row sends, else the contract's (one
   * when that is zero). Its receipt says the same quantity, counted and expected.
   */
  lemma {:induction false} DraftEnters(g: Progress, row: Row, t: Tally, o: OrderId) returns (line: Option<nat>)
    requires Numbered(g.s) && Means(g.s, row, o) && g.s.orders[o].status in {DRAFT, PENDING, WAITING}
    requires t.superAdmin || g.s.orders[o].originHub.None? || g.s.orders[o].originHub == t.hub
    ensures ReceiveRow(g, row, t).Ok?
    ensures var r := ReceiveRow(g, row, t).value; var was := g.s.orders[o];
      var total := if row.total.Some? && 0 < row.total.value then row.total.value else was.total;
      var q := if total == 0 then 1 else total;
      var trip := if g.shared.Some? then g.shared else t.plateCode;
      Saved(g, r, o, row, t, trip, line, q, Some(q)) && r.s.nextOrder == g.s.nextOrder && r.shared == trip &&
      var now := r.s.orders[o];
      now.live && now.total == total && now.inbound == q && now.outbound == 0 && now.remaining == q &&
      now.status == INBOUND && now.currentHub == t.hub && now.currentTrip.None? && Reweighed(row, was.load, now.load) &&
      now.originHub == (if was.originHub.Some? then was.originHub else t.hub) &&
      now.destHub == if row.destHub.Some? then row.destHub.value else was.destHub
  {
    hide Link, FindRow, FindByCode, Saved;
    RowFinds(g.s, row, o);
    var taken := Accepted(g.s, g.s.orders[o], row, t.hub);
    var k := Counting(g.s.(orders := g.s.orders[o := taken]), o, g.shared, taken.inbound, Some(taken.inbound));
    line := LinkSaves(g, k, row, t);
  }

  /** Its code changes only to the upper-case code the row sends, and only when nobody has that code. */
  lemma {:induction false} DraftRenamed(g: Progress, row: Row, t: Tally, o: OrderId)
    requires Numbered(g.s) && Means(g.s, row, o) && g.s.orders[o].status in {DRAFT, PENDING, WAITING}
    requires t.superAdmin || g.s.orders[o].originHub.None? || g.s.orders[o].originHub == t.hub
    ensures ReceiveRow(g, row, t).Ok? && o in ReceiveRow(g, row, t).value.s.orders
    ensures var free := forall x :: IsLive(g.s.orders, x) ==> g.s.orders[x].code != row.upper;
      ReceiveRow(g, row, t).value.s.orders[o].code ==
      if row.code.Some? && |row.upper| > 0 && free then row.upper else g.s.orders[o].code
  {
    hide Link, FindRow, SiblingsOf;
    RowFinds(g.s, row, o);
    var taken := Accepted(g.s, g.s.orders[o], row, t.hub);
    var k := Counting(g.s.(orders := g.s.orders[o := taken]), o, g.shared, taken.inbound, Some(taken.inbound));
    var line := LinkSaves(g, k, row, t);
  }

  // ----- A locked contract is counted ----------------------------------------------------------

  /** A stored order, or another hub's draft: its contract is not edited. */
  predicate Locked(g: Progress, t: Tally, o: OrderId)
    requires o in g.s.orders
  {
    !(g.s.orders[o].status in {DRAFT, PENDING, WAITING} &&
      (t.superAdmin || g.s.orders[o].originHub.None? || g.s.orders[o].originHub == t.hub))
  }

  /** Row i is a live receipt of the order off the trip at the hub. */
  predicate IsReceiptAt(l: seq<Tx>, i: nat, o: OrderId, trip: Option<Code>, hub: Option<HubId>) {
    i < |l| && l[i].live && l[i].order == o && l[i].kind.InboundTx? && trip.Some? && l[i].trip == trip && hub.Some? &&
    l[i].hub == hub
  }

  lemma {:induction false} FirstReceiptIs(l: seq<Tx>, o: OrderId, c: Code, h: HubId, from: nat)
    requires from <= |l|
    ensures var f := FirstReceipt(l, o, c, h, from);
      (forall j :: from <= j < (if f.Some? then f.value else |l|) ==> !IsReceiptAt(l, j, o, Some(c), Some(h))) &&
      (f.Some? ==> IsReceiptAt(l, f.value, o, Some(c), Some(h)))
    decreases |l| - from
  {
    if from < |l| { FirstReceiptIs(l, o, c, h, from + 1); }
  }

  /** What the counter goes by when nothing was counted: the quantity sent, else what is still on a loaded trip. */
  predicate Expecting(s: State, o: OrderId, trip: Option<Code>, row: Row, expected: Option<int>) {
    expected ==
    if row.expected.Some? then row.expected
    else if trip.Some? && 0 < Loaded(s.ledger, o, trip.value) then
      Some(Max(0, Loaded(s.ledger, o, trip.value) - Received(s.ledger, o, trip.value)))
    else None
  }

  /** The quantity counted: the one sent, else the one expected, else the contract's total (one when that is zero). */
  predicate CountIs(row: Row, expected: Option<int>, total: int, q: int) {
    q ==
    if row.actual.Some? then row.actual.value
    else if row.total.Some? then row.total.value
    else if expected.Some? then expected.value
    else if total == 0 then 1 else total
  }

  /** Goods beyond the contract raise its load by what was weighed, else by their share. */
  predicate Weighed(was: Order, now: Order, row: Row, q: int) {
    if now.inbound <= was.total then now.load == was.load
    else
      var weight := if row.actualWeight.Some? then row.actualWeight.value else Share(was.load.weight, q, was.total);
      var volume := if row.actualVolume.Some? then row.actualVolume.value else Share(was.load.volume, q, was.total);
      now.load.weight == Round3(was.load.weight + weight) && now.load.volume == Round3(was.load.volume + volume)
  }

  /**
   * A locked contract not yet received off the trip at this hub: counting nothing is refused; otherwise the counted
   * quantity is added to what came in, and its receipt records it against what was expected.
   */
  lemma {:induction false} ContractCounted(g: Progress, row: Row, t: Tally, o: OrderId, q: int, expected: Option<int>)
      returns (line: Option<nat>)
    requires Numbered(g.s) && Means(g.s, row, o) && Locked(g, t, o)
    requires var trip := if g.shared.Some? then g.shared else g.s.orders[o].currentTrip;
      (forall i :: 0 <= i < |g.s.ledger| ==> !IsReceiptAt(g.s.ledger, i, o, trip, t.hub)) &&
      Expecting(g.s, o, trip, row, expected) && CountIs(row, expected, g.s.orders[o].total, q)
    ensures q <= 0 ==> ReceiveRow(g, row, t) == Err(Unprocessable)
    ensures 0 < q ==> ReceiveRow(g, row, t).Ok?
    ensures 0 < q ==>
      var r := ReceiveRow(g, row, t).value; var was := g.s.orders[o];
      var off := if g.shared.Some? then g.shared else was.currentTrip;
      var trip := if off.Some? then off else t.plateCode;
      Saved(g, r, o, row, t, trip, line, q, expected) && r.s.nextOrder == g.s.nextOrder &&
      r.shared == (if off.None? then t.plateCode else g.shared) &&
      var now := r.s.orders[o];
      now == was.(inbound := now.inbound, total := now.total, load := now.load, remaining := now.remaining,
                  status := INBOUND, currentHub := t.hub, currentTrip := now.currentTrip) &&
      now.inbound == was.inbound + q && now.total == Max(was.total, now.inbound) &&
      now.remaining == Max(0, now.inbound - was.outbound) && Weighed(was, now, row, q)
  {
    hide Link, FindRow, FirstReceipt, Saved, Loaded, Received, Share, ReceiveRow, CountedOrder, IsReceiptAt, CountIs;
    var was := g.s.orders[o];
    var off := if g.shared.Some? then g.shared else was.currentTrip;
    LockedCounts(g, row, t, o, q, expected);
    line := None;
    if 0 < q {
      line := LinkSaves(g, CountLocked(g.s, o, row, t.hub, off).value, row, t);
      CountedIs(was, row, t.hub, off, q, OnTheWay(g.s, o, off));
    }
  }

  /** A locked contract without a receipt is counted, and the count is linked to its trip. */
  lemma {:induction false} LockedCounts(g: Progress, row: Row, t: Tally, o: OrderId, q: int, expected: Option<int>)
    requires Numbered(g.s) && Means(g.s, row, o) && Locked(g, t, o)
    requires var trip := if g.shared.Some? then g.shared else g.s.orders[o].currentTrip;
      (forall i :: 0 <= i < |g.s.ledger| ==> !IsReceiptAt(g.s.ledger, i, o, trip, t.hub)) &&
      Expecting(g.s, o, trip, row, expected) && CountIs(row, expected, g.s.orders[o].total, q)
    ensures var off := if g.shared.Some? then g.shared else g.s.orders[o].currentTrip;
      var k := CountLocked(g.s, o, row, t.hub, off);
      if q <= 0 then ReceiveRow(g, row, t) == Err(Unprocessable)
      else
        k == Ok(Counting(g.s.(orders := g.s.orders[o := CountedOrder(g.s.orders[o], row, t.hub, off, q,
                                                          OnTheWay(g.s, o, off))]), o, off, q, expected)) &&
        ReceiveRow(g, row, t) == Ok(Link(g, k.value, row, t))
  {
    hide Link, FindRow, FirstReceipt, Loaded, Received, CountedOrder;
    RowFinds(g.s, row, o);
    var off := if g.shared.Some? then g.shared else g.s.orders[o].currentTrip;
    if off.Some? && t.hub.Some? { FirstReceiptIs(g.s.ledger, o, off.value, t.hub.value, 0); }
  }

  lemma {:induction false} CountedIs(was: Order, row: Row, hub: Option<HubId>, off: Option<Code>, q: int,
        onTheWay: Option<int>)
    ensures var now := CountedOrder(was, row, hub, off, q, onTheWay);
      now == was.(inbound := now.inbound, total := now.total, load := now.load, remaining := now.remaining,
                  status := INBOUND, currentHub := hub, currentTrip := now.currentTrip) &&
      now.inbound == was.inbound + q && now.total == Max(was.total, now.inbound) &&
      now.remaining == Max(0, now.inbound - was.outbound) && Weighed(was, now, row, q)
  {
    hide Round3;
  }

  /** The order leaves its trip exactly when the count leaves nothing of it there. */
  lemma {:induction false} CountedLeavesTrip(g: Progress, row: Row, t: Tally, o: OrderId, q: int, expected: Option<int>)
    requires Numbered(g.s) && Means(g.s, row, o) && Locked(g, t, o) && 0 < q
    requires var trip := if g.shared.Some? then g.shared else g.s.orders[o].currentTrip;
      (forall i :: 0 <= i < |g.s.ledger| ==> !IsReceiptAt(g.s.ledger, i, o, trip, t.hub)) &&
      Expecting(g.s, o, trip, row, expected) && CountIs(row, expected, g.s.orders[o].total, q)
    ensures ReceiveRow(g, row, t).Ok? && o in ReceiveRow(g, row, t).value.s.orders
    ensures var was, l := g.s.orders[o], g.s.ledger;
      var off := if g.shared.Some? then g.shared else was.currentTrip;
      var emptied := off.Some? && was.currentTrip == off &&
        (Loaded(l, o, off.value) <= 0 || Loaded(l, o, off.value) - Received(l, o, off.value) <= q);
      ReceiveRow(g, row, t).value.s.orders[o].currentTrip == if emptied then None else was.currentTrip
  {
    hide Link, FindRow, FirstReceipt, Loaded, Received, Share, Saved;
    RowFinds(g.s, row, o);
    var was := g.s.orders[o];
    var off := if g.shared.Some? then g.shared else was.currentTrip;
    if off.Some? && t.hub.Some? { FirstReceiptIs(g.s.ledger, o, off.value, t.hub.value, 0); }
    var line := LinkSaves(g, CountLocked(g.s, o, row, t.hub, off).value, row, t);
  }

  // ----- A receipt that exists -----------------------------------------------------------------

  /** Anyone but a super administrator counting something is told nothing new: the tables stay. */
  lemma {:induction false} CountedAlready(g: Progress, row: Row, t: Tally, o: OrderId, i: nat)
    requires Numbered(g.s) && Means(g.s, row, o) && Locked(g, t, o)
    requires var trip := if g.shared.Some? then g.shared else g.s.orders[o].currentTrip;
      IsReceiptAt(g.s.ledger, i, o, trip, t.hub)
    requires !t.superAdmin || row.actual.OrElse(row.total).GetOr(0) <= 0
    ensures ReceiveRow(g, row, t).Ok?
    ensures var r := ReceiveRow(g, row, t).value;
      r.s == g.s && r.saved == g.saved + [o] && r.shared == g.shared &&
      forall c :: c in r.codes <==>
        c in g.codes || Some(c) == if g.shared.Some? then g.shared else g.s.orders[o].currentTrip
  {
    hide FindRow, FirstReceipt;
    RowFinds(g.s, row, o);
    var off := if g.shared.Some? then g.shared else g.s.orders[o].currentTrip;
    FirstReceiptIs(g.s.ledger, o, off.value, t.hub.value, 0);
  }

  /**
   * A super administrator's count replaces the first receipt's quantity: the order's receipts move by the difference,
   * and its first line on the trip takes the new quantity; nothing else moves.
   */
  lemma {:induction false} ReceiptCorrected(g: Progress, row: Row, t: Tally, o: OrderId, i: nat, line: nat)
    requires Numbered(g.s) && Means(g.s, row, o) && Locked(g, t, o) && t.superAdmin
    requires 0 < row.actual.OrElse(row.total).GetOr(0)
    requires var trip := if g.shared.Some? then g.shared else g.s.orders[o].currentTrip;
      IsReceiptAt(g.s.ledger, i, o, trip, t.hub) &&
      (forall j :: 0 <= j < i ==> !IsReceiptAt(g.s.ledger, j, o, trip, t.hub)) &&
      LineOf(g.s.lines, o, trip.value, line)
    ensures ReceiveRow(g, row, t).Ok?
    ensures var r := ReceiveRow(g, row, t).value; var was := g.s.orders[o]; var l := g.s.ledger;
      var q := row.actual.OrElse(row.total).value; var diff := q - l[i].qty;
      OnlyRow(g.s.orders, r.s.orders, o) && r.s.nextOrder == g.s.nextOrder && r.s.stops == g.s.stops &&
      r.saved == g.saved + [o] && r.shared == g.shared &&
      |r.s.ledger| == |l| && (forall j :: 0 <= j < |l| && j != i ==> r.s.ledger[j] == l[j]) &&
      r.s.ledger[i] == l[i].(qty := q) &&
      |r.s.lines| == |g.s.lines| && (forall j :: 0 <= j < |g.s.lines| && j != line ==> r.s.lines[j] == g.s.lines[j]) &&
      (line < |g.s.lines| ==> r.s.lines[line] == g.s.lines[line].(qty := Some(q))) &&
      var now := r.s.orders[o];
      now == was.(inbound := now.inbound, total := now.total, remaining := now.remaining, load := now.load) &&
      Reweighed(row, was.load, now.load) &&
      (diff == 0 ==> now.inbound == was.inbound && now.total == was.total && now.remaining == was.remaining) &&
      (diff != 0 ==>
        now.inbound == Max(0, was.inbound + diff) && now.total == Max(was.total, now.inbound) &&
        now.remaining == Max(0, now.inbound - was.outbound))
  {
    hide FindRow, FirstReceipt, FirstLine;
    RowFinds(g.s, row, o);
    var off := if g.shared.Some? then g.shared else g.s.orders[o].currentTrip;
    FirstReceiptIs(g.s.ledger, o, off.value, t.hub.value, 0);
    FirstLineIs(g.s.lines, o, off.value, 0);
  }

  // ----- A row nobody announced ----------------------------------------------------------------

  /** It opens an order with the total sent (one when that is absent or zero), all of it in stock at the hub. */
  lemma {:induction false} NewRowEnters(g: Progress, row: Row, t: Tally) returns (line: Option<nat>)
    requires Numbered(g.s) && MeansNone(g.s, row)
    ensures ReceiveRow(g, row, t).Ok?
    ensures var r := ReceiveRow(g, row, t).value; var o := g.s.nextOrder;
      var q := if row.total.Some? && row.total.value != 0 then row.total.value else 1;
      var trip := if g.shared.Some? then g.shared else t.plateCode;
      Saved(g, r, o, row, t, trip, line, q, Some(q)) && r.s.nextOrder == o + 1 && r.shared == trip &&
      var now := r.s.orders[o];
      now.live && now.code == (if row.code.Some? then row.code.value else row.newCode) && now.total == q &&
      now.inbound == q && now.outbound == 0 && now.remaining == q && now.status == INBOUND &&
      now.load.weight == (if row.weight.Some? then row.weight.value else 0.0) &&
      now.load.volume == (if row.volume.Some? then row.volume.value else 0.0) &&
      now.originHub == t.hub && now.currentHub == t.hub && now.currentTrip.None? &&
      now.destHub == if row.destHub.Some? then row.destHub.value else None
  {
    hide Link, FindRow, FindByCode, Saved;
    RowFinds(g.s, row, 0);
    var o, made := g.s.nextOrder, NewContract(row, t.hub);
    var k := Counting(g.s.(orders := g.s.orders[o := made], nextOrder := o + 1), o, g.shared, made.inbound,
        Some(made.inbound));
    line := LinkSaves(g, k, row, t);
  }

  // ----- After the rows ------------------------------------------------------------------------

  /** A line taken off the vehicle: announced for it, not among the orders saved, and of the receiving hub. */
  predicate NotUnloaded(line: Line, c: Code, hub: Option<HubId>, saved: seq<OrderId>) {
    line.live && line.trip == Some(c) && line.kind.InboundLine? && line.order !in saved &&
    (hub.None? || line.origin.None? || line.origin == hub)
  }

  /** Something was once received under the order's code. */
  predicate Known(s: State, o: OrderId)
    requires o in s.orders
  {
    exists i :: 0 <= i < |s.ledger| && s.ledger[i].live && s.ledger[i].kind.InboundTx? &&
      var x := s.ledger[i].order; x == o || (IsLive(s.orders, x) && s.orders[x].code == s.orders[o].code)
  }

  /** Lines are compared with the vehicle's only when it is known, something was saved and it does not stay pending. */
  predicate Compares(g: Progress, t: Tally) {
    g.shared.Some? && |g.saved| > 0 && !t.keepPending
  }

  predicate StopsOpen(stops: map<(Code, HubId), Stop>, c: Code) {
    exists k :: k in stops && k.0 == c && stops[k].live && stops[k].status.StopPending?
  }

  lemma {:induction false} StopClosed(s: State, c: Code, h: HubId, keepPending: bool)
    ensures var r := CloseStop(s, c, h, keepPending);
      r == s.(stops := r.stops, lines := r.lines) && |r.lines| == |s.lines| && (c, h) in r.stops &&
      r.stops == s.stops[(c, h) := r.stops[(c, h)]] && r.stops[(c, h)].live &&
      (r.stops[(c, h)].status.StopCompleted? <==>
        !keepPending || ((c, h) in s.stops && s.stops[(c, h)].status.StopCompleted?))
  {
    hide CompleteLines, AwaitsStop;
  }

  lemma {:induction false} StopsClosed(s: State, codes: seq<Code>, h: HubId, keepPending: bool, n: nat)
    requires n <= |codes|
    ensures var r := CloseStops(s, codes, h, keepPending, n);
      r == s.(stops := r.stops, lines := r.lines) && |r.lines| == |s.lines| &&
      (forall k :: k in s.stops && !(k.1 == h && k.0 in codes[..n]) ==> k in r.stops && r.stops[k] == s.stops[k]) &&
      (forall k :: k in r.stops && k !in s.stops ==> k.1 == h && k.0 in codes[..n]) &&
      (forall c :: c in codes[..n] ==>
        (c, h) in r.stops && r.stops[(c, h)].live &&
        (r.stops[(c, h)].status.StopCompleted? <==>
          !keepPending || ((c, h) in s.stops && s.stops[(c, h)].status.StopCompleted?)))
    decreases n
  {
    hide CloseStop;
    if n > 0 {
      StopsClosed(s, codes, h, keepPending, n - 1);
      StopClosed(CloseStops(s, codes, h, keepPending, n - 1), codes[n - 1], h, keepPending);
      assert forall c :: c in codes[..n] <==> c in codes[..n - 1] || c == codes[n - 1];
    }
  }

  /** After all codes, a line is done exactly when no stop of its trip is open. */
  lemma {:induction false} LinesClosed(s: State, codes: seq<Code>, h: HubId, keepPending: bool, n: nat, i: nat)
    requires n <= |codes| && i < |s.lines|
    ensures |CloseStops(s, codes, h, keepPending, n).lines| == |s.lines|
    ensures var r := CloseStops(s, codes, h, keepPending, n);
      r.lines[i] ==
      if !keepPending && s.lines[i].live && s.lines[i].trip.Some? && s.lines[i].trip.value in codes[..n] &&
        !StopsOpen(r.stops, s.lines[i].trip.value)
      then s.lines[i].(status := LineCompleted) else s.lines[i]
    decreases n
  {
    hide UpsertStop, StopsOpen;
    if n > 0 {
      LinesClosed(s, codes, h, keepPending, n - 1, i);
      var before, c := CloseStops(s, codes, h, keepPending, n - 1), codes[n - 1];
      var r := CloseStops(s, codes, h, keepPending, n);
      assert forall d :: d in codes[..n] <==> d in codes[..n - 1] || d == c;
      SameAwaits(r.stops, c);
      forall d | d != c ensures StopsOpen(r.stops, d) <==> StopsOpen(before.stops, d) {
        OtherStops(before, c, h, keepPending, d);
      }
      if c in codes[..n - 1] && !keepPending { ClosedAgain(s, codes, h, n - 1, c); }
    }
  }

  lemma {:induction false} SameAwaits(stops: map<(Code, HubId), Stop>, c: Code)
    ensures AwaitsStop(stops, c) <==> StopsOpen(stops, c)
  {
  }

  lemma {:induction false} OtherStops(s: State, c: Code, h: HubId, keepPending: bool, d: Code)
    requires d != c
    ensures StopsOpen(CloseStop(s, c, h, keepPending).stops, d) <==> StopsOpen(s.stops, d)
  {
    hide CompleteLines, AwaitsStop;
    var r := CloseStop(s, c, h, keepPending).stops;
    if StopsOpen(s.stops, d) {
      var k :| k in s.stops && k.0 == d && s.stops[k].live && s.stops[k].status.StopPending?;
      assert k in r && r[k] == s.stops[k];
    }
  }

  /** Closing a stop a second time moves no stop. */
  lemma {:induction false} ClosedAgain(s: State, codes: seq<Code>, h: HubId, n: nat, c: Code)
    requires n <= |codes| && c in codes[..n]
    ensures var before := CloseStops(s, codes, h, false, n); CloseStop(before, c, h, false).stops == before.stops
  {
    hide CloseStops, CompleteLines, AwaitsStop;
    StopsClosed(s, codes, h, false, n);
  }

  lemma {:induction false} NotUnloadedIs(g: Progress, t: Tally, c: Code)
    ensures forall i :: 0 <= i < |g.s.lines| ==>
      TakenOff(g.s.lines[i], c, t.hub, g.saved) == NotUnloaded(g.s.lines[i], c, t.hub, g.saved)
    ensures forall o :: o in g.s.orders ==> EverReceived(g.s, o) == Known(g.s, o)
  {
  }

  /** A whole confirmation: what happens once the last row is saved. */
  lemma {:induction false} VehicleEmptied(s: State, t: Tally, g: Progress)
    requires 0 < |t.rows| && ReceiveRows(Progress(s, t.trip, [], []), t, |t.rows|) == Ok(g)
    ensures Receive(s, t).Ok? && |Receive(s, t).value.lines| == |g.s.lines|
    ensures var r := Receive(s, t).value;
      r.ledger == g.s.ledger && r.nextOrder == g.s.nextOrder && r.orders.Keys == g.s.orders.Keys
    ensures var r := Receive(s, t).value;
      forall i :: 0 <= i < |g.s.lines| ==>
        r.lines[i].live ==
        (g.s.lines[i].live && !(Compares(g, t) && NotUnloaded(g.s.lines[i], g.shared.value, t.hub, g.saved)))
    ensures var r := Receive(s, t).value;
      forall i :: 0 <= i < |g.s.lines| ==>
        r.lines[i] == g.s.lines[i].(live := r.lines[i].live, status := r.lines[i].status) &&
        r.lines[i].status ==
        if t.hub.Some? && !t.keepPending && r.lines[i].live && g.s.lines[i].trip.Some? &&
          g.s.lines[i].trip.value in g.codes && !StopsOpen(r.stops, g.s.lines[i].trip.value)
        then LineCompleted else g.s.lines[i].status
  {
    hide ReceiveRows, CloseStops, StopsOpen, LeftBehind, EverReceived, Known;
    var synced :=
      if Compares(g, t) then SyncRemoved(g.s, g.shared.value, t.hub, g.saved) else g.s;
    if g.shared.Some? { NotUnloadedIs(g, t, g.shared.value); }
    if t.hub.Some? {
      StopsClosed(synced, g.codes, t.hub.value, t.keepPending, |g.codes|);
      assert g.codes[..|g.codes|] == g.codes;
      forall i | 0 <= i < |synced.lines|
        ensures var r := CloseStops(synced, g.codes, t.hub.value, t.keepPending, |g.codes|);
          |r.lines| == |synced.lines| &&
          r.lines[i] ==
          if !t.keepPending && synced.lines[i].live && synced.lines[i].trip.Some? &&
            synced.lines[i].trip.value in g.codes && !StopsOpen(r.stops, synced.lines[i].trip.value)
          then synced.lines[i].(status := LineCompleted) else synced.lines[i]
      {
        LinesClosed(synced, g.codes, t.hub.value, t.keepPending, |g.codes|, i);
      }
    }
  }

  /** The receiving hub's stop of every trip handled is done, or comes back pending when the trips are to stay so. */
  lemma {:induction false} StopsHandled(s: State, t: Tally, g: Progress)
    requires 0 < |t.rows| && ReceiveRows(Progress(s, t.trip, [], []), t, |t.rows|) == Ok(g)
    ensures Receive(s, t).Ok?
    ensures var r := Receive(s, t).value;
      if t.hub.None? then r.stops == g.s.stops
      else
        var h := t.hub.value;
        (forall k :: k in g.s.stops && !(k.1 == h && k.0 in g.codes) ==> k in r.stops && r.stops[k] == g.s.stops[k]) &&
        (forall k :: k in r.stops && k !in g.s.stops ==> k.1 == h && k.0 in g.codes) &&
        (forall c :: c in g.codes ==>
          (c, h) in r.stops && r.stops[(c, h)].live &&
          (r.stops[(c, h)].status.StopCompleted? <==>
            !t.keepPending || ((c, h) in g.s.stops && g.s.stops[(c, h)].status.StopCompleted?)))
  {
    hide ReceiveRows, CloseStops, LeftBehind, TakeOff;
    var synced :=
      if Compares(g, t) then SyncRemoved(g.s, g.shared.value, t.hub, g.saved) else g.s;
    if t.hub.Some? {
      StopsClosed(synced, g.codes, t.hub.value, t.keepPending, |g.codes|);
      assert g.codes[..|g.codes|] == g.codes;
    }
  }

  /**
   * A draft that was not unloaded, was never received under its code and is on no other line is removed; any other
   * order that was not unloaded only leaves the vehicle. Every other order stays as its row left it.
   */
  lemma {:induction false} OrdersLeftBehind(s: State, t: Tally, g: Progress, o: OrderId)
    requires 0 < |t.rows| && ReceiveRows(Progress(s, t.trip, [], []), t, |t.rows|) == Ok(g) && o in g.s.orders
    ensures Receive(s, t).Ok? && o in Receive(s, t).value.orders
    ensures var r := Receive(s, t).value; var was := g.s.orders[o];
      r.orders[o] ==
      if Compares(g, t) && was.live &&
        exists i :: 0 <= i < |g.s.lines| && NotUnloaded(g.s.lines[i], g.shared.value, t.hub, g.saved) &&
          g.s.lines[i].order == o
      then
        if was.status in {DRAFT, PENDING, WAITING} && !Known(g.s, o) &&
          forall i :: 0 <= i < |g.s.lines| && g.s.lines[i].live && g.s.lines[i].order == o ==>
            NotUnloaded(g.s.lines[i], g.shared.value, t.hub, g.saved)
        then was.(live := false)
        else was.(currentTrip := if was.currentTrip == g.shared then None else was.currentTrip)
      else was
  {
    hide ReceiveRows, CloseStops, EverReceived, Known;
    var synced :=
      if Compares(g, t) then SyncRemoved(g.s, g.shared.value, t.hub, g.saved) else g.s;
    if g.shared.Some? { NotUnloadedIs(g, t, g.shared.value); }
    if t.hub.Some? { StopsClosed(synced, g.codes, t.hub.value, t.keepPending, |g.codes|); }
    if Compares(g, t) { RemovedRow(g, t, o); }
  }

  lemma {:induction false} RemovedRow(g: Progress, t: Tally, o: OrderId)
    requires Compares(g, t) && o in g.s.orders
    ensures var c := g.shared.value; var was := g.s.orders[o];
      SyncRemoved(g.s, c, t.hub, g.saved).orders[o] ==
      if was.live &&
        exists i :: 0 <= i < |g.s.lines| && NotUnloaded(g.s.lines[i], c, t.hub, g.saved) && g.s.lines[i].order == o
      then
        if was.status in {DRAFT, PENDING, WAITING} && !Known(g.s, o) &&
          forall i :: 0 <= i < |g.s.lines| && g.s.lines[i].live && g.s.lines[i].order == o ==>
            NotUnloaded(g.s.lines[i], c, t.hub, g.saved)
        then was.(live := false)
        else was.(currentTrip := if was.currentTrip == Some(c) then None else was.currentTrip)
      else was
  {
    hide EverReceived, Known;
    var c, ls := g.shared.value, TakeOff(g.s.lines, g.shared.value, t.hub, g.saved);
    NotUnloadedIs(g, t, c);
    if exists i :: 0 <= i < |ls| && ls[i].live && ls[i].order == o {
      var i :| 0 <= i < |ls| && ls[i].live && ls[i].order == o;
      assert g.s.lines[i].live && !NotUnloaded(g.s.lines[i], c, t.hub, g.saved);
    } else {
      forall i | 0 <= i < |g.s.lines| && g.s.lines[i].live && g.s.lines[i].order == o
        ensures NotUnloaded(g.s.lines[i], c, t.hub, g.saved)
      {
        assert ls[i].order == o;
      }
    }
  }

  // ----- A whole confirmation of one draft -----------------------------------------------------

  lemma {:induction false} OneRow(s: State, t: Tally)
    requires |t.rows| == 1
    ensures ReceiveRows(Progress(s, t.trip, [], []), t, 1) == ReceiveRow(Progress(s, t.trip, [], []), t.rows[0], t)
  {
    hide ReceiveRow;
    assert ReceiveRows(Progress(s, t.trip, [], []), t, 0) == Ok(Progress(s, t.trip, [], []));
  }

  /** Confirming one draft of the hub with a positive total books, receives and invoices that total, at that hub. */
  lemma {:induction false} DraftConfirmed(s: State, t: Tally, o: OrderId, q: int)
    requires |t.rows| == 1 && Numbered(s) && Means(s, t.rows[0], o) && s.orders[o].status in {DRAFT, PENDING, WAITING}
    requires t.superAdmin || s.orders[o].originHub.None? || s.orders[o].originHub == t.hub
    requires 0 < q && q == if t.rows[0].total.Some? && 0 < t.rows[0].total.value then t.rows[0].total.value
      else s.orders[o].total
    ensures Receive(s, t).Ok? && o in Receive(s, t).value.orders
    ensures var r := Receive(s, t).value; var now := r.orders[o];
      now.live && now.total == q && now.inbound == q && now.remaining == q && now.outbound == 0 &&
      now.status == INBOUND && now.currentHub == t.hub &&
      |r.ledger| == |s.ledger| + 1 && r.ledger[..|s.ledger|] == s.ledger && r.ledger[|s.ledger|].order == o &&
      r.ledger[|s.ledger|].qty == q && r.ledger[|s.ledger|].expected == Some(q) && r.ledger[|s.ledger|].hub == t.hub
  {
    hide Receive, ReceiveRow, ReceiveRows, Means, Known, NotUnloaded, Numbered, LineOf, Allotted, Reweighed;
    var g := Progress(s, t.trip, [], []);
    var line := DraftEnters(g, t.rows[0], t, o);
    OneRow(s, t);
    var done := ReceiveRow(g, t.rows[0], t).value;
    VehicleEmptied(s, t, done);
    OrdersLeftBehind(s, t, done, o);
    if Compares(done, t) { SavedStays(done, t, o); }
  }

  lemma {:induction false} SavedStays(g: Progress, t: Tally, o: OrderId)
    requires o in g.saved && Compares(g, t)
    ensures forall i :: 0 <= i < |g.s.lines| && NotUnloaded(g.s.lines[i], g.shared.value, t.hub, g.saved) ==>
      g.s.lines[i].order != o
  {
  }
}
