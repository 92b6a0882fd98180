/** confirmInbound with a counted target status, on the tables. */
module InboundService {
  import opened Basics
  import opened Sums
  import opened Model
  import opened Dispatch
  import opened Receiving
  import opened Tables

  /** What the loop over the rows carries besides the tables. */
  datatype Loop = Loop(shared: Option<Code>, saved: seq<OrderId>, codes: seq<Code>)

  function Now(s: State, w: Loop): Progress {
    Progress(s, w.shared, w.saved, w.codes)
  }

  /** The order's line on the trip is brought up to date, or added. */
  method LinkTrip(db: Database, order: OrderId, c: Code, row: Row, t: Tally) returns (linked: nat)
    requires order in db.orders
    modifies db`lines
    ensures (db.lines, linked) == LinkLine(old(db.Rows()), order, row, t, c)
  {
    var quantity := Some(OrOne(row.Counted().GetOr(db.orders[order].total)));
    var dest := if row.destHub.Some? then row.destHub.value else db.orders[order].destHub;
    var existing := FirstLine(db.lines, order, c, 0);
    if existing.Some? {
      linked := existing.value;
      var line := db.lines[linked].(qty := quantity, dest := dest);
      if !t.keepPending {
        line := line.(status := LineCompleted);
      }
      db.lines := db.lines[linked := line];
    } else {
      linked := db.InsertLine(Line(order, Some(c), t.hub, dest, InboundLine, if t.keepPending then LinePending
        else LineCompleted, quantity, true));
    }
  }

  /** The counted order joins its trip and gets its receipt. */
  method LinkRow(db: Database, w: Loop, order: OrderId, rowTrip: Option<Code>, qty: int, expected: Option<int>,
        row: Row, t: Tally)
    returns (next: Loop)
    requires order in db.orders
    modifies db
    ensures Now(db.Rows(), next) == Link(Now(old(db.Rows()), w), Counting(old(db.Rows()), order, rowTrip, qty,
        expected), row, t)
  {
    hide LinkLine;
    var shared := w.shared;
    var trip := rowTrip;
    if trip.None? {
      if shared.None? { shared := t.plateCode; }
      trip := shared;
    }
    var linked: Option<nat> := None;
    if trip.Some? {
      var i := LinkTrip(db, order, trip.value, row, t);
      linked := Some(i);
    }
    if qty > 0 {
      var discrepancy := if expected.Some? then qty - expected.value else 0;
      db.InsertTx(Tx(order, InboundTx, t.hub, trip, linked, qty, expected, discrepancy, db.orders[order].remaining,
        true));
    }
    next := Loop(shared, w.saved + [order], if trip.Some? && trip.value !in w.codes
      then w.codes + [trip.value] else w.codes);
  }

  /** The assignments a correction makes to its order. */
  method CorrectOn(o: Order, row: Row, diff: int) returns (order: Order)
    ensures order == Recounted(o, row, diff)
    ensures diff != 0 ==> order.inbound <= order.total && 0 <= order.remaining
  {
    hide Sent;
    order := o;
    if diff != 0 {
      order := order.(inbound := Max(0, order.inbound + diff));
      if order.inbound > order.total {
        order := order.(total := order.inbound);
      }
      order := order.(remaining := Max(0, order.inbound - order.outbound));
    }
    order := order.(load := Load(Sent(row.weight, order.load.weight), Sent(row.volume, order.load.volume)));
  }

  /** The receipt exists already: a super admin may correct it, anyone else passes over it. */
  method RecountRow(db: Database, w: Loop, o: OrderId, row: Row, t: Tally, c: Code, receipt: nat) returns (next: Loop)
    requires o in db.orders && receipt < |db.ledger|
    modifies db
    ensures Now(db.Rows(), next) ==
      var q := row.Counted().GetOr(0); var s := old(db.Rows());
      Skip(Now(s, w), if t.superAdmin && q > 0 then Recount(s, o, row, c, receipt, q) else s, o, c)
  {
    hide Recounted;
    var q := row.Counted().GetOr(0);
    if t.superAdmin && q > 0 {
      var order := CorrectOn(db.orders[o], row, q - db.ledger[receipt].qty);
      db.ledger := db.ledger[receipt := db.ledger[receipt].(qty := q)];
      db.SaveOrder(o, order);
      var line := FirstLine(db.lines, o, c, 0);
      if line.Some? {
        db.lines := db.lines[line.value := db.lines[line.value].(qty := Some(q))];
      }
    }
    next := Loop(w.shared, w.saved + [o], if c !in w.codes then w.codes + [c] else w.codes);
  }

  /** The assignments a counted receipt makes to its order. */
  method CountOn(o: Order, row: Row, hub: Option<HubId>, trip: Option<Code>, qty: int, inTransit: Option<int>)
    returns (order: Order)
    ensures order == CountedOrder(o, row, hub, trip, qty, inTransit)
    ensures order.inbound == o.inbound + qty && order.inbound <= order.total
  {
    hide Share, AddLoad;
    order := o;
    var weight := if row.actualWeight.Some? then row.actualWeight.value else Share(order.load.weight, qty, order.total);
    var volume := if row.actualVolume.Some? then row.actualVolume.value else Share(order.load.volume, qty, order.total);
    order := order.(inbound := order.inbound + qty);
    if order.inbound > order.total {
      order := order.(total := order.inbound);
      order := order.(load := AddLoad(order.load, Load(weight, volume)));
    }
    order := order.(remaining := Max(0, order.inbound - order.outbound), status := INBOUND, currentHub := hub);
    if trip.Some? && order.currentTrip == trip && (inTransit.None? || inTransit.value - qty <= 0) {
      order := order.(currentTrip := None);
    }
  }

  /** A locked contract: the receipt is counted against what is still on the trip. */
  method CountRow(db: Database, w: Loop, o: OrderId, row: Row, t: Tally, trip: Option<Code>)
    returns (failure: Option<Error>, next: Loop)
    requires o in db.orders
    modifies db
    ensures var k := CountLocked(old(db.Rows()), o, row, t.hub, trip);
      if k.Err? then failure == Some(k.error) && db.Rows() == old(db.Rows())
      else failure.None? && Now(db.Rows(), next) == Link(Now(old(db.Rows()), w), k.value, row, t)
  {
    hide Link, Loaded, InTransit, CountedOrder;
    ghost var start := db.Rows();
    next := w;
    var inTransit: Option<int> := None;
    if trip.Some? {
      if Loaded(db.ledger, o, trip.value) > 0 {
        inTransit := Some(InTransit(db.ledger, o, trip.value));
      }
    }
    var expected := row.expected.OrElse(inTransit);
    var qty := if row.Counted().Some? then row.Counted().value else expected.GetOr(OrOne(db.orders[o].total));
    if qty <= 0 {
      return Some(Unprocessable), w;
    }
    var order := CountOn(db.orders[o], row, t.hub, trip, qty, inTransit);
    db.SaveOrder(o, order);
    assert CountLocked(start, o, row, t.hub, trip) == Ok(Counting(db.Rows(), o, trip, qty, expected));
    SameLoop(start, db.Rows(), w, Counting(db.Rows(), o, trip, qty, expected), row, t);
    next := LinkRow(db, w, o, trip, qty, expected, row, t);
    failure := None;
  }

  /** Linking starts from the counted tables, not from those of the loop. */
  lemma {:induction false} SameLoop(a: State, b: State, w: Loop, k: Counting, row: Row, t: Tally)
    requires k.order in k.s.orders
    ensures Link(Now(a, w), k, row, t) == Link(Now(b, w), k, row, t)
  {
  }

  method ReceiveOne(db: Database, w: Loop, row: Row, t: Tally) returns (failure: Option<Error>, next: Loop)
    modifies db
    ensures var g := ReceiveRow(Now(old(db.Rows()), w), row, t);
      if g.Err? then failure == Some(g.error) else failure.None? && Now(db.Rows(), next) == g.value
  {
    hide Link, FindRow, FirstReceipt, CountLocked, Recount, Accepted, NewContract, Skip;
    failure := None;
    ghost var start := db.Rows();
    var found := FindRow(db.Rows(), row);
    if found.None? {
      var made := NewContract(row, t.hub);
      var o := db.InsertOrder(made);
      SameLoop(start, db.Rows(), w, Counting(db.Rows(), o, w.shared, made.inbound, Some(made.inbound)), row, t);
      next := LinkRow(db, w, o, w.shared, made.inbound, Some(made.inbound), row, t);
    } else {
      var o := found.value;
      FoundKnown(db.Rows(), row);
      var order := db.orders[o];
      if EditableDraft(order, t) {
        var taken := Accepted(db.Rows(), order, row, t.hub);
        db.SaveOrder(o, taken);
        SameLoop(start, db.Rows(), w, Counting(db.Rows(), o, w.shared, taken.inbound, Some(taken.inbound)), row, t);
        next := LinkRow(db, w, o, w.shared, taken.inbound, Some(taken.inbound), row, t);
      } else {
        var trip := w.shared.OrElse(order.currentTrip);
        var already: Option<nat> := None;
        if trip.Some? && t.hub.Some? {
          already := FirstReceipt(db.ledger, o, trip.value, t.hub.value, 0);
        }
        if already.Some? {
          next := RecountRow(db, w, o, row, t, trip.value, already.value);
        } else {
          failure, next := CountRow(db, w, o, row, t, trip);
        }
      }
    }
  }

  lemma {:induction false} FoundKnown(s: State, row: Row)
    ensures FindRow(s, row).Some? ==> FindRow(s, row).value in s.orders
  {
  }

  // ----- After the rows ------------------------------------------------------------------------

  /** The line was on the vehicle and is not any more; its order is looked at. */
  predicate Removes(ls: seq<Line>, c: Code, hub: Option<HubId>, kept: seq<OrderId>, o: OrderId, n: nat)
    requires n <= |ls|
  {
    exists i :: 0 <= i < n && TakenOff(ls[i], c, hub, kept) && ls[i].order == o
  }

  /** The order table after the first n lines, `ls` being the lines that are left. */
  ghost predicate LeftSoFar(orders: map<OrderId, Order>, s: State, ls: seq<Line>, c: Code, hub: Option<HubId>,
        kept: seq<OrderId>, n: nat)
    requires n <= |s.lines|
  {
    orders.Keys == s.orders.Keys &&
    forall o :: o in s.orders ==>
      orders[o] == if s.orders[o].live && Removes(s.lines, c, hub, kept, o, n) then LeftBehind(s, ls, o, c)
        else s.orders[o]
  }

  /** Orders removed on the way had no receipt, so nobody's history changes. */
  lemma {:induction false} SameHistory(orders: map<OrderId, Order>, s: State, ls: seq<Line>, c: Code,
        hub: Option<HubId>, kept: seq<OrderId>, n: nat, o: OrderId)
    requires n <= |s.lines| && LeftSoFar(orders, s, ls, c, hub, kept, n) && o in s.orders
    ensures EverReceived(s.(orders := orders), o) == EverReceived(s, o)
  {
    hide LeftSoFar;
    forall i | 0 <= i < |s.ledger| && s.ledger[i].live && s.ledger[i].kind.InboundTx?
      ensures s.ledger[i].order in s.orders ==> EverReceived(s, s.ledger[i].order)
    {
    }
    forall x | x in s.orders
      ensures x in orders && orders[x].code == s.orders[x].code
      ensures EverReceived(s, x) ==> orders[x].live == s.orders[x].live
      ensures orders[x].live ==> s.orders[x].live
    {
      ReceivedStays(orders, s, ls, c, hub, kept, n, x);
    }
    assert orders.Keys == s.orders.Keys by { ReceivedStays(orders, s, ls, c, hub, kept, n, o); }
  }

  lemma {:induction false} ReceivedStays(orders: map<OrderId, Order>, s: State, ls: seq<Line>, c: Code,
        hub: Option<HubId>, kept: seq<OrderId>, n: nat, x: OrderId)
    requires n <= |s.lines| && LeftSoFar(orders, s, ls, c, hub, kept, n) && x in s.orders
    ensures orders.Keys == s.orders.Keys && orders[x].code == s.orders[x].code
    ensures EverReceived(s, x) ==> orders[x].live == s.orders[x].live
    ensures orders[x].live ==> s.orders[x].live
  {
    hide EverReceived, Removes;
  }

  lemma {:induction false} LeaveOne(orders: map<OrderId, Order>, s: State, ls: seq<Line>, c: Code, hub: Option<HubId>,
        kept: seq<OrderId>, n: nat)
    requires n < |s.lines| && LeftSoFar(orders, s, ls, c, hub, kept, n)
    ensures var o := s.lines[n].order;
      LeftSoFar(if TakenOff(s.lines[n], c, hub, kept) && IsLive(orders, o)
        then orders[o := LeftBehind(s.(orders := orders), ls, o, c)] else orders,
                s, ls, c, hub, kept, n + 1)
  {
    hide EverReceived, TakenOff, LeftBehind;
    var o := s.lines[n].order;
    forall x | x != o || !TakenOff(s.lines[n], c, hub, kept)
      ensures Removes(s.lines, c, hub, kept, x, n + 1) == Removes(s.lines, c, hub, kept, x, n) {}
    if o in s.orders {
      SameHistory(orders, s, ls, c, hub, kept, n, o);
      LeftAgain(orders, s, ls, c, o);
    }
  }

  /** Looking twice at an order that is left behind does what looking once does. */
  lemma {:induction false} LeftAgain(orders: map<OrderId, Order>, s: State, ls: seq<Line>, c: Code, o: OrderId)
    requires orders.Keys == s.orders.Keys && o in s.orders
    requires EverReceived(s.(orders := orders), o) == EverReceived(s, o)
    requires orders[o] == s.orders[o] || orders[o] == LeftBehind(s, ls, o, c)
    ensures orders[o].live ==> LeftBehind(s.(orders := orders), ls, o, c) == LeftBehind(s, ls, o, c)
    ensures orders[o].live ==> s.orders[o].live
  {
    hide EverReceived;
  }

  /** Lines taken off the vehicle are deleted, then their orders are looked at one by one. */
  method DropRemoved(db: Database, c: Code, hub: Option<HubId>, kept: seq<OrderId>)
    modifies db
    ensures db.Rows() == SyncRemoved(old(db.Rows()), c, hub, kept)
  {
    hide LeftBehind, TakenOff, LeftSoFar;
    var was := db.lines;
    ghost var s := db.Rows();
    db.lines := TakeOff(was, c, hub, kept);
    NobodyLeft(s, db.lines, c, hub, kept);
    for i := 0 to |was|
      invariant db.Rows() == s.(orders := db.orders, lines := TakeOff(was, c, hub, kept))
      invariant LeftSoFar(db.orders, s, db.lines, c, hub, kept, i)
    {
      LeaveOne(db.orders, s, db.lines, c, hub, kept, i);
      var o := was[i].order;
      if TakenOff(was[i], c, hub, kept) && IsLive(db.orders, o) {
        LinesDoNotMatter(s.(orders := db.orders), db.Rows(), db.lines, o, c);
        db.SaveOrder(o, LeftBehind(db.Rows(), db.lines, o, c));
      }
    }
    EveryoneLeft(db.orders, s, db.lines, c, hub, kept);
  }

  lemma {:induction false} NobodyLeft(s: State, ls: seq<Line>, c: Code, hub: Option<HubId>, kept: seq<OrderId>)
    ensures LeftSoFar(s.orders, s, ls, c, hub, kept, 0)
  {
  }

  lemma {:induction false} LinesDoNotMatter(a: State, b: State, ls: seq<Line>, o: OrderId, c: Code)
    requires o in a.orders && b.orders == a.orders && b.ledger == a.ledger
    ensures LeftBehind(a, ls, o, c) == LeftBehind(b, ls, o, c)
  {
  }

  lemma {:induction false} EveryoneLeft(orders: map<OrderId, Order>, s: State, ls: seq<Line>, c: Code,
        hub: Option<HubId>, kept: seq<OrderId>)
    requires LeftSoFar(orders, s, ls, c, hub, kept, |s.lines|) && ls == TakeOff(s.lines, c, hub, kept)
    ensures s.(orders := orders, lines := ls) == SyncRemoved(s, c, hub, kept)
  {
    hide LeftBehind;
  }

  method CloseAll(db: Database, codes: seq<Code>, hub: HubId, keepPending: bool)
    modifies db
    ensures db.Rows() == CloseStops(old(db.Rows()), codes, hub, keepPending, |codes|)
  {
    hide UpsertStop, AwaitsStop;
    ghost var start := db.Rows();
    for i := 0 to |codes|
      invariant db.Rows() == CloseStops(start, codes, hub, keepPending, i)
    {
      if keepPending {
        db.UpsertTripStop(codes[i], hub, StopPending, DestinationStop, 1);
      } else {
        db.UpsertTripStop(codes[i], hub, StopCompleted, DestinationStop, 1);
        if !AwaitsStop(db.stops, codes[i]) {
          db.lines := CompleteLines(db.lines, codes[i]);
        }
      }
    }
  }

  /** The first refused row decides. */
  lemma {:induction false} FirstFailure(g: Progress, t: Tally, i: nat, n: nat)
    requires i < n <= |t.rows| && ReceiveRows(g, t, i).Ok? && ReceiveRow(ReceiveRows(g, t, i).value, t.rows[i], t).Err?
    ensures ReceiveRows(g, t, n) == Err(ReceiveRow(ReceiveRows(g, t, i).value, t.rows[i], t).error)
    decreases n
  {
    hide ReceiveRow;
    if i < n - 1 { FirstFailure(g, t, i, n - 1); }
  }

  method ConfirmInbound(db: Database, t: Tally) returns (failure: Option<Error>)
    modifies db
    ensures Outcome(Receive(old(db.Rows()), t), old(db.Rows()), db.Rows(), failure)
  {
    hide ReceiveRow, SyncRemoved, CloseStops;
    var start := db.Rows();
    if |t.rows| == 0 { return Some(Unprocessable); }
    var w := Loop(t.trip, [], []);
    ghost var g := Now(start, w);
    for i := 0 to |t.rows|
      invariant ReceiveRows(g, t, i) == Ok(Now(db.Rows(), w))
    {
      var refused, next := ReceiveOne(db, w, t.rows[i], t);
      if refused.Some? {
        FirstFailure(g, t, i, |t.rows|);
        db.Abandon(start);
        return refused;
      }
      w := next;
    }
    if w.shared.Some? && |w.saved| > 0 && !t.keepPending {
      DropRemoved(db, w.shared.value, t.hub, w.saved);
    }
    if t.hub.Some? {
      CloseAll(db, w.codes, t.hub.value, t.keepPending);
    }
    failure := None;
  }
}
