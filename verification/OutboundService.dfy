/** The outbound methods on the tables: draft, dispatch, cancellation, roll-back. */
module OutboundService {
  import opened Basics
  import opened Sums
  import opened Model
  import opened Dispatch
  import opened RoundTrip
  import opened Tables
  import opened ConsolidateService

  // ----- Shared steps --------------------------------------------------------------------------

  method DiscardLines(db: Database, c: Code, userHub: Option<HubId>) returns (failure: Option<Error>)
    modifies db
    ensures Outcome(Discard(old(db.Rows()), c, userHub), old(db.Rows()), db.Rows(), failure)
  {
    var found, isDraft, foreign := false, true, false;
    for i := 0 to |db.lines|
      invariant found <==> exists j :: 0 <= j < i && OnTrip(db.lines[j], c)
      invariant isDraft <==> forall j :: 0 <= j < i && OnTrip(db.lines[j], c) ==> IsDraftLine(db.lines[j])
      invariant foreign <==>
        exists j :: 0 <= j < i && OnTrip(db.lines[j], c) && userHub.Some? && db.lines[j].origin != userHub
    {
      if OnTrip(db.lines[i], c) {
        found := true;
        isDraft := isDraft && IsDraftLine(db.lines[i]);
        foreign := foreign || (userHub.Some? && db.lines[i].origin != userHub);
      }
    }
    if !found { return Some(NotFound); }
    if !isDraft || Departed(db.ledger, c) { return Some(Unprocessable); }
    if foreign { return Some(Unprocessable); }
    db.lines := DropLines(db.lines, c);
    failure := None;
  }

  lemma {:induction false} GatherNext(s: State, found: seq<OrderId>, i: nat, seen: set<Code>)
    requires i < |found| && forall j :: 0 <= j < |found| ==> found[j] in s.orders
    ensures var code := s.orders[found[i]].code;
      Gather(s, found[i..], seen) ==
      if |code| > 0 && code in seen then Gather(s, found[i + 1..], seen)
      else
        var rest := Gather(Consolidation.Consolidate(s, found[i]), found[i + 1..], seen + {code});
        (rest.0, [TargetOf(s, found[i])] + rest.1)
  {
    hide Consolidation.Consolidate, TargetOf;
    assert found[i..][1..] == found[i + 1..];
  }

  lemma {:induction false} GatherEnds(s: State, found: seq<OrderId>, seen: set<Code>, targets: seq<Target>)
    ensures found[0..] == found && [] + targets == targets && targets + [] == targets
    ensures Gather(s, found[|found|..], seen) == (s, [])
  {
  }

  /** The rows to dispatch, one per order code, split rows consolidated on the way. */
  method GatherOrders(db: Database, found: seq<OrderId>) returns (targets: seq<Target>)
    requires forall i :: 0 <= i < |found| ==> found[i] in db.orders
    modifies db
    ensures (db.Rows(), targets) == Gather(old(db.Rows()), found, {})
  {
    hide Consolidation.Consolidate, TargetOf, SiblingsOf, Gather;
    ghost var start := db.Rows();
    var seen: set<Code> := {};
    targets := [];
    GatherEnds(start, found, {}, Gather(start, found, {}).1);
    for i := 0 to |found|
      invariant forall j :: 0 <= j < |found| ==> found[j] in db.orders
      invariant var rest := Gather(db.Rows(), found[i..], seen);
        Gather(start, found, {}) == (rest.0, targets + rest.1)
    {
      GatherNext(db.Rows(), found, i, seen);
      var o := found[i];
      var code := db.orders[o].code;
      if !(|code| > 0 && code in seen) {
        ghost var rest := Gather(Consolidation.Consolidate(db.Rows(), o), found[i + 1..], seen + {code});
        var target := TargetOf(db.Rows(), o);
        ConsolidateSiblings(db, o);
        assert targets + ([target] + rest.1) == (targets + [target]) + rest.1;
        targets := targets + [target];
        seen := seen + {code};
      }
    }
    GatherEnds(db.Rows(), found, seen, targets);
  }

  ghost predicate DistinctTargets(targets: seq<Target>) {
    forall i, j :: 0 <= i < j < |targets| ==> targets[i].order != targets[j].order
  }

  lemma {:induction false} GatheredDistinct(s: State, found: seq<OrderId>, seen: set<Code>)
    requires NoDuplicates(found) && forall i :: 0 <= i < |found| ==> found[i] in s.orders
    ensures var t := Gather(s, found, seen).1;
      DistinctTargets(t) && (forall i :: 0 <= i < |t| ==> t[i].order in found) &&
      (|found| > 0 && seen == {} ==> |t| > 0)
    decreases |found|
  {
    hide Consolidation.Consolidate;
    if |found| > 0 {
      var code := s.orders[found[0]].code;
      assert found[0] !in found[1..];
      assert forall o :: o in found[1..] ==> o in found;
      if |code| > 0 && code in seen {
        GatheredDistinct(s, found[1..], seen);
      } else {
        GatheredDistinct(Consolidation.Consolidate(s, found[0]), found[1..], seen + {code});
      }
    }
  }

  /** One line of the request against the stock and reservations the tables hold now. */
  method PlanLine(s: State, req: Request, target: Target, leaving: bool) returns (r: Result<Plan>)
    requires target.order in s.orders
    ensures r == PlanOne(s, req, target, leaving)
    ensures r.Ok? ==> 0 < r.value.qty <= Effective(s, target.order, r.value.hub, req.draftCode)
  {
    var o := s.orders[target.order];
    var item := MergeItems(req.items, target);
    var actingHub := req.userHub.OrElse(o.currentHub).OrElse(o.originHub);
    var available := o.remaining;
    if !DraftLike(o.status) && actingHub.Some? {
      var hubStock := GetHubStock(s.ledger, target.order, actingHub.value);
      if hubStock.Some? { available := hubStock.value; }
    }
    var pending := PendingOutbound(s.lines, target.order, actingHub, req.draftCode);
    var effective := Max(0, available - pending);
    var qty := if item.Some? && item.value.qty.Some? then item.value.qty.value else effective;
    if qty <= 0 { return Err(Unprocessable); }
    if qty > effective { return Err(Unprocessable); }
    var (transfer, dest) := if leaving then DispatchRoute(req, item, actingHub) else DraftRoute(req, item, actingHub);
    r := Ok(Plan(target.order, actingHub, qty, available, transfer, dest));
  }

  /** A plan only looks at its own order's row, invoices and lines. */
  lemma {:induction false} PlanUnaffected(a: State, b: State, req: Request, t: Target, leaving: bool, ls: seq<Line>,
        l: seq<Tx>)
    requires t.order in a.orders && t.order in b.orders && a.orders[t.order] == b.orders[t.order]
    requires b.lines == a.lines + ls && b.ledger == a.ledger + l
    requires forall i :: 0 <= i < |ls| ==> ls[i].order != t.order
    requires forall i :: 0 <= i < |l| ==> l[i].order != t.order
    ensures PlanOne(b, req, t, leaving) == PlanOne(a, req, t, leaving)
  {
    var o := t.order;
    forall h: HubId, x ensures Reserved(b.lines, o, h, x) == Reserved(a.lines, o, h, x) {
      SumConcat(a.lines, ls, ReservedAt(o, h, x));
      SumZero(ls, ReservedAt(o, h, x));
    }
    forall h: HubId ensures GetHubStock(b.ledger, o, h) == GetHubStock(a.ledger, o, h) {
      SameStock(a.ledger, l, o, h);
    }
    hide Reserved, GetHubStock, MergeItems, DispatchRoute, DraftRoute;
  }

  lemma {:induction false} SameStock(a: seq<Tx>, l: seq<Tx>, o: OrderId, h: HubId)
    requires forall i :: 0 <= i < |l| ==> l[i].order != o
    ensures GetHubStock(a + l, o, h) == GetHubStock(a, o, h)
  {
    SumConcat(a, l, StockAt(o, Some(h)));
    SumZero(l, StockAt(o, Some(h)));
    if HasRows(a, o, Some(h)) {
      var i :| 0 <= i < |a| && a[i].live && a[i].order == o && a[i].hub == Some(h);
      assert (a + l)[i] == a[i];
    }
  }

  /** The stops of a route: where the vehicle leaves, then each receiving hub in turn. */
  method StopAlong(db: Database, c: Code, origin: Option<HubId>, st: StopStatus, hubs: seq<HubId>)
    modifies db
    ensures db.Rows() == old(db.Rows()).(stops := Route(old(db.stops), c, origin, st, hubs))
  {
    hide UpsertStop;
    ghost var start := db.Rows();
    if origin.Some? {
      db.UpsertTripStop(c, origin.value, st, OriginStop, 1);
    }
    ghost var left := db.stops;
    for i := 0 to |hubs|
      invariant db.Rows() == start.(stops := StopAtEach(left, c, hubs, i))
    {
      db.UpsertTripStop(c, hubs[i], StopPending, if i == |hubs| - 1 then DestinationStop else TransitStop, i + 2);
    }
  }

  // ----- saveOutboundDraft ---------------------------------------------------------------------

  lemma {:induction false} PlansOf(s: State, req: Request, targets: seq<Target>, leaving: bool, i: nat)
    requires forall j :: 0 <= j < |targets| ==> targets[j].order in s.orders
    requires i < |targets|
    ensures PlanAll(s, req, targets[..i], leaving).Err? ==>
      PlanAll(s, req, targets, leaving) == PlanAll(s, req, targets[..i], leaving)
    decreases |targets|
  {
    if i < |targets| - 1 {
      assert targets[..|targets| - 1][..i] == targets[..i];
      PlansOf(s, req, targets[..|targets| - 1], leaving, i);
    }
  }

  /** The first refused line decides the outcome of the whole request. */
  lemma {:induction false} FirstRefusal(s: State, req: Request, targets: seq<Target>, leaving: bool, i: nat)
    requires forall j :: 0 <= j < |targets| ==> targets[j].order in s.orders
    requires i < |targets| && PlanAll(s, req, targets[..i], leaving).Ok? && PlanOne(s, req, targets[i], leaving).Err?
    ensures PlanAll(s, req, targets, leaving) == Err(PlanOne(s, req, targets[i], leaving).error)
  {
    assert targets[..i + 1][..i] == targets[..i];
    if i + 1 < |targets| {
      PlansOf(s, req, targets, leaving, i + 1);
    } else {
      assert targets[..i + 1] == targets;
    }
  }

  /** The loop over the orders: each is checked against the tables as the earlier ones left them, then planned. */
  method PlanLines(db: Database, req: Request, targets: seq<Target>, c: Code, origin: Option<HubId>)
    returns (failure: Option<Error>)
    requires DistinctTargets(targets) && forall i :: 0 <= i < |targets| ==> targets[i].order in db.orders
    modifies db
    ensures match PlanAll(old(db.Rows()), req, targets, false)
            case Ok(plans) => failure.None? && db.Rows() == ReserveAll(old(db.Rows()), c, origin, plans)
            case Err(e) => failure == Some(e)
  {
    hide PlanOne;
    ghost var clean := db.Rows();
    ghost var plans: seq<Plan> := [];
    for i := 0 to |targets|
      invariant PlanAll(clean, req, targets[..i], false) == Ok(plans)
      invariant db.Rows() == ReserveAll(clean, c, origin, plans)
      invariant db.Rows() == clean.(lines := clean.lines + PlannedLines(c, origin, plans))
    {
      PlanUnaffected(clean, db.Rows(), req, targets[i], false, PlannedLines(c, origin, plans), []);
      var plan := PlanLine(db.Rows(), req, targets[i], false);
      if plan.Err? {
        FirstRefusal(clean, req, targets, false, i);
        return Some(plan.error);
      }
      var _ := db.InsertLine(PlannedLine(c, origin, plan.value));
      assert targets[..i + 1][..i] == targets[..i];
      plans := plans + [plan.value];
      assert plans[..i] == plans[..|plans| - 1];
      ReserveAllShape(clean, c, origin, plans);
    }
    assert targets[..|targets|] == targets;
    failure := None;
  }

  method SaveOutboundDraft(db: Database, req: Request) returns (failure: Option<Error>)
    requires FoundIn(db.Rows(), req) && NoDuplicates(req.found)
    modifies db
    ensures Outcome(SaveDraft(old(db.Rows()), req), old(db.Rows()), db.Rows(), failure)
  {
    hide Gather, PlanAll, ReserveAll, Discard, Route, Distinct, OtherHubs;
    var start := db.Rows();
    if |req.found| == 0 { return Some(NotFound); }
    if req.draftCode.Some? {
      failure := DiscardLines(db, req.draftCode.value, req.userHub);
      if failure.Some? { return; }
      DiscardKeepsOrders(start, req);
    }
    GatheredDistinct(db.Rows(), req.found, {});
    var targets := GatherOrders(db, req.found);
    var c := req.TripCode();
    var first := db.orders[targets[0].order];
    var origin := req.userHub.OrElse(first.currentHub).OrElse(first.originHub);
    failure := PlanLines(db, req, targets, c, origin);
    if failure.Some? {
      db.Abandon(start);
      return;
    }
    StopAlong(db, c, origin, StopPending, Distinct(OtherHubs(PlannedHubs(req.items) + ModeHub(req), origin)));
  }

  lemma {:induction false} DiscardKeepsOrders(s: State, req: Request)
    requires DiscardDraft(s, req).Ok?
    ensures DiscardDraft(s, req).value.orders == s.orders
  {
  }

  // ----- confirmOutbound -----------------------------------------------------------------------

  /** One dispatched line: inserted with its invoice; the order's row changes in memory only. */
  method DispatchLine(db: Database, c: Code, plan: Plan) returns (row: Order)
    requires plan.order in db.orders
    modifies db
    ensures row == AfterDispatch(old(db.orders)[plan.order], c, plan)
    ensures db.Rows() == old(db.Rows()).(lines := old(db.lines) + [DispatchedLine(c, plan)],
                                         ledger := old(db.ledger) + [DispatchTx(c, plan, |old(db.lines)|)])
  {
    row := db.orders[plan.order];
    row := row.(outbound := row.outbound + plan.qty);
    row := row.(remaining := Max(0, row.remaining - plan.qty));
    row := row.(status := if row.remaining == 0 then COMPLETED_INBOUND else INBOUND);
    if plan.transfer {
      row := row.(currentTrip := Some(c));
    }
    var hubStockAfter := Max(0, plan.available - plan.qty);
    if hubStockAfter == 0 && row.currentHub == plan.hub {
      row := row.(currentHub := None);
    }
    var line := db.InsertLine(DispatchedLine(c, plan));
    db.InsertTx(Tx(plan.order, if plan.transfer then TransferTx else OutboundTx, plan.hub, Some(c), Some(line),
                   plan.qty, Some(plan.qty), 0, hubStockAfter, true));
  }

  /** The rows in memory are the dispatched orders. */
  ghost predicate Changed(rows: seq<Order>, plans: seq<Plan>, targets: seq<Target>, orders: map<OrderId, Order>,
        c: Code)
  {
    |rows| == |plans| <= |targets| &&
    forall i :: 0 <= i < |plans| ==>
      plans[i].order == targets[i].order && plans[i].order in orders &&
        rows[i] == AfterDispatch(orders[plans[i].order], c, plans[i])
  }

  lemma {:induction false} OneMoreLine(c: Code, plans: seq<Plan>, plan: Plan, base: nat)
    ensures DispatchedLines(c, plans + [plan]) == DispatchedLines(c, plans) + [DispatchedLine(c, plan)]
    ensures DispatchTxs(c, plans + [plan], base) == DispatchTxs(c, plans, base) + [DispatchTx(c, plan, base + |plans|)]
    ensures |DispatchedLines(c, plans)| == |plans|
  {
  }

  lemma {:induction false} PlansExtend(s: State, req: Request, targets: seq<Target>, leaving: bool, i: nat,
        plans: seq<Plan>, plan: Plan)
    requires forall j :: 0 <= j < |targets| ==> targets[j].order in s.orders
    requires i < |targets| && PlanAll(s, req, targets[..i], leaving) == Ok(plans)
    requires PlanOne(s, req, targets[i], leaving) == Ok(plan)
    ensures PlanAll(s, req, targets[..i + 1], leaving) == Ok(plans + [plan]) && plan.order == targets[i].order
  {
    assert targets[..i + 1][..i] == targets[..i];
  }

  /** The loop over the orders: each is checked against the tables as the earlier ones left them, then dispatched. */
  method DispatchLines(db: Database, req: Request, targets: seq<Target>, c: Code)
      returns (failure: Option<Error>, rows: seq<Order>, ghost plans: seq<Plan>)
    requires DistinctTargets(targets) && forall i :: 0 <= i < |targets| ==> targets[i].order in db.orders
    modifies db
    ensures PlanAll(old(db.Rows()), req, targets, true) == if failure.Some? then Err(failure.value) else Ok(plans)
    ensures failure.None? ==>
      Changed(rows, plans, targets, db.orders, c) && |plans| == |targets| &&
      db.Rows() == old(db.Rows()).(lines := old(db.lines) + DispatchedLines(c, plans),
                                   ledger := old(db.ledger) + DispatchTxs(c, plans, |old(db.lines)|))
  {
    hide PlanOne, PlanAll, AfterDispatch, DispatchedLines, DispatchTxs;
    ghost var clean := db.Rows();
    rows, plans := [], [];
    NothingDispatched(clean, req, targets, c);
    for i := 0 to |targets|
      invariant PlanAll(clean, req, targets[..i], true) == Ok(plans) && |plans| == i
      invariant Changed(rows, plans, targets, db.orders, c)
      invariant db.Rows() == clean.(lines := clean.lines + DispatchedLines(c, plans),
                                    ledger := clean.ledger + DispatchTxs(c, plans, |clean.lines|))
    {
      PlanUnaffected(clean, db.Rows(), req, targets[i], true, DispatchedLines(c, plans), DispatchTxs(c, plans,
        |clean.lines|));
      var checked := PlanLine(db.Rows(), req, targets[i], true);
      if checked.Err? {
        FirstRefusal(clean, req, targets, true, i);
        return Some(checked.error), rows, plans;
      }
      var plan := checked.value;
      PlansExtend(clean, req, targets, true, i, plans, plan);
      OneMoreLine(c, plans, plan, |clean.lines|);
      var row := DispatchLine(db, c, plan);
      rows := rows + [row];
      plans := plans + [plan];
    }
    assert targets[..|targets|] == targets;
    failure := None;
  }

  lemma {:induction false} NothingDispatched(s: State, req: Request, targets: seq<Target>, c: Code)
    requires forall j :: 0 <= j < |targets| ==> targets[j].order in s.orders
    ensures PlanAll(s, req, targets[..0], true) == Ok([]) && DispatchedLines(c, []) == []
    ensures DispatchTxs(c, [], |s.lines|) == []
  {
  }

  /** orderRepo.save(orders) */
  method SaveRows(db: Database, clean: State, c: Code, ghost plans: seq<Plan>, targets: seq<Target>, rows: seq<Order>)
    requires DistinctTargets(targets) && |plans| == |targets| && db.orders == clean.orders
    requires Changed(rows, plans, targets, clean.orders, c)
    modifies db`orders
    ensures db.orders == DispatchAll(clean, c, plans).orders
  {
    for i := 0 to |rows|
      invariant db.orders == DispatchAll(clean, c, plans[..i]).orders
    {
      OthersKeep(clean, c, plans[..i], plans[i].order);
      assert plans[..i + 1][..i] == plans[..i];
      db.SaveOrder(targets[i].order, rows[i]);
    }
    assert plans[..|plans|] == plans;
  }

  lemma {:induction false} OthersKeep(s: State, c: Code, plans: seq<Plan>, o: OrderId)
    requires o in s.orders && forall i :: 0 <= i < |plans| ==> plans[i].order in s.orders && plans[i].order != o
    ensures DispatchAll(s, c, plans).orders[o] == s.orders[o]
  {
    DispatchAllOrders(s, c, plans, o);
  }

  method ConfirmOutbound(db: Database, req: Request) returns (failure: Option<Error>)
    requires FoundIn(db.Rows(), req) && NoDuplicates(req.found)
    modifies db
    ensures Outcome(Confirm(old(db.Rows()), req), old(db.Rows()), db.Rows(), failure)
  {
    hide Gather, PlanAll, DispatchAll, Discard, Route, Distinct, OtherHubs, AfterDispatch, NamesOtherHub, ContractHubs;
    var start := db.Rows();
    if |req.found| == 0 { return Some(NotFound); }
    GatheredDistinct(db.Rows(), req.found, {});
    var targets := GatherOrders(db, req.found);
    var drafts := false;
    for i := 0 to |targets|
      invariant drafts <==> exists j :: 0 <= j < i && DraftLike(db.orders[targets[j].order].status)
    {
      drafts := drafts || DraftLike(db.orders[targets[i].order].status);
    }
    if drafts {
      db.Abandon(start);
      return Some(BadRequest);
    }
    var first := db.orders[targets[0].order];
    var origin := req.userHub.OrElse(first.currentHub).OrElse(first.originHub);
    var isTransfer := req.transfer || NamesOtherHub(req, targets, origin);
    ghost var whole := db.Rows();
    if req.draftCode.Some? {
      failure := DiscardLines(db, req.draftCode.value, req.userHub);
      if failure.Some? {
        db.Abandon(start);
        return;
      }
      DiscardKeepsOrders(whole, req);
    }
    var c := req.TripCode();
    var clean := db.Rows();
    var rows;
    ghost var plans;
    failure, rows, plans := DispatchLines(db, req, targets, c);
    if failure.Some? {
      db.Abandon(start);
      return;
    }
    SaveRows(db, clean, c, plans, targets, rows);
    DispatchAllShape(clean, c, plans);
    DispatchRest(clean, c, plans);
    var hubs :=
      if isTransfer then Distinct(OtherHubs(ModeHub(req) + PlannedHubs(req.items) + ContractHubs(db.orders,
        targets), origin)) else [];
    StopAlong(db, c, origin, StopCompleted, hubs);
  }

  lemma {:induction false} DispatchRest(s: State, c: Code, plans: seq<Plan>)
    requires forall i :: 0 <= i < |plans| ==> plans[i].order in s.orders
    ensures var r := DispatchAll(s, c, plans); r.nextOrder == s.nextOrder && r.stops == s.stops
    decreases |plans|
  {
    if |plans| > 0 { DispatchRest(s, c, plans[..|plans| - 1]); }
  }

  // ----- cancelOutboundDraft -------------------------------------------------------------------

  method CancelOutboundDraft(db: Database, c: Code, userHub: Option<HubId>) returns (failure: Option<Error>)
    modifies db
    ensures Outcome(CancelDraft(old(db.Rows()), c, userHub), old(db.Rows()), db.Rows(), failure)
  {
    failure := DiscardLines(db, c, userHub);
    if failure.None? {
      db.stops := DropPendingStops(db.stops, c);
    }
  }

  // ----- rollbackTrip, outbound branch ---------------------------------------------------------

  lemma {:induction false} PutBackNone(orders: map<OrderId, Order>, l: seq<Tx>, c: Code, hub: Option<HubId>)
    ensures PutBackAll(orders, l, c, hub, 0) == orders
  {
  }

  lemma {:induction false} PutBackNext(orders: map<OrderId, Order>, l: seq<Tx>, c: Code, hub: Option<HubId>, n: nat)
    requires n < |l|
    ensures var before := PutBackAll(orders, l, c, hub, n);
      PutBackAll(orders, l, c, hub, n + 1) ==
      if TakenBack(l[n], c, hub) && IsLive(before, l[n].order)
        then before[l[n].order := PutBack(before[l[n].order], l[n], c)] else before
  {
  }

  /** The assignments one taken-back invoice makes to its order. */
  method PutBackOn(o: Order, tx: Tx, c: Code) returns (order: Order)
    ensures order == PutBack(o, tx, c)
    ensures 0 <= order.outbound && order.remaining == o.remaining + tx.qty
  {
    order := o.(outbound := Max(0, o.outbound - tx.qty));
    order := order.(remaining := order.remaining + tx.qty, status := INBOUND);
    if tx.hub.Some? {
      order := order.(currentHub := tx.hub);
    }
    if order.currentTrip == Some(c) {
      order := order.(currentTrip := None);
    }
  }

  /** The loop over the dispatch invoices: each puts its quantity back on its order. */
  method PutBackOrders(db: Database, c: Code, hub: Option<HubId>)
    modifies db`orders
    ensures db.orders == PutBackAll(old(db.orders), db.ledger, c, hub, |db.ledger|)
  {
    hide PutBackAll, PutBack;
    ghost var start := db.orders;
    PutBackNone(start, db.ledger, c, hub);
    for i := 0 to |db.ledger|
      invariant db.orders == PutBackAll(start, db.ledger, c, hub, i)
    {
      PutBackNext(start, db.ledger, c, hub, i);
      var tx := db.ledger[i];
      if TakenBack(tx, c, hub) && IsLive(db.orders, tx.order) {
        var order := PutBackOn(db.orders[tx.order], tx, c);
        db.SaveOrder(tx.order, order);
      }
    }
  }

  /** Orders on the first n lines of the trip have let go of it. */
  ghost predicate Released(orders: map<OrderId, Order>, was: map<OrderId, Order>, ls: seq<Line>, c: Code, n: nat)
    requires n <= |ls|
  {
    orders.Keys == was.Keys &&
    forall o :: o in was ==>
      orders[o] ==
      if was[o].live && was[o].currentTrip == Some(c) && exists i :: 0 <= i < n && OnTrip(ls[i], c) && ls[i].order == o
      then was[o].(currentTrip := None) else was[o]
  }

  lemma {:induction false} ReleaseOne(orders: map<OrderId, Order>, was: map<OrderId, Order>, ls: seq<Line>, c: Code,
        n: nat)
    requires n < |ls| && Released(orders, was, ls, c, n)
    ensures var o := ls[n].order;
      Released(if OnTrip(ls[n], c) && IsLive(orders, o) && orders[o].currentTrip == Some(c)
        then orders[o := orders[o].(currentTrip := None)] else orders,
               was, ls, c, n + 1)
  {
    if OnTrip(ls[n], c) {
      forall o | o in was && o != ls[n].order
        ensures (exists i :: 0 <= i < n + 1 && OnTrip(ls[i], c) && ls[i].order == o) <==>
          exists i :: 0 <= i < n && OnTrip(ls[i], c) && ls[i].order == o
      {}
    }
  }

  lemma {:induction false} AllReleased(orders: map<OrderId, Order>, was: map<OrderId, Order>, ls: seq<Line>, c: Code)
    requires Released(orders, was, ls, c, |ls|)
    ensures orders == ReleaseTrip(was, ls, c)
  {
  }

  /** A line of the trip with its missing plan filled in. */
  function Filled(line: Line, l: seq<Tx>, c: Code, hub: Option<HubId>): Line {
    if OnTrip(line, c) then Reopened(line, l, c, hub).(status := line.status) else line
  }

  /** The loop over the trip's lines: a missing plan is filled in, and the order leaves the trip. */
  method ReleaseLines(db: Database, c: Code, hub: Option<HubId>) returns (lines: seq<Line>)
    modifies db`orders
    ensures db.orders == ReleaseTrip(old(db.orders), db.lines, c)
    ensures |lines| == |db.lines| && forall i :: 0 <= i < |lines| ==> lines[i] == Filled(db.lines[i], db.ledger, c, hub)
  {
    hide RestoredQty, Released, ReleaseTrip;
    ghost var start := db.orders;
    lines := db.lines;
    NoneReleased(start, db.lines, c);
    for i := 0 to |db.lines|
      invariant Released(db.orders, start, db.lines, c, i)
      invariant |lines| == |db.lines| && forall j :: i <= j < |lines| ==> lines[j] == db.lines[j]
      invariant forall j :: 0 <= j < i ==> lines[j] == Filled(db.lines[j], db.ledger, c, hub)
    {
      var line := db.lines[i];
      ReleaseOne(db.orders, start, db.lines, c, i);
      if OnTrip(line, c) {
        if line.qty.None? {
          lines := lines[i := line.(qty := Some(RestoredQty(line, db.ledger, c, hub, 0)))];
        }
        if IsLive(db.orders, line.order) && db.orders[line.order].currentTrip == Some(c) {
          db.SaveOrder(line.order, db.orders[line.order].(currentTrip := None));
        }
      }
    }
    AllReleased(db.orders, start, db.lines, c);
  }

  lemma {:induction false} NoneReleased(orders: map<OrderId, Order>, ls: seq<Line>, c: Code)
    ensures Released(orders, orders, ls, c, 0)
  {
  }

  method RollbackOutboundTrip(db: Database, c: Code, hub: Option<HubId>)
    modifies db
    ensures db.Rows() == RollbackOutbound(old(db.Rows()), c, hub)
  {
    hide PutBackAll, ReleaseTrip, ReopenStops, RestoredQty;
    ghost var start := db.Rows();
    PutBackOrders(db, c, hub);
    var lines := ReleaseLines(db, c, hub);
    db.stops := ReopenStops(db.stops, c, hub);
    db.lines := seq(|lines|, i requires 0 <= i < |lines| => if OnTrip(lines[i], c)
      then lines[i].(status := LinePending) else lines[i]);
    assert db.lines == ReopenLines(start.lines, start.ledger, c, hub);
    db.ledger := TakeBack(db.ledger, c, hub);
  }
}
