/** What an accepted outbound request writes, and when one is accepted, told by the request itself. */
module OutboundEffects {
  import opened Basics
  import opened Sums
  import opened Model
  import opened Dispatch
  import opened Requests
  import opened Invariant
  import opened InboundLaws
  import opened OutboundLaws
  import opened RequestLaws
  import opened RoundTrip

  // ----- What is on offer ----------------------------------------------------------------------

  /** The hub that acts for an order: the user's, else where the goods are, else where they came from. */
  function SendingHub(s: State, req: Request, o: OrderId): Option<HubId>
    requires o in s.orders
  {
    if req.userHub.Some? then req.userHub
    else if s.orders[o].currentHub.Some? then s.orders[o].currentHub else s.orders[o].originHub
  }

  predicate HasRow(l: seq<Tx>, o: OrderId, h: Option<HubId>) {
    exists i :: 0 <= i < |l| && l[i].live && l[i].order == o && l[i].hub == h
  }

  /** What a hub has of a stored order: its ledger stock when it has any row, else the cached remaining quantity. */
  function InHand(s: State, req: Request, o: OrderId): int
    requires o in s.orders
  {
    var h := SendingHub(s, req, o);
    if h.Some? && HasRow(s.ledger, o, h) then Stock(s.ledger, o, h) else s.orders[o].remaining
  }

  /** That, less what other trips have reserved at the hub; never negative. */
  function OnOffer(s: State, req: Request, o: OrderId): int
    requires o in s.orders
  {
    var h := SendingHub(s, req, o);
    Max(0, InHand(s, req, o) - if h.Some? then Reserved(s.lines, o, h.value, req.draftCode) else 0)
  }

  /** The quantity a line of the order gets, and that it can be had. */
  function LineQty(s: State, req: Request, o: OrderId): int
    requires o in s.orders
  {
    Requested(req.items, o, OnOffer(s, req, o))
  }

  predicate CanHave(s: State, req: Request, o: OrderId)
    requires o in s.orders
  {
    0 < LineQty(s, req, o) <= OnOffer(s, req, o)
  }

  /** A draft order has no row, so the cached quantity (zero) is on offer for it either way. */
  lemma {:induction false} DraftHasNoRows(s: State, o: OrderId, h: Option<HubId>)
    requires Inv(s) && IsLive(s.orders, o) && DraftLike(s.orders[o].status)
    ensures !HasRow(s.ledger, o, h)
  {
    hide Stock;
    SyncedAt(s, o);
    forall i | 0 <= i < |s.ledger| ensures 0 <= InboundOf(o)(s.ledger[i]) && 0 <= DispatchedOf(o)(s.ledger[i]) {
      assert TxOk(s.ledger[i], s.nextOrder);
    }
    SumBoundsTerms(s.ledger, InboundOf(o));
    SumBoundsTerms(s.ledger, DispatchedOf(o));
    forall i | 0 <= i < |s.ledger| && s.ledger[i].live ensures s.ledger[i].order != o {
      assert TxOk(s.ledger[i], s.nextOrder);
      assert InboundOf(o)(s.ledger[i]) <= 0 && DispatchedOf(o)(s.ledger[i]) <= 0;
    }
  }

  /** One line planned on the state without the old draft, in the request's terms. */
  lemma {:induction false} PlanReads(s: State, req: Request, clean: State, o: OrderId, leaving: bool)
    requires Inv(s) && IsLive(s.orders, o) && clean.orders == s.orders && clean.ledger == s.ledger
    requires forall h: HubId :: Reserved(clean.lines, o, h, req.draftCode) == Reserved(s.lines, o, h, req.draftCode)
    ensures PlanOne(clean, req, Target(o, [o]), leaving) ==
      if CanHave(s, req, o) then
        Ok(Plan(o, SendingHub(s, req, o), LineQty(s, req, o), InHand(s, req, o),
                if leaving then Transferred(req, o) else PlannedTransfer(req, o, SendingHub(s, req, o)),
                Bound(req, o, SendingHub(s, req, o))))
      else Err(Unprocessable)
  {
    hide Inv, Reserved, Stock, MergeItems, Requested, DispatchRoute, DraftRoute, Transferred, PlannedTransfer, Bound;
    var h := SendingHub(s, req, o);
    MergedIs(req.items, o, OnOffer(s, req, o));
    RoutesAre(req, o, h);
    if DraftLike(s.orders[o].status) { DraftHasNoRows(s, o, h); }
    assert HasRows(s.ledger, o, h) <==> HasRow(s.ledger, o, h);
  }

  lemma {:induction false} PlansRead(s: State, req: Request, clean: State, leaving: bool)
    requires Inv(s) && Sensible(s, req) && DiscardDraft(s, req) == Ok(clean) && FoundIn(clean, req)
    ensures PlanAll(clean, req, Alone(req.found), leaving).Ok? <==>
      forall i :: 0 <= i < |req.found| ==> CanHave(s, req, req.found[i])
    ensures PlanAll(clean, req, Alone(req.found), leaving).Ok? ==>
      var plans := PlanAll(clean, req, Alone(req.found), leaving).value;
      |plans| == |req.found| &&
      forall i :: 0 <= i < |plans| ==>
        PlanOne(clean, req, Target(req.found[i], [req.found[i]]), leaving) == Ok(plans[i])
  {
    hide Inv, PlanOne, CanHave, Discard, Reserved;
    DraftDiscarded(s, req);
    forall i | 0 <= i < |req.found|
      ensures PlanOne(clean, req, Alone(req.found)[i], leaving).Ok? <==> CanHave(s, req, req.found[i])
    {
      PlanReads(s, req, clean, req.found[i], leaving);
    }
    PlannedAll(clean, req, Alone(req.found), leaving);
  }

  lemma {:induction false} PlannedAll(s: State, req: Request, targets: seq<Target>, leaving: bool)
    requires forall i :: 0 <= i < |targets| ==> targets[i].order in s.orders
    ensures PlanAll(s, req, targets, leaving).Ok? <==>
      forall i :: 0 <= i < |targets| ==> PlanOne(s, req, targets[i], leaving).Ok?
    decreases |targets|
  {
    hide PlanOne;
    if |targets| > 0 {
      PlannedAll(s, req, targets[..|targets| - 1], leaving);
    }
  }

  // ----- When a request is accepted ------------------------------------------------------------

  predicate OnCode(t: Line, c: Code) {
    t.live && t.trip == Some(c)
  }

  /**
   * A draft may be taken up: it has lines, all of them outbound lines with a quantity that have not left, no invoice
   * says the trip left, and a user of a hub finds only lines of that hub.
   */
  predicate MayResume(s: State, c: Code, userHub: Option<HubId>) {
    (exists i :: 0 <= i < |s.lines| && OnCode(s.lines[i], c)) &&
    (forall i :: 0 <= i < |s.lines| && OnCode(s.lines[i], c) ==>
      s.lines[i].status.LinePending? && s.lines[i].qty.Some? && !s.lines[i].kind.InboundLine? &&
      (userHub.Some? ==> s.lines[i].origin == userHub)) &&
    forall i :: 0 <= i < |s.ledger| && s.ledger[i].live && s.ledger[i].trip == Some(c) ==>
      !s.ledger[i].kind.OutboundTx? && !s.ledger[i].kind.TransferTx?
  }

  lemma {:induction false} DiscardReads(s: State, c: Code, userHub: Option<HubId>)
    ensures Discard(s, c, userHub).Ok? <==> MayResume(s, c, userHub)
    ensures Discard(s, c, userHub).Ok? ==>
      var r := Discard(s, c, userHub).value;
      r == s.(lines := r.lines) && |r.lines| == |s.lines| &&
      forall i :: 0 <= i < |s.lines| ==>
        r.lines[i] == if OnCode(s.lines[i], c) then s.lines[i].(live := false) else s.lines[i]
  {
  }

  predicate Takeable(s: State, req: Request) {
    req.draftCode.Some? ==> MayResume(s, req.draftCode.value, req.userHub)
  }

  /**
   * A draft is saved exactly when it names an order, the old one may be taken up and every order can have its goods.
   */
  lemma {:induction false} DraftAcceptable(s: State, req: Request)
    requires Inv(s) && Sensible(s, req)
    ensures SaveDraft(s, req).Ok? <==>
      0 < |req.found| && Takeable(s, req) && forall i :: 0 <= i < |req.found| ==> CanHave(s, req, req.found[i])
  {
    hide Inv, CanHave, PlanAll, Gather, ReserveAll, Route, MayResume, Discard;
    if req.draftCode.Some? { DiscardReads(s, req.draftCode.value, req.userHub); }
    if DiscardDraft(s, req).Ok? {
      var clean := DiscardDraft(s, req).value;
      DraftDiscarded(s, req);
      Gathered(clean, req);
      PlansRead(s, req, clean, false);
    }
  }

  lemma {:induction false} Gathered(s: State, req: Request)
    requires Inv(s) && NoDuplicates(req.found) && FoundIn(s, req)
    ensures Gather(s, req.found, {}) == (s, Alone(req.found))
  {
    GatherAlone(s, req.found, {});
  }

  /** A dispatch moreover takes no draft order. */
  lemma {:induction false} DispatchAcceptable(s: State, req: Request)
    requires Inv(s) && Sensible(s, req)
    ensures Confirm(s, req).Ok? <==>
      0 < |req.found| && Takeable(s, req) &&
      forall i :: 0 <= i < |req.found| ==>
        CanHave(s, req, req.found[i]) && s.orders[req.found[i]].status !in {DRAFT, PENDING, WAITING}
  {
    hide Inv, CanHave, PlanAll, Gather, DispatchAll, Route, MayResume, Discard, NamesOtherHub;
    Gathered(s, req);
    if req.draftCode.Some? { DiscardReads(s, req.draftCode.value, req.userHub); }
    if DiscardDraft(s, req).Ok? {
      var clean := DiscardDraft(s, req).value;
      DraftDiscarded(s, req);
      PlansRead(s, req, clean, true);
    }
    assert forall i :: 0 <= i < |req.found| ==> Alone(req.found)[i].order == req.found[i];
  }

  // ----- What a saved draft holds --------------------------------------------------------------

  function CodeOf(req: Request): Code {
    if req.draftCode.Some? then req.draftCode.value else req.freshCode
  }

  /** The trip table without the old draft: its lines are dead, every other line stays. */
  predicate WithoutOld(a: seq<Line>, b: seq<Line>, req: Request) {
    |a| <= |b| && forall i :: 0 <= i < |a| ==>
      b[i] == if req.draftCode.Some? && OnCode(a[i], req.draftCode.value) then a[i].(live := false) else a[i]
  }

  /** A line of the request's trip for the order, with its quantity and destination. */
  predicate LineFor(t: Line, s: State, req: Request, o: OrderId)
    requires o in s.orders
  {
    t.live && t.order == o && t.trip == Some(CodeOf(req)) && t.qty == Some(LineQty(s, req, o)) &&
    t.dest == Bound(req, o, SendingHub(s, req, o))
  }

  /**
   * An accepted draft replaces the old one by one pending line for every order found, in order: all the request names
   * for the order (or all on offer), for another hub exactly when the request says so, from the hub that acts for it.
   */
  lemma {:induction false} DraftHolds(s: State, req: Request)
    requires Inv(s) && Sensible(s, req) && SaveDraft(s, req).Ok?
    ensures var r := SaveDraft(s, req).value;
      r.orders == s.orders && r.ledger == s.ledger && r.nextOrder == s.nextOrder &&
      |r.lines| == |s.lines| + |req.found| && WithoutOld(s.lines, r.lines, req)
    ensures var r := SaveDraft(s, req).value;
      forall k :: 0 <= k < |req.found| ==>
        var t, o := r.lines[|s.lines| + k], req.found[k]; var h := SendingHub(s, req, o);
        LineFor(t, s, req, o) && CanHave(s, req, o) && t.status.LinePending? &&
        t.kind == (if PlannedTransfer(req, o, h) then TransferLine else OutboundLine) &&
        t.origin == if h.Some? then h else SendingHub(s, req, req.found[0])
  {
    hide Inv, CanHave, PlanAll, PlanOne, SaveDraft, Discard, ReserveAll, Reserved, LineQty, PlannedTransfer, Bound;
    var clean, plans, origin := DraftSaved(s, req);
    DraftDiscarded(s, req);
    if req.draftCode.Some? { DiscardReads(s, req.draftCode.value, req.userHub); }
    ReserveAllShape(clean, req.TripCode(), origin, plans);
    DraftPlans(s, req, clean, plans);
  }

  lemma {:induction false} DraftPlans(s: State, req: Request, clean: State, plans: seq<Plan>)
    requires Inv(s) && Sensible(s, req) && DiscardDraft(s, req) == Ok(clean) && FoundIn(clean, req)
    requires PlanAll(clean, req, Alone(req.found), false) == Ok(plans)
    ensures |plans| == |req.found|
    ensures forall k :: 0 <= k < |req.found| ==>
      var o := req.found[k];
      plans[k].order == o && plans[k].hub == SendingHub(s, req, o) && CanHave(s, req, o) &&
      plans[k].qty == LineQty(s, req, o) && plans[k].transfer == PlannedTransfer(req, o, SendingHub(s, req, o)) &&
      plans[k].dest == Bound(req, o, SendingHub(s, req, o))
  {
    hide Inv, CanHave, PlanOne, Discard, LineQty, PlannedTransfer, Bound, SendingHub, Sensible;
    DraftDiscarded(s, req);
    PlansRead(s, req, clean, false);
    forall k | 0 <= k < |req.found|
      ensures plans[k].order == req.found[k] && plans[k].hub == SendingHub(s, req, req.found[k])
      ensures CanHave(s, req, req.found[k])
      ensures plans[k].qty == LineQty(s, req, req.found[k])
      ensures plans[k].transfer == PlannedTransfer(req, req.found[k], SendingHub(s, req, req.found[k]))
      ensures plans[k].dest == Bound(req, req.found[k], SendingHub(s, req, req.found[k]))
    {
      PlanReads(s, req, clean, req.found[k], false);
    }
  }

  // ----- What a dispatch leaves ----------------------------------------------------------------

  lemma {:induction false} DispatchPlans(s: State, req: Request, clean: State, plans: seq<Plan>)
    requires Inv(s) && Sensible(s, req) && DiscardDraft(s, req) == Ok(clean) && FoundIn(clean, req)
    requires PlanAll(clean, req, Alone(req.found), true) == Ok(plans)
    ensures |plans| == |req.found|
    ensures forall k :: 0 <= k < |plans| ==>
      var o := req.found[k];
      CanHave(s, req, o) &&
      plans[k] == Plan(o, SendingHub(s, req, o), LineQty(s, req, o), InHand(s, req, o), Transferred(req, o),
                       Bound(req, o, SendingHub(s, req, o)))
  {
    hide Inv, CanHave, PlanAll, PlanOne, Discard, Reserved, LineQty, Transferred, Bound, InHand;
    DraftDiscarded(s, req);
    PlansRead(s, req, clean, true);
    forall k | 0 <= k < |plans|
      ensures var o := req.found[k];
        CanHave(s, req, o) &&
        plans[k] == Plan(o, SendingHub(s, req, o), LineQty(s, req, o), InHand(s, req, o), Transferred(req, o),
                         Bound(req, o, SendingHub(s, req, o)))
    {
      PlanReads(s, req, clean, req.found[k], true);
    }
  }

  lemma {:induction false} DispatchTables(s: State, req: Request) returns (clean: State, plans: seq<Plan>)
    requires Inv(s) && Sensible(s, req) && Confirm(s, req).Ok?
    ensures DiscardDraft(s, req) == Ok(clean) && FoundIn(clean, req)
    ensures PlanAll(clean, req, Alone(req.found), true) == Ok(plans)
    ensures var r := Confirm(s, req).value;
      r.lines == clean.lines + DispatchedLines(CodeOf(req), plans) &&
      r.ledger == s.ledger + DispatchTxs(CodeOf(req), plans, |s.lines|) && r.nextOrder == s.nextOrder &&
      r.orders.Keys == s.orders.Keys && |clean.lines| == |s.lines| && WithoutOld(s.lines, clean.lines, req)
  {
    hide Inv, PlanAll, Confirm, Discard, DispatchAll, Sensible;
    clean, plans := RequestLaws.DispatchAccepted(s, req);
    DraftDiscarded(s, req);
    if req.draftCode.Some? { DiscardReads(s, req.draftCode.value, req.userHub); }
    DispatchAllShape(clean, req.TripCode(), plans);
  }

  /**
   * An accepted dispatch replaces the draft by one moving line for every order found, in order: a transfer exactly
   * when the request sends the order to another hub.
   */
  lemma {:induction false} DispatchLoads(s: State, req: Request)
    requires Inv(s) && Sensible(s, req) && Confirm(s, req).Ok?
    ensures var r := Confirm(s, req).value;
      r.nextOrder == s.nextOrder && r.orders.Keys == s.orders.Keys && |r.lines| == |s.lines| + |req.found| &&
      WithoutOld(s.lines, r.lines, req)
    ensures var r := Confirm(s, req).value;
      forall k :: 0 <= k < |req.found| ==>
        var t, o := r.lines[|s.lines| + k], req.found[k];
        LineFor(t, s, req, o) && CanHave(s, req, o) && t.status.LineInTransit? && t.origin == SendingHub(s, req, o) &&
        t.kind == if Transferred(req, o) then TransferLine else OutboundLine
  {
    hide Inv, CanHave, PlanAll, Confirm, DiscardDraft, LineQty, Transferred, Bound, Sensible, InHand, SendingHub;
    var clean, plans := DispatchTables(s, req);
    DispatchPlans(s, req, clean, plans);
  }

  /** And one invoice with the same quantity, of the same kind, on the line just written. */
  lemma {:induction false} DispatchInvoices(s: State, req: Request)
    requires Inv(s) && Sensible(s, req) && Confirm(s, req).Ok?
    ensures var r := Confirm(s, req).value;
      |r.ledger| == |s.ledger| + |req.found| && r.ledger[..|s.ledger|] == s.ledger
    ensures var r := Confirm(s, req).value;
      forall k :: 0 <= k < |req.found| ==>
        var t, o := r.ledger[|s.ledger| + k], req.found[k]; var q := LineQty(s, req, o);
        t.live && t.order == o && t.kind == (if Transferred(req, o) then TransferTx else OutboundTx) &&
        t.hub == SendingHub(s, req, o) && t.trip == Some(CodeOf(req)) && t.line == Some(|s.lines| + k) && t.qty == q &&
        t.expected == Some(q) && t.discrepancy == 0 && t.running == Max(0, InHand(s, req, o) - q)
  {
    hide Inv, CanHave, PlanAll, Confirm, DiscardDraft, LineQty, Transferred, Bound, InHand, SendingHub, WithoutOld;
    var clean, plans := DispatchTables(s, req);
    DispatchPlans(s, req, clean, plans);
    assert Confirm(s, req).value.ledger[..|s.ledger|] == s.ledger;
  }

  lemma {:induction false} DispatchedRow(s: State, c: Code, plans: seq<Plan>, k: nat)
    requires DistinctOrders(plans) && k < |plans| && forall i :: 0 <= i < |plans| ==> plans[i].order in s.orders
    ensures DispatchAll(s, c, plans).orders[plans[k].order] == AfterDispatch(s.orders[plans[k].order], c, plans[k])
    decreases |plans|
  {
    hide AfterDispatch;
    var n := |plans| - 1;
    var front := plans[..n];
    assert forall i :: 0 <= i < n ==> front[i] == plans[i];
    if k < n {
      DispatchedRow(s, c, front, k);
    } else {
      UndispatchedRow(s, c, front, plans[k].order);
    }
  }

  lemma {:induction false} UndispatchedRow(s: State, c: Code, plans: seq<Plan>, o: OrderId)
    requires o in s.orders && forall i :: 0 <= i < |plans| ==> plans[i].order in s.orders && plans[i].order != o
    ensures DispatchAll(s, c, plans).orders[o] == s.orders[o]
    decreases |plans|
  {
    hide AfterDispatch;
    if |plans| > 0 {
      var n := |plans| - 1;
      assert forall i :: 0 <= i < n ==> plans[..n][i] == plans[i];
      UndispatchedRow(s, c, plans[..n], o);
    }
  }

  /**
   * The row of a dispatched order: its quantity has moved from remaining to outbound, it is done exactly when nothing
   * remains, its current trip becomes the code exactly when it travels to another hub, and it has no current hub once
   * that hub is emptied. Orders the request does not find keep their rows.
   */
  lemma {:induction false} DispatchedOrders(s: State, req: Request, o: OrderId)
    requires Inv(s) && Sensible(s, req) && Confirm(s, req).Ok? && o in s.orders
    ensures o in Confirm(s, req).value.orders
    ensures o !in req.found ==> Confirm(s, req).value.orders[o] == s.orders[o]
    ensures o in req.found ==>
      var was, now, q, h := s.orders[o], Confirm(s, req).value.orders[o], LineQty(s, req, o), SendingHub(s, req, o);
      now == was.(outbound := was.outbound + q, remaining := now.remaining, status := now.status,
                  currentTrip := now.currentTrip, currentHub := now.currentHub) &&
      now.remaining == Max(0, was.remaining - q) &&
      now.status == (if was.remaining <= q then COMPLETED_INBOUND else INBOUND) &&
      now.currentTrip == (if Transferred(req, o) then Some(CodeOf(req)) else was.currentTrip) &&
      now.currentHub == if InHand(s, req, o) <= q && was.currentHub == h then None else was.currentHub
  {
    hide Inv, CanHave, PlanAll, PlanOne, Confirm, Discard, DispatchAll, Reserved, LineQty, Transferred, Bound, InHand;
    var clean, plans := RequestLaws.DispatchAccepted(s, req);
    DraftDiscarded(s, req);
    DispatchPlans(s, req, clean, plans);
    if o in req.found {
      var k :| 0 <= k < |req.found| && req.found[k] == o;
      DispatchedRow(clean, req.TripCode(), plans, k);
    } else {
      forall i | 0 <= i < |plans| ensures plans[i].order != o {
        assert req.found[i] in req.found;
      }
      UndispatchedRow(clean, req.TripCode(), plans, o);
    }
  }

  // ----- What that means for stock, transit and reservations -----------------------------------

  lemma {:induction false} OneRow<T>(rows: seq<T>, k: nat, f: T -> int)
    requires k < |rows| && forall i :: 0 <= i < |rows| && i != k ==> f(rows[i]) == 0
    ensures Sum(rows, f) == f(rows[k])
    decreases |rows|
  {
    var n := |rows| - 1;
    if k == n { SumZero(rows[..n], f); } else { OneRow(rows[..n], k, f); }
  }

  lemma {:induction false} OwnTx(c: Code, plans: seq<Plan>, base: nat, k: nat, f: Tx -> int)
    requires DistinctOrders(plans) && k < |plans|
    requires forall t: Tx :: t.order != plans[k].order ==> f(t) == 0
    ensures Sum(DispatchTxs(c, plans, base), f) == f(DispatchTx(c, plans[k], base + k))
  {
    var rows := DispatchTxs(c, plans, base);
    forall i | 0 <= i < |rows| && i != k ensures f(rows[i]) == 0 {
      assert plans[i].order != plans[k].order by {
        if i < k { assert plans[i].order != plans[k].order; } else { assert plans[k].order != plans[i].order; }
      }
    }
    OneRow(rows, k, f);
  }

  /**
   * Every order found has left its hub with the quantity asked for; what travels to another hub is on the trip, and
   * what the old draft had reserved is free.
   */
  lemma {:induction false} DispatchMoves(s: State, req: Request, k: nat)
    requires Inv(s) && Sensible(s, req) && Confirm(s, req).Ok? && k < |req.found|
    ensures var r, o := Confirm(s, req).value, req.found[k];
      var q, h, c := LineQty(s, req, o), SendingHub(s, req, o), CodeOf(req);
      Stock(r.ledger, o, h) == Stock(s.ledger, o, h) - q &&
      Dispatched(r.ledger, o) == Dispatched(s.ledger, o) + q && Inbound(r.ledger, o) == Inbound(s.ledger, o) &&
      Loaded(r.ledger, o, c) == Loaded(s.ledger, o, c) + if Transferred(req, o) then q else 0
  {
    hide Inv, CanHave, PlanAll, Confirm, DiscardDraft, LineQty, Transferred, Bound, InHand, SendingHub, WithoutOld;
    var clean, plans := DispatchTables(s, req);
    DispatchPlans(s, req, clean, plans);
    var o, h, c := req.found[k], SendingHub(s, req, req.found[k]), CodeOf(req);
    var rows := DispatchTxs(c, plans, |s.lines|);
    assert DistinctOrders(plans);
    SumConcat(s.ledger, rows, StockAt(o, h));
    SumConcat(s.ledger, rows, DispatchedOf(o));
    SumConcat(s.ledger, rows, InboundOf(o));
    SumConcat(s.ledger, rows, LoadedOn(o, c));
    OwnTx(c, plans, |s.lines|, k, StockAt(o, h));
    OwnTx(c, plans, |s.lines|, k, DispatchedOf(o));
    OwnTx(c, plans, |s.lines|, k, InboundOf(o));
    OwnTx(c, plans, |s.lines|, k, LoadedOn(o, c));
  }

  /** The hub a draft line leaves from has reserved that line's quantity on top of what other trips hold there. */
  lemma {:induction false} DraftReserves(s: State, req: Request, k: nat, h: HubId)
    requires Inv(s) && Sensible(s, req) && SaveDraft(s, req).Ok? && k < |req.found|
    requires Some(h) == SendingHub(s, req, req.found[k]).OrElse(SendingHub(s, req, req.found[0]))
    ensures var o := req.found[k];
      Reserved(SaveDraft(s, req).value.lines, o, h, None) == Reserved(s.lines, o, h, req.draftCode) + LineQty(s, req, o)
  {
    hide Inv, CanHave, PlanAll, PlanOne, SaveDraft, Discard, ReserveAll, Reserved, LineQty, PlannedTransfer, Bound;
    var clean, plans, origin := DraftSaved(s, req);
    DraftDiscarded(s, req);
    PlansRead(s, req, clean, false);
    forall i | 0 <= i < |plans| ensures plans[i].order == req.found[i] && CanHave(s, req, req.found[i]) {
      PlanReads(s, req, clean, req.found[i], false);
    }
    PlanReads(s, req, clean, req.found[k], false);
    ReservedByPlan(clean, req.TripCode(), origin, plans, k, h);
  }

  // ----- The route -----------------------------------------------------------------------------

  /** A stop as found or as made: one that was there keeps its place, and stays processed once it was. */
  predicate StopIs(stops: map<(Code, HubId), Stop>, c: Code, h: HubId, st: StopStatus, kind: StopType, position: nat,
        now: Stop)
  {
    now.live &&
    if (c, h) in stops then
      now.kind == stops[(c, h)].kind && now.position == stops[(c, h)].position &&
      now.status == if stops[(c, h)].status.StopCompleted? then StopCompleted else st
    else now.kind == kind && now.position == position && now.status == st
  }

  /** The vehicle leaves from `origin` and stops at `hubs` in order; no other stop moves. */
  ghost predicate Travels(a: map<(Code, HubId), Stop>, b: map<(Code, HubId), Stop>, c: Code, origin: Option<HubId>,
        left: StopStatus, hubs: seq<HubId>)
  {
    NoDuplicates(hubs) && (forall i :: 0 <= i < |hubs| ==> origin != Some(hubs[i])) &&
    (origin.Some? ==>
      (c, origin.value) in b && StopIs(a, c, origin.value, left, OriginStop, 1, b[(c, origin.value)])) &&
    (forall i :: 0 <= i < |hubs| ==>
      (c, hubs[i]) in b &&
      StopIs(a, c, hubs[i], StopPending, if i == |hubs| - 1 then DestinationStop else TransitStop, i + 2,
             b[(c, hubs[i])])) &&
    (forall k :: k in a && !(k.0 == c && (origin == Some(k.1) || k.1 in hubs)) ==> k in b && b[k] == a[k]) &&
    (forall k :: k in b && k !in a ==> k.0 == c && (origin == Some(k.1) || k.1 in hubs))
  }

  /** The first n hubs have their stops, and nothing else has changed. */
  ghost predicate MadeFor(stops: map<(Code, HubId), Stop>, r: map<(Code, HubId), Stop>, c: Code, hubs: seq<HubId>,
        n: nat)
    requires n <= |hubs|
  {
    (forall i :: 0 <= i < n ==>
      (c, hubs[i]) in r &&
      StopIs(stops, c, hubs[i], StopPending, if i == |hubs| - 1 then DestinationStop else TransitStop, i + 2,
             r[(c, hubs[i])])) &&
    (forall k :: k in stops && !(k.0 == c && k.1 in hubs[..n]) ==> k in r && r[k] == stops[k]) &&
    (forall k :: k in r && k !in stops ==> k.0 == c && k.1 in hubs[..n])
  }

  lemma {:induction false} StopsMade(stops: map<(Code, HubId), Stop>, c: Code, hubs: seq<HubId>, n: nat)
    requires n <= |hubs| && NoDuplicates(hubs)
    ensures MadeFor(stops, StopAtEach(stops, c, hubs, n), c, hubs, n)
    decreases n
  {
    hide UpsertStop, StopIs;
    if n > 0 {
      hide MadeFor;
      var before := StopAtEach(stops, c, hubs, n - 1);
      StopsMade(stops, c, hubs, n - 1);
      NextStopMade(stops, before, c, hubs, n);
    }
  }

  lemma {:induction false} NextStopMade(stops: map<(Code, HubId), Stop>, before: map<(Code, HubId), Stop>, c: Code,
        hubs: seq<HubId>, n: nat)
    requires 0 < n <= |hubs| && NoDuplicates(hubs) && MadeFor(stops, before, c, hubs, n - 1)
    ensures MadeFor(stops, UpsertStop(before, c, hubs[n - 1], StopPending,
                                      if n == |hubs| then DestinationStop else TransitStop, n + 1), c, hubs, n)
  {
    hide UpsertStop, StopIs;
    var h, last := hubs[n - 1], if n == |hubs| then DestinationStop else TransitStop;
    assert h !in hubs[..n - 1];
    assert forall x :: x in hubs[..n] <==> x in hubs[..n - 1] || x == h;
    assert (c, h) in before ==> (c, h) in stops;
    StopMade(stops, before, c, h, StopPending, last, n + 1);
    assert forall i :: 0 <= i < n - 1 ==> (c, hubs[i]) != (c, h);
  }

  /** One stop is found or made, where the tables agree about it; no other moves. */
  lemma {:induction false} StopMade(stops: map<(Code, HubId), Stop>, before: map<(Code, HubId), Stop>, c: Code,
        h: HubId, st: StopStatus, kind: StopType, position: nat)
    requires (c, h) in stops <==> (c, h) in before
    requires (c, h) in stops ==> before[(c, h)] == stops[(c, h)]
    ensures var r := UpsertStop(before, c, h, st, kind, position);
      (c, h) in r && StopIs(stops, c, h, st, kind, position, r[(c, h)]) && r.Keys == before.Keys + {(c, h)} &&
      forall k :: k in before && k != (c, h) ==> r[k] == before[k]
  {
  }

  lemma {:induction false} RouteTravels(stops: map<(Code, HubId), Stop>, c: Code, origin: Option<HubId>,
        st: StopStatus, hubs: seq<HubId>)
    requires NoDuplicates(hubs) && forall i :: 0 <= i < |hubs| ==> origin != Some(hubs[i])
    ensures Travels(stops, Route(stops, c, origin, st, hubs), c, origin, st, hubs)
  {
    var left := if origin.Some? then UpsertStop(stops, c, origin.value, st, OriginStop, 1) else stops;
    StopsMade(left, c, hubs, |hubs|);
    assert hubs[..|hubs|] == hubs;
    assert origin.Some? ==> origin.value !in hubs;
  }

  /** A hub the request itself sends goods to. */
  predicate SentTo(req: Request, h: HubId) {
    (exists i :: 0 <= i < |req.items| && !req.items[i].delivery.DirectCustomer? && req.items[i].dest == Some(h)) ||
    (req.transfer && req.dest == Some(h))
  }

  lemma {:induction false} PlannedHubsAre(items: seq<Item>, h: HubId)
    ensures Some(h) in PlannedHubs(items) <==>
      exists i :: 0 <= i < |items| && !items[i].delivery.DirectCustomer? && items[i].dest == Some(h)
    decreases |items|
  {
    if |items| > 0 {
      var n := |items| - 1;
      PlannedHubsAre(items[..n], h);
      if exists i :: 0 <= i < |items| && !items[i].delivery.DirectCustomer? && items[i].dest == Some(h) {
        var i :| 0 <= i < |items| && !items[i].delivery.DirectCustomer? && items[i].dest == Some(h);
        assert i < n ==> items[..n][i] == items[i];
      }
    }
  }

  /**
   * A saved draft travels from the first order's hub to every hub the request names, each once, all still to be done.
   */
  lemma {:induction false} DraftTravels(s: State, req: Request) returns (hubs: seq<HubId>)
    requires Inv(s) && Sensible(s, req) && SaveDraft(s, req).Ok?
    ensures 0 < |req.found|
    ensures var origin := SendingHub(s, req, req.found[0]);
      Travels(s.stops, SaveDraft(s, req).value.stops, CodeOf(req), origin, StopPending, hubs) &&
      forall h :: h in hubs <==> SentTo(req, h) && origin != Some(h)
  {
    hide Inv, PlanAll, Gather, Discard, Route, Travels, PlannedHubs, Distinct, OtherHubs;
    var clean := DiscardDraft(s, req).value;
    DraftDiscarded(s, req);
    Gathered(clean, req);
    var origin := SendingHub(s, req, req.found[0]);
    var named := PlannedHubs(req.items) + ModeHub(req);
    hubs := Distinct(OtherHubs(named, origin));
    RouteHubs(named, origin);
    forall h: HubId ensures Some(h) in named <==> SentTo(req, h) {
      PlannedHubsAre(req.items, h);
    }
    ReserveAllShape(clean, req.TripCode(), origin, PlanAll(clean, req, Alone(req.found), false).value);
    RouteTravels(s.stops, CodeOf(req), origin, StopPending, hubs);
  }

  /** The trip goes on to other hubs when the mode says so or some order is meant for a hub it does not leave from. */
  predicate GoesOn(s: State, req: Request, origin: Option<HubId>) {
    req.transfer ||
    exists k :: 0 <= k < |req.found| && !ToCustomer(req, req.found[k]) && Meant(req, req.found[k]).Some? &&
      Meant(req, req.found[k]) != origin
  }

  /** A hub one of the orders is contracted for. */
  predicate ContractedFor(s: State, req: Request, h: HubId)
    requires FoundIn(s, req)
  {
    exists k :: 0 <= k < |req.found| && s.orders[req.found[k]].destHub == Some(h)
  }

  lemma {:induction false} GoesOnReads(s: State, req: Request, origin: Option<HubId>)
    ensures (req.transfer || NamesOtherHub(req, Alone(req.found), origin)) <==> GoesOn(s, req, origin)
  {
    hide MergeItems, First;
    forall k | 0 <= k < |req.found|
      ensures var m, f := MergeItems(req.items, Alone(req.found)[k]), First(req.items, req.found[k]);
        (m.Some? <==> f.Some?) && (m.Some? ==> m.value.dest == f.value.dest && m.value.delivery == f.value.delivery)
    {
      MergedIs(req.items, req.found[k], 0);
    }
  }

  lemma {:induction false} ContractHubsAre(orders: map<OrderId, Order>, s: State, req: Request, h: HubId)
    requires FoundIn(s, req) && orders.Keys == s.orders.Keys
    requires forall o :: o in s.orders ==> orders[o].destHub == s.orders[o].destHub
    ensures Some(h) in ContractHubs(orders, Alone(req.found)) <==> ContractedFor(s, req, h)
  {
    var cs := ContractHubs(orders, Alone(req.found));
    if Some(h) in cs {
      var k :| 0 <= k < |cs| && cs[k] == Some(h);
      assert s.orders[req.found[k]].destHub == Some(h);
    }
    if ContractedFor(s, req, h) {
      var k :| 0 <= k < |req.found| && s.orders[req.found[k]].destHub == Some(h);
      assert cs[k] == Some(h);
    }
  }

  /**
   * A dispatched trip has left its origin; it stops at the hubs the request names and those its orders are contracted
   * for, each once, when it goes on at all.
   */
  lemma {:induction false} DispatchTravels(s: State, req: Request) returns (hubs: seq<HubId>)
    requires Inv(s) && Sensible(s, req) && Confirm(s, req).Ok?
    ensures 0 < |req.found|
    ensures var origin := SendingHub(s, req, req.found[0]);
      Travels(s.stops, Confirm(s, req).value.stops, CodeOf(req), origin, StopCompleted, hubs) &&
      forall h :: h in hubs <==>
        GoesOn(s, req, origin) && origin != Some(h) && (SentTo(req, h) || ContractedFor(s, req, h))
  {
    hide Inv, PlanAll, Gather, Discard, Route, Travels, PlannedHubs, Distinct, OtherHubs, NamesOtherHub, GoesOn,
        DispatchAll, ContractHubs, ContractedFor, SentTo;
    Gathered(s, req);
    var clean, plans := RequestLaws.DispatchAccepted(s, req);
    DraftDiscarded(s, req);
    var gone := DispatchAll(clean, req.TripCode(), plans);
    DispatchAllShape(clean, req.TripCode(), plans);
    DestinationsKept(clean, req.TripCode(), plans);
    var origin := SendingHub(s, req, req.found[0]);
    var named := ModeHub(req) + PlannedHubs(req.items) + ContractHubs(gone.orders, Alone(req.found));
    GoesOnReads(s, req, origin);
    hubs := if GoesOn(s, req, origin) then Distinct(OtherHubs(named, origin)) else [];
    RouteHubs(named, origin);
    forall h: HubId ensures Some(h) in named <==> SentTo(req, h) || ContractedFor(s, req, h) {
      NamedHub(s, req, gone.orders, h);
    }
    RouteTravels(s.stops, CodeOf(req), origin, StopCompleted, hubs);
  }

  lemma {:induction false} NamedHub(s: State, req: Request, orders: map<OrderId, Order>, h: HubId)
    requires FoundIn(s, req) && orders.Keys == s.orders.Keys
    requires forall o :: o in s.orders ==> orders[o].destHub == s.orders[o].destHub
    ensures Some(h) in ModeHub(req) + PlannedHubs(req.items) + ContractHubs(orders, Alone(req.found)) <==>
      SentTo(req, h) || ContractedFor(s, req, h)
  {
    hide PlannedHubs, ContractHubs, ContractedFor;
    PlannedHubsAre(req.items, h);
    ContractHubsAre(orders, s, req, h);
  }

  lemma {:induction false} DestinationsKept(s: State, c: Code, plans: seq<Plan>)
    requires forall i :: 0 <= i < |plans| ==> plans[i].order in s.orders
    ensures DispatchAll(s, c, plans).orders.Keys == s.orders.Keys
    ensures forall o :: o in s.orders ==> DispatchAll(s, c, plans).orders[o].destHub == s.orders[o].destHub
    decreases |plans|
  {
    if |plans| > 0 { DestinationsKept(s, c, plans[..|plans| - 1]); }
  }
}
