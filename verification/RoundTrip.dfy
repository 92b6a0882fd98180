/** Rolling a trip back undoes its dispatch: what is left is the saved draft. */
module RoundTrip {
  import opened Basics
  import opened Sums
  import opened Model
  import opened Dispatch
  import opened Invariant
  import opened OutboundLaws
  import opened RequestLaws
  import opened RollbackLaws
  import opened Partition

  // ----- What the two folds append -------------------------------------------------------------

  function PlannedLines(c: Code, origin: Option<HubId>, plans: seq<Plan>): (r: seq<Line>)
    ensures |r| == |plans| && forall i :: 0 <= i < |plans| ==> r[i] == PlannedLine(c, origin, plans[i])
  {
    seq(|plans|, i requires 0 <= i < |plans| => PlannedLine(c, origin, plans[i]))
  }

  function DispatchedLines(c: Code, plans: seq<Plan>): (r: seq<Line>)
    ensures |r| == |plans| && forall i :: 0 <= i < |plans| ==> r[i] == DispatchedLine(c, plans[i])
  {
    seq(|plans|, i requires 0 <= i < |plans| => DispatchedLine(c, plans[i]))
  }

  function DispatchTxs(c: Code, plans: seq<Plan>, base: nat): (r: seq<Tx>)
    ensures |r| == |plans| && forall i :: 0 <= i < |plans| ==> r[i] == DispatchTx(c, plans[i], base + i)
  {
    seq(|plans|, i requires 0 <= i < |plans| => DispatchTx(c, plans[i], base + i))
  }

  lemma {:induction false} ReserveAllShape(s: State, c: Code, origin: Option<HubId>, plans: seq<Plan>)
    ensures ReserveAll(s, c, origin, plans) == s.(lines := s.lines + PlannedLines(c, origin, plans))
    decreases |plans|
  {
    if |plans| == 0 {
      assert PlannedLines(c, origin, plans) == [];
    } else {
      var n := |plans| - 1;
      ReserveAllShape(s, c, origin, plans[..n]);
      assert PlannedLines(c, origin, plans) == PlannedLines(c, origin, plans[..n]) + [PlannedLine(c, origin, plans[n])];
    }
  }

  lemma {:induction false} DispatchAllShape(s: State, c: Code, plans: seq<Plan>)
    requires forall i :: 0 <= i < |plans| ==> plans[i].order in s.orders
    ensures var r := DispatchAll(s, c, plans);
      r.lines == s.lines + DispatchedLines(c, plans) && r.ledger == s.ledger + DispatchTxs(c, plans, |s.lines|) &&
      r.nextOrder == s.nextOrder && r.stops == s.stops
    decreases |plans|
  {
    hide AfterDispatch;
    if |plans| == 0 {
      assert DispatchedLines(c, plans) == [] && DispatchTxs(c, plans, |s.lines|) == [];
    } else {
      var n := |plans| - 1;
      DispatchAllShape(s, c, plans[..n]);
      assert DispatchedLines(c, plans) == DispatchedLines(c, plans[..n]) + [DispatchedLine(c, plans[n])];
      assert DispatchTxs(c, plans, |s.lines|) ==
        DispatchTxs(c, plans[..n], |s.lines|) + [DispatchTx(c, plans[n], |s.lines| + n)];
    }
  }

  /** Dispatch never touches an order's total, code or liveness, and leaves non-drafts non-drafts. */
  lemma {:induction false} DispatchAllOrders(s: State, c: Code, plans: seq<Plan>, o: OrderId)
    requires o in s.orders && forall i :: 0 <= i < |plans| ==> plans[i].order in s.orders
    ensures var r := DispatchAll(s, c, plans).orders[o];
      r.total == s.orders[o].total && r.live == s.orders[o].live &&
      (DraftLike(r.status) ==> r == s.orders[o]) &&
      (r != s.orders[o] ==> exists i :: 0 <= i < |plans| && plans[i].order == o)
    decreases |plans|
  {
    if |plans| > 0 {
      var n := |plans| - 1;
      DispatchAllOrders(s, c, plans[..n], o);
      if plans[n].order != o && DispatchAll(s, c, plans).orders[o] != s.orders[o] {
        var i :| 0 <= i < n && plans[..n][i].order == o;
        assert plans[i].order == o;
      }
    }
  }

  // ----- Planning the same request again -------------------------------------------------------

  /** Two plan lists that move the same goods (the route columns may differ). */
  ghost predicate SameGoods(a: seq<Plan>, b: seq<Plan>) {
    |a| == |b| &&
    forall i :: 0 <= i < |a| ==> a[i].order == b[i].order && a[i].hub == b[i].hub && a[i].qty == b[i].qty
  }

  /** Acting hub and effective stock decide a plan; nothing else of the state does. */
  ghost predicate SameOffer(a: State, x: Request, b: State, y: Request, o: OrderId) {
    o in a.orders && o in b.orders && ActingHub(a, x.userHub, o) == ActingHub(b, y.userHub, o) &&
    Effective(a, o, ActingHub(a, x.userHub, o), x.draftCode) == Effective(b, o, ActingHub(b, y.userHub, o), y.draftCode)
  }

  lemma {:induction false} PlanOneAgain(a: State, x: Request, la: bool, b: State, y: Request, lb: bool, o: OrderId)
    requires x.items == y.items && SameOffer(a, x, b, y, o) && PlanOne(a, x, Target(o, [o]), la).Ok?
    ensures PlanOne(b, y, Target(o, [o]), lb).Ok?
    ensures var p, q := PlanOne(a, x, Target(o, [o]), la).value, PlanOne(b, y, Target(o, [o]), lb).value;
      p.order == q.order && p.hub == q.hub && p.qty == q.qty
  {
  }

  lemma {:induction false} PlanAllFrom(s: State, req: Request, targets: seq<Target>, leaving: bool, plans: seq<Plan>)
    requires forall i :: 0 <= i < |targets| ==> targets[i].order in s.orders
    requires |plans| == |targets|
    requires forall i :: 0 <= i < |targets| ==> PlanOne(s, req, targets[i], leaving) == Ok(plans[i])
    ensures PlanAll(s, req, targets, leaving) == Ok(plans)
    decreases |targets|
  {
    if |targets| > 0 {
      var n := |targets| - 1;
      PlanAllFrom(s, req, targets[..n], leaving, plans[..n]);
      assert plans == plans[..n] + [plans[n]];
    }
  }

  lemma {:induction false} PlannedAgain(a: State, x: Request, la: bool, b: State, y: Request, lb: bool,
        found: seq<OrderId>, plans: seq<Plan>)
    requires x.items == y.items
    requires forall i :: 0 <= i < |found| ==> found[i] in a.orders && found[i] in b.orders
    requires forall i :: 0 <= i < |found| ==> SameOffer(a, x, b, y, found[i])
    requires PlanAll(a, x, Alone(found), la) == Ok(plans)
    ensures PlanAll(b, y, Alone(found), lb).Ok? && SameGoods(plans, PlanAll(b, y, Alone(found), lb).value)
  {
    hide Effective, ActingHub, MergeItems;
    var again: seq<Plan> := [];
    for k := 0 to |found|
      invariant |again| == k
      invariant forall i :: 0 <= i < k ==> PlanOne(b, y, Alone(found)[i], lb) == Ok(again[i])
      invariant forall i :: 0 <= i < k ==>
        plans[i].order == again[i].order && plans[i].hub == again[i].hub && plans[i].qty == again[i].qty
    {
      PlanOneAgain(a, x, la, b, y, lb, found[k]);
      again := again + [PlanOne(b, y, Alone(found)[k], lb).value];
    }
    PlanAllFrom(b, y, Alone(found), lb, again);
  }

  // ----- The saved draft -----------------------------------------------------------------------

  /** The draft as saved: clean.lines plus the planned lines, on a code clean knows nothing of. */
  ghost predicate Adds(s1: State, clean: State, c: Code, plans: seq<Plan>, origin: Option<HubId>) {
    NoInvoice(clean.ledger, c) && !HasLine(clean.lines, c) && |plans| > 0 &&
    s1 == clean.(lines := clean.lines + PlannedLines(c, origin, plans), stops := s1.stops)
  }

  ghost predicate Saved(s1: State, clean: State, c: Code, plans: seq<Plan>, origin: Option<HubId>) {
    Inv(clean) && Inv(s1) && Draftable(clean, c) && DistinctOrders(plans) &&
    (forall i :: 0 <= i < |plans| ==> PlanFits(clean, plans[i])) && Adds(s1, clean, c, plans, origin)
  }

  lemma {:induction false} DraftIsPlanned(s: State, req: Request, clean: State, plans: seq<Plan>,
        origin: Option<HubId>, stops: map<(Code, HubId), Stop>)
    requires Inv(s) && Sensible(s, req) && HubsHoldRows(s, req) && |req.found| > 0
    requires DiscardDraft(s, req) == Ok(clean) && FoundIn(clean, req)
    requires PlanAll(clean, req, Alone(req.found), false) == Ok(plans)
    ensures Saved(ReserveAll(clean, req.TripCode(), origin, plans).(stops := stops), clean, req.TripCode(), plans,
        origin)
    ensures |plans| == |req.found|
    ensures forall i :: 0 <= i < |plans| ==>
      plans[i].order == req.found[i] && plans[i].hub == ActingHub(clean, req.userHub, req.found[i])
    ensures forall o: OrderId, h: HubId ::
      Reserved(clean.lines, o, h, req.draftCode) == Reserved(clean.lines, o, h, None)
  {
    DraftDiscarded(s, req);
    assert HubsHoldRows(clean, req);
    PlansFit(clean, req, plans, false);
    ReserveAllKeepsInv(clean, req.TripCode(), origin, plans);
    StopsDoNotMatter(ReserveAll(clean, req.TripCode(), origin, plans), ReserveAll(clean, req.TripCode(), origin,
      plans).(stops := stops));
    ReserveAllShape(clean, req.TripCode(), origin, plans);
    DropLinesClears(s, req);
  }

  lemma {:induction false} DropLinesClears(s: State, req: Request)
    requires Sensible(s, req) && DiscardDraft(s, req).Ok?
    ensures forall i :: 0 <= i < |DiscardDraft(s, req).value.lines| ==>
      !OnTrip(DiscardDraft(s, req).value.lines[i], req.TripCode())
  {
  }

  lemma {:induction false} PlannedTrips(s: State)
    requires Inv(s)
    ensures forall i :: 0 <= i < |s.lines| && IsPlanned(s.lines[i]) ==> s.lines[i].trip.Some?
  {
    forall i | 0 <= i < |s.lines| && IsPlanned(s.lines[i]) ensures s.lines[i].trip.Some? {
      assert LineOk(s.lines[i], s.ledger, s.nextOrder);
    }
  }

  /** Excluding the draft's own code shows the state the draft was planned on. */
  lemma {:induction false} OwnLinesExcluded(s1: State, clean: State, c: Code, plans: seq<Plan>, origin: Option<HubId>)
    requires Saved(s1, clean, c, plans, origin)
    ensures forall o: OrderId, h: HubId :: Reserved(s1.lines, o, h, Some(c)) == Reserved(clean.lines, o, h, None)
  {
    hide Inv;
    PlannedTrips(clean);
    forall o: OrderId, h: HubId ensures Reserved(s1.lines, o, h, Some(c)) == Reserved(clean.lines, o, h, None) {
      SumConcat(clean.lines, PlannedLines(c, origin, plans), ReservedAt(o, h, Some(c)));
      SumZero(PlannedLines(c, origin, plans), ReservedAt(o, h, Some(c)));
      SumPointwise(clean.lines, ReservedAt(o, h, Some(c)), clean.lines, ReservedAt(o, h, None));
    }
  }

  /** The user who saved the draft may take it up again. */
  lemma {:induction false} DraftResumed(s1: State, clean: State, c: Code, plans: seq<Plan>, origin: Option<HubId>,
        userHub: Option<HubId>)
    requires Saved(s1, clean, c, plans, origin)
    requires userHub.Some? ==> forall i :: 0 <= i < |plans| ==> plans[i].hub == userHub
    ensures Discard(s1, c, userHub) == Ok(s1.(lines := DropLines(s1.lines, c)))
    ensures !HasLine(DropLines(s1.lines, c), c)
  {
    hide Inv;
    var n := |clean.lines|;
    assert OnTrip(s1.lines[n], c) by { assert s1.lines[n] == PlannedLines(c, origin, plans)[0]; }
    forall i | 0 <= i < |s1.lines| && OnTrip(s1.lines[i], c)
      ensures IsDraftLine(s1.lines[i]) && (userHub.Some? ==> s1.lines[i].origin == userHub)
    {
      assert i >= n;
      assert s1.lines[i] == PlannedLines(c, origin, plans)[i - n];
    }
  }

  // ----- Dispatching it ------------------------------------------------------------------------

  /** confirmOutbound on distinct live non-drafts is: drop the draft, plan every line, dispatch every plan. */
  lemma {:induction false} ConfirmFrom(s: State, req: Request, clean: State, plans: seq<Plan>)
    requires Inv(s) && Sensible(s, req) && |req.found| > 0
    requires forall i :: 0 <= i < |req.found| ==> !DraftLike(s.orders[req.found[i]].status)
    requires DiscardDraft(s, req) == Ok(clean) && FoundIn(clean, req)
    requires PlanAll(clean, req, Alone(req.found), true) == Ok(plans)
    ensures Confirm(s, req).Ok?
  {
    GatherAlone(s, req.found, {});
  }

  /** y takes up the draft that x saved: the user may, and every line is planned again with the same goods. */
  ghost predicate Resumes(s1: State, clean: State, c: Code, plans: seq<Plan>, x: Request, y: Request) {
    y.draftCode == Some(c) && y.items == x.items && y.found == x.found && y.userHub == x.userHub &&
    FoundIn(clean, x) && PlanAll(clean, x, Alone(x.found), false) == Ok(plans) && NoDuplicates(x.found) &&
    (forall i :: 0 <= i < |plans| ==>
      plans[i].order == x.found[i] && plans[i].hub == ActingHub(clean, x.userHub, x.found[i])) &&
    |plans| == |x.found| &&
    (forall o: OrderId, h: HubId :: Reserved(clean.lines, o, h, x.draftCode) == Reserved(clean.lines, o, h, None))
  }

  lemma {:induction false} DraftDispatched(s1: State, clean: State, c: Code, plans: seq<Plan>, origin: Option<HubId>,
        x: Request, y: Request)
    returns (left: State, loaded: seq<Plan>)
    requires Saved(s1, clean, c, plans, origin) && Resumes(s1, clean, c, plans, x, y)
    ensures left == s1.(lines := DropLines(s1.lines, c)) && DiscardDraft(s1, y) == Ok(left) && FoundIn(left, y)
    ensures PlanAll(left, y, Alone(y.found), true) == Ok(loaded) && SameGoods(plans, loaded)
    ensures Sensible(s1, y) && Confirm(s1, y).Ok?
  {
    hide Reserved, Stock, Inbound, Dispatched, Moving, DispatchedVia, PlanAll, Discard, DropLines;
    left := s1.(lines := DropLines(s1.lines, c));
    assert FoundIn(s1, y) && FoundIn(left, y);
    DraftResumed(s1, clean, c, plans, origin, y.userHub);
    DiscardKeepsInv(s1, c, y.userHub);
    OwnLinesExcluded(s1, clean, c, plans, origin);
    forall i | 0 <= i < |x.found| ensures SameOffer(clean, x, left, y, x.found[i]) {
      var o := x.found[i];
      var h := ActingHub(clean, x.userHub, o);
      assert PlanFits(clean, plans[i]);
      assert Reserved(left.lines, o, h.value, Some(c)) == Reserved(clean.lines, o, h.value, x.draftCode);
    }
    PlannedAgain(clean, x, false, left, y, true, x.found, plans);
    loaded := PlanAll(left, y, Alone(y.found), true).value;
    forall i | 0 <= i < |y.found| ensures !DraftLike(s1.orders[y.found[i]].status) {
      assert PlanFits(clean, plans[i]);
    }
    ConfirmFrom(s1, y, left, loaded);
  }

  // ----- Undoing it ----------------------------------------------------------------------------

  lemma {:induction false} LedgerUndone(l: seq<Tx>, gone: seq<Tx>, c: Code, hub: Option<HubId>, f: Tx -> int)
    requires NoInvoice(l, c)
    requires forall i :: 0 <= i < |gone| ==> TakenBack(gone[i], c, hub) && f(gone[i].(live := false)) == 0
    ensures Sum(TakeBack(l + gone, c, hub), f) == Sum(l, f)
  {
    var r := TakeBack(l + gone, c, hub);
    assert r == r[..|l|] + r[|l|..];
    SumConcat(r[..|l|], r[|l|..], f);
    SumPointwise(r[..|l|], f, l, f);
    SumZero(r[|l|..], f);
  }

  lemma {:induction false} LinesSplit(a: seq<Line>, b: seq<Line>, l: seq<Tx>, c: Code, hub: Option<HubId>)
    ensures ReopenLines(a + b, l, c, hub) == ReopenLines(a, l, c, hub) + ReopenLines(b, l, c, hub)
    ensures DropLines(a + b, c) == DropLines(a, c) + DropLines(b, c)
  {
  }

  lemma {:induction false} LinesUndone(base: seq<Line>, planned: seq<Line>, sent: seq<Line>, l: seq<Tx>, c: Code,
        hub: Option<HubId>, f: Line -> int)
    requires |planned| == |sent|
    requires forall i :: 0 <= i < |base| ==> !OnTrip(base[i], c)
    requires forall i :: 0 <= i < |planned| ==> OnTrip(planned[i], c) && f(planned[i].(live := false)) == 0
    requires forall i :: 0 <= i < |sent| ==> OnTrip(sent[i], c) && f(Reopened(sent[i], l, c, hub)) == f(planned[i])
    ensures Sum(ReopenLines(DropLines(base + planned, c) + sent, l, c, hub), f) == Sum(base + planned, f)
  {
    LinesSplit(base, planned, l, c, hub);
    LinesSplit(DropLines(base, c) + DropLines(planned, c), sent, l, c, hub);
    LinesSplit(DropLines(base, c), DropLines(planned, c), l, c, hub);
    var a, b, d := ReopenLines(DropLines(base, c), l, c, hub), ReopenLines(DropLines(planned, c), l, c, hub),
        ReopenLines(sent, l, c, hub);
    assert a == base;
    SumConcat(a + b, d, f);
    SumConcat(a, b, f);
    SumConcat(base, planned, f);
    SumZero(b, f);
    SumPointwise(d, f, planned, f);
  }

  /** The same stock, reservations and cached quantities, read in any way the services read them. */
  ghost predicate SameBooks(a: State, b: State) {
    SameSums(a.ledger, a.lines, b.ledger, b.lines) &&
    (forall o :: IsLive(a.orders, o) <==> IsLive(b.orders, o)) &&
    (forall o :: IsLive(a.orders, o) ==> SameQuantities(a.orders[o], b.orders[o]))
  }

  /** Plans that one hub (or any, when none is operating) dispatches. */
  ghost predicate SentBy(loaded: seq<Plan>, hub: Option<HubId>) {
    forall i :: 0 <= i < |loaded| ==> loaded[i].hub.Some? && (hub.None? || loaded[i].hub == hub)
  }

  ghost predicate SameSums(la: seq<Tx>, a: seq<Line>, lb: seq<Tx>, b: seq<Line>) {
    (forall o: OrderId :: Inbound(la, o) == Inbound(lb, o) && Dispatched(la, o) == Dispatched(lb, o)) &&
    (forall o: OrderId, h: Option<HubId> :: Stock(la, o, h) == Stock(lb, o, h)) &&
    (forall o: OrderId, h: HubId, x: Option<Code> :: Reserved(a, o, h, x) == Reserved(b, o, h, x))
  }

  lemma {:induction false} TablesUndone(l: seq<Tx>, base: seq<Line>, c: Code, origin: Option<HubId>, plans: seq<Plan>,
        loaded: seq<Plan>, hub: Option<HubId>)
    requires NoInvoice(l, c) && (forall i :: 0 <= i < |base| ==> !OnTrip(base[i], c))
    requires SameGoods(plans, loaded) && SentBy(loaded, hub)
    ensures var after := l + DispatchTxs(c, loaded, |base| + |plans|);
      var planned := base + PlannedLines(c, origin, plans);
      var reopened := ReopenLines(DropLines(planned, c) + DispatchedLines(c, loaded), after, c, hub);
      SameSums(TakeBack(after, c, hub), reopened, l, planned)
  {
    var txs, sent, own := DispatchTxs(c, loaded, |base| + |plans|), DispatchedLines(c, loaded), PlannedLines(c,
        origin, plans);
    forall o: OrderId
      ensures Inbound(TakeBack(l + txs, c, hub), o) == Inbound(l, o)
      ensures Dispatched(TakeBack(l + txs, c, hub), o) == Dispatched(l, o)
    {
      LedgerUndone(l, txs, c, hub, InboundOf(o));
      LedgerUndone(l, txs, c, hub, DispatchedOf(o));
    }
    forall o: OrderId, h: Option<HubId> ensures Stock(TakeBack(l + txs, c, hub), o, h) == Stock(l, o, h) {
      LedgerUndone(l, txs, c, hub, StockAt(o, h));
    }
    forall o: OrderId, h: HubId, x: Option<Code>
      ensures Reserved(ReopenLines(DropLines(base + own, c) + sent, l + txs, c, hub), o, h, x) ==
          Reserved(base + own, o, h, x)
    {
      LinesUndone(base, own, sent, l + txs, c, hub, ReservedAt(o, h, x));
    }
  }

  lemma {:induction false} GoneReopenable(l: seq<Tx>, base: seq<Line>, c: Code, loaded: seq<Plan>, hub: Option<HubId>,
        gone: State)
    requires NoInvoice(l, c) && !HasLine(base, c) && SentBy(loaded, hub) && |loaded| > 0
    requires gone.ledger == l + DispatchTxs(c, loaded, |base|) && gone.lines == base + DispatchedLines(c, loaded)
    ensures Reopenable(gone, c, hub) && HasOutboundLine(gone.lines, c)
  {
    var n, m := |l|, |base|;
    assert gone.lines[m] == DispatchedLine(c, loaded[0]);
    forall i | 0 <= i < |gone.ledger| && gone.ledger[i].live && gone.ledger[i].trip == Some(c)
      ensures TakenBack(gone.ledger[i], c, hub)
    {
      assert i >= n;
      assert gone.ledger[i] == DispatchTx(c, loaded[i - n], m + (i - n));
    }
    forall i | 0 <= i < |gone.lines| && OnTrip(gone.lines[i], c) ensures IsOutboundLine(gone.lines[i].kind) {
      assert i >= m;
      assert gone.lines[i] == DispatchedLine(c, loaded[i - m]);
    }
  }

  // ----- Putting it together -------------------------------------------------------------------

  /** What is left of a saved draft without its lines, and the dispatch that resumed it. */
  ghost predicate Resumed(s1: State, c: Code, plans: seq<Plan>, left: State, loaded: seq<Plan>, gone: State) {
    SameGoods(plans, loaded) && left == s1.(lines := DropLines(s1.lines, c)) &&
    (forall i :: 0 <= i < |loaded| ==> loaded[i].order in left.orders) &&
    gone == DispatchAll(left, c, loaded).(stops := gone.stops)
  }

  lemma {:induction false} LeftFits(s1: State, clean: State, c: Code, plans: seq<Plan>, origin: Option<HubId>,
        userHub: Option<HubId>, left: State, loaded: seq<Plan>)
    requires Saved(s1, clean, c, plans, origin) && SameGoods(plans, loaded) && Discard(s1, c, userHub) == Ok(left)
    ensures Inv(left) && Loadable(left, c) && DistinctOrders(loaded)
    ensures forall i :: 0 <= i < |loaded| ==> PlanFits(left, loaded[i])
    ensures NoInvoice(left.ledger, c) && !HasLine(left.lines, c)
  {
    DiscardKeepsInv(s1, c, userHub);
    OwnLinesExcluded(s1, clean, c, plans, origin);
    forall i | 0 <= i < |loaded| ensures PlanFits(left, loaded[i]) {
      assert PlanFits(clean, plans[i]);
    }
  }

  lemma {:induction false} GoneIsDispatched(left: State, c: Code, loaded: seq<Plan>, gone: State, hub: Option<HubId>)
    requires Inv(left) && Loadable(left, c) && DistinctOrders(loaded) && SentBy(loaded, hub) && |loaded| > 0
    requires forall i :: 0 <= i < |loaded| ==> loaded[i].order in left.orders && PlanFits(left, loaded[i])
    requires NoInvoice(left.ledger, c) && !HasLine(left.lines, c)
    requires gone == DispatchAll(left, c, loaded).(stops := gone.stops)
    ensures Inv(gone) && Reopenable(gone, c, hub) && HasOutboundLine(gone.lines, c)
  {
    DispatchAllKeepsInv(left, c, loaded);
    StopsDoNotMatter(DispatchAll(left, c, loaded), gone);
    DispatchAllShape(left, c, loaded);
    GoneReopenable(left.ledger, left.lines, c, loaded, hub, gone);
  }

  lemma {:induction false} SumsRestored(s1: State, clean: State, c: Code, plans: seq<Plan>, origin: Option<HubId>,
        left: State, loaded: seq<Plan>, gone: State, hub: Option<HubId>)
    requires Adds(s1, clean, c, plans, origin) && Resumed(s1, c, plans, left, loaded, gone) && SentBy(loaded, hub)
    ensures SameSums(TakeBack(gone.ledger, c, hub), ReopenLines(gone.lines, gone.ledger, c, hub), s1.ledger, s1.lines)
  {
    hide SameSums, TakeBack, ReopenLines, DispatchAll, NoInvoice;
    DispatchAllShape(left, c, loaded);
    assert |left.lines| == |clean.lines| + |plans|;
    assert gone.lines == DropLines(clean.lines + PlannedLines(c, origin, plans), c) + DispatchedLines(c, loaded);
    assert gone.ledger == s1.ledger + DispatchTxs(c, loaded, |clean.lines| + |plans|);
    TablesUndone(s1.ledger, clean.lines, c, origin, plans, loaded, hub);
  }

  lemma {:induction false} OrdersRestored(s1: State, left: State, c: Code, loaded: seq<Plan>, gone: State,
        hub: Option<HubId>, o: OrderId)
    requires left.orders == s1.orders && forall i :: 0 <= i < |loaded| ==> loaded[i].order in left.orders
    requires gone == DispatchAll(left, c, loaded).(stops := gone.stops) && Inv(gone)
    ensures var r := RollbackOutbound(gone, c, hub).orders;
      (IsLive(s1.orders, o) <==> IsLive(r, o)) && (IsLive(r, o) ==> r[o].total == s1.orders[o].total)
  {
    if o in s1.orders {
      DispatchAllOrders(left, c, loaded, o);
      if s1.orders[o].live {
        OrderPutBack(gone, c, hub, o);
      }
    }
  }

  /** After the roll-back the books are those of the saved draft. */
  lemma {:induction false} BooksRestored(s1: State, clean: State, c: Code, plans: seq<Plan>, origin: Option<HubId>,
        left: State, loaded: seq<Plan>, gone: State, hub: Option<HubId>)
    requires Adds(s1, clean, c, plans, origin) && Resumed(s1, c, plans, left, loaded, gone) && SentBy(loaded, hub)
    requires Inv(s1) && Inv(gone) && Inv(RollbackOutbound(gone, c, hub))
    ensures SameBooks(s1, RollbackOutbound(gone, c, hub))
  {
    SumsRestored(s1, clean, c, plans, origin, left, loaded, gone, hub);
    var r := RollbackOutbound(gone, c, hub);
    forall o ensures IsLive(s1.orders, o) <==> IsLive(r.orders, o) {
      OrdersRestored(s1, left, c, loaded, gone, hub, o);
    }
    forall o | IsLive(s1.orders, o) ensures SameQuantities(s1.orders[o], r.orders[o]) {
      OrdersRestored(s1, left, c, loaded, gone, hub, o);
      SyncedAlike(s1, r, o);
    }
  }

  /** Two synced states with the same ledger sums cache the same quantities. */
  lemma {:induction false} SyncedAlike(a: State, b: State, o: OrderId)
    requires Synced(a.orders, a.ledger, o) && Synced(b.orders, b.ledger, o) && IsLive(a.orders, o)
    requires IsLive(b.orders, o)
    requires Inbound(a.ledger, o) == Inbound(b.ledger, o) && Dispatched(a.ledger, o) == Dispatched(b.ledger, o)
    requires a.orders[o].total == b.orders[o].total
    ensures SameQuantities(a.orders[o], b.orders[o])
  {
  }

  lemma {:induction false} PutBackHub(orders: map<OrderId, Order>, l: seq<Tx>, c: Code, hub: Option<HubId>, n: nat,
        k: nat, o: OrderId, g: HubId)
    requires k < n <= |l| && IsLive(orders, o) && TakenBack(l[k], c, hub) && l[k].order == o
    requires forall i :: 0 <= i < n && TakenBack(l[i], c, hub) && l[i].order == o ==> l[i].hub == Some(g)
    ensures PutBackAll(orders, l, c, hub, n)[o].currentHub == Some(g)
    decreases n
  {
    hide PutBackAll;
    PutBackStep(orders, l, c, hub, n, o);
    if k < n - 1 {
      PutBackHub(orders, l, c, hub, n - 1, k, o, g);
    }
  }

  /** The rows a roll-back takes back from a dispatched order are those just dispatched, at its hub. */
  lemma {:induction false} OwnRows(l: seq<Tx>, c: Code, loaded: seq<Plan>, m: nat, hub: Option<HubId>, k: nat)
    requires NoInvoice(l, c) && DistinctOrders(loaded) && SentBy(loaded, hub) && k < |loaded|
    ensures var all := l + DispatchTxs(c, loaded, m);
      TakenBack(all[|l| + k], c, hub) && all[|l| + k].order == loaded[k].order &&
      forall i :: 0 <= i < |all| && TakenBack(all[i], c, hub) && all[i].order == loaded[k].order ==>
        all[i].hub == loaded[k].hub
  {
    var all := l + DispatchTxs(c, loaded, m);
    forall i | 0 <= i < |all| && TakenBack(all[i], c, hub) && all[i].order == loaded[k].order
      ensures all[i].hub == loaded[k].hub
    {
      assert i >= |l|;
      assert all[i] == DispatchTx(c, loaded[i - |l|], m + (i - |l|));
    }
    assert all[|l| + k] == DispatchTx(c, loaded[k], m + k);
  }

  /** Each dispatched order is back at the hub that had dispatched it. */
  lemma {:induction false} HubRestored(left: State, c: Code, loaded: seq<Plan>, gone: State, hub: Option<HubId>, k: nat)
    requires NoInvoice(left.ledger, c) && DistinctOrders(loaded) && SentBy(loaded, hub) && k < |loaded|
    requires forall i :: 0 <= i < |loaded| ==> loaded[i].order in left.orders && left.orders[loaded[i].order].live
    requires gone == DispatchAll(left, c, loaded).(stops := gone.stops)
    ensures RollbackOutbound(gone, c, hub).orders[loaded[k].order].currentHub == loaded[k].hub
  {
    hide PutBackAll, TakeBack, ReopenLines, ReopenStops, DispatchAll, TakenBack, NoInvoice, DistinctOrders;
    DispatchAllShape(left, c, loaded);
    DispatchAllOrders(left, c, loaded, loaded[k].order);
    OwnRows(left.ledger, c, loaded, |left.lines|, hub, k);
    PutBackHub(gone.orders, gone.ledger, c, hub, |gone.ledger|, |left.ledger| + k, loaded[k].order,
      loaded[k].hub.value);
  }

  // ----- Dispatching once more -----------------------------------------------------------------

  /** The re-opened trip offers every order at the same hub and in the same quantity as the saved draft did. */
  lemma {:induction false} OfferRestored(clean: State, x: Request, s1: State, r: State, rest: State, y: Request,
        c: Code, o: OrderId, h: HubId)
    requires Inv(clean) && Inv(r) && SameBooks(s1, r) && clean.ledger == s1.ledger && clean.orders == s1.orders
    requires IsLive(clean.orders, o) && !DraftLike(clean.orders[o].status) && IsLive(r.orders, o)
    requires !DraftLike(r.orders[o].status)
    requires ActingHub(clean, x.userHub, o) == Some(h) && r.orders[o].currentHub == Some(h) && x.userHub == y.userHub
    requires y.draftCode == Some(c) && 0 < Stock(clean.ledger, o, Some(h))
    requires rest == r.(lines := rest.lines)
    requires Reserved(rest.lines, o, h, Some(c)) == Reserved(clean.lines, o, h, x.draftCode)
    ensures SameOffer(clean, x, rest, y, o)
  {
    if !HasRows(clean.ledger, o, Some(h)) { NoRowsNoStock(clean.ledger, o, Some(h)); }
    if !HasRows(r.ledger, o, Some(h)) { NoRowsNoStock(r.ledger, o, Some(h)); }
    assert Stock(s1.ledger, o, Some(h)) == Stock(r.ledger, o, Some(h));
  }

  /** An order that left on the trip is stored again, so it is no draft. */
  lemma {:induction false} RestoredIsStored(left: State, c: Code, loaded: seq<Plan>, gone: State, hub: Option<HubId>,
        k: nat)
    requires Inv(gone) && k < |loaded| && forall i :: 0 <= i < |loaded| ==> loaded[i].order in left.orders
    requires IsLive(left.orders, loaded[k].order) && !DraftLike(left.orders[loaded[k].order].status)
    requires gone == DispatchAll(left, c, loaded).(stops := gone.stops)
    ensures IsLive(RollbackOutbound(gone, c, hub).orders, loaded[k].order)
    ensures !DraftLike(RollbackOutbound(gone, c, hub).orders[loaded[k].order].status)
  {
    hide Inv, DispatchAll, PutBackAll;
    DispatchAllOrders(left, c, loaded, loaded[k].order);
    OrderPutBack(gone, c, hub, loaded[k].order);
  }

  /** The user who saved the draft may take up the re-opened trip. */
  lemma {:induction false} ReopenedDiscarded(base: seq<Line>, c: Code, loaded: seq<Plan>, gone: State,
        userHub: Option<HubId>, hub: Option<HubId>, r: State)
    requires !HasLine(base, c) && gone.lines == base + DispatchedLines(c, loaded) && |loaded| > 0
    requires userHub.Some? ==> forall i :: 0 <= i < |loaded| ==> loaded[i].hub == userHub
    requires r.lines == ReopenLines(gone.lines, gone.ledger, c, hub) && NoInvoice(r.ledger, c)
    requires AllDraftLines(r.lines, c)
    ensures Discard(r, c, userHub) == Ok(r.(lines := DropLines(r.lines, c)))
  {
    var m := |base|;
    assert gone.lines[m] == DispatchedLine(c, loaded[0]);
    assert OnTrip(r.lines[m], c);
    forall i | 0 <= i < |r.lines| && OnTrip(r.lines[i], c) ensures userHub.Some? ==> r.lines[i].origin == userHub {
      assert i >= m;
      assert gone.lines[i] == DispatchedLine(c, loaded[i - m]);
    }
  }

  /** Dropping the re-opened trip's lines shows the reservations the draft was planned against. */
  lemma {:induction false} ReopenedRest(s1: State, clean: State, c: Code, plans: seq<Plan>, origin: Option<HubId>,
        userHub: Option<HubId>, r: State)
    requires Saved(s1, clean, c, plans, origin) && Inv(r) && SameBooks(s1, r)
    requires Discard(r, c, userHub) == Ok(r.(lines := DropLines(r.lines, c)))
    ensures forall o: OrderId, h: HubId ::
      Reserved(DropLines(r.lines, c), o, h, Some(c)) == Reserved(clean.lines, o, h, None)
  {
    hide Inv;
    DiscardKeepsInv(r, c, userHub);
    OwnLinesExcluded(s1, clean, c, plans, origin);
  }

  /** Confirming the re-opened trip with the same request is accepted again. */
  lemma {:induction false} ConfirmedAgain(s1: State, clean: State, c: Code, plans: seq<Plan>, origin: Option<HubId>,
        x: Request, y: Request, left: State, loaded: seq<Plan>, gone: State, hub: Option<HubId>, r: State,
        rest: State)
    requires Saved(s1, clean, c, plans, origin) && Resumes(s1, clean, c, plans, x, y)
    requires Resumed(s1, c, plans, left, loaded, gone)
    requires SentBy(loaded, hub) && Inv(gone) && r == RollbackOutbound(gone, c, hub) && Inv(r) && SameBooks(s1, r)
    requires Discard(r, c, y.userHub) == Ok(rest) && rest == r.(lines := rest.lines)
    requires forall o: OrderId, h: HubId :: Reserved(rest.lines, o, h, Some(c)) == Reserved(clean.lines, o, h, None)
    ensures FoundIn(r, y) && Sensible(r, y) && Confirm(r, y).Ok?
  {
    hide Inv, PlanAll, Discard, SameBooks, SameOffer, SentBy, RollbackOutbound;
    forall i | 0 <= i < |x.found|
      ensures SameOffer(clean, x, rest, y, x.found[i]) && IsLive(r.orders, x.found[i])
      ensures !DraftLike(r.orders[x.found[i]].status)
    {
      OfferAgain(s1, clean, c, plans, origin, x, y, left, loaded, gone, hub, r, rest, i);
    }
    assert FoundIn(rest, y);
    PlannedAgain(clean, x, false, rest, y, true, x.found, plans);
    ConfirmFrom(r, y, rest, PlanAll(rest, y, Alone(y.found), true).value);
  }

  lemma {:induction false} OfferAgain(s1: State, clean: State, c: Code, plans: seq<Plan>, origin: Option<HubId>,
        x: Request, y: Request, left: State, loaded: seq<Plan>, gone: State, hub: Option<HubId>, r: State,
        rest: State, i: nat)
    requires Saved(s1, clean, c, plans, origin) && Resumes(s1, clean, c, plans, x, y)
    requires Resumed(s1, c, plans, left, loaded, gone)
    requires SentBy(loaded, hub) && Inv(gone) && r == RollbackOutbound(gone, c, hub) && Inv(r) && SameBooks(s1, r)
    requires i < |x.found|
    requires rest == r.(lines := rest.lines)
    requires forall o: OrderId, h: HubId ::
      Reserved(rest.lines, o, h, Some(c)) == Reserved(clean.lines, o, h, x.draftCode)
    ensures SameOffer(clean, x, rest, y, x.found[i]) && IsLive(r.orders, x.found[i])
    ensures !DraftLike(r.orders[x.found[i]].status)
  {
    hide Reserved, RollbackOutbound, SameOffer, RowsOk, DraftsClean, Covered, Matched, Synced;
    var o, h := x.found[i], plans[i].hub.value;
    assert PlanFits(clean, plans[i]);
    assert loaded[i].order == o && loaded[i].hub == Some(h);
    forall j | 0 <= j < |loaded| ensures loaded[j].order in left.orders && left.orders[loaded[j].order].live {
      assert PlanFits(clean, plans[j]);
    }
    HubRestored(left, c, loaded, gone, hub, i);
    RestoredIsStored(left, c, loaded, gone, hub, i);
    ReservedNonNegative(clean, o, h, None);
    OfferRestored(clean, x, s1, r, rest, y, c, o, h);
  }

  // ----- The round trip ------------------------------------------------------------------------

  /** Same lines, same hubs, rolled back unscoped or by the dispatching hub. */
  ghost predicate DispatchingHub(s: State, req: Request, hub: Option<HubId>)
    requires FoundIn(s, req)
  {
    hub.None? || forall i :: 0 <= i < |req.found| ==> ActingHub(s, req.userHub, req.found[i]) == hub
  }

  /** A trip saved as a draft and dispatched by confirming that draft, taken apart. */
  ghost predicate Journey(s1: State, clean: State, c: Code, plans: seq<Plan>, origin: Option<HubId>, x: Request,
        y: Request, left: State, loaded: seq<Plan>, gone: State, hub: Option<HubId>)
  {
    Saved(s1, clean, c, plans, origin) && Resumes(s1, clean, c, plans, x, y) &&
      Resumed(s1, c, plans, left, loaded, gone) &&
    SentBy(loaded, hub) && !HasLine(left.lines, c) && Inv(gone) && Reopenable(gone, c, hub) &&
      HasOutboundLine(gone.lines, c)
  }

  lemma {:induction false} SentByHub(clean: State, plans: seq<Plan>, loaded: seq<Plan>, x: Request, hub: Option<HubId>)
    requires SameGoods(plans, loaded) && FoundIn(clean, x) && DispatchingHub(clean, x, hub) && |plans| == |x.found|
    requires forall i :: 0 <= i < |plans| ==>
      PlanFits(clean, plans[i]) && plans[i].hub == ActingHub(clean, x.userHub, x.found[i])
    ensures SentBy(loaded, hub)
  {
    forall i | 0 <= i < |loaded| ensures loaded[i].hub.Some? && (hub.None? || loaded[i].hub == hub) {
      assert PlanFits(clean, plans[i]);
    }
  }

  /** The draft just saved can always be confirmed. */
  lemma {:induction false} Travelled(s: State, x: Request, s1: State, y: Request, hub: Option<HubId>)
    returns (clean: State, plans: seq<Plan>, origin: Option<HubId>, left: State, loaded: seq<Plan>)
    requires Inv(s) && Sensible(s, x) && HubsHoldRows(s, x) && SaveDraft(s, x) == Ok(s1) && DispatchingHub(s, x, hub)
    requires y == x.(draftCode := Some(x.TripCode()))
    ensures FoundIn(s1, y) && Confirm(s1, y).Ok?
    ensures Journey(s1, clean, x.TripCode(), plans, origin, x, y, left, loaded, Confirm(s1, y).value, hub)
  {
    hide Inv, SaveDraft, Confirm, Adds, Discard, Reopenable, PlanFits, DispatchAll, ReserveAll, PlanAll, NoInvoice,
        HasLine, HubsHoldRows;
    var c := x.TripCode();
    clean, plans, origin := DraftSaved(s, x);
    DraftDiscarded(s, x);
    DraftIsPlanned(s, x, clean, plans, origin, s1.stops);
    left, loaded := DraftDispatched(s1, clean, c, plans, origin, x, y);
    LeftFits(s1, clean, c, plans, origin, y.userHub, left, loaded);
    var clean2, loaded2 := DispatchAccepted(s1, y);
    SentByHub(clean, plans, loaded, x, hub);
    GoneIsDispatched(left, c, loaded, Confirm(s1, y).value, hub);
  }

  /**
   * Save a draft, confirm it, roll the trip back: the draft can always be confirmed, and the roll-back restores every
   * ledger sum, reservation and cached quantity of the saved draft.
   */
  lemma {:induction false} RollbackUndoesConfirm(s: State, x: Request, s1: State, y: Request, hub: Option<HubId>)
    requires Inv(s) && Sensible(s, x) && HubsHoldRows(s, x) && SaveDraft(s, x) == Ok(s1) && DispatchingHub(s, x, hub)
    requires y == x.(draftCode := Some(x.TripCode()))
    ensures FoundIn(s1, y) && Confirm(s1, y).Ok?
    ensures RollsBackOutbound(Confirm(s1, y).value, x.TripCode(), hub)
    ensures Inv(RollbackOutbound(Confirm(s1, y).value, x.TripCode(), hub))
    ensures SameBooks(s1, RollbackOutbound(Confirm(s1, y).value, x.TripCode(), hub))
  {
    hide Inv, SaveDraft, Confirm, RollbackOutbound, SameBooks;
    var clean, plans, origin, left, loaded := Travelled(s, x, s1, y, hub);
    var gone := Confirm(s1, y).value;
    RollbackSafe(gone, x.TripCode(), hub);
    BooksRestored(s1, clean, x.TripCode(), plans, origin, left, loaded, gone, hub);
  }

  /** And the re-opened trip can be confirmed again, by the same request, under the same code. */
  lemma {:induction false} ReopenedTripConfirms(s: State, x: Request, s1: State, y: Request, hub: Option<HubId>,
        r: State)
    requires Inv(s) && Sensible(s, x) && HubsHoldRows(s, x) && SaveDraft(s, x) == Ok(s1) && DispatchingHub(s, x, hub)
    requires y == x.(draftCode := Some(x.TripCode())) && FoundIn(s1, y) && Confirm(s1, y).Ok?
    requires r == RollbackOutbound(Confirm(s1, y).value, x.TripCode(), hub)
    ensures FoundIn(r, y) && Confirm(r, y).Ok?
  {
    hide Inv, SaveDraft, Confirm, RollbackOutbound, SameBooks;
    var c := x.TripCode();
    var clean, plans, origin, left, loaded := Travelled(s, x, s1, y, hub);
    var gone := Confirm(s1, y).value;
    RollbackSafe(gone, c, hub);
    BooksRestored(s1, clean, c, plans, origin, left, loaded, gone, hub);
    Retaken(s1, clean, c, plans, origin, x, y, left, loaded, gone, hub, r);
    ReopenedRest(s1, clean, c, plans, origin, y.userHub, r);
    ConfirmedAgain(s1, clean, c, plans, origin, x, y, left, loaded, gone, hub, r, r.(lines := DropLines(r.lines, c)));
  }

  lemma {:induction false} Retaken(s1: State, clean: State, c: Code, plans: seq<Plan>, origin: Option<HubId>,
        x: Request, y: Request, left: State, loaded: seq<Plan>, gone: State, hub: Option<HubId>, r: State)
    requires Journey(s1, clean, c, plans, origin, x, y, left, loaded, gone, hub) && r == RollbackOutbound(gone, c, hub)
    ensures Discard(r, c, y.userHub) == Ok(r.(lines := DropLines(r.lines, c)))
  {
    hide Inv, Discard, DispatchAll, RollbackOutbound;
    RollbackClean(gone, c, hub);
    RolledLines(gone, c, hub, r);
    DispatchAllShape(left, c, loaded);
    ReopenedDiscarded(left.lines, c, loaded, gone, y.userHub, hub, r);
  }

  lemma {:induction false} RolledLines(s: State, c: Code, hub: Option<HubId>, r: State)
    requires r == RollbackOutbound(s, c, hub)
    ensures r.lines == ReopenLines(s.lines, s.ledger, c, hub) && r.ledger == TakeBack(s.ledger, c, hub)
  {
  }
}
