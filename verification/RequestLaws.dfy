/** Whole outbound requests: when they keep the invariant, and exactly when they do not. */
module RequestLaws {
  import opened Basics
  import opened Sums
  import opened Model
  import opened Consolidation
  import opened Dispatch
  import opened Invariant
  import opened OutboundLaws
  import opened Requests
  import opened Partition

  // ----- Consolidation has nothing to do on reachable states -----------------------------------

  /** Row ids come from the sequence. */
  predicate Numbered(s: State) {
    forall o :: o in s.orders ==> o < s.nextOrder
  }

  /** The code has at most one live row. */
  ghost predicate Single(s: State, code: Code) {
    forall a, b :: IsLive(s.orders, a) && IsLive(s.orders, b) && s.orders[a].code == code == s.orders[b].code ==> a == b
  }

  lemma {:induction false} CodesSingle(s: State)
    requires UniqueCodes(s.orders) && RowsOk(s)
    ensures Numbered(s) && forall c :: Single(s, c)
  {
  }

  lemma {:induction false} SiblingsAlone(s: State, o: OrderId)
    requires Numbered(s) && IsLive(s.orders, o) && Single(s, s.orders[o].code)
    ensures SiblingsOf(s, s.orders[o].code) == [o]
  {
    var sibs := SiblingsOf(s, s.orders[o].code);
    assert o in sibs;
    forall i | 0 <= i < |sibs| ensures sibs[i] == o {
      assert sibs[i] in sibs;
    }
    assert sibs[0] == o && sibs[|sibs| - 1] == o;
  }

  lemma {:induction false} NothingToMerge(s: State, o: OrderId)
    requires Numbered(s) && IsLive(s.orders, o) && Single(s, s.orders[o].code)
    ensures Consolidate(s, o) == s
  {
    hide Merge, Siblings;
    SiblingsAlone(s, o);
  }

  lemma {:induction false} ConsolidateAlone(s: State, o: OrderId)
    requires UniqueCodes(s.orders) && RowsOk(s) && IsLive(s.orders, o)
    ensures Consolidate(s, o) == s
  {
    hide Consolidate;
    CodesSingle(s);
    NothingToMerge(s, o);
  }

  function Alone(found: seq<OrderId>): (r: seq<Target>)
    ensures |r| == |found|
    ensures forall i :: 0 <= i < |found| ==> r[i] == Target(found[i], [found[i]])
  {
    seq(|found|, i requires 0 <= i < |found| => Target(found[i], [found[i]]))
  }

  lemma {:induction false} GatherAlone(s: State, found: seq<OrderId>, seen: set<Code>)
    requires UniqueCodes(s.orders) && RowsOk(s) && NoDuplicates(found)
    requires forall i :: 0 <= i < |found| ==> IsLive(s.orders, found[i]) && s.orders[found[i]].code !in seen
    ensures Gather(s, found, seen) == (s, Alone(found))
    decreases |found|
  {
    hide RowsOk, Consolidate, SiblingsOf, Single, Numbered;
    if |found| > 0 {
      var o := found[0];
      CodesSingle(s);
      SiblingsAlone(s, o);
      ConsolidateAlone(s, o);
      forall i | 0 <= i < |found[1..]|
        ensures IsLive(s.orders, found[1..][i]) && s.orders[found[1..][i]].code !in seen + {s.orders[o].code}
      {
        assert found[1..][i] == found[i + 1] && found[0] != found[i + 1];
      }
      GatherAlone(s, found[1..], seen + {s.orders[o].code});
      assert [Target(o, [o])] + Alone(found[1..]) == Alone(found);
    }
  }

  // ----- From an accepted plan to a fitting one ------------------------------------------------

  /** Every hub that would dispatch has ledger rows for its order: getHubStock is not null. */
  ghost predicate HubsHoldRows(s: State, req: Request)
    requires FoundIn(s, req)
  {
    forall i :: 0 <= i < |req.found| ==>
      var h := ActingHub(s, req.userHub, req.found[i]);
      h.Some? && HasRows(s.ledger, req.found[i], h)
  }

  /**
   * The hub the line of o would be written for has rows, or (when it is only the first line's hub) enough free stock.
   */
  ghost predicate Reservable(s: State, req: Request, o: OrderId, origin: Option<HubId>)
    requires o in s.orders
  {
    match ActingHub(s, req.userHub, o)
    case Some(h) => HasRows(s.ledger, o, Some(h))
    case None =>
      origin.Some? ==>
        Reserved(s.lines, o, origin.value, req.draftCode) + Requested(req.items, o, s.orders[o].remaining) <=
        Stock(s.ledger, o, origin)
  }

  /** The hub o would leave from has rows, or (when nobody knows the hub) the bucket without a hub has the goods. */
  ghost predicate Shippable(s: State, req: Request, o: OrderId)
    requires o in s.orders
  {
    match ActingHub(s, req.userHub, o)
    case Some(h) => HasRows(s.ledger, o, Some(h))
    case None => Requested(req.items, o, s.orders[o].remaining) <= Stock(s.ledger, o, None)
  }

  ghost predicate DraftCovered(s: State, req: Request)
    requires FoundIn(s, req)
  {
    forall i :: 0 <= i < |req.found| ==>
      Reservable(s, req, req.found[i], ActingHub(s, req.userHub, req.found[0]))
  }

  ghost predicate DispatchCovered(s: State, req: Request)
    requires FoundIn(s, req)
  {
    forall i :: 0 <= i < |req.found| ==> Shippable(s, req, req.found[i])
  }

  /** No live row, invoice or order mentions the code. */
  ghost predicate Unused(s: State, c: Code) {
    NoInvoice(s.ledger, c) && (forall i :: 0 <= i < |s.lines| ==> !OnTrip(s.lines[i], c)) &&
    (forall o :: IsLive(s.orders, o) ==> s.orders[o].currentTrip != Some(c))
  }

  /** What the database guarantees about a request: distinct live rows found, a sequence value nobody used. */
  ghost predicate Sensible(s: State, req: Request) {
    FoundIn(s, req) && NoDuplicates(req.found) && (req.draftCode.None? ==> Unused(s, req.freshCode))
  }

  lemma {:induction false} DraftDiscarded(s: State, req: Request)
    requires Inv(s) && Sensible(s, req) && DiscardDraft(s, req).Ok?
    ensures var r := DiscardDraft(s, req).value;
      Inv(r) && Draftable(r, req.TripCode()) && Loadable(r, req.TripCode()) &&
      r.orders == s.orders && r.ledger == s.ledger && r.nextOrder == s.nextOrder && r.stops == s.stops &&
      (forall o: OrderId, h: HubId :: Reserved(r.lines, o, h, req.draftCode) == Reserved(r.lines, o, h, None)) &&
      (forall o: OrderId, h: HubId :: Reserved(r.lines, o, h, None) == Reserved(s.lines, o, h, req.draftCode)) &&
      (forall o: OrderId, h: HubId :: Reserved(r.lines, o, h, req.draftCode) == Reserved(s.lines, o, h, req.draftCode))
  {
    if req.draftCode.Some? {
      DiscardKeepsInv(s, req.draftCode.value, req.userHub);
    }
  }

  lemma {:induction false} NoRowsNoStock(l: seq<Tx>, o: OrderId, h: Option<HubId>)
    requires !HasRows(l, o, h)
    ensures Stock(l, o, h) == 0
  {
    SumZero(l, StockAt(o, h));
  }

  lemma {:induction false} RowsShip(s: State, req: Request, i: nat)
    requires FoundIn(s, req) && HubsHoldRows(s, req) && i < |req.found|
    ensures Shippable(s, req, req.found[i]) && ActingHub(s, req.userHub, req.found[i]).Some?
    ensures forall g :: Reservable(s, req, req.found[i], g)
  {
  }

  /** A draft order has nothing available, so it is never planned. */
  lemma {:induction false} PlanIsFitting(s: State, req: Request, o: OrderId, leaving: bool)
    requires Inv(s) && IsLive(s.orders, o)
    requires forall h: HubId :: Reserved(s.lines, o, h, req.draftCode) == Reserved(s.lines, o, h, None)
    requires PlanOne(s, req, Target(o, [o]), leaving).Ok?
    ensures var p := PlanOne(s, req, Target(o, [o]), leaving).value;
      p.order == o && p.hub == ActingHub(s, req.userHub, o) && 0 < p.qty && !DraftLike(s.orders[o].status) &&
      (Ships(s, p) <==> Shippable(s, req, o)) && forall g :: Holds(s, g, p) <==> Reservable(s, req, o, g)
  {
    hide Reserved, Stock, Inbound, Dispatched, HasRows, IsDirect, DraftRoute, DispatchRoute, MergeItems, Requested;
    var p := PlanOne(s, req, Target(o, [o]), leaving).value;
    MergedIs(req.items, o, s.orders[o].remaining);
    assert Synced(s.orders, s.ledger, o);
    if p.hub.Some? {
      ReservedNonNegative(s, o, p.hub.value, req.draftCode);
      if !HasRows(s.ledger, o, p.hub) { NoRowsNoStock(s.ledger, o, p.hub); }
    }
  }

  lemma {:induction false} PlansFit(s: State, req: Request, plans: seq<Plan>, leaving: bool)
    requires Inv(s) && FoundIn(s, req) && NoDuplicates(req.found)
    requires forall o: OrderId, h: HubId :: Reserved(s.lines, o, h, req.draftCode) == Reserved(s.lines, o, h, None)
    requires PlanAll(s, req, Alone(req.found), leaving) == Ok(plans)
    ensures DistinctOrders(plans) && |plans| == |req.found|
    ensures forall i :: 0 <= i < |plans| ==>
      plans[i].order == req.found[i] && plans[i].hub == ActingHub(s, req.userHub, req.found[i]) && 0 < plans[i].qty &&
      !DraftLike(s.orders[req.found[i]].status)
    ensures forall i :: 0 <= i < |plans| ==> (Ships(s, plans[i]) <==> Shippable(s, req, req.found[i]))
    ensures forall i, g :: 0 <= i < |plans| ==> (Holds(s, g, plans[i]) <==> Reservable(s, req, req.found[i], g))
    ensures HubsHoldRows(s, req) ==> forall i :: 0 <= i < |plans| ==> PlanFits(s, plans[i])
  {
    hide Inv, PlanOne, ActingHub, Ships, Shippable, Holds, Reservable;
    forall i | 0 <= i < |plans|
      ensures plans[i].order == req.found[i] && plans[i].hub == ActingHub(s, req.userHub, req.found[i])
      ensures 0 < plans[i].qty && !DraftLike(s.orders[req.found[i]].status)
      ensures Ships(s, plans[i]) <==> Shippable(s, req, req.found[i])
      ensures forall g :: Holds(s, g, plans[i]) <==> Reservable(s, req, req.found[i], g)
    {
      PlanIsFitting(s, req, req.found[i], leaving);
    }
    if HubsHoldRows(s, req) {
      forall i | 0 <= i < |plans| ensures PlanFits(s, plans[i]) {
        RowsShip(s, req, i);
      }
    }
  }

  // ----- saveOutboundDraft ---------------------------------------------------------------------

  /** The accepted draft, taken apart. */
  lemma {:induction false} DraftSaved(s: State, req: Request)
      returns (clean: State, plans: seq<Plan>, origin: Option<HubId>)
    requires Inv(s) && Sensible(s, req) && SaveDraft(s, req).Ok?
    ensures DiscardDraft(s, req) == Ok(clean) && PlanAll(clean, req, Alone(req.found), false) == Ok(plans)
    ensures |req.found| > 0 && origin == ActingHub(s, req.userHub, req.found[0])
    ensures SaveDraft(s, req).value ==
            ReserveAll(clean, req.TripCode(), origin, plans).(stops := SaveDraft(s, req).value.stops)
  {
    clean := DiscardDraft(s, req).value;
    DraftDiscarded(s, req);
    GatherAlone(clean, req.found, {});
    plans := PlanAll(clean, req, Alone(req.found), false).value;
    origin := ActingHub(s, req.userHub, req.found[0]);
  }

  lemma {:induction false} ReservedByPlan(s: State, c: Code, origin: Option<HubId>, plans: seq<Plan>, k: nat, h: HubId)
    requires DistinctOrders(plans) && k < |plans| && plans[k].hub.OrElse(origin) == Some(h)
    ensures Reserved(ReserveAll(s, c, origin, plans).lines, plans[k].order, h, None) ==
            Reserved(s.lines, plans[k].order, h, None) + plans[k].qty
    ensures ReserveAll(s, c, origin, plans).ledger == s.ledger
    decreases |plans|
  {
    hide Reserved, Sum;
    var n := |plans| - 1;
    var front := plans[..n];
    LineAppended(ReserveAll(s, c, origin, front).lines, PlannedLine(c, origin, plans[n]));
    if k < n {
      ReservedByPlan(s, c, origin, front, k, h);
    } else {
      OthersReserve(s, c, origin, front, plans[k].order, h);
    }
  }

  lemma {:induction false} OthersReserve(s: State, c: Code, origin: Option<HubId>, plans: seq<Plan>, o: OrderId,
        h: HubId)
    requires forall i :: 0 <= i < |plans| ==> plans[i].order != o
    ensures Reserved(ReserveAll(s, c, origin, plans).lines, o, h, None) == Reserved(s.lines, o, h, None)
    ensures ReserveAll(s, c, origin, plans).ledger == s.ledger
    decreases |plans|
  {
    hide Reserved, Sum;
    if |plans| > 0 {
      var n := |plans| - 1;
      assert forall i :: 0 <= i < n ==> plans[..n][i] == plans[i];
      OthersReserve(s, c, origin, plans[..n], o, h);
      LineAppended(ReserveAll(s, c, origin, plans[..n]).lines, PlannedLine(c, origin, plans[n]));
    }
  }

  lemma {:induction false} ReserveBeyondStock(s: State, c: Code, origin: Option<HubId>, plans: seq<Plan>, k: nat)
    requires DistinctOrders(plans) && k < |plans| && 0 < plans[k].qty && IsLive(s.orders, plans[k].order)
    requires !Holds(s, origin, plans[k])
    ensures !Covered(ReserveAll(s, c, origin, plans).ledger, ReserveAll(s, c, origin, plans).lines)
  {
    hide Reserved, Stock, ReserveAll;
    var r, o, h := ReserveAll(s, c, origin, plans), plans[k].order, plans[k].hub.OrElse(origin).value;
    ReservedByPlan(s, c, origin, plans, k, h);
    assert Reserved(r.lines, o, h, None) > Stock(r.ledger, o, Some(h));
  }

  /** Dropping the old draft does not change what its own code leaves free. */
  lemma {:induction false} ReservableClean(s: State, req: Request, clean: State, o: OrderId, origin: Option<HubId>)
    requires clean.orders == s.orders && clean.ledger == s.ledger && o in s.orders
    requires forall h: HubId :: Reserved(clean.lines, o, h, req.draftCode) == Reserved(s.lines, o, h, req.draftCode)
    ensures Reservable(clean, req, o, origin) <==> Reservable(s, req, o, origin)
    ensures Shippable(clean, req, o) <==> Shippable(s, req, o)
  {
    hide Reserved, Stock, HasRows, Requested;
  }

  lemma {:induction false} SaveDraftSafe(s: State, req: Request)
    requires Inv(s) && Sensible(s, req) && SaveDraft(s, req).Ok? && DraftCovered(s, req)
    ensures Inv(SaveDraft(s, req).value)
  {
    hide Inv, SaveDraft, PlanAll, ReserveAll, Reserved, Stock, Requested, Holds, ActingHub;
    var clean, plans, origin := DraftSaved(s, req);
    DraftDiscarded(s, req);
    PlansFit(clean, req, plans, false);
    forall i | 0 <= i < |plans| ensures Holds(clean, origin, plans[i]) {
      ReservableClean(s, req, clean, req.found[i], origin);
    }
    ReserveAllKeepsInv(clean, req.TripCode(), origin, plans);
    StopsDoNotMatter(ReserveAll(clean, req.TripCode(), origin, plans), SaveDraft(s, req).value);
  }

  lemma {:induction false} StopsDoNotMatter(s: State, r: State)
    requires r == s.(stops := r.stops)
    ensures Inv(r) <==> Inv(s)
  {
  }

  lemma {:induction false} SaveDraftUnsafe(s: State, req: Request)
    requires Inv(s) && Sensible(s, req) && SaveDraft(s, req).Ok? && !DraftCovered(s, req)
    ensures !Inv(SaveDraft(s, req).value)
  {
    hide SaveDraft, PlanAll, ReserveAll, Reserved, Stock, Requested, Holds, ActingHub;
    var clean, plans, origin := DraftSaved(s, req);
    DraftDiscarded(s, req);
    PlansFit(clean, req, plans, false);
    var k :| 0 <= k < |req.found| && !Reservable(s, req, req.found[k], origin);
    ReservableClean(s, req, clean, req.found[k], origin);
    ReserveBeyondStock(clean, req.TripCode(), origin, plans, k);
  }

  /**
   * An accepted draft keeps the invariant exactly when every dispatching hub has ledger rows for its order, and the
   * hub that stands in for an unknown one has the goods free.
   */
  lemma {:induction false} SaveDraftKeepsInv(s: State, req: Request)
    requires Inv(s) && Sensible(s, req) && SaveDraft(s, req).Ok?
    ensures Inv(SaveDraft(s, req).value) <==> DraftCovered(s, req)
  {
    hide Inv, SaveDraft, DraftCovered;
    if DraftCovered(s, req) {
      SaveDraftSafe(s, req);
    } else {
      SaveDraftUnsafe(s, req);
    }
  }

  // ----- confirmOutbound -----------------------------------------------------------------------

  lemma {:induction false} DispatchAccepted(s: State, req: Request) returns (clean: State, plans: seq<Plan>)
    requires Inv(s) && Sensible(s, req) && Confirm(s, req).Ok?
    ensures DiscardDraft(s, req) == Ok(clean) && FoundIn(clean, req)
    ensures PlanAll(clean, req, Alone(req.found), true) == Ok(plans)
    ensures |req.found| > 0
    ensures forall i :: 0 <= i < |plans| ==> plans[i].order in clean.orders
    ensures Confirm(s, req).value == DispatchAll(clean, req.TripCode(), plans).(stops := Confirm(s, req).value.stops)
  {
    hide Discard;
    GatherAlone(s, req.found, {});
    clean := DiscardDraft(s, req).value;
    DraftDiscarded(s, req);
    plans := PlanAll(clean, req, Alone(req.found), true).value;
    forall i | 0 <= i < |plans| ensures plans[i].order in clean.orders {
      PlanIsFitting(clean, req, req.found[i], true);
    }
  }

  lemma {:induction false} StockAfterDispatch(s: State, c: Code, plans: seq<Plan>, o: OrderId, h: Option<HubId>)
    requires DistinctOrders(plans)
    requires forall i :: 0 <= i < |plans| ==> plans[i].order in s.orders
    ensures forall k :: 0 <= k < |plans| && plans[k].order == o && plans[k].hub == h ==>
      Stock(DispatchAll(s, c, plans).ledger, o, h) == Stock(s.ledger, o, h) - plans[k].qty
    ensures (forall k :: 0 <= k < |plans| ==> plans[k].order != o) ==>
      Stock(DispatchAll(s, c, plans).ledger, o, h) == Stock(s.ledger, o, h)
    decreases |plans|
  {
    hide Reserved, Stock, Inbound, Dispatched, Moving, DispatchedVia, AfterDispatch, Sum;
    if |plans| > 0 {
      var n := |plans| - 1;
      var before := DispatchAll(s, c, plans[..n]);
      StockAfterDispatch(s, c, plans[..n], o, h);
      assert forall i :: 0 <= i < n ==> plans[..n][i] == plans[i];
      LedgerAppended(before.ledger, DispatchTx(c, plans[n], |before.lines|));
    }
  }

  lemma {:induction false} ReservedAfterDispatch(s: State, c: Code, plans: seq<Plan>)
    requires forall i :: 0 <= i < |plans| ==> plans[i].order in s.orders
    ensures forall x: OrderId, g: HubId, e ::
      Reserved(DispatchAll(s, c, plans).lines, x, g, e) == Reserved(s.lines, x, g, e)
    decreases |plans|
  {
    hide Reserved, Moving, AfterDispatch, Sum;
    if |plans| > 0 {
      var n := |plans| - 1;
      ReservedAfterDispatch(s, c, plans[..n]);
      LineAppended(DispatchAll(s, c, plans[..n]).lines, DispatchedLine(c, plans[n]));
    }
  }

  lemma {:induction false} DispatchBeyondStock(s: State, c: Code, plans: seq<Plan>, k: nat)
    requires DistinctOrders(plans) && k < |plans| && 0 < plans[k].qty
    requires IsLive(s.orders, plans[k].order) && !DraftLike(s.orders[plans[k].order].status)
    requires forall i :: 0 <= i < |plans| ==> plans[i].order in s.orders
    requires !Ships(s, plans[k])
    ensures !Covered(DispatchAll(s, c, plans).ledger, DispatchAll(s, c, plans).lines)
  {
    hide Reserved, Stock, DispatchAll;
    var r, o, h := DispatchAll(s, c, plans), plans[k].order, plans[k].hub;
    StockAfterDispatch(s, c, plans, o, h);
    ReservedAfterDispatch(s, c, plans);
    if h.Some? {
      assert Reserved(r.lines, o, h.value, None) > Stock(r.ledger, o, h);
    } else {
      assert Stock(r.ledger, o, None) < 0;
    }
  }

  lemma {:induction false} DispatchSafe(s: State, req: Request, clean: State, plans: seq<Plan>)
    requires Inv(s) && Sensible(s, req) && DispatchCovered(s, req)
    requires DiscardDraft(s, req) == Ok(clean) && FoundIn(clean, req)
    requires PlanAll(clean, req, Alone(req.found), true) == Ok(plans)
    requires forall i :: 0 <= i < |plans| ==> plans[i].order in clean.orders
    ensures Inv(DispatchAll(clean, req.TripCode(), plans))
  {
    hide Inv, PlanAll, Discard, Reserved, Stock, Requested, Ships, ActingHub, DispatchAll;
    DraftDiscarded(s, req);
    PlansFit(clean, req, plans, true);
    forall i | 0 <= i < |plans| ensures Ships(clean, plans[i]) {
      ReservableClean(s, req, clean, req.found[i], None);
    }
    DispatchAllKeepsInv(clean, req.TripCode(), plans);
  }

  lemma {:induction false} DispatchUnsafe(s: State, req: Request, clean: State, plans: seq<Plan>)
    requires Inv(s) && Sensible(s, req) && !DispatchCovered(s, req)
    requires DiscardDraft(s, req) == Ok(clean) && FoundIn(clean, req)
    requires PlanAll(clean, req, Alone(req.found), true) == Ok(plans)
    requires forall i :: 0 <= i < |plans| ==> plans[i].order in clean.orders
    ensures !Inv(DispatchAll(clean, req.TripCode(), plans))
  {
    hide PlanAll, Discard, Reserved, Stock, Requested, Ships, ActingHub, DispatchAll;
    DraftDiscarded(s, req);
    PlansFit(clean, req, plans, true);
    var k :| 0 <= k < |req.found| && !Shippable(s, req, req.found[k]);
    ReservableClean(s, req, clean, req.found[k], None);
    DispatchBeyondStock(clean, req.TripCode(), plans, k);
  }

  /**
   * An accepted dispatch keeps the invariant exactly when every dispatching hub has ledger rows for its order, and
   * goods that leave from nowhere are in the bucket without a hub.
   */
  lemma {:induction false} ConfirmKeepsInv(s: State, req: Request)
    requires Inv(s) && Sensible(s, req) && Confirm(s, req).Ok?
    ensures Inv(Confirm(s, req).value) <==> DispatchCovered(s, req)
  {
    hide Inv, Confirm, DispatchCovered, PlanAll, DiscardDraft;
    var clean, plans := DispatchAccepted(s, req);
    var gone := DispatchAll(clean, req.TripCode(), plans);
    if DispatchCovered(s, req) {
      DispatchSafe(s, req, clean, plans);
    } else {
      DispatchUnsafe(s, req, clean, plans);
    }
    StopsDoNotMatter(gone, Confirm(s, req).value);
  }

  lemma {:induction false} CancelKeepsInv(s: State, c: Code, userHub: Option<HubId>)
    requires Inv(s) && CancelDraft(s, c, userHub).Ok?
    ensures Inv(CancelDraft(s, c, userHub).value)
  {
    DiscardKeepsInv(s, c, userHub);
  }
}
