/** Whole runs of the warehouse: every sequence of requests from an empty database. */
module Runs {
  import opened Basics
  import opened Sums
  import opened Model
  import opened Consolidation
  import opened Intake
  import opened Dispatch
  import opened Receiving
  import opened BatchIntake
  import opened BatchLaws
  import opened Invariant
  import opened OutboundLaws
  import opened RequestLaws
  import opened RollbackLaws
  import opened InboundLaws
  import opened ReceiptLaws
  import opened Partition
  import RoundTrip

  datatype Step =
    | Arrive(item: Arrival, hub: Option<HubId>, trip: Option<Code>)
    | ArriveAll(items: seq<Parcel>, hub: Option<HubId>, vehicle: Code)
    | Count(tally: Tally)
    | Draft(req: Request)
    | Send(req: Request)
    | Cancel(code: Code, userHub: Option<HubId>)
    | Reopen(code: Code, opHub: Option<HubId>)

  function Kept(s: State, r: Result<State>): State {
    if r.Ok? then r.value else s
  }

  /** Each service call is one transaction: it succeeds or leaves the database as it was. */
  function Apply(s: State, step: Step): State {
    match step
    case Arrive(item, hub, trip) => QuickCreate(s, item, hub, trip)
    case ArriveAll(items, hub, trip) => Kept(s, BatchCreate(s, items, hub, trip))
    case Count(t) => Kept(s, Receive(s, t))
    case Draft(req) => if FoundIn(s, req) then Kept(s, SaveDraft(s, req)) else s
    case Send(req) => if FoundIn(s, req) then Kept(s, Confirm(s, req)) else s
    case Cancel(c, userHub) => Kept(s, CancelDraft(s, c, userHub))
    case Reopen(c, hub) => if RollsBackOutbound(s, c, hub) then RollbackOutbound(s, c, hub) else s
  }

  /** Neither a live line nor a live stop carries the code: rollbackTrip answers NotFound. */
  predicate UnknownTrip(s: State, c: Code) {
    !HasLine(s.lines, c) && forall k :: k in s.stops && k.0 == c ==> !s.stops[k].live
  }

  /**
   * What the services take for granted about a call they accept; a refused call changes nothing and is always
   * admissible. The conditions are exact for arrivals, batches, drafts, dispatches and roll-backs, and row by row for
   * receipts: see IntakeKeepsInv, BatchKeepsInv, SaveDraftKeepsInv, ConfirmKeepsInv, RollbackKeepsInv and RowKeepsInv.
   * A roll-back of a trip that takes the inbound branch is no step of the model.
   */
  ghost predicate Admissible(s: State, step: Step) {
    match step
    case Arrive(_, _, trip) => Unplanned(s.lines, trip)
    case ArriveAll(items, hub, trip) =>
      BatchCreate(s, items, hub, trip).Ok? ==>
        !HasPlan(s.lines, trip) && forall i :: 0 <= i < |items| ==> Looked(s, items, items[i].item.code)
    case Count(t) =>
      Receive(s, t).Ok? ==>
        Unplanned(s.lines, t.trip) && Unplanned(s.lines, t.plateCode) &&
        RowsSafe(Progress(s, t.trip, [], []), t, |t.rows|)
    case Draft(req) => FoundIn(s, req) && SaveDraft(s, req).Ok? ==> Sensible(s, req) && DraftCovered(s, req)
    case Send(req) => FoundIn(s, req) && Confirm(s, req).Ok? ==> Sensible(s, req) && DispatchCovered(s, req)
    case Cancel(_, _) => true
    case Reopen(c, hub) =>
      if RollsBackOutbound(s, c, hub) then HasOutboundLine(s.lines, c) ==> Reopenable(s, c, hub) else UnknownTrip(s, c)
  }

  function Run(s: State, steps: seq<Step>): State
    decreases |steps|
  {
    if |steps| == 0 then s else Apply(Run(s, steps[..|steps| - 1]), steps[|steps| - 1])
  }

  ghost predicate AdmissibleRun(s: State, steps: seq<Step>)
    decreases |steps|
  {
    |steps| == 0 ||
    (AdmissibleRun(s, steps[..|steps| - 1]) && Admissible(Run(s, steps[..|steps| - 1]), steps[|steps| - 1]))
  }

  // ----- Totals --------------------------------------------------------------------------------

  lemma {:induction false} DispatchSized(s: State, c: Code, plans: seq<Plan>)
    requires Sized(s.orders) && forall i :: 0 <= i < |plans| ==> plans[i].order in s.orders
    ensures Sized(DispatchAll(s, c, plans).orders)
    decreases |plans|
  {
    if |plans| > 0 {
      DispatchSized(s, c, plans[..|plans| - 1]);
    }
  }

  lemma {:induction false} ReopenSized(s: State, c: Code, hub: Option<HubId>)
    requires Inv(s) && Sized(s.orders)
    ensures Sized(RollbackOutbound(s, c, hub).orders)
  {
    forall o | IsLive(RollbackOutbound(s, c, hub).orders, o)
      ensures var r := RollbackOutbound(s, c, hub).orders[o]; 0 < r.total && r.inbound <= r.total
    {
      OrderPutBack(s, c, hub, o);
    }
  }

  lemma {:induction false} PlanSized(s: State, req: Request)
    requires Inv(s) && Sized(s.orders) && Sensible(s, req) && SaveDraft(s, req).Ok?
    ensures Sized(SaveDraft(s, req).value.orders)
  {
    hide Inv, SaveDraft, Sized, PlanAll;
    var clean, plans, origin := DraftSaved(s, req);
    DraftDiscarded(s, req);
    RoundTrip.ReserveAllShape(clean, req.TripCode(), origin, plans);
  }

  lemma {:induction false} SendSized(s: State, req: Request)
    requires Inv(s) && Sized(s.orders) && Sensible(s, req) && Confirm(s, req).Ok?
    ensures Sized(Confirm(s, req).value.orders)
  {
    hide Inv, Confirm, Sized, PlanAll;
    var clean, plans := DispatchAccepted(s, req);
    DraftDiscarded(s, req);
    DispatchSized(clean, req.TripCode(), plans);
  }

  // ----- One step ------------------------------------------------------------------------------

  ghost predicate Sound(s: State) {
    Inv(s) && Sized(s.orders)
  }

  lemma {:induction false} PlanStep(s: State, req: Request)
    requires Sound(s) && Sensible(s, req) && DraftCovered(s, req) && SaveDraft(s, req).Ok?
    ensures Sound(SaveDraft(s, req).value)
  {
    hide Inv, SaveDraft, Sized, DraftCovered;
    SaveDraftSafe(s, req);
    PlanSized(s, req);
  }

  lemma {:induction false} SendStep(s: State, req: Request)
    requires Sound(s) && Sensible(s, req) && DispatchCovered(s, req) && Confirm(s, req).Ok?
    ensures Sound(Confirm(s, req).value)
  {
    hide Inv, Confirm, Sized, DispatchCovered;
    ConfirmKeepsInv(s, req);
    SendSized(s, req);
  }

  lemma {:induction false} StepKeepsInv(s: State, step: Step)
    requires Sound(s) && Admissible(s, step)
    ensures Sound(Apply(s, step))
  {
    hide Inv, SaveDraft, Confirm, Receive, QuickCreate, BatchCreate, RollbackOutbound, CancelDraft, Sized, RowsSafe,
        RollsBackOutbound, DraftCovered, DispatchCovered, Sensible;
    match step
    case Arrive(item, hub, trip) =>
      IntakeKeepsInv(s, item, hub, trip);
      ArrivalSized(s, item, hub, trip);
    case ArriveAll(items, hub, trip) =>
      if BatchCreate(s, items, hub, trip).Ok? { BatchKeepsInv(s, items, hub, trip); }
    case Count(t) =>
      if Receive(s, t).Ok? { ReceiveKeepsInv(s, t); }
    case Draft(req) =>
      if FoundIn(s, req) && SaveDraft(s, req).Ok? { PlanStep(s, req); }
    case Send(req) =>
      if FoundIn(s, req) && Confirm(s, req).Ok? { SendStep(s, req); }
    case Cancel(c, userHub) =>
      if CancelDraft(s, c, userHub).Ok? { CancelStep(s, c, userHub); }
    case Reopen(c, hub) =>
      RollbackKeepsInv(s, c, hub);
      ReopenSized(s, c, hub);
  }

  lemma {:induction false} CancelStep(s: State, c: Code, userHub: Option<HubId>)
    requires Sound(s) && CancelDraft(s, c, userHub).Ok?
    ensures Sound(CancelDraft(s, c, userHub).value)
  {
    CancelKeepsInv(s, c, userHub);
  }

  /** Every state any run can reach satisfies the invariant. */
  lemma {:induction false} RunKeepsInv(s: State, steps: seq<Step>)
    requires Sound(s) && AdmissibleRun(s, steps)
    ensures Sound(Run(s, steps))
    decreases |steps|
  {
    if |steps| > 0 {
      RunKeepsInv(s, steps[..|steps| - 1]);
      StepKeepsInv(Run(s, steps[..|steps| - 1]), steps[|steps| - 1]);
    }
  }

  lemma {:induction false} Reachable(steps: seq<Step>) returns (s: State)
    requires AdmissibleRun(EMPTY, steps)
    ensures s == Run(EMPTY, steps) && Sound(s)
  {
    EmptyHolds();
    RunKeepsInv(EMPTY, steps);
    s := Run(EMPTY, steps);
  }

  // ----- What it means -------------------------------------------------------------------------

  /** The cached quantities of every order are the sums of its live ledger rows; a draft has none. */
  lemma {:induction false} CachesMatchLedger(steps: seq<Step>, o: OrderId)
    requires AdmissibleRun(EMPTY, steps) && IsLive(Run(EMPTY, steps).orders, o)
    ensures var s := Run(EMPTY, steps); var order := s.orders[o];
      order.inbound == Inbound(s.ledger, o) && order.outbound == Dispatched(s.ledger, o) &&
      order.remaining == order.inbound - order.outbound &&
      (DraftLike(order.status) ==> order.inbound == 0 && order.outbound == 0) &&
      0 <= order.outbound && 0 <= order.remaining && order.inbound <= order.total
  {
    var s := Reachable(steps);
    SyncedAt(s, o);
    StockWithinRemaining(s, o, None);
    DispatchedNonNegative(s, o);
  }

  /** What is promised to outbound trips never exceeds the stock of the hub they leave from. */
  lemma {:induction false} NeverOverAllocated(steps: seq<Step>, o: OrderId, h: HubId)
    requires AdmissibleRun(EMPTY, steps)
    ensures var s := Run(EMPTY, steps);
      0 <= Reserved(s.lines, o, h, None) <= Stock(s.ledger, o, Some(h)) && 0 <= Stock(s.ledger, o, None)
  {
    var s := Reachable(steps);
    ReservedNonNegative(s, o, h, None);
    assert Covered(s.ledger, s.lines);
  }

  /** The hub stocks of a live order add up to its remaining quantity, and no hub holds more than that. */
  lemma {:induction false} HubsPartitionRemaining(steps: seq<Step>, o: OrderId, hubs: seq<Option<HubId>>)
    requires AdmissibleRun(EMPTY, steps) && IsLive(Run(EMPTY, steps).orders, o)
    requires NoDuplicates(hubs) && CoversHubs(Run(EMPTY, steps).ledger, o, hubs)
    ensures var s := Run(EMPTY, steps);
      Sum(hubs, HubStocks(s.ledger, o)) == s.orders[o].remaining &&
      forall h :: 0 <= Stock(s.ledger, o, h) <= s.orders[o].remaining
  {
    var s := Reachable(steps);
    SyncedAt(s, o);
    HubStocksAddUp(s.ledger, o, hubs);
    forall h ensures 0 <= Stock(s.ledger, o, h) <= s.orders[o].remaining {
      StockNonNegative(s, o, h);
      StockWithinRemaining(s, o, h);
    }
  }

  /** No trip code is both reserved and dispatched (or received): each unit is counted once. */
  lemma {:induction false} ReservedOrDispatched(steps: seq<Step>, c: Code, i: nat, j: nat)
    requires AdmissibleRun(EMPTY, steps)
    requires i < |Run(EMPTY, steps).lines| && j < |Run(EMPTY, steps).ledger|
    requires IsPlanned(Run(EMPTY, steps).lines[i]) && Run(EMPTY, steps).ledger[j].live
    ensures Run(EMPTY, steps).lines[i].trip.Some? && Run(EMPTY, steps).lines[i].trip != Run(EMPTY, steps).ledger[j].trip
  {
    var s := Reachable(steps);
    assert LineOk(s.lines[i], s.ledger, s.nextOrder);
    assert HasPlan(s.lines, s.lines[i].trip.value);
  }

  /** Consolidation never finds anything to merge, whichever order triggers it. */
  lemma {:induction false} ConsolidationIdle(steps: seq<Step>, o: OrderId)
    requires AdmissibleRun(EMPTY, steps) && IsLive(Run(EMPTY, steps).orders, o)
    ensures Consolidate(Run(EMPTY, steps), o) == Run(EMPTY, steps)
  {
    var s := Reachable(steps);
    ConsolidateAlone(s, o);
  }

  /** The clamps of confirmOutbound change nothing: no plan takes more than the order or its hub has. */
  lemma {:induction false} DispatchUnclamped(s: State, req: Request, plans: seq<Plan>, i: nat)
    requires Sound(s) && Sensible(s, req) && DispatchCovered(s, req) && DiscardDraft(s, req).Ok?
    requires FoundIn(DiscardDraft(s, req).value, req)
    requires PlanAll(DiscardDraft(s, req).value, req, Alone(req.found), true) == Ok(plans) && i < |plans|
    ensures plans[i].order in s.orders && 0 < plans[i].qty <= plans[i].available <= s.orders[plans[i].order].remaining
  {
    hide Inv, PlanAll, Ships, Reserved, Stock, Inbound, Dispatched;
    var clean := DiscardDraft(s, req).value;
    DraftDiscarded(s, req);
    PlansFit(clean, req, plans, true);
    PlanWithinRemaining(clean, req, req.found[i]);
  }

  lemma {:induction false} PlanWithinRemaining(s: State, req: Request, o: OrderId)
    requires Inv(s) && IsLive(s.orders, o) && !DraftLike(s.orders[o].status)
    requires PlanOne(s, req, Target(o, [o]), true).Ok?
    requires ActingHub(s, req.userHub, o).Some? ==> HasRows(s.ledger, o, ActingHub(s, req.userHub, o))
    ensures var p := PlanOne(s, req, Target(o, [o]), true).value; 0 < p.qty <= p.available <= s.orders[o].remaining
  {
    hide Inv, Reserved, Stock, Inbound, Dispatched, IsDirect, DispatchRoute, MergeItems;
    var h := ActingHub(s, req.userHub, o);
    StockWithinRemaining(s, o, h);
    SyncedAt(s, o);
    if h.Some? { ReservedWithin(s, o, h.value, req.draftCode); }
  }

  lemma {:induction false} ReservedWithin(s: State, o: OrderId, h: HubId, except: Option<Code>)
    requires Inv(s)
    ensures 0 <= Reserved(s.lines, o, h, except)
  {
    ReservedNonNegative(s, o, h, except);
  }

  /** A draft order has nothing to reserve: no outbound draft can name one. */
  lemma {:induction false} DraftsStayHome(s: State, req: Request, i: nat)
    requires Sound(s) && Sensible(s, req) && i < |req.found| && DraftLike(s.orders[req.found[i]].status)
    ensures SaveDraft(s, req).Err? && Confirm(s, req).Err?
  {
    hide Inv, PlanOne, Gather, ReserveAll, DispatchAll, Discard;
    if DiscardDraft(s, req).Ok? {
      var clean := DiscardDraft(s, req).value;
      DraftDiscarded(s, req);
      DraftRefused(clean, req, i, false);
      RowsTold(clean);
      GatherAlone(clean, req.found, {});
    }
    RowsTold(s);
    GatherAlone(s, req.found, {});
    assert Alone(req.found)[i].order == req.found[i];
  }

  lemma {:induction false} RowsTold(s: State)
    requires Inv(s)
    ensures UniqueCodes(s.orders) && RowsOk(s)
  {
  }

  lemma {:induction false} DraftRefused(s: State, req: Request, i: nat, leaving: bool)
    requires Inv(s) && FoundIn(s, req) && i < |req.found| && DraftLike(s.orders[req.found[i]].status)
    requires forall o: OrderId, h: HubId :: Reserved(s.lines, o, h, req.draftCode) == Reserved(s.lines, o, h, None)
    ensures PlanAll(s, req, Alone(req.found), leaving).Err?
  {
    if PlanOne(s, req, Target(req.found[i], [req.found[i]]), leaving).Ok? {
      PlanIsFitting(s, req, req.found[i], leaving);
    } else {
      assert Alone(req.found)[i] == Target(req.found[i], [req.found[i]]);
    }
  }
}
