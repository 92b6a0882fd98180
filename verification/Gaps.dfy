/**
 * Concrete inputs: where the services break the invariant (the general conditions are proved beside each step), and a
 * run through the whole outbound cycle.
 */
module Gaps {
  import opened Basics
  import opened Sums
  import opened Model
  import opened Consolidation
  import opened Intake
  import opened Dispatch
  import opened Receiving
  import opened Invariant
  import opened RequestLaws
  import opened InboundLaws
  import opened ReceiptLaws
  import opened Runs
  import RoundTrip
  import Transfers
  import TransferRuns

  const FIVE := Arrival("A", INBOUND, Some(5), None, None, None)

  /** Five units of one order, received at hub 1. */
  function Stocked(): State {
    QuickCreate(EMPTY, FIVE, Some(1), None)
  }

  const ORDER := Order("A", INBOUND, 5, 5, 0, 5, Load(0.0, 0.0), Some(1), Some(1), None, None, true)
  const RECEIPT := Tx(0, InboundTx, Some(1), None, None, 5, Some(5), 0, 5, true)

  lemma {:induction false} StockedIs()
    ensures Stocked() == State(map[0 := ORDER], 1, [RECEIPT], [], map[]) && Sound(Stocked())
  {
    assert Siblings(map[], "A", 0) == [];
    EmptyHolds();
    IntakeKeepsInv(EMPTY, FIVE, Some(1), None);
    ArrivalSized(EMPTY, FIVE, Some(1), None);
  }

  /** An item without quantity or destination for order 0, sent by a user of the given hub under a new code. */
  function Wanted(userHub: HubId, draft: Option<Code>): Request {
    Request([Item(0, Some(5), None, Unspecified)], [0], false, None, draft, "T", Some(userHub))
  }

  lemma {:induction false} Planned(hub: HubId)
    ensures PlanOne(Stocked(), Wanted(hub, None), Target(0, [0]), false) ==
        Ok(Plan(0, Some(hub), 5, 5, false, None))
  {
    StockedIs();
    var s, req := Stocked(), Wanted(hub, None);
    assert Matching(req.items, [0]) == req.items by {
      assert req.items[..0] == [];
      assert 0 in [0];
    }
    assert Reserved([], 0, hub, None) == 0;
    if hub == 1 {
      assert s.ledger[0] == RECEIPT;
      assert HasRows(s.ledger, 0, Some(1));
      assert s.ledger[..0] == [];
      assert Stock(s.ledger, 0, Some(1)) == 5;
    } else {
      assert !HasRows(s.ledger, 0, Some(hub));
    }
  }

  lemma {:induction false} DraftAccepted(hub: HubId)
    ensures FoundIn(Stocked(), Wanted(hub, None)) && SaveDraft(Stocked(), Wanted(hub, None)).Ok?
    ensures Sensible(Stocked(), Wanted(hub, None))
  {
    hide Inv, PlanOne, PlanAll, QuickCreate, Gather, RowsOk, UniqueCodes, Reserved, Route, ReserveAll;
    StockedIs();
    var s, req := Stocked(), Wanted(hub, None);
    RowsTold(s);
    GatherAlone(s, [0], {});
    assert Alone([0]) == [Target(0, [0])];
    Planned(hub);
    RoundTrip.PlanAllFrom(s, req, Alone([0]), false, [Plan(0, Some(hub), 5, 5, false, None)]);
  }

  /** Hub 2 has no row of the order, so the whole cached quantity is offered there a second time. */
  lemma {:induction false} OverAllocatedWithoutRows()
    ensures var s, req := Stocked(), Wanted(2, None);
      Sound(s) && Sensible(s, req) && SaveDraft(s, req).Ok? && !HubsHoldRows(s, req) && !Inv(SaveDraft(s, req).value)
  {
    hide SaveDraft, QuickCreate, Inv, Sensible;
    StockedIs();
    DraftAccepted(2);
    assert ActingHub(Stocked(), Wanted(2, None).userHub, Wanted(2, None).found[0]) == Some(2);
    assert !HasRows(Stocked().ledger, 0, Some(2));
    SaveDraftKeepsInv(Stocked(), Wanted(2, None));
  }

  /** One row announcing minus three units is stored with a cached quantity that no invoice carries. */
  lemma {:induction false} NegativeTotalAccepted()
    ensures var row := Row(None, None, "", "B", None, Some(-3), None, None, None, None, None, None);
      var g := Progress(EMPTY, None, [], []); var t := Tally([row], Some(1), None, None, false, false);
      ReceiveRow(g, row, t).Ok? && !Inv(ReceiveRow(g, row, t).value.s)
  {
    var row := Row(None, None, "", "B", None, Some(-3), None, None, None, None, None, None);
    EmptyHolds();
    NewRowUnsafe(Progress(EMPTY, None, [], []), row, Tally([row], Some(1), None, None, false, false));
  }

  // ----- A run that uses the whole outbound cycle ----------------------------------------------

  const CYCLE := [Arrive(FIVE, Some(1), None), Draft(Wanted(1, None)), Send(Wanted(1, Some("T"))), Reopen("T", Some(1))]

  lemma {:induction false} CyclePrefixes()
    ensures CYCLE[..0] == [] && CYCLE[..1] == [CYCLE[0]] && CYCLE[..2] == CYCLE[..1] + [CYCLE[1]]
    ensures CYCLE[..3] == CYCLE[..2] + [CYCLE[2]] && CYCLE[..4] == CYCLE == CYCLE[..3] + [CYCLE[3]]
  {
  }

  lemma {:induction false} RunSnoc(s: State, steps: seq<Step>, step: Step)
    ensures Run(s, steps + [step]) == Apply(Run(s, steps), step)
    ensures AdmissibleRun(s, steps + [step]) <==> AdmissibleRun(s, steps) && Admissible(Run(s, steps), step)
  {
    hide Apply, Admissible;
    assert (steps + [step])[..|steps|] == steps;
  }

  lemma {:induction false} HubOneHoldsRows(s: State, draft: Option<Code>)
    requires FoundIn(s, Wanted(1, draft)) && s.ledger == [RECEIPT]
    ensures HubsHoldRows(s, Wanted(1, draft))
  {
    assert s.ledger[0] == RECEIPT;
  }

  /** Receive, plan, send and re-open: every step is admissible and accepted, so the theorems about runs speak of it. */
  lemma {:induction false} CycleIsRun()
    ensures AdmissibleRun(EMPTY, CYCLE)
    ensures var s := Run(EMPTY, CYCLE[..1]); var planned := Run(EMPTY, CYCLE[..2]); var gone := Run(EMPTY, CYCLE[..3]);
      FoundIn(s, Wanted(1, None)) && SaveDraft(s, Wanted(1, None)) == Ok(planned) &&
      FoundIn(planned, Wanted(1, Some("T"))) && Confirm(planned, Wanted(1, Some("T"))) == Ok(gone) &&
      RoundTrip.SameBooks(planned, Run(EMPTY, CYCLE))
  {
    hide SaveDraft, Confirm, QuickCreate, RollbackOutbound, Inv, Sized, Gather, PlanAll, RoundTrip.SameBooks;
    hide RoundTrip.Saved, RoundTrip.Resumes, RoundTrip.Resumed;
    CyclePrefixes();
    StockedIs();
    DraftAccepted(1);
    var s, x, y := Stocked(), Wanted(1, None), Wanted(1, Some("T"));
    RunSnoc(EMPTY, [], CYCLE[0]);
    RunSnoc(EMPTY, CYCLE[..1], CYCLE[1]);
    RunSnoc(EMPTY, CYCLE[..2], CYCLE[2]);
    RunSnoc(EMPTY, CYCLE[..3], CYCLE[3]);
    HubOneHoldsRows(s, None);
    var planned := SaveDraft(s, x).value;
    TransferRuns.PlanHonest(s, x);
    var clean, plans, origin, left, loaded := RoundTrip.Travelled(s, x, planned, y, Some(1));
    HubOneHoldsRows(planned, Some("T"));
    RoundTrip.RollbackUndoesConfirm(s, x, planned, y, Some(1));
  }

  // ----- A run with goods on a trip ------------------------------------------------------------

  /** Three of the five units, from hub 1 to hub 2. */
  const SHIPMENT := Request([Item(0, Some(3), Some(2), HubLevel1)], [0], true, Some(2), None, "T", Some(1))

  /** Hub 2 counts four where three were on the way. */
  const TALLY := Tally(
    [Row(Some(0), None, "", "B", Some(4), None, None, None, None, None, None, None)],
    Some(2), Some("T"), None, false, false)

  const MOVES := [Arrive(FIVE, Some(1), None), Send(SHIPMENT), Count(TALLY)]

  const LOADED := Plan(0, Some(1), 3, 5, true, Some(2))
  const LOADING := Tx(0, TransferTx, Some(1), Some("T"), Some(0), 3, Some(3), 0, 2, true)
  const ONBOARD := Line(0, Some("T"), Some(1), Some(2), TransferLine, LineInTransit, Some(3), true)
  const LEFT := ORDER.(outbound := 3, remaining := 2, currentTrip := Some("T"))
  const UNLOADING := Tx(0, InboundTx, Some(2), Some("T"), Some(0), 4, Some(3), 1, 6, true)

  lemma {:induction false} ShipmentPlanned()
    ensures PlanOne(Stocked(), SHIPMENT, Target(0, [0]), true) == Ok(LOADED)
  {
    StockedIs();
    var s := Stocked();
    assert Matching(SHIPMENT.items, [0]) == SHIPMENT.items by {
      assert SHIPMENT.items[..0] == [];
      assert 0 in [0];
    }
    assert Reserved([], 0, 1, None) == 0;
    assert s.ledger[0] == RECEIPT;
    assert HasRows(s.ledger, 0, Some(1));
    assert s.ledger[..0] == [];
    assert Stock(s.ledger, 0, Some(1)) == 5;
  }

  lemma {:induction false} ShipmentSent() returns (stops: map<(Code, HubId), Stop>)
    ensures FoundIn(Stocked(), SHIPMENT) && Sensible(Stocked(), SHIPMENT) && DispatchCovered(Stocked(), SHIPMENT)
    ensures Confirm(Stocked(), SHIPMENT) == Ok(State(map[0 := LEFT], 1, [RECEIPT, LOADING], [ONBOARD], stops))
  {
    hide Inv, PlanOne, PlanAll, Gather, Confirm, Route, RowsOk, UniqueCodes, DispatchAll, HasRows, Stocked;
    StockedIs();
    var s := Stocked();
    assert HasRows(s.ledger, 0, Some(1)) by { ReceiptAtOne(s.ledger); }
    assert Alone([0]) == [Target(0, [0])];
    ShipmentPlanned();
    RoundTrip.PlanAllFrom(s, SHIPMENT, Alone([0]), true, [LOADED]);
    RoundTrip.ConfirmFrom(s, SHIPMENT, s, [LOADED]);
    var clean, plans := DispatchAccepted(s, SHIPMENT);
    ShipmentTables(s);
    stops := Confirm(s, SHIPMENT).value.stops;
  }

  lemma {:induction false} ReceiptAtOne(l: seq<Tx>)
    requires l == [RECEIPT]
    ensures HasRows(l, 0, Some(1))
  {
    assert l[0] == RECEIPT;
  }

  lemma {:induction false} ShipmentTables(s: State)
    requires s == State(map[0 := ORDER], 1, [RECEIPT], [], map[])
    ensures DispatchAll(s, "T", [LOADED]) == State(map[0 := LEFT], 1, [RECEIPT, LOADING], [ONBOARD], map[])
  {
    assert [LOADED][..0] == [];
    assert DispatchAll(s, "T", []) == s;
  }

  lemma {:induction false} SumUpToThree(a: Tx, b: Tx, c: Tx, f: Tx -> int)
    ensures Sum([a], f) == f(a) && Sum([a, b], f) == f(a) + f(b) && Sum([a, b, c], f) == f(a) + f(b) + f(c)
  {
    assert [a, b, c][..2] == [a, b] && [a, b][..1] == [a] && [a][..0] == [];
  }

  lemma {:induction false} TripRows()
    ensures Loaded([RECEIPT], 0, "T") == 0
    ensures Loaded([RECEIPT, LOADING], 0, "T") == 3 && Received([RECEIPT, LOADING], 0, "T") == 0
    ensures Loaded([RECEIPT, LOADING, UNLOADING], 0, "T") == 3 && Received([RECEIPT, LOADING, UNLOADING], 0, "T") == 4
  {
    SumUpToThree(RECEIPT, LOADING, UNLOADING, LoadedOn(0, "T"));
    SumUpToThree(RECEIPT, LOADING, UNLOADING, ReceivedOn(0, "T"));
  }

  /** The one row of the count, on the state the shipment left. */
  lemma {:induction false} TallyRow(s: State)
    requires s == State(map[0 := LEFT], 1, [RECEIPT, LOADING], [ONBOARD], s.stops)
    ensures var g := Progress(s, Some("T"), [], []); var row := TALLY.rows[0];
      RowSafe(g, row, TALLY) && TransferRuns.FairRow(g, row, TALLY, 0) && ReceiveRow(g, row, TALLY).Ok? &&
      ReceiveRow(g, row, TALLY).value.s.ledger == [RECEIPT, LOADING, UNLOADING]
  {
    hide Share, Loaded, Received;
    TripRows();
    assert FindRow(s, TALLY.rows[0]) == Some(0);
    assert FirstReceipt(s.ledger, 0, "T", 2, 2) == None;
    assert FirstReceipt(s.ledger, 0, "T", 2, 1) == None;
    assert OnTheWay(s, 0, Some("T")) == Some(3);
    assert FirstLine(s.lines, 0, "T", 0) == Some(0);
  }

  lemma {:induction false} TallyReceived(s: State)
    requires s == State(map[0 := LEFT], 1, [RECEIPT, LOADING], [ONBOARD], s.stops)
    ensures Admissible(s, Count(TALLY)) && TransferRuns.Fair(s, Count(TALLY), 0)
    ensures Receive(s, TALLY).Ok? && Receive(s, TALLY).value.ledger == [RECEIPT, LOADING, UNLOADING]
  {
    hide RowSafe, ReceiveRow, TransferRuns.FairRow, SyncRemoved, CloseStops;
    var g := Progress(s, Some("T"), [], []);
    TallyRow(s);
    assert ReceiveRows(g, TALLY, 0) == Ok(g) && ReceiveRows(g, TALLY, 1) == ReceiveRow(g, TALLY.rows[0], TALLY);
    assert RowsSafe(g, TALLY, 0) && TransferRuns.FairRows(g, TALLY, 0, 0);
    FinishedLedger(ReceiveRows(g, TALLY, 1).value);
  }

  lemma {:induction false} FinishedLedger(g: Progress)
    ensures Finish(g, TALLY).ledger == g.s.ledger
  {
    hide CloseStops, TakeOff, LeftBehind;
    TransferRuns.CloseStopsLedger(g.s, g.codes, 2, false, |g.codes|);
    if g.shared.Some? {
      var synced := SyncRemoved(g.s, g.shared.value, Some(2), g.saved);
      TransferRuns.CloseStopsLedger(synced, g.codes, 2, false, |g.codes|);
    }
  }

  lemma {:induction false} FairSnoc(s: State, steps: seq<Step>, step: Step, o: OrderId)
    ensures TransferRuns.FairRun(s, steps + [step], o) <==>
            TransferRuns.FairRun(s, steps, o) && TransferRuns.Fair(Run(s, steps), step, o)
  {
    hide Apply, TransferRuns.Fair;
    assert (steps + [step])[..|steps|] == steps;
  }

  /** Three admissible, fair steps are an admissible, fair run. */
  lemma {:induction false} ThreeSteps(s0: State, a: Step, s1: State, b: Step, s2: State, c: Step, s3: State, o: OrderId)
    requires Apply(s0, a) == s1 && Apply(s1, b) == s2 && Apply(s2, c) == s3
    requires Admissible(s0, a) && Admissible(s1, b) && Admissible(s2, c)
    requires TransferRuns.Fair(s0, a, o) && TransferRuns.Fair(s1, b, o) && TransferRuns.Fair(s2, c, o)
    ensures AdmissibleRun(s0, [a, b, c]) && TransferRuns.FairRun(s0, [a, b, c], o)
    ensures Run(s0, [a, b]) == s2 && Run(s0, [a, b, c]) == s3
  {
    hide Apply, Admissible, TransferRuns.Fair;
    assert [] + [a] == [a] && [a] + [b] == [a, b] && [a, b] + [c] == [a, b, c];
    assert Run(s0, []) == s0 && AdmissibleRun(s0, []) && TransferRuns.FairRun(s0, [], o);
    RunSnoc(s0, [], a);
    RunSnoc(s0, [a], b);
    RunSnoc(s0, [a, b], c);
    FairSnoc(s0, [], a, o);
    FairSnoc(s0, [a], b, o);
    FairSnoc(s0, [a, b], c, o);
  }

  /**
   * Receive five, send three to hub 2, count four there: every step is admissible, fair and accepted. Three units are
   * on the trip before the count; after it hub 1 holds two, hub 2 four, and one unit is overage.
   */
  lemma {:induction false} MovesIsRun()
    ensures AdmissibleRun(EMPTY, MOVES) && TransferRuns.FairRun(EMPTY, MOVES, 0)
    ensures Run(EMPTY, MOVES[..2]).ledger == [RECEIPT, LOADING] && InTransit([RECEIPT, LOADING], 0, "T") == 3
    ensures var l := Run(EMPTY, MOVES).ledger;
      l == [RECEIPT, LOADING, UNLOADING] && Stock(l, 0, Some(1)) == 2 && Stock(l, 0, Some(2)) == 4 &&
      InTransit(l, 0, "T") == 0 && Transfers.Intaken(l, 0) == 5 && Transfers.Overage(l, 0) == 1
  {
    hide Run, AdmissibleRun, TransferRuns.FairRun, Admissible, TransferRuns.Fair, Sensible, DispatchCovered, Stocked,
        Confirm, Receive, Stock, InTransit, Transfers.Intaken, Transfers.Overage, QuickCreate, Apply;
    ShipmentFair();
    var stops := ShipmentSent();
    var s := State(map[0 := LEFT], 1, [RECEIPT, LOADING], [ONBOARD], stops);
    TallyReceived(s);
    MoveSteps(s);
    ThreeSteps(EMPTY, MOVES[0], Stocked(), MOVES[1], s, MOVES[2], Receive(s, TALLY).value, 0);
    assert MOVES[..2] == [MOVES[0], MOVES[1]];
    MovedSums();
  }

  lemma {:induction false} MoveSteps(s: State)
    requires FoundIn(Stocked(), SHIPMENT) && Confirm(Stocked(), SHIPMENT) == Ok(s) && Receive(s, TALLY).Ok?
    ensures Apply(EMPTY, MOVES[0]) == Stocked() && Apply(Stocked(), MOVES[1]) == s
    ensures Apply(s, MOVES[2]) == Receive(s, TALLY).value
  {
    hide Confirm, Receive, QuickCreate;
  }

  /** The first two steps are admissible and fair. */
  lemma {:induction false} ShipmentFair()
    ensures Admissible(EMPTY, MOVES[0]) && TransferRuns.Fair(EMPTY, MOVES[0], 0)
    ensures Admissible(Stocked(), MOVES[1]) && TransferRuns.Fair(Stocked(), MOVES[1], 0)
  {
    hide Confirm, Sensible, DispatchCovered, QuickCreate, Book;
    var stops := ShipmentSent();
  }

  lemma {:induction false} MovedSums()
    ensures InTransit([RECEIPT, LOADING], 0, "T") == 3
    ensures var l := [RECEIPT, LOADING, UNLOADING];
      Stock(l, 0, Some(1)) == 2 && Stock(l, 0, Some(2)) == 4 && InTransit(l, 0, "T") == 0 &&
      Transfers.Intaken(l, 0) == 5 && Transfers.Overage(l, 0) == 1
  {
    hide Loaded, Received;
    TripRows();
    SumUpToThree(RECEIPT, LOADING, UNLOADING, StockAt(0, Some(1)));
    SumUpToThree(RECEIPT, LOADING, UNLOADING, StockAt(0, Some(2)));
    var one, two, three := [RECEIPT], [RECEIPT, LOADING], [RECEIPT, LOADING, UNLOADING];
    assert one[..0] == [] && two[..1] == one && three[..2] == two;
    assert Transfers.Intaken(one, 0) == 5 && Transfers.Overage(one, 0) == 0;
    assert Transfers.Intaken(two, 0) == 5 && Transfers.Overage(two, 0) == 0;
  }
}
