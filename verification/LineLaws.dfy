/** Consolidation and the trip lines: allocations, reservations and what readers see. */
module LineLaws {
  import opened Basics
  import opened Sums
  import opened Model
  import opened Consolidation
  import opened ConsolidationLaws
  import opened FindOne
  import opened RequestLaws

  /** A choice of lines that looks at neither their order nor their quantity. */
  ghost predicate LineBlind(sel: Line -> bool) {
    forall t: Line, o: OrderId, q: Option<int> :: sel(t.(order := o, qty := q)) == sel(t)
  }

  /** Lines that will be merged are chosen together. */
  ghost predicate Together(ls: seq<Line>, sibs: seq<OrderId>, sel: Line -> bool) {
    forall j, i :: 0 <= j < |ls| && 0 <= i < |ls| && Joins(ls, sibs, j, i) ==> sel(ls[j]) == sel(ls[i])
  }

  function Chosen(sel: Line -> bool): Line -> int {
    (t: Line) => if sel(t) then Allocated(t) else 0
  }

  function AllocatedTo(ls: seq<Line>, o: OrderId, sel: Line -> bool): int {
    Sum(ls, WithKey(LineOwner(), Some(o), Chosen(sel)))
  }

  function GroupAllocated(ls: seq<Line>, ids: seq<OrderId>, sel: Line -> bool): int {
    Sum(Owners(ids), PerKey(ls, LineOwner(), Chosen(sel)))
  }

  /** The first line of a trip is never itself merged away. */
  lemma {:induction false} KeepersStay(ls: seq<Line>, sibs: seq<OrderId>, i: nat)
    requires i < |ls| && Keeper(ls, sibs, i, 0).Some?
    ensures !IsDuplicate(ls, sibs, Keeper(ls, sibs, i, 0).value)
  {
    var k := Keeper(ls, sibs, i, 0).value;
    var first := Keeper(ls, sibs, k, 0);
    assert first.Some? ==> Joins(ls, sibs, first.value, i);
  }

  /** One merge: the keeper's quantity grows by what the duplicate loses. */
  lemma {:induction false} MergeStep(ls: seq<Line>, sibs: seq<OrderId>, n: nat)
    requires 0 < n <= |ls| && Keeper(ls, sibs, n - 1, 0).Some?
    ensures var k := Keeper(ls, sibs, n - 1, 0).value; var done := MergeLines(ls, sibs, n - 1);
      MergeLines(ls, sibs, n) ==
        done[k := done[k].(qty := Some(Allocated(done[k]) + Allocated(ls[n - 1])))]
            [n - 1 := ls[n - 1].(live := false)] &&
      k < n - 1 && Joins(ls, sibs, k, n - 1) && done[k] == ls[k].(qty := done[k].qty) && done[n - 1] == ls[n - 1]
  {
    hide Joins;
    KeepersStay(ls, sibs, n - 1);
  }

  function Weighed(t: Line, sel: Line -> bool, qty: int): int {
    if sel(t) then qty else 0
  }

  /**
   * What n rows of merging add to a choice of lines: a merged-away line's quantity counts as its keeper does from then
   * on, and no longer as itself.
   */
  function Drift(ls: seq<Line>, sibs: seq<OrderId>, n: nat, sel: Line -> bool): int
    requires n <= |ls|
    decreases n
  {
    if n == 0 then 0
    else
      var before := Drift(ls, sibs, n - 1, sel);
      match Keeper(ls, sibs, n - 1, 0)
      case None => before
      case Some(k) =>
        before + Weighed(ls[k], sel, Allocated(ls[n - 1])) - Weighed(ls[n - 1], sel, Allocated(ls[n - 1]))
  }

  lemma {:induction false} DriftStep(ls: seq<Line>, sibs: seq<OrderId>, n: nat, sel: Line -> bool)
    requires 0 < n <= |ls|
    ensures Drift(ls, sibs, n, sel) == Drift(ls, sibs, n - 1, sel) +
      match Keeper(ls, sibs, n - 1, 0)
      case None => 0
      case Some(k) => Weighed(ls[k], sel, Allocated(ls[n - 1])) - Weighed(ls[n - 1], sel, Allocated(ls[n - 1]))
  {
  }

  lemma {:induction false} MergedWeights(keeper: Line, before: Option<int>, duplicate: Line, sibs: seq<OrderId>,
        sel: Line -> bool)
    requires LineBlind(sel) && InGroup(keeper, sibs) && InGroup(duplicate, sibs)
    ensures var f := WithKeys(LineOwner(), Owners(sibs), Chosen(sel)); var k := keeper.(qty := before);
      f(k.(qty := Some(Allocated(k) + Allocated(duplicate)))) + f(duplicate.(live := false)) ==
      f(k) + f(duplicate) + Weighed(keeper, sel, Allocated(duplicate)) - Weighed(duplicate, sel, Allocated(duplicate))
  {
    var k := keeper.(qty := before);
    assert k == keeper.(order := keeper.order, qty := before);
    assert k.(qty := Some(Allocated(k) + Allocated(duplicate))) ==
        keeper.(order := keeper.order, qty := Some(Allocated(k) + Allocated(duplicate)));
  }

  lemma {:induction false} MergeOnce(ls: seq<Line>, sibs: seq<OrderId>, n: nat, sel: Line -> bool)
    requires 0 < n <= |ls| && LineBlind(sel) && Keeper(ls, sibs, n - 1, 0).Some?
    ensures var k := Keeper(ls, sibs, n - 1, 0).value; var i := n - 1;
      Sum(MergeLines(ls, sibs, n), WithKeys(LineOwner(), Owners(sibs), Chosen(sel))) ==
      Sum(MergeLines(ls, sibs, n - 1), WithKeys(LineOwner(), Owners(sibs), Chosen(sel))) +
      Weighed(ls[k], sel, Allocated(ls[i])) - Weighed(ls[i], sel, Allocated(ls[i]))
  {
    hide MergeLines, Keeper, WithKeys, Chosen, Owners, Sum, LineBlind, Weighed;
    var f := WithKeys(LineOwner(), Owners(sibs), Chosen(sel));
    var i, k, done := n - 1, Keeper(ls, sibs, n - 1, 0).value, MergeLines(ls, sibs, n - 1);
    MergeStep(ls, sibs, n);
    var kept := done[k].(qty := Some(Allocated(done[k]) + Allocated(ls[i])));
    SumUpdate(done, k, kept, f);
    SumUpdate(done[k := kept], i, ls[i].(live := false), f);
    MergedWeights(ls[k], done[k].qty, ls[i], sibs, sel);
  }

  lemma {:induction false} MergeUnmoved(ls: seq<Line>, sibs: seq<OrderId>, n: nat)
    requires n <= |ls|
    ensures MergeLines(ls, sibs, 0) == ls
    ensures n > 0 && Keeper(ls, sibs, n - 1, 0).None? ==> MergeLines(ls, sibs, n) == MergeLines(ls, sibs, n - 1)
  {
  }

  /** Merging row by row moves quantities between lines of one trip: a choice of lines gains exactly its drift. */
  lemma {:induction false} MergeDrifts(ls: seq<Line>, sibs: seq<OrderId>, n: nat, sel: Line -> bool)
    requires n <= |ls| && LineBlind(sel)
    ensures Sum(MergeLines(ls, sibs, n), WithKeys(LineOwner(), Owners(sibs), Chosen(sel))) ==
            Sum(ls, WithKeys(LineOwner(), Owners(sibs), Chosen(sel))) + Drift(ls, sibs, n, sel)
    decreases n
  {
    hide WithKeys, Chosen, Owners, Sum, LineBlind, MergeLines, Keeper, Drift, Weighed;
    MergeUnmoved(ls, sibs, n);
    if n > 0 {
      MergeDrifts(ls, sibs, n - 1, sel);
      DriftStep(ls, sibs, n, sel);
      if Keeper(ls, sibs, n - 1, 0).Some? { MergeOnce(ls, sibs, n, sel); }
    } else {
      NoDrift(ls, sibs, sel);
    }
  }

  lemma {:induction false} NoDrift(ls: seq<Line>, sibs: seq<OrderId>, sel: Line -> bool)
    ensures Drift(ls, sibs, 0, sel) == 0
  {
  }

  /** A choice that does not split a merge does not drift. */
  lemma {:induction false} TogetherStays(ls: seq<Line>, sibs: seq<OrderId>, n: nat, sel: Line -> bool)
    requires n <= |ls| && Together(ls, sibs, sel)
    ensures Drift(ls, sibs, n, sel) == 0
    decreases n
  {
    if n > 0 { TogetherStays(ls, sibs, n - 1, sel); }
  }

  lemma {:induction false} RepointConserves(ls: seq<Line>, sibs: seq<OrderId>, p: OrderId, sel: Line -> bool)
    requires p in sibs && LineBlind(sel)
    ensures AllocatedTo(Repoint(ls, sibs, p), p, sel) == Sum(ls, WithKeys(LineOwner(), Owners(sibs), Chosen(sel)))
    ensures forall o :: o !in sibs ==> AllocatedTo(Repoint(ls, sibs, p), o, sel) == AllocatedTo(ls, o, sel)
  {
    var r := Repoint(ls, sibs, p);
    forall i | 0 <= i < |ls| ensures sel(r[i]) == sel(ls[i]) {
      assert r[i] == ls[i].(order := r[i].order, qty := ls[i].qty);
    }
    SumPointwise(r, WithKey(LineOwner(), Some(p), Chosen(sel)), ls, WithKeys(LineOwner(), Owners(sibs), Chosen(sel)));
    forall o | o !in sibs ensures AllocatedTo(r, o, sel) == AllocatedTo(ls, o, sel) {
      SumPointwise(r, WithKey(LineOwner(), Some(o), Chosen(sel)), ls, WithKey(LineOwner(), Some(o), Chosen(sel)));
    }
  }

  /** Every choice of lines keeps its allocated quantity, now on the primary row, up to its drift. */
  lemma {:induction false} LinesDrift(s: State, p: OrderId, sel: Line -> bool)
    requires Splits(s, p) && LineBlind(sel)
    ensures var sibs := SiblingsOf(s, s.orders[p].code);
      AllocatedTo(Consolidate(s, p).lines, p, sel) ==
      GroupAllocated(s.lines, sibs, sel) + Drift(s.lines, sibs, |s.lines|, sel)
  {
    hide Consolidate, SiblingsOf, MergedOrder, RepointLedger, MergeLines, Repoint, Drift;
    var sibs := SiblingsOf(s, s.orders[p].code);
    SplitFacts(s, p, sibs);
    TablesAfter(s, p, sibs);
    SumByKey(s.lines, Owners(sibs), LineOwner(), Chosen(sel));
    MergeDrifts(s.lines, sibs, |s.lines|, sel);
    RepointConserves(MergeLines(s.lines, sibs, |s.lines|), sibs, p, sel);
  }

  // ----- Three choices -------------------------------------------------------------------------

  function OnCode(c: Code): Line -> bool {
    (t: Line) => t.trip == Some(c)
  }

  /** The allocated quantity per trip code is conserved, whatever the lines are. */
  lemma {:induction false} TripAllocationConserved(s: State, p: OrderId, c: Code)
    requires Splits(s, p)
    ensures AllocatedTo(Consolidate(s, p).lines, p, OnCode(c)) ==
        GroupAllocated(s.lines, SiblingsOf(s, s.orders[p].code), OnCode(c))
  {
    hide Consolidate, SiblingsOf;
    LinesDrift(s, p, OnCode(c));
    TogetherStays(s.lines, SiblingsOf(s, s.orders[p].code), |s.lines|, OnCode(c));
  }

  function PlannedFrom(h: HubId, except: Option<Code>): Line -> bool {
    (t: Line) => t.status.LinePending? && IsOutboundLine(t.kind) && t.origin == Some(h) && NotExcluded(t.trip, except)
  }

  /** Lines to be merged share status, type and origin. */
  ghost predicate Uniform(ls: seq<Line>, sibs: seq<OrderId>) {
    forall j, i :: 0 <= j < |ls| && 0 <= i < |ls| && Joins(ls, sibs, j, i) ==>
      ls[j].status == ls[i].status && ls[j].kind == ls[i].kind && ls[j].origin == ls[i].origin
  }

  lemma {:induction false} ReservedIsChosen(ls: seq<Line>, o: OrderId, h: HubId, except: Option<Code>)
    ensures AllocatedTo(ls, o, PlannedFrom(h, except)) == Reserved(ls, o, h, except)
  {
    SumPointwise(ls, WithKey(LineOwner(), Some(o), Chosen(PlannedFrom(h, except))), ls, ReservedAt(o, h, except));
  }

  function ReservedPer(ls: seq<Line>, h: HubId, except: Option<Code>): Option<OrderId> -> int {
    (o: Option<OrderId>) => if o.Some? then Reserved(ls, o.value, h, except) else 0
  }

  /** Reservations add up, hub by hub, up to the drift of the lines planned there. */
  lemma {:induction false} ReservationsDrift(s: State, p: OrderId, h: HubId, except: Option<Code>)
    requires Splits(s, p)
    ensures var sibs := SiblingsOf(s, s.orders[p].code);
      Reserved(Consolidate(s, p).lines, p, h, except) ==
      Sum(Owners(sibs), ReservedPer(s.lines, h, except)) + Drift(s.lines, sibs, |s.lines|, PlannedFrom(h, except))
  {
    hide Consolidate, SiblingsOf, Drift;
    var sibs := SiblingsOf(s, s.orders[p].code);
    LinesDrift(s, p, PlannedFrom(h, except));
    ReservedIsChosen(Consolidate(s, p).lines, p, h, except);
    forall i | 0 <= i < |Owners(sibs)|
      ensures PerKey(s.lines, LineOwner(), Chosen(PlannedFrom(h, except)))(Owners(sibs)[i]) ==
          ReservedPer(s.lines, h, except)(Owners(sibs)[i])
    {
      ReservedIsChosen(s.lines, sibs[i], h, except);
    }
    SumPointwise(Owners(sibs), PerKey(s.lines, LineOwner(), Chosen(PlannedFrom(h, except))), Owners(sibs),
      ReservedPer(s.lines, h, except));
  }

  /** So they add up when merged lines share status, type and origin. */
  lemma {:induction false} ReservationsConserved(s: State, p: OrderId, h: HubId, except: Option<Code>)
    requires Splits(s, p) && Uniform(s.lines, SiblingsOf(s, s.orders[p].code))
    ensures Reserved(Consolidate(s, p).lines, p, h, except) ==
            Sum(Owners(SiblingsOf(s, s.orders[p].code)), ReservedPer(s.lines, h, except))
  {
    hide Consolidate, SiblingsOf;
    ReservationsDrift(s, p, h, except);
    TogetherStays(s.lines, SiblingsOf(s, s.orders[p].code), |s.lines|, PlannedFrom(h, except));
  }
}
