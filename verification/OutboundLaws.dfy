/** Every outbound step keeps the invariant. */
module OutboundLaws {
  import opened Basics
  import opened Sums
  import opened Model
  import opened Consolidation
  import opened Dispatch
  import opened Invariant

  /**
   * What a plan promises about the state it is dispatched on: the goods are unreserved stock of the acting hub, or of
   * the bucket without a hub when nobody knows where they are.
   */
  ghost predicate Ships(s: State, p: Plan) {
    IsLive(s.orders, p.order) && !DraftLike(s.orders[p.order].status) && 0 < p.qty &&
    (if p.hub.Some? then Reserved(s.lines, p.order, p.hub.value, None) + p.qty <= Stock(s.ledger, p.order, p.hub)
     else p.qty <= Stock(s.ledger, p.order, None))
  }

  ghost predicate PlanFits(s: State, p: Plan) {
    Ships(s, p) && p.hub.Some?
  }

  /** The trip code can carry a dispatch: nothing planned, nothing received under it. */
  ghost predicate Loadable(s: State, c: Code) {
    !HasPlan(s.lines, c) && NothingReceived(s.ledger, c)
  }

  lemma {:induction false} DispatchOneKeepsInv(s: State, c: Code, p: Plan)
    requires Inv(s) && Ships(s, p) && Loadable(s, c)
    ensures Inv(DispatchOne(s, c, p)) && Loadable(DispatchOne(s, c, p), c)
    ensures s.orders[p.order].remaining - p.qty >= 0
  {
    hide Reserved, Stock, Inbound, Dispatched, Moving, DispatchedVia;
    var r := DispatchOne(s, c, p);
    var line, tx := DispatchedLine(c, p), DispatchTx(c, p, |s.lines|);
    LedgerAppended(s.ledger, tx);
    LineAppended(s.lines, line);
    StockWithinRemaining(s, p.order, p.hub);
    if p.hub.Some? { ReservedNonNegative(s, p.order, p.hub.value, None); }
    assert Synced(s.orders, s.ledger, p.order);
    PlansUntouched(s, line);
    assert RowsOk(r) by {
      forall i | 0 <= i < |r.lines| ensures LineOk(r.lines[i], r.ledger, r.nextOrder) {
        if i < |s.lines| {
          assert LineOk(s.lines[i], s.ledger, s.nextOrder);
          if s.lines[i].live && s.lines[i].trip.Some? {
            ReceiptsUntouched(s.ledger, tx, s.lines[i].trip.value);
          }
        }
      }
    }
    assert UniqueCodes(r.orders);
    assert AllSynced(r.orders, r.ledger) by {
      forall o: OrderId ensures Synced(r.orders, r.ledger, o) {
        assert Synced(s.orders, s.ledger, o);
      }
    }
    assert Covered(r.ledger, r.lines);
    assert DraftsClean(r.ledger, r.lines) by {
      forall d | HasPlan(r.lines, d) ensures NoInvoice(r.ledger, d) && AllDraftLines(r.lines, d) {
        assert HasPlan(s.lines, d);
      }
    }
    assert Matched(r.ledger, r.lines) by {
      forall d, o: OrderId, h: Option<HubId> | NothingReceived(r.ledger, d)
        ensures Moving(r.lines, o, h, d) == DispatchedVia(r.ledger, o, h, d)
      {
        ReceiptsUntouched(s.ledger, tx, d);
        assert NothingReceived(s.ledger, d);
      }
    }
    ReceiptsUntouched(s.ledger, tx, c);
    TripsAfterDispatch(s, c, p);
  }

  lemma {:induction false} ReceiptsUntouched(l: seq<Tx>, t: Tx, c: Code)
    requires !t.kind.InboundTx?
    ensures NothingReceived(l + [t], c) <==> NothingReceived(l, c)
  {
    if NothingReceived(l + [t], c) {
      forall i | 0 <= i < |l| && l[i].live && l[i].trip == Some(c) ensures !l[i].kind.InboundTx? {
        assert (l + [t])[i] == l[i];
      }
    }
  }

  lemma {:induction false} PlansUntouched(s: State, line: Line)
    requires !IsPlanned(line)
    ensures forall d :: HasPlan(s.lines + [line], d) <==> HasPlan(s.lines, d)
  {
    forall d ensures HasPlan(s.lines + [line], d) <==> HasPlan(s.lines, d) {
      if HasPlan(s.lines, d) {
        var i :| 0 <= i < |s.lines| && IsPlanned(s.lines[i]) && s.lines[i].trip == Some(d);
        assert (s.lines + [line])[i] == s.lines[i];
      }
    }
  }

  lemma {:induction false} AboardGrows(ls: seq<Line>, line: Line, o: OrderId, c: Code)
    requires Aboard(ls, o, c)
    ensures Aboard(ls + [line], o, c)
  {
    var i :| 0 <= i < |ls| && OnTrip(ls[i], c) && ls[i].order == o && IsOutboundLine(ls[i].kind);
    assert (ls + [line])[i] == ls[i];
  }

  lemma {:induction false} TripsAfterDispatch(s: State, c: Code, p: Plan)
    requires Inv(s) && Ships(s, p) && Loadable(s, c)
    ensures TripsKnown(DispatchOne(s, c, p).orders, DispatchOne(s, c, p).lines)
  {
    var r := DispatchOne(s, c, p);
    var line := DispatchedLine(c, p);
    PlansUntouched(s, line);
    forall o | IsLive(r.orders, o) && r.orders[o].currentTrip.Some?
      ensures Aboard(r.lines, o, r.orders[o].currentTrip.value) && !HasPlan(r.lines, r.orders[o].currentTrip.value)
    {
      if o == p.order && p.transfer {
        assert r.lines[|s.lines|] == line;
      } else {
        assert IsLive(s.orders, o) && s.orders[o].currentTrip == r.orders[o].currentTrip;
        AboardGrows(s.lines, line, o, s.orders[o].currentTrip.value);
      }
    }
  }

  // ----- A whole request -----------------------------------------------------------------------

  ghost predicate DistinctOrders(plans: seq<Plan>) {
    forall i, j :: 0 <= i < j < |plans| ==> plans[i].order != plans[j].order
  }

  lemma {:induction false} OtherPlansShip(s: State, c: Code, p: Plan, q: Plan)
    requires p.order in s.orders && Ships(s, q) && q.order != p.order
    ensures Ships(DispatchOne(s, c, p), q)
  {
    LedgerAppended(s.ledger, DispatchTx(c, p, |s.lines|));
    LineAppended(s.lines, DispatchedLine(c, p));
  }

  lemma {:induction false} DispatchAllKeepsInv(s: State, c: Code, plans: seq<Plan>)
    requires Inv(s) && Loadable(s, c) && DistinctOrders(plans)
    requires forall i :: 0 <= i < |plans| ==> plans[i].order in s.orders && Ships(s, plans[i])
    ensures Inv(DispatchAll(s, c, plans)) && Loadable(DispatchAll(s, c, plans), c)
    ensures forall q :: Ships(s, q) && (forall i :: 0 <= i < |plans| ==> plans[i].order != q.order) ==>
      Ships(DispatchAll(s, c, plans), q)
  {
    hide Inv;
    if |plans| > 0 {
      var front, p := plans[..|plans| - 1], plans[|plans| - 1];
      DispatchAllKeepsInv(s, c, front);
      var before := DispatchAll(s, c, front);
      assert Ships(before, p);
      DispatchOneKeepsInv(before, c, p);
      forall q | Ships(s, q) && (forall i :: 0 <= i < |plans| ==> plans[i].order != q.order)
        ensures Ships(DispatchAll(s, c, plans), q)
      {
        assert forall i :: 0 <= i < |front| ==> front[i] == plans[i];
        assert plans[|plans| - 1].order != q.order;
        OtherPlansShip(before, c, p, q);
      }
    }
  }

  // ----- Reserving -----------------------------------------------------------------------------

  /** The trip code can carry a draft. */
  ghost predicate Draftable(s: State, c: Code) {
    NoInvoice(s.ledger, c) && AllDraftLines(s.lines, c) &&
    (forall o :: IsLive(s.orders, o) ==> s.orders[o].currentTrip != Some(c))
  }

  /** What a plan promises about the state it is saved on: the hub its line is written for has the goods free. */
  ghost predicate Holds(s: State, origin: Option<HubId>, p: Plan) {
    var h := p.hub.OrElse(origin);
    IsLive(s.orders, p.order) && 0 < p.qty &&
    (h.Some? ==> Reserved(s.lines, p.order, h.value, None) + p.qty <= Stock(s.ledger, p.order, h))
  }

  function ReserveOne(s: State, c: Code, origin: Option<HubId>, p: Plan): State {
    s.(lines := s.lines + [PlannedLine(c, origin, p)])
  }

  lemma {:induction false} ReserveOneKeepsInv(s: State, c: Code, origin: Option<HubId>, p: Plan)
    requires Inv(s) && Holds(s, origin, p) && Draftable(s, c)
    ensures Inv(ReserveOne(s, c, origin, p)) && Draftable(ReserveOne(s, c, origin, p), c)
    ensures forall q :: Holds(s, origin, q) && q.order != p.order ==> Holds(ReserveOne(s, c, origin, p), origin, q)
  {
    var r := ReserveOne(s, c, origin, p);
    var line := PlannedLine(c, origin, p);
    LineAppended(s.lines, line);
    assert forall i :: 0 <= i < |s.lines| ==> r.lines[i] == s.lines[i];
    assert s.nextOrder > p.order;
    assert RowsOk(r);
    forall d ensures HasPlan(r.lines, d) ==> HasPlan(s.lines, d) || d == c {
      if HasPlan(r.lines, d) && d != c {
        var i :| 0 <= i < |r.lines| && IsPlanned(r.lines[i]) && r.lines[i].trip == Some(d);
        assert s.lines[i] == r.lines[i];
      }
    }
    assert DraftsClean(r.ledger, r.lines) by {
      forall d | HasPlan(r.lines, d) ensures NoInvoice(r.ledger, d) && AllDraftLines(r.lines, d) {}
    }
    assert TripsKnown(r.orders, r.lines) by {
      forall o | IsLive(r.orders, o) && r.orders[o].currentTrip.Some?
        ensures Aboard(r.lines, o, r.orders[o].currentTrip.value) && !HasPlan(r.lines, r.orders[o].currentTrip.value)
      {
        assert IsLive(s.orders, o);
        AboardGrows(s.lines, line, o, r.orders[o].currentTrip.value);
      }
    }
  }

  lemma {:induction false} ReserveAllKeepsInv(s: State, c: Code, origin: Option<HubId>, plans: seq<Plan>)
    requires Inv(s) && Draftable(s, c) && DistinctOrders(plans)
    requires forall i :: 0 <= i < |plans| ==> Holds(s, origin, plans[i])
    ensures Inv(ReserveAll(s, c, origin, plans)) && Draftable(ReserveAll(s, c, origin, plans), c)
    ensures forall q :: Holds(s, origin, q) && (forall i :: 0 <= i < |plans| ==> plans[i].order != q.order) ==>
      Holds(ReserveAll(s, c, origin, plans), origin, q)
  {
    if |plans| > 0 {
      var front, p := plans[..|plans| - 1], plans[|plans| - 1];
      ReserveAllKeepsInv(s, c, origin, front);
      var before := ReserveAll(s, c, origin, front);
      assert Holds(before, origin, p);
      ReserveOneKeepsInv(before, c, origin, p);
      forall q | Holds(s, origin, q) && (forall i :: 0 <= i < |plans| ==> plans[i].order != q.order)
        ensures Holds(ReserveAll(s, c, origin, plans), origin, q)
      {
        assert forall i :: 0 <= i < |front| ==> front[i] == plans[i];
        assert plans[|plans| - 1].order != q.order;
      }
    }
  }

  // ----- Dropping a draft ----------------------------------------------------------------------

  /** Dropping a draft frees exactly what its own lines held. */
  lemma {:induction false} DiscardKeepsInv(s: State, c: Code, userHub: Option<HubId>)
    requires Inv(s) && Discard(s, c, userHub).Ok?
    ensures var r := Discard(s, c, userHub).value;
      Inv(r) && Draftable(r, c) && Loadable(r, c) && r.orders == s.orders && r.ledger == s.ledger &&
      (forall o: OrderId, h: HubId :: Reserved(r.lines, o, h, None) == Reserved(s.lines, o, h, Some(c))) &&
      (forall o: OrderId, h: HubId :: Reserved(r.lines, o, h, Some(c)) == Reserved(s.lines, o, h, Some(c)))
  {
    var r := Discard(s, c, userHub).value;
    var k :| 0 <= k < |s.lines| && OnTrip(s.lines[k], c);
    assert IsPlanned(s.lines[k]);
    assert HasPlan(s.lines, c);
    forall i | 0 <= i < |s.lines| && IsPlanned(s.lines[i]) ensures s.lines[i].trip.Some? {
      assert LineOk(s.lines[i], s.ledger, s.nextOrder);
    }
    forall o: OrderId, h: HubId ensures Reserved(r.lines, o, h, None) == Reserved(s.lines, o, h, Some(c)) {
      SumPointwise(r.lines, ReservedAt(o, h, None), s.lines, ReservedAt(o, h, Some(c)));
    }
    forall o: OrderId, h: HubId ensures Reserved(r.lines, o, h, Some(c)) == Reserved(s.lines, o, h, Some(c)) {
      SumPointwise(r.lines, ReservedAt(o, h, Some(c)), s.lines, ReservedAt(o, h, Some(c)));
    }
    ExclusionFrees(s, c);
    assert Covered(r.ledger, r.lines);
    assert DraftsClean(r.ledger, r.lines) by {
      forall d | HasPlan(r.lines, d) ensures NoInvoice(r.ledger, d) && AllDraftLines(r.lines, d) {
        var i :| 0 <= i < |r.lines| && IsPlanned(r.lines[i]) && r.lines[i].trip == Some(d);
        assert IsPlanned(s.lines[i]);
        assert HasPlan(s.lines, d);
      }
    }
    assert Matched(r.ledger, r.lines) by {
      forall d, o: OrderId, h: Option<HubId> | NothingReceived(r.ledger, d)
        ensures Moving(r.lines, o, h, d) == DispatchedVia(r.ledger, o, h, d)
      {
        SumPointwise(r.lines, MovingOn(o, h, d), s.lines, MovingOn(o, h, d));
      }
    }
    TripsSurvive(s, r, c);
  }

  /** Leaving one trip out can only lower a reservation. */
  lemma {:induction false} ExclusionFrees(s: State, c: Code)
    requires Inv(s)
    ensures forall o: OrderId, h: HubId :: Reserved(s.lines, o, h, Some(c)) <= Reserved(s.lines, o, h, None)
  {
    forall o: OrderId, h: HubId ensures Reserved(s.lines, o, h, Some(c)) <= Reserved(s.lines, o, h, None) {
      SumCombine(s.lines, ReservedAt(o, h, None), s.lines, ReservedAt(o, h, Some(c)), s.lines, ReservedBy(o, h, c));
      forall i | 0 <= i < |s.lines| ensures 0 <= ReservedBy(o, h, c)(s.lines[i]) {
        assert LineOk(s.lines[i], s.ledger, s.nextOrder);
        if IsPlanned(s.lines[i]) {
          assert HasPlan(s.lines, s.lines[i].trip.value);
        }
      }
      SumBoundsTerms(s.lines, ReservedBy(o, h, c));
    }
  }

  /** A waiting outbound line of the order at the hub, on trip c or on no trip at all. */
  function OwnOrStray(o: OrderId, h: HubId, c: Code): Line -> int {
    (t: Line) =>
      if t.live && t.status.LinePending? && t.kind in {OutboundLine, TransferLine} && t.order == o &&
        t.origin == Some(h) && (t.trip.None? || t.trip == Some(c)) && t.qty.Some?
      then t.qty.value else 0
  }

  /** The exclusion of a trip leaves out the trip's own lines, and the lines that are on no trip. */
  lemma {:induction false} ExclusionFreesOwn(ls: seq<Line>, o: OrderId, h: HubId, c: Code)
    ensures Reserved(ls, o, h, None) == Reserved(ls, o, h, Some(c)) + Sum(ls, OwnOrStray(o, h, c))
  {
    SumCombine(ls, ReservedAt(o, h, None), ls, ReservedAt(o, h, Some(c)), ls, OwnOrStray(o, h, c));
  }

  /** What the exclusion of trip c leaves out. */
  function ReservedBy(o: OrderId, h: HubId, c: Code): Line -> int {
    (t: Line) => ReservedAt(o, h, None)(t) - ReservedAt(o, h, Some(c))(t)
  }

  lemma {:induction false} TripsSurvive(s: State, r: State, c: Code)
    requires Inv(s) && HasPlan(s.lines, c) && r == s.(lines := DropLines(s.lines, c))
    ensures TripsKnown(r.orders, r.lines)
  {
    forall d | HasPlan(r.lines, d) ensures HasPlan(s.lines, d) {
      var j :| 0 <= j < |r.lines| && IsPlanned(r.lines[j]) && r.lines[j].trip == Some(d);
      assert IsPlanned(s.lines[j]) && s.lines[j].trip == Some(d);
    }
    forall o | IsLive(r.orders, o) && r.orders[o].currentTrip.Some?
      ensures Aboard(r.lines, o, r.orders[o].currentTrip.value) && !HasPlan(r.lines, r.orders[o].currentTrip.value)
    {
      var d := r.orders[o].currentTrip.value;
      assert IsLive(s.orders, o);
      assert Aboard(s.lines, o, d) && !HasPlan(s.lines, d);
      var i :| 0 <= i < |s.lines| && OnTrip(s.lines[i], d) && s.lines[i].order == o && IsOutboundLine(s.lines[i].kind);
      assert r.lines[i] == s.lines[i];
    }
  }

  // ----- Stops ---------------------------------------------------------------------------------

  lemma {:induction false} StopsReach(stops: map<(Code, HubId), Stop>, c: Code, hubs: seq<HubId>, n: nat)
    requires n <= |hubs|
    ensures var r := StopAtEach(stops, c, hubs, n);
      (forall i :: 0 <= i < n ==> (c, hubs[i]) in r && r[(c, hubs[i])].live) &&
      (forall k :: k in stops && !(k.0 == c && k.1 in hubs) ==> k in r && r[k] == stops[k]) &&
      (forall k :: k in stops && stops[k].status.StopCompleted? ==> k in r && r[k].status.StopCompleted?)
    decreases n
  {
    if n > 0 {
      StopsReach(stops, c, hubs, n - 1);
    }
  }

  /**
   * A route leaves from its origin and stops at every receiving hub; it never reopens a processed stop and leaves other
   * trips' stops alone.
   */
  lemma {:induction false} RouteReaches(stops: map<(Code, HubId), Stop>, c: Code, origin: HubId, st: StopStatus,
        hubs: seq<HubId>)
    requires origin !in hubs
    ensures var r := Route(stops, c, Some(origin), st, hubs);
      (c, origin) in r && r[(c, origin)].live && (st.StopCompleted? ==> r[(c, origin)].status.StopCompleted?) &&
      (forall i :: 0 <= i < |hubs| ==> (c, hubs[i]) in r && r[(c, hubs[i])].live) &&
      (forall k :: k in stops && k.0 != c ==> k in r && r[k] == stops[k]) &&
      (forall k :: k in stops && stops[k].status.StopCompleted? ==> k in r && r[k].status.StopCompleted?)
  {
    StopsReach(UpsertStop(stops, c, origin, st, OriginStop, 1), c, hubs, |hubs|);
  }

  /** The receiving hubs never include the hub the vehicle leaves from, and each is named once. */
  lemma {:induction false} RouteHubs(named: seq<Option<HubId>>, origin: Option<HubId>)
    ensures var hubs := Distinct(OtherHubs(named, origin));
      NoDuplicates(hubs) && forall h :: h in hubs <==> Some(h) in named && origin != Some(h)
  {
    OthersNamed(named, origin);
    DistinctKeeps(OtherHubs(named, origin));
  }

  lemma {:induction false} OthersNamed(named: seq<Option<HubId>>, origin: Option<HubId>)
    ensures forall h :: h in OtherHubs(named, origin) <==> Some(h) in named && origin != Some(h)
    decreases |named|
  {
    if |named| > 0 {
      var n := |named| - 1;
      OthersNamed(named[..n], origin);
      assert forall x :: x in named <==> x in named[..n] || x == named[n];
    }
  }

  lemma {:induction false} DistinctKeeps(hs: seq<HubId>)
    ensures NoDuplicates(Distinct(hs)) && forall h :: h in Distinct(hs) <==> h in hs
    decreases |hs|
  {
    if |hs| > 0 {
      var n := |hs| - 1;
      DistinctKeeps(hs[..n]);
      assert forall h :: h in hs <==> h in hs[..n] || h == hs[n];
    }
  }
}
