/** Goods moved between hubs: conserved up to what the receiving hubs recorded as overage. */
module Transfers {
  import opened Basics
  import opened Sums
  import opened Model
  import opened Dispatch
  import opened Receiving
  import opened Invariant
  import opened Partition

  // ----- One counted receipt -------------------------------------------------------------------

  lemma {:induction false} TripSums(l: seq<Tx>, t: Tx, o: OrderId, c: Code)
    ensures Loaded(l + [t], o, c) == Loaded(l, o, c) + LoadedOn(o, c)(t)
    ensures Received(l + [t], o, c) == Received(l, o, c) + ReceivedOn(o, c)(t)
  {
    SumSnoc(l, t, LoadedOn(o, c));
    SumSnoc(l, t, ReceivedOn(o, c));
  }

  /**
   * A locked contract received off a loaded trip, expecting what is still on it: the hub gains the counted quantity,
   * the trip loses the smaller of counted and in transit, and the difference is the positive part of the discrepancy.
   */
  lemma {:induction false} ReceiptMovesGoods(s: State, o: OrderId, row: Row, hub: HubId, c: Code, k: Counting,
        running: int, line: Option<nat>)
    requires o in s.orders && row.expected.None? && 0 < Loaded(s.ledger, o, c)
    requires CountLocked(s, o, row, Some(hub), Some(c)) == Ok(k)
    ensures var t := CountTx(k, Some(hub), Some(c), line, running); var l := s.ledger + [t];
      Stock(l, o, Some(hub)) == Stock(s.ledger, o, Some(hub)) + k.qty &&
      InTransit(l, o, c) == InTransit(s.ledger, o, c) - Min(k.qty, InTransit(s.ledger, o, c)) &&
      k.qty - Min(k.qty, InTransit(s.ledger, o, c)) == Max(0, t.discrepancy)
  {
    hide CountedOrder, CountedQty;
    var t := CountTx(k, Some(hub), Some(c), line, running);
    TripSums(s.ledger, t, o, c);
    LedgerAppended(s.ledger, t);
  }

  // ----- A whole history -----------------------------------------------------------------------

  /** The invoice receives goods of the order off a trip that was loaded with them. */
  predicate OffTrip(before: seq<Tx>, t: Tx, o: OrderId) {
    t.kind.InboundTx? && t.trip.Some? && 0 < Loaded(before, o, t.trip.value)
  }

  /** A trip is loaded before anything is received on it, and a receipt off it records its discrepancy. */
  ghost predicate HonestRow(before: seq<Tx>, t: Tx, o: OrderId) {
    t.live && t.order == o ==>
      0 <= t.qty &&
      (t.kind.TransferTx? ==> t.trip.Some? && Received(before, o, t.trip.value) == 0) &&
      (OffTrip(before, t, o) ==> t.discrepancy == t.qty - InTransit(before, o, t.trip.value))
  }

  ghost predicate Honest(l: seq<Tx>, o: OrderId) {
    forall i :: 0 <= i < |l| ==> HonestRow(l[..i], l[i], o)
  }

  function DeliveredOf(o: OrderId): Tx -> int {
    (t: Tx) => if t.live && t.order == o && t.kind.OutboundTx? then t.qty else 0
  }

  function Delivered(l: seq<Tx>, o: OrderId): int {
    Sum(l, DeliveredOf(o))
  }

  /** Receipts that did not come off a loaded trip. */
  function Intaken(l: seq<Tx>, o: OrderId): int {
    if |l| == 0 then 0
    else
      var front, t := l[..|l| - 1], l[|l| - 1];
      Intaken(front, o) + if t.live && t.order == o && t.kind.InboundTx? && !OffTrip(front, t, o) then t.qty else 0
  }

  /** What receiving hubs counted beyond what was on the way. */
  function Overage(l: seq<Tx>, o: OrderId): int {
    if |l| == 0 then 0
    else
      var front, t := l[..|l| - 1], l[|l| - 1];
      Overage(front, o) + if t.live && t.order == o && OffTrip(front, t, o) then Max(0, t.discrepancy) else 0
  }

  function OnTrips(l: seq<Tx>, o: OrderId): Code -> int {
    (c: Code) => InTransit(l, o, c)
  }

  ghost predicate CoversTrips(l: seq<Tx>, o: OrderId, trips: seq<Code>) {
    forall i :: 0 <= i < |l| && l[i].live && l[i].order == o && l[i].kind.TransferTx? && l[i].trip.Some? ==>
      l[i].trip.value in trips
  }

  function Spike(c: Code, d: int): Code -> int {
    (x: Code) => if x == c then d else 0
  }

  lemma {:induction false} SpikeSum(trips: seq<Code>, c: Code, d: int)
    requires NoDuplicates(trips) && c in trips
    ensures Sum(trips, Spike(c, d)) == d
    decreases |trips|
  {
    var n := |trips| - 1;
    if trips[n] == c {
      assert c !in trips[..n];
      SumZero(trips[..n], Spike(c, d));
    } else {
      assert c in trips[..n];
      SpikeSum(trips[..n], c, d);
    }
  }

  /** One invoice moves one trip. */
  lemma {:induction false} TransitMoves(front: seq<Tx>, t: Tx, o: OrderId, trips: seq<Code>, d: int)
    requires NoDuplicates(trips)
    requires forall c :: InTransit(front + [t], o, c) == InTransit(front, o, c) + if t.trip == Some(c) then d else 0
    requires d != 0 ==> t.trip.Some? && t.trip.value in trips
    ensures Sum(trips, OnTrips(front + [t], o)) == Sum(trips, OnTrips(front, o)) + d
  {
    var c := if t.trip.Some? then t.trip.value else "";
    SumCombine(trips, OnTrips(front + [t], o), trips, OnTrips(front, o), trips, Spike(c, if t.trip.Some?
      then d else 0));
    if t.trip.Some? && c in trips {
      SpikeSum(trips, c, d);
    } else {
      SumZero(trips, Spike(c, if t.trip.Some? then d else 0));
    }
  }

  lemma {:induction false} LoadedTripCovered(l: seq<Tx>, o: OrderId, c: Code, trips: seq<Code>)
    requires CoversTrips(l, o, trips) && Loaded(l, o, c) > 0
    ensures c in trips
  {
    if c !in trips {
      SumZero(l, LoadedOn(o, c));
    }
  }

  lemma {:induction false} LoadedNonNegative(l: seq<Tx>, o: OrderId, c: Code)
    requires Honest(l, o)
    ensures 0 <= Loaded(l, o, c) && 0 <= Received(l, o, c)
  {
    forall i | 0 <= i < |l| ensures 0 <= LoadedOn(o, c)(l[i]) && 0 <= ReceivedOn(o, c)(l[i]) {
      assert HonestRow(l[..i], l[i], o);
    }
    SumBoundsTerms(l, LoadedOn(o, c));
    SumBoundsTerms(l, ReceivedOn(o, c));
  }

  /** How far one honest invoice moves its trip. */
  function Moved(front: seq<Tx>, t: Tx, o: OrderId): int {
    if !t.live || t.order != o || t.trip.None? then 0
    else if t.kind.TransferTx? then t.qty
    else if OffTrip(front, t, o) then -Min(t.qty, InTransit(front, o, t.trip.value))
    else 0
  }

  lemma {:induction false} TripMoves(front: seq<Tx>, t: Tx, o: OrderId, c: Code)
    requires Honest(front, o) && HonestRow(front, t, o)
    ensures InTransit(front + [t], o, c) == InTransit(front, o, c) + if t.trip == Some(c) then Moved(front, t, o) else 0
  {
    hide Honest, Loaded, Received;
    TripSums(front, t, o, c);
    LoadedNonNegative(front, o, c);
  }

  /**
   * Hub stock, goods on the way and goods delivered always add up to what was taken in plus the recorded overage.
   */
  lemma {:induction false} GoodsConserved(l: seq<Tx>, o: OrderId, hubs: seq<Option<HubId>>, trips: seq<Code>)
    requires Honest(l, o) && NoDuplicates(hubs) && CoversHubs(l, o, hubs) && NoDuplicates(trips)
    requires CoversTrips(l, o, trips)
    ensures Sum(hubs, HubStocks(l, o)) + Sum(trips, OnTrips(l, o)) + Delivered(l, o) == Intaken(l, o) + Overage(l, o)
  {
    HubStocksAddUp(l, o, hubs);
    FlowConserved(l, o, trips);
  }

  lemma {:induction false} FlowConserved(l: seq<Tx>, o: OrderId, trips: seq<Code>)
    requires Honest(l, o) && NoDuplicates(trips) && CoversTrips(l, o, trips)
    ensures Inbound(l, o) - Dispatched(l, o) + Sum(trips, OnTrips(l, o)) + Delivered(l, o) ==
        Intaken(l, o) + Overage(l, o)
    decreases |l|
  {
    if |l| == 0 {
      SumZero(trips, OnTrips(l, o));
    } else {
      var n := |l| - 1;
      var front, t := l[..n], l[n];
      assert l == front + [t];
      HonestPrefix(l, o, n);
      FlowConserved(front, o, trips);
      FlowStep(front, t, o, trips);
    }
  }

  lemma {:induction false} HonestPrefix(l: seq<Tx>, o: OrderId, n: nat)
    requires Honest(l, o) && n <= |l|
    ensures Honest(l[..n], o) && (n < |l| ==> HonestRow(l[..n], l[n], o))
  {
    forall i | 0 <= i < n ensures HonestRow(l[..n][..i], l[..n][i], o) {
      assert l[..n][..i] == l[..i];
    }
  }

  lemma {:induction false} FlowStep(front: seq<Tx>, t: Tx, o: OrderId, trips: seq<Code>)
    requires Honest(front, o) && HonestRow(front, t, o) && NoDuplicates(trips) && CoversTrips(front + [t], o, trips)
    requires Inbound(front, o) - Dispatched(front, o) + Sum(trips, OnTrips(front, o)) + Delivered(front, o) ==
        Intaken(front, o) + Overage(front, o)
    ensures var l := front + [t];
      Inbound(l, o) - Dispatched(l, o) + Sum(trips, OnTrips(l, o)) + Delivered(l, o) == Intaken(l, o) + Overage(l, o)
  {
    hide Honest, Loaded, Received, Inbound, Dispatched;
    var l := front + [t];
    assert l[..|front|] == front;
    assert forall i :: 0 <= i < |front| ==> front[i] == l[i];
    LedgerAppended(front, t);
    SumSnoc(front, t, DeliveredOf(o));
    forall c
      ensures InTransit(l, o, c) == InTransit(front, o, c) + if t.trip == Some(c) then Moved(front, t, o) else 0
    {
      TripMoves(front, t, o, c);
    }
    if OffTrip(front, t, o) {
      LoadedTripCovered(front, o, t.trip.value, trips);
    }
    TransitMoves(front, t, o, trips, Moved(front, t, o));
  }
}
