/** Splitting an order's live ledger by hub. */
module Partition {
  import opened Basics
  import opened Sums
  import opened Model

  /** Every live row of the order was issued by a hub of the list (a missing hub id is a bucket of its own). */
  ghost predicate CoversHubs(l: seq<Tx>, o: OrderId, hubs: seq<Option<HubId>>) {
    forall i :: 0 <= i < |l| && l[i].live && l[i].order == o ==> l[i].hub in hubs
  }

  function HubStocks(l: seq<Tx>, o: OrderId): Option<HubId> -> int {
    (h: Option<HubId>) => Stock(l, o, h)
  }

  function HubOf(): Tx -> Option<HubId> {
    (t: Tx) => t.hub
  }

  function SignedOf(o: OrderId): Tx -> int {
    (t: Tx) => if t.live && t.order == o then Signed(t) else 0
  }

  /** The hub stocks of an order add up to what it received minus what it dispatched. */
  lemma {:induction false} HubStocksAddUp(l: seq<Tx>, o: OrderId, hubs: seq<Option<HubId>>)
    requires NoDuplicates(hubs) && CoversHubs(l, o, hubs)
    ensures Sum(hubs, HubStocks(l, o)) == Inbound(l, o) - Dispatched(l, o)
  {
    forall h ensures HubStocks(l, o)(h) == PerKey(l, HubOf(), SignedOf(o))(h) {
      SumPointwise(l, StockAt(o, h), l, WithKey(HubOf(), h, SignedOf(o)));
    }
    SumPointwise(hubs, HubStocks(l, o), hubs, PerKey(l, HubOf(), SignedOf(o)));
    SumByKey(l, hubs, HubOf(), SignedOf(o));
    SumCombine(l, InboundOf(o), l, WithKeys(HubOf(), hubs, SignedOf(o)), l, DispatchedOf(o));
  }

  /** The hubs that issued a row, each once. */
  function HubsOf(l: seq<Tx>): (r: seq<Option<HubId>>)
    ensures NoDuplicates(r)
    ensures forall i :: 0 <= i < |l| ==> l[i].hub in r
  {
    if |l| == 0 then []
    else
      var front := HubsOf(l[..|l| - 1]);
      var h := l[|l| - 1].hub;
      if h in front then front else front + [h]
  }

  /** With no hub in the red, a single hub never holds more than the whole order. */
  lemma {:induction false} HubStockWithinOrder(l: seq<Tx>, o: OrderId, h: Option<HubId>)
    requires forall k :: 0 <= Stock(l, o, k)
    ensures 0 <= Inbound(l, o) - Dispatched(l, o)
    ensures Stock(l, o, h) <= Inbound(l, o) - Dispatched(l, o)
  {
    var hubs := HubsOf(l);
    if h !in hubs { hubs := hubs + [h]; }
    HubStocksAddUp(l, o, hubs);
    SumBoundsTerms(hubs, HubStocks(l, o));
    var i :| 0 <= i < |hubs| && hubs[i] == h;
    assert HubStocks(l, o)(hubs[i]) == Stock(l, o, h);
  }
}
