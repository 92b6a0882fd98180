/** What an outbound request asks of each order, read off its items as sent. */
module Requests {
  import opened Basics
  import opened Sums
  import opened Model
  import opened Dispatch

  // ----- How much ------------------------------------------------------------------------------

  function Mentions(items: seq<Item>, o: OrderId): nat {
    if |items| == 0 then 0
    else Mentions(items[..|items| - 1], o) + if items[|items| - 1].order == o then 1 else 0
  }

  /** The first item for the order: it decides how and where the order travels. */
  function First(items: seq<Item>, o: OrderId): (r: Option<Item>)
    ensures r.Some? <==> 0 < Mentions(items, o)
    ensures r.Some? ==> r.value in items && r.value.order == o
  {
    if |items| == 0 then None
    else
      var n := |items| - 1;
      var earlier := First(items[..n], o);
      if earlier.Some? then earlier else if items[n].order == o then Some(items[n]) else None
  }

  function QtyFor(o: OrderId): Item -> int {
    (i: Item) => if i.order == o && i.qty.Some? then i.qty.value else 0
  }

  /** All the request names for the order, over every item that mentions it. */
  function Named(items: seq<Item>, o: OrderId): int {
    Sum(items, QtyFor(o))
  }

  /** An order mentioned once without a quantity, or not at all, is sent with everything on offer. */
  function Requested(items: seq<Item>, o: OrderId, offered: int): int {
    if Mentions(items, o) == 0 || (Mentions(items, o) == 1 && First(items, o).value.qty.None?) then offered
    else Named(items, o)
  }

  lemma {:induction false} MatchingCounts(items: seq<Item>, o: OrderId)
    ensures |Matching(items, [o])| == Mentions(items, o)
    ensures 0 < |Matching(items, [o])| ==> First(items, o) == Some(Matching(items, [o])[0])
    decreases |items|
  {
    if |items| > 0 {
      MatchingCounts(items[..|items| - 1], o);
    }
  }

  lemma {:induction false} MatchingAdds(items: seq<Item>, o: OrderId)
    ensures Sum(Matching(items, [o]), QtyOf()) == Named(items, o)
    decreases |items|
  {
    hide Sum;
    if |items| == 0 {
      SumZero(items, QtyFor(o));
      SumZero(items, QtyOf());
    } else {
      var n := |items| - 1;
      MatchingAdds(items[..n], o);
      SumSnoc(items[..n], items[n], QtyFor(o));
      assert items == items[..n] + [items[n]];
      SumSnoc(Matching(items[..n], [o]), items[n], QtyOf());
    }
  }

  /** The item the services work with says the requested quantity, and travels as the first mention does. */
  lemma {:induction false} MergedIs(items: seq<Item>, o: OrderId, offered: int)
    ensures var m, first := MergeItems(items, Target(o, [o])), First(items, o);
      (m.Some? <==> first.Some?) &&
      (m.Some? ==> m.value.dest == first.value.dest && m.value.delivery == first.value.delivery) &&
      Requested(items, o, offered) == if m.Some? && m.value.qty.Some? then m.value.qty.value else offered
  {
    hide Matching, Mentions, First;
    MatchingCounts(items, o);
    MatchingAdds(items, o);
    var m := Matching(items, [o]);
    if |m| == 1 {
      assert m[..0] == [];
      assert Sum(m, QtyOf()) == QtyOf()(m[0]);
    }
  }

  // ----- How and where -------------------------------------------------------------------------

  /** The hub the order is meant for: the one its first item names, else that of a transfer request. */
  function Meant(req: Request, o: OrderId): Option<HubId> {
    var first := First(req.items, o);
    if first.Some? && first.value.dest.Some? then first.value.dest else if req.transfer then req.dest else None
  }

  predicate ToCustomer(req: Request, o: OrderId) {
    First(req.items, o).Some? && First(req.items, o).value.delivery.DirectCustomer?
  }

  /** Dispatched to another hub: not to the customer, and the first item names a hub or the mode is TRANSFER. */
  predicate Transferred(req: Request, o: OrderId) {
    !ToCustomer(req, o) &&
    (req.transfer || (First(req.items, o).Some? && First(req.items, o).value.dest.Some?))
  }

  /** Planned for another hub: not to the customer, and the mode is TRANSFER or the hub meant is not the acting one. */
  predicate PlannedTransfer(req: Request, o: OrderId, hub: Option<HubId>) {
    !ToCustomer(req, o) && (req.transfer || (Meant(req, o).Some? && Meant(req, o) != hub))
  }

  /** The destination written on the line: the hub meant, unless the goods go to the customer or are already there. */
  function Bound(req: Request, o: OrderId, hub: Option<HubId>): Option<HubId> {
    if ToCustomer(req, o) || Meant(req, o) == hub then None else Meant(req, o)
  }

  lemma {:induction false} RoutesAre(req: Request, o: OrderId, hub: Option<HubId>)
    ensures DispatchRoute(req, MergeItems(req.items, Target(o, [o])), hub) == (Transferred(req, o), Bound(req, o, hub))
    ensures DraftRoute(req, MergeItems(req.items, Target(o, [o])), hub) ==
            (PlannedTransfer(req, o, hub), Bound(req, o, hub))
  {
    hide MergeItems, First;
    MergedIs(req.items, o, 0);
  }

  /**
   * The draft announces the kind of line the dispatch writes, except when a customer-mode item names the hub the goods
   * are at: that is planned as a delivery and dispatched as a transfer to nowhere.
   */
  lemma {:induction false} DraftForetells(req: Request, o: OrderId, hub: Option<HubId>)
    ensures PlannedTransfer(req, o, hub) == Transferred(req, o) <==>
      !(!ToCustomer(req, o) && !req.transfer && hub.Some? && Meant(req, o) == hub)
  {
    hide First;
  }
}
