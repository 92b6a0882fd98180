/** A request that names split codes: its orders are gathered first, one row a code, and then it goes on as usual. */
module GatherLaws {
  import opened Basics
  import opened Sums
  import opened Model
  import opened Consolidation
  import opened ConsolidationLaws
  import opened Dispatch
  import opened RequestLaws
  import opened SplitLaws

  // ----- Gathering the orders of a request -----------------------------------------------------

  /** The rows of o's code, or o alone when it has none. */
  function GroupOf(s: State, o: OrderId): seq<OrderId>
    requires o in s.orders
  {
    if |s.orders[o].code| == 0 || |SiblingsOf(s, s.orders[o].code)| <= 1 then [o] else SiblingsOf(s, s.orders[o].code)
  }

  /** The rows are known, and the first of each code not seen before is live. */
  ghost predicate Findable(s: State, found: seq<OrderId>, seen: set<Code>) {
    (forall i :: 0 <= i < |found| ==> found[i] in s.orders) &&
    forall i :: 0 <= i < |found| && Leads(s, found, seen, i) ==> IsLive(s.orders, found[i])
  }

  /** Order i of the request is the first with its code, and its code has not been seen before. */
  ghost predicate Leads(s: State, found: seq<OrderId>, seen: set<Code>, i: nat)
    requires forall i :: 0 <= i < |found| ==> found[i] in s.orders
    requires i < |found|
  {
    var code := s.orders[found[i]].code;
    |code| == 0 || (code !in seen && forall j :: 0 <= j < i ==> s.orders[found[j]].code != code)
  }

  /** Targets and first mentions correspond, in the order of the request; `at[k]` is where target k was found. */
  ghost predicate Led(s: State, found: seq<OrderId>, seen: set<Code>, targets: seq<Target>, at: seq<nat>)
    requires forall i :: 0 <= i < |found| ==> found[i] in s.orders
  {
    |at| == |targets| &&
    (forall k :: 0 <= k < |at| ==>
      at[k] < |found| && Leads(s, found, seen, at[k]) &&
      targets[k] == Target(found[at[k]], GroupOf(s, found[at[k]]))) &&
    (forall j, k :: 0 <= j < k < |at| ==> at[j] < at[k]) &&
    (forall i :: 0 <= i < |found| && Leads(s, found, seen, i) ==> i in at)
  }

  /** Each code found is left with the row that leads it; other codes keep their rows. */
  ghost predicate Gathered(s: State, r: State, found: seq<OrderId>, seen: set<Code>)
    requires forall i :: 0 <= i < |found| ==> found[i] in s.orders
  {
    Numbered(r) && r.nextOrder == s.nextOrder && r.orders.Keys == s.orders.Keys && r.stops == s.stops &&
    (forall o :: o in s.orders ==> r.orders[o].code == s.orders[o].code) &&
    (forall i :: 0 <= i < |found| && Leads(s, found, seen, i) ==>
      IsLive(r.orders, found[i]) &&
      (|s.orders[found[i]].code| > 0 ==> SiblingsOf(r, s.orders[found[i]].code) == [found[i]])) &&
    (forall code :: (code in seen || forall i :: 0 <= i < |found| ==> s.orders[found[i]].code != code) ==>
      SameRows(s, r, code))
  }

  lemma {:induction false} FoldOneRow(s: State, o: OrderId, code: Code)
    requires Numbered(s) && IsLive(s.orders, o)
    ensures var r := Consolidate(s, o);
      Numbered(r) && r.nextOrder == s.nextOrder && r.orders.Keys == s.orders.Keys && r.stops == s.stops &&
      IsLive(r.orders, o) && (forall x :: x in s.orders ==> r.orders[x].code == s.orders[x].code) &&
      (|s.orders[o].code| > 0 ==> SiblingsOf(r, s.orders[o].code) == [o]) && o in SiblingsOf(r, s.orders[o].code) &&
      (|s.orders[o].code| == 0 || code != s.orders[o].code ==> SameRows(s, r, code))
  {
    hide Siblings, Consolidate;
    var sibs := SiblingsOf(s, s.orders[o].code);
    assert o in sibs;
    NothingFolded(s, o);
    SameRowsSelf(s, code);
    if Splits(s, o) {
      FoldFrame(s, o, code);
      FoldFrame(s, o, s.orders[o].code);
      OneRowLeft(s, o);
    }
  }

  lemma {:induction false} NothingFolded(s: State, o: OrderId)
    requires Numbered(s) && IsLive(s.orders, o)
    ensures Splits(s, o) ==> Consolidate(s, o).stops == s.stops
    ensures !Splits(s, o) ==> Consolidate(s, o) == s
  {
  }

  /** Past the first order, with its code marked as seen, the same rows lead. */
  lemma {:induction false} LeadsNext(s: State, one: State, found: seq<OrderId>, seen: set<Code>)
    requires |found| > 0 && forall i :: 0 <= i < |found| ==> found[i] in s.orders
    requires one.orders.Keys == s.orders.Keys && forall o :: o in s.orders ==> one.orders[o].code == s.orders[o].code
    ensures forall i :: 0 <= i < |found| - 1 ==> found[1..][i] in one.orders
    ensures forall i: nat :: i < |found| - 1 ==>
      (Leads(one, found[1..], seen + {s.orders[found[0]].code}, i) <==> Leads(s, found, seen, i + 1))
  {
    var rest := found[1..];
    assert forall i :: 0 <= i < |rest| ==> rest[i] == found[i + 1];
    forall i: nat | i < |rest|
      ensures Leads(one, rest, seen + {s.orders[found[0]].code}, i) <==> Leads(s, found, seen, i + 1)
    {
      var code := s.orders[found[i + 1]].code;
      if Leads(s, found, seen, i + 1) && |code| > 0 {
        assert s.orders[found[0]].code != code;
        forall j | 0 <= j < i ensures one.orders[rest[j]].code != code { assert rest[j] == found[j + 1]; }
      } else if |code| > 0 && code !in seen && code != s.orders[found[0]].code {
        var j :| 0 <= j < i + 1 && s.orders[found[j]].code == code;
        assert rest[j - 1] == found[j];
      }
    }
  }

  lemma {:induction false} FindableNext(s: State, one: State, found: seq<OrderId>, seen: set<Code>)
    requires |found| > 0 && Findable(s, found, seen)
    requires one.orders.Keys == s.orders.Keys && forall o :: o in s.orders ==> one.orders[o].code == s.orders[o].code
    requires forall o ::
      IsLive(s.orders, o) && (|s.orders[o].code| == 0 || s.orders[o].code != s.orders[found[0]].code) ==>
      IsLive(one.orders, o)
    ensures Findable(one, found[1..], seen + {s.orders[found[0]].code})
  {
    hide Leads;
    LeadsNext(s, one, found, seen);
    var rest, more := found[1..], seen + {s.orders[found[0]].code};
    forall i | 0 <= i < |rest| && Leads(one, rest, more, i) ensures IsLive(one.orders, rest[i]) {
      assert Leads(s, found, seen, i + 1);
      LeadsOther(s, found, seen, i + 1);
    }
  }

  lemma {:induction false} LeadsOther(s: State, found: seq<OrderId>, seen: set<Code>, i: nat)
    requires (forall i :: 0 <= i < |found| ==> found[i] in s.orders) && 0 < i < |found| && Leads(s, found, seen, i)
    ensures |s.orders[found[i]].code| == 0 ||
      (s.orders[found[i]].code != s.orders[found[0]].code && s.orders[found[i]].code !in seen)
  {
  }

  /** What holds of the rest of the request holds of it in place. */
  lemma {:induction false} LedLater(s: State, one: State, found: seq<OrderId>, seen: set<Code>, targets: seq<Target>,
        later: seq<nat>, at: seq<nat>)
    requires |found| > 0 && (forall i :: 0 <= i < |found| ==> found[i] in s.orders)
    requires one.orders.Keys == s.orders.Keys && forall o :: o in s.orders ==> one.orders[o].code == s.orders[o].code
    requires forall o ::
      o in s.orders && (|s.orders[o].code| == 0 || s.orders[o].code !in seen + {s.orders[found[0]].code}) ==>
      GroupOf(one, o) == GroupOf(s, o)
    requires Led(one, found[1..], seen + {s.orders[found[0]].code}, targets, later)
    requires |at| == |later| && forall k :: 0 <= k < |at| ==> at[k] == later[k] + 1
    ensures forall k :: 0 <= k < |at| ==>
      at[k] < |found| && Leads(s, found, seen, at[k]) && targets[k] == Target(found[at[k]], GroupOf(s, found[at[k]]))
    ensures forall j, k :: 0 <= j < k < |at| ==> at[j] < at[k]
    ensures forall i :: 0 < i < |found| && Leads(s, found, seen, i) ==> i in at
  {
    hide Leads, GroupOf;
    LeadsNext(s, one, found, seen);
    var more := seen + {s.orders[found[0]].code};
    forall k | 0 <= k < |at|
      ensures at[k] < |found| && Leads(s, found, seen, at[k])
      ensures targets[k] == Target(found[at[k]], GroupOf(s, found[at[k]]))
    {
      assert Leads(one, found[1..], more, later[k]);
      LeadsAnew(one, found[1..], more, later[k]);
    }
    forall i | 0 < i < |found| && Leads(s, found, seen, i) ensures i in at {
      assert Leads(one, found[1..], more, i - 1);
      var k :| 0 <= k < |later| && later[k] == i - 1;
      assert at[k] == i;
    }
  }

  lemma {:induction false} LeadsAnew(s: State, found: seq<OrderId>, seen: set<Code>, i: nat)
    requires (forall i :: 0 <= i < |found| ==> found[i] in s.orders) && i < |found|
    ensures Leads(s, found, seen, i) ==> |s.orders[found[i]].code| == 0 || s.orders[found[i]].code !in seen
    ensures i == 0 ==> (Leads(s, found, seen, i) <==>
      |s.orders[found[i]].code| == 0 || s.orders[found[i]].code !in seen)
  {
  }

  lemma {:induction false} GatheredLater(s: State, one: State, r: State, found: seq<OrderId>, seen: set<Code>)
    requires |found| > 0 && (forall i :: 0 <= i < |found| ==> found[i] in s.orders)
    requires one.orders.Keys == s.orders.Keys && forall o :: o in s.orders ==> one.orders[o].code == s.orders[o].code
    requires one.nextOrder == s.nextOrder && one.stops == s.stops
    requires forall c :: |c| == 0 || c != s.orders[found[0]].code || c in seen ==> SameRows(s, one, c)
    requires Gathered(one, r, found[1..], seen + {s.orders[found[0]].code})
    requires Leads(s, found, seen, 0) ==>
      IsLive(one.orders, found[0]) && found[0] in SiblingsOf(one, s.orders[found[0]].code) &&
      (|s.orders[found[0]].code| > 0 ==> SiblingsOf(one, s.orders[found[0]].code) == [found[0]])
    ensures Gathered(s, r, found, seen)
  {
    hide Leads, SiblingsOf, Numbered, SameRows;
    LeadsNext(s, one, found, seen);
    var first := s.orders[found[0]].code;
    forall i | 0 <= i < |found| && Leads(s, found, seen, i)
      ensures IsLive(r.orders, found[i])
      ensures |s.orders[found[i]].code| > 0 ==> SiblingsOf(r, s.orders[found[i]].code) == [found[i]]
    {
      if i > 0 { assert Leads(one, found[1..], seen + {first}, i - 1); }
      else { RowStays(one, r, first, found[0]); }
    }
    forall c | c in seen || forall i :: 0 <= i < |found| ==> s.orders[found[i]].code != c ensures SameRows(s, r, c) {
      NotNext(s, found, c, seen);
      assert SameRows(one, r, c);
      SameRowsAgain(s, one, r, c);
    }
  }

  lemma {:induction false} NotNext(s: State, found: seq<OrderId>, c: Code, seen: set<Code>)
    requires |found| > 0 && forall i :: 0 <= i < |found| ==> found[i] in s.orders
    requires c in seen || forall i :: 0 <= i < |found| ==> s.orders[found[i]].code != c
    ensures c in seen || s.orders[found[0]].code != c
    ensures c in seen || forall i :: 0 <= i < |found[1..]| ==> s.orders[found[1..][i]].code != c
  {
  }

  lemma {:induction false} RowStays(s: State, r: State, code: Code, o: OrderId)
    requires SameRows(s, r, code) && o in SiblingsOf(s, code)
    ensures IsLive(r.orders, o) && SiblingsOf(r, code) == SiblingsOf(s, code)
  {
  }

  /** Gathering stops at the first order of each code, and folds the code into it. */
  lemma {:induction false} GatherLeads(s: State, found: seq<OrderId>, seen: set<Code>) returns (at: seq<nat>)
    requires Numbered(s) && Findable(s, found, seen)
    ensures Led(s, found, seen, Gather(s, found, seen).1, at) && Gathered(s, Gather(s, found, seen).0, found, seen)
    decreases |found|
  {
    hide Siblings, Consolidate, Numbered, SameRows, GroupOf, Leads;
    if |found| == 0 {
      at := [];
      forall code ensures SameRows(s, s, code) { SameRowsSelf(s, code); }
    } else {
      var code := s.orders[found[0]].code;
      LeadsAnew(s, found, seen, 0);
      if |code| > 0 && code in seen {
        assert seen + {code} == seen;
        FindableNext(s, s, found, seen);
        var later := GatherLeads(s, found[1..], seen);
        at := SkippedGathered(s, found, seen, later);
      } else {
        FoldLeads(s, found, seen);
        var later := GatherLeads(Consolidate(s, found[0]), found[1..], seen + {code});
        at := FirstGathered(s, found, seen, later);
      }
    }
  }

  /** After the first order has been folded, the rest of the request is as it was. */
  lemma {:induction false} FoldLeads(s: State, found: seq<OrderId>, seen: set<Code>)
    requires Numbered(s) && |found| > 0 && Findable(s, found, seen) && Leads(s, found, seen, 0)
    ensures var one, code := Consolidate(s, found[0]), s.orders[found[0]].code;
      Numbered(one) && one.orders.Keys == s.orders.Keys && one.nextOrder == s.nextOrder && one.stops == s.stops &&
      (forall o :: o in s.orders ==> one.orders[o].code == s.orders[o].code) &&
      (forall c :: |code| == 0 || c != code ==> SameRows(s, one, c)) &&
      IsLive(one.orders, found[0]) && found[0] in SiblingsOf(one, code) &&
      (|code| > 0 ==> SiblingsOf(one, code) == [found[0]]) && Findable(one, found[1..], seen + {code})
  {
    hide SiblingsOf, Consolidate, Numbered, SameRows, GroupOf, Leads;
    var one, code := Consolidate(s, found[0]), s.orders[found[0]].code;
    forall c ensures |code| == 0 || c != code ==> SameRows(s, one, c) { FoldOneRow(s, found[0], c); }
    FoldOneRow(s, found[0], code);
    RowsStayLive(s, one, code);
    FindableNext(s, one, found, seen);
  }

  lemma {:induction false} FirstGathered(s: State, found: seq<OrderId>, seen: set<Code>, later: seq<nat>)
    returns (at: seq<nat>)
    requires Numbered(s) && |found| > 0 && Findable(s, found, seen) && Leads(s, found, seen, 0)
    requires forall i :: 0 <= i < |found| - 1 ==> found[1..][i] in Consolidate(s, found[0]).orders
    requires var one, more := Consolidate(s, found[0]), seen + {s.orders[found[0]].code};
      Led(one, found[1..], more, Gather(one, found[1..], more).1, later) &&
      Gathered(one, Gather(one, found[1..], more).0, found[1..], more)
    ensures Led(s, found, seen, Gather(s, found, seen).1, at) && Gathered(s, Gather(s, found, seen).0, found, seen)
  {
    hide SiblingsOf, Consolidate, Numbered, SameRows, GroupOf, Leads, Gathered, Led, Gather;
    var one, code := Consolidate(s, found[0]), s.orders[found[0]].code;
    LeadsAnew(s, found, seen, 0);
    FoldLeads(s, found, seen);
    RowsStayLive(s, one, code);
    var tail := seq(|later|, k requires 0 <= k < |later| => later[k] + 1);
    var (r, rest) := Gather(one, found[1..], seen + {code});
    LedCount(one, found[1..], seen + {code}, rest, later);
    LedLater(s, one, found, seen, rest, later, tail);
    at := [0] + tail;
    LedFirst(s, found, seen, rest, tail);
    GatherStep(s, found, seen);
    GatheredLater(s, one, r, found, seen);
  }

  lemma {:induction false} SkippedGathered(s: State, found: seq<OrderId>, seen: set<Code>, later: seq<nat>)
      returns (at: seq<nat>)
    requires |found| > 0 && (forall i :: 0 <= i < |found| ==> found[i] in s.orders)
    requires |s.orders[found[0]].code| > 0 && s.orders[found[0]].code in seen
    requires Led(s, found[1..], seen, Gather(s, found[1..], seen).1, later)
    requires Gathered(s, Gather(s, found[1..], seen).0, found[1..], seen)
    ensures Led(s, found, seen, Gather(s, found, seen).1, at) && Gathered(s, Gather(s, found, seen).0, found, seen)
  {
    hide SiblingsOf, Consolidate, Numbered, SameRows, GroupOf, Leads, Gathered;
    assert seen + {s.orders[found[0]].code} == seen;
    LeadsAnew(s, found, seen, 0);
    forall c ensures SameRows(s, s, c) { SameRowsSelf(s, c); }
    at := seq(|later|, k requires 0 <= k < |later| => later[k] + 1);
    LedLater(s, s, found, seen, Gather(s, found, seen).1, later, at);
    GatheredLater(s, s, Gather(s, found, seen).0, found, seen);
  }

  lemma {:induction false} LedCount(s: State, found: seq<OrderId>, seen: set<Code>, targets: seq<Target>, at: seq<nat>)
    requires forall i :: 0 <= i < |found| ==> found[i] in s.orders
    requires Led(s, found, seen, targets, at)
    ensures |at| == |targets|
  {
  }

  lemma {:induction false} GatherStep(s: State, found: seq<OrderId>, seen: set<Code>)
    requires |found| > 0 && (forall i :: 0 <= i < |found| ==> found[i] in s.orders) && Leads(s, found, seen, 0)
    ensures var (r, rest) := Gather(Consolidate(s, found[0]), found[1..], seen + {s.orders[found[0]].code});
      Gather(s, found, seen) == (r, [Target(found[0], GroupOf(s, found[0]))] + rest)
  {
    hide Consolidate;
  }

  lemma {:induction false} LedFirst(s: State, found: seq<OrderId>, seen: set<Code>, rest: seq<Target>, tail: seq<nat>)
    requires |found| > 0 && (forall i :: 0 <= i < |found| ==> found[i] in s.orders) && Leads(s, found, seen, 0)
    requires |tail| == |rest| && forall k :: 0 <= k < |tail| ==> 0 < tail[k] < |found|
    requires forall k :: 0 <= k < |tail| ==>
      Leads(s, found, seen, tail[k]) && rest[k] == Target(found[tail[k]], GroupOf(s, found[tail[k]]))
    requires forall j, k :: 0 <= j < k < |tail| ==> tail[j] < tail[k]
    requires forall i :: 0 < i < |found| && Leads(s, found, seen, i) ==> i in tail
    ensures Led(s, found, seen, [Target(found[0], GroupOf(s, found[0]))] + rest, [0] + tail)
  {
    hide Leads, GroupOf;
  }

  lemma {:induction false} RowsStayLive(s: State, one: State, code: Code)
    requires Numbered(s) && one.orders.Keys == s.orders.Keys
    requires forall o :: o in s.orders ==> one.orders[o].code == s.orders[o].code
    requires forall c :: |code| == 0 || c != code ==> SameRows(s, one, c)
    ensures forall o :: IsLive(s.orders, o) && (|s.orders[o].code| == 0 || s.orders[o].code != code) ==>
      IsLive(one.orders, o)
    ensures forall o :: o in s.orders && (|s.orders[o].code| == 0 || s.orders[o].code != code) ==>
      GroupOf(one, o) == GroupOf(s, o)
  {
    hide Siblings;
    forall o | o in s.orders && (|s.orders[o].code| == 0 || s.orders[o].code != code)
      ensures (IsLive(s.orders, o) ==> IsLive(one.orders, o)) && GroupOf(one, o) == GroupOf(s, o)
    {
      if |s.orders[o].code| == 0 && |code| > 0 { assert s.orders[o].code != code; }
      assert SameRows(s, one, s.orders[o].code);
      if IsLive(s.orders, o) { assert o in SiblingsOf(s, s.orders[o].code); }
    }
  }

  // ----- The request the fold leaves -----------------------------------------------------------

  /** The order that stands for o: the target of its group, or o itself. */
  function Leader(targets: seq<Target>, o: OrderId): (r: OrderId)
    ensures (exists k :: 0 <= k < |targets| && o in targets[k].merged && r == targets[k].order) ||
            (r == o && forall k :: 0 <= k < |targets| ==> o !in targets[k].merged)
    decreases |targets|
  {
    if |targets| == 0 then o
    else
      var n := |targets| - 1;
      if o in targets[n].merged then targets[n].order else Leader(targets[..n], o)
  }

  function Renamed(items: seq<Item>, targets: seq<Target>): (r: seq<Item>)
    ensures |r| == |items|
    ensures forall i :: 0 <= i < |items| ==> r[i] == items[i].(order := Leader(targets, items[i].order))
  {
    seq(|items|, i requires 0 <= i < |items| => items[i].(order := Leader(targets, items[i].order)))
  }

  function Orders(targets: seq<Target>): (r: seq<OrderId>)
    ensures |r| == |targets| && forall i :: 0 <= i < |targets| ==> r[i] == targets[i].order
  {
    seq(|targets|, i requires 0 <= i < |targets| => targets[i].order)
  }

  /** The request as it reads once every code it names has one row. */
  function Folded(req: Request, targets: seq<Target>): Request {
    req.(found := Orders(targets), items := Renamed(req.items, targets))
  }

  /** No row stands in two groups. */
  ghost predicate Apart(targets: seq<Target>) {
    (forall k :: 0 <= k < |targets| ==> targets[k].order in targets[k].merged) &&
    forall j, k, o: OrderId :: 0 <= j < k < |targets| && o in targets[j].merged ==> o !in targets[k].merged
  }

  lemma {:induction false} LeaderIs(targets: seq<Target>, k: nat, o: OrderId)
    requires Apart(targets) && k < |targets|
    ensures Leader(targets, o) == targets[k].order <==> o in targets[k].merged
  {
    hide Leader;
    if j: nat :| j < |targets| && o in targets[j].merged && Leader(targets, o) == targets[j].order {
      assert targets[j].order in targets[j].merged;
    }
  }

  /** The items of a group, under the order that stands for it. */
  lemma {:induction false} MatchingRenamed(items: seq<Item>, targets: seq<Target>, k: nat)
    requires Apart(targets) && k < |targets|
    ensures Matching(Renamed(items, targets), [targets[k].order]) ==
            Relabelled(Matching(items, targets[k].merged), targets[k].order)
    decreases |items|
  {
    hide Leader, Apart;
    if |items| > 0 {
      var n := |items| - 1;
      MatchingRenamed(items[..n], targets, k);
      assert Renamed(items, targets)[..n] == Renamed(items[..n], targets);
      LeaderIs(targets, k, items[n].order);
    }
  }

  function Relabelled(items: seq<Item>, o: OrderId): (r: seq<Item>)
    ensures |r| == |items| && forall i :: 0 <= i < |items| ==> r[i] == items[i].(order := o)
  {
    seq(|items|, i requires 0 <= i < |items| => items[i].(order := o))
  }

  lemma {:induction false} MergedRenamed(items: seq<Item>, targets: seq<Target>, k: nat)
    requires Apart(targets) && k < |targets|
    ensures var m := MergeItems(items, targets[k]); var o := targets[k].order;
      MergeItems(Renamed(items, targets), Target(o, [o])) == if m.Some? then Some(m.value.(order := o)) else None
  {
    hide Matching, Leader, Renamed, Apart;
    MatchingRenamed(items, targets, k);
    var matched := Matching(items, targets[k].merged);
    SumPointwise(Relabelled(matched, targets[k].order), QtyOf(), matched, QtyOf());
  }

  lemma {:induction false} HubsRenamed(items: seq<Item>, targets: seq<Target>)
    ensures PlannedHubs(Renamed(items, targets)) == PlannedHubs(items)
    decreases |items|
  {
    hide Leader;
    if |items| > 0 {
      var n := |items| - 1;
      HubsRenamed(items[..n], targets);
      assert Renamed(items, targets)[..n] == Renamed(items[..n], targets);
    }
  }

  lemma {:induction false} PlanRenamed(s: State, req: Request, targets: seq<Target>, k: nat, leaving: bool)
    requires Apart(targets) && k < |targets| && targets[k].order in s.orders
    ensures PlanOne(s, Folded(req, targets), Target(targets[k].order, [targets[k].order]), leaving) ==
            PlanOne(s, req, targets[k], leaving)
  {
    hide MergeItems, Apart, Renamed, Effective, Available;
    MergedRenamed(req.items, targets, k);
  }

  lemma {:induction false} PlansRenamed(s: State, req: Request, targets: seq<Target>, n: nat, leaving: bool)
    requires Apart(targets) && n <= |targets| && forall i :: 0 <= i < |targets| ==> targets[i].order in s.orders
    ensures forall i :: 0 <= i < n ==> Alone(Orders(targets))[..n][i].order in s.orders
    ensures PlanAll(s, Folded(req, targets), Alone(Orders(targets))[..n], leaving) ==
            PlanAll(s, req, targets[..n], leaving)
    decreases n
  {
    hide PlanOne, Apart;
    if n > 0 {
      var alone := Alone(Orders(targets));
      PlansRenamed(s, req, targets, n - 1, leaving);
      PlanRenamed(s, req, targets, n - 1, leaving);
      assert alone[..n][..n - 1] == alone[..n - 1] && targets[..n][..n - 1] == targets[..n - 1];
    }
  }

  // ----- Gathering what has been gathered ------------------------------------------------------

  lemma {:induction false} GroupsApart(s: State, found: seq<OrderId>, targets: seq<Target>, at: seq<nat>)
    requires Numbered(s) && NoDuplicates(found)
    requires forall i :: 0 <= i < |found| ==> found[i] in s.orders && IsLive(s.orders, found[i])
    requires Led(s, found, {}, targets, at)
    ensures Apart(targets)
  {
    hide Siblings;
    forall k | 0 <= k < |targets| ensures targets[k].order in targets[k].merged {
      assert targets[k] == Target(found[at[k]], GroupOf(s, found[at[k]]));
      assert found[at[k]] in SiblingsOf(s, s.orders[found[at[k]]].code);
    }
    forall j, k, o: OrderId | 0 <= j < k < |targets| && o in targets[j].merged ensures o !in targets[k].merged {
      assert at[j] < at[k] && Leads(s, found, {}, at[k]);
      GroupHolds(s, found[at[j]], o);
      GroupHolds(s, found[at[k]], o);
    }
  }

  lemma {:induction false} GroupHolds(s: State, o: OrderId, x: OrderId)
    requires IsLive(s.orders, o)
    ensures x in GroupOf(s, o) ==>
      IsLive(s.orders, x) && s.orders[x].code == s.orders[o].code && (|s.orders[o].code| == 0 ==> x == o)
  {
  }

  lemma {:induction false} GatherAgain(s: State, found: seq<OrderId>, seen: set<Code>)
    requires Numbered(s) && forall i :: 0 <= i < |found| ==> found[i] in s.orders && IsLive(s.orders, found[i])
    requires forall i :: 0 <= i < |found| && |s.orders[found[i]].code| > 0 ==>
      s.orders[found[i]].code !in seen && SiblingsOf(s, s.orders[found[i]].code) == [found[i]]
    requires forall i, j :: 0 <= i < j < |found| ==>
      |s.orders[found[i]].code| == 0 || s.orders[found[i]].code != s.orders[found[j]].code
    ensures Gather(s, found, seen) == (s, Alone(found))
    decreases |found|
  {
    hide Numbered, Consolidate, SiblingsOf;
    if |found| > 0 {
      var o, rest := found[0], found[1..];
      assert forall i :: 0 <= i < |rest| ==> rest[i] == found[i + 1];
      SettledTarget(s, o);
      GatherAgain(s, rest, seen + {s.orders[o].code});
      assert [Target(o, [o])] + Alone(rest) == Alone(found);
    }
  }

  lemma {:induction false} SettledTarget(s: State, o: OrderId)
    requires Numbered(s) && IsLive(s.orders, o)
    requires |s.orders[o].code| > 0 ==> SiblingsOf(s, s.orders[o].code) == [o]
    ensures Consolidate(s, o) == s && TargetOf(s, o) == Target(o, [o])
  {
  }

  /**
   * Gathering takes the orders in turn and stops at the first of each code: it folds the code into that row, and the
   * target stands for all the rows the code had.
   */
  lemma {:induction false} GatheredOnce(s: State, req: Request)
    requires Numbered(s) && FoundIn(s, req)
    ensures var (whole, targets) := Gather(s, req.found, {});
      (exists at :: Led(s, req.found, {}, targets, at)) && Gathered(s, whole, req.found, {})
  {
    hide Gather, Led, Gathered;
    var at := GatherLeads(s, req.found, {});
  }

  /** What is left of a request after gathering, and that gathering it again would do nothing. */
  lemma {:induction false} GatheredIsWhole(s: State, req: Request)
    requires Numbered(s) && FoundIn(s, req) && NoDuplicates(req.found)
    ensures var (whole, targets) := Gather(s, req.found, {}); var asked := Folded(req, targets);
      Apart(targets) && FoundIn(whole, asked) && Gather(whole, asked.found, {}) == (whole, Alone(asked.found)) &&
      (|targets| == 0 <==> |req.found| == 0)
  {
    hide Gather, Siblings, GroupOf, Numbered, Apart, Renamed;
    var (whole, targets) := Gather(s, req.found, {});
    var found := Orders(targets);
    var at := GatherLeads(s, req.found, {});
    GroupsApart(s, req.found, targets, at);
    LeadersLeft(s, whole, req.found, targets, at);
    GatherAgain(whole, found, {});
    if |targets| > 0 { assert at[0] < |req.found|; }
    if |req.found| > 0 {
      assert Leads(s, req.found, {}, 0);
      assert 0 in at;
    }
  }

  lemma {:induction false} LeadersLeft(s: State, whole: State, found: seq<OrderId>, targets: seq<Target>, at: seq<nat>)
    requires Numbered(s) && forall i :: 0 <= i < |found| ==> found[i] in s.orders && IsLive(s.orders, found[i])
    requires Led(s, found, {}, targets, at) && Gathered(s, whole, found, {})
    ensures forall i :: 0 <= i < |targets| ==>
      targets[i].order in whole.orders && IsLive(whole.orders, targets[i].order)
    ensures forall i :: 0 <= i < |targets| && |whole.orders[targets[i].order].code| > 0 ==>
      SiblingsOf(whole, whole.orders[targets[i].order].code) == [targets[i].order]
    ensures forall i, j :: 0 <= i < j < |targets| ==>
      |whole.orders[targets[i].order].code| == 0 ||
      whole.orders[targets[i].order].code != whole.orders[targets[j].order].code
  {
    hide SiblingsOf, GroupOf, Numbered, SameRows;
    forall i | 0 <= i < |targets|
      ensures targets[i].order == found[at[i]] && IsLive(whole.orders, targets[i].order) && Leads(s, found, {}, at[i])
    {
      assert Leads(s, found, {}, at[i]);
    }
  }

  lemma {:induction false} DiscardKeeps(s: State, req: Request)
    requires DiscardDraft(s, req).Ok?
    ensures DiscardDraft(s, req).value == s.(lines := DiscardDraft(s, req).value.lines)
  {
    hide HasLine, Departed, DropLines;
  }

  /** A dispatch that names split codes: folding them first and dispatching the rows left is the same dispatch. */
  lemma {:induction false} ConfirmGathers(s: State, req: Request)
    requires Numbered(s) && FoundIn(s, req) && NoDuplicates(req.found)
    ensures var (whole, targets) := Gather(s, req.found, {});
      FoundIn(whole, Folded(req, targets)) && Confirm(s, req) == Confirm(whole, Folded(req, targets))
  {
    hide Gather, PlanAll, Route, DispatchAll, Apart, Renamed, MergeItems, Discard, Numbered;
    var (whole, targets) := Gather(s, req.found, {});
    var asked := Folded(req, targets);
    GatheredIsWhole(s, req);
    HubsRenamed(req.items, targets);
    var alone := Alone(asked.found);
    if DiscardDraft(whole, req).Ok? {
      DiscardKeeps(whole, req);
      PlansRenamed(DiscardDraft(whole, req).value, req, targets, |targets|, true);
      assert alone[..|targets|] == alone && targets[..|targets|] == targets;
    }
    hide NamesOtherHub, ContractHubs;
    forall origin: Option<HubId> ensures NamesOtherHub(asked, alone, origin) <==> NamesOtherHub(req, targets, origin) {
      NamesRenamed(req, targets, origin);
    }
    forall orders: map<OrderId, Order> ensures ContractHubs(orders, alone) == ContractHubs(orders, targets) {
      ContractsRenamed(orders, targets);
    }
  }

  lemma {:induction false} NamesRenamed(req: Request, targets: seq<Target>, origin: Option<HubId>)
    requires Apart(targets)
    ensures NamesOtherHub(Folded(req, targets), Alone(Orders(targets)), origin) <==> NamesOtherHub(req, targets, origin)
  {
    hide Apart, MergeItems, Renamed;
    forall k | 0 <= k < |targets| { MergedRenamed(req.items, targets, k); }
  }

  lemma {:induction false} ContractsRenamed(orders: map<OrderId, Order>, targets: seq<Target>)
    ensures ContractHubs(orders, Alone(Orders(targets))) == ContractHubs(orders, targets)
  {
  }

  /** A new draft that names split codes, likewise. */
  lemma {:induction false} SaveGathers(s: State, req: Request)
    requires Numbered(s) && FoundIn(s, req) && NoDuplicates(req.found) && req.draftCode.None?
    ensures var (whole, targets) := Gather(s, req.found, {});
      FoundIn(whole, Folded(req, targets)) && SaveDraft(s, req) == SaveDraft(whole, Folded(req, targets))
  {
    hide Gather, PlanAll, Route, ReserveAll, Apart, Renamed, Numbered;
    var (whole, targets) := Gather(s, req.found, {});
    var asked := Folded(req, targets);
    GatheredIsWhole(s, req);
    HubsRenamed(req.items, targets);
    PlansRenamed(whole, req, targets, |targets|, false);
    assert Alone(asked.found)[..|targets|] == Alone(asked.found) && targets[..|targets|] == targets;
  }

  // ----- Saving a draft again ------------------------------------------------------------------

  /** No planned line is on the trip, nor on none. */
  ghost predicate Cleared(ls: seq<Line>, c: Code) {
    forall i :: 0 <= i < |ls| && IsPlanned(ls[i]) ==> ls[i].trip.Some? && ls[i].trip.value != c
  }

  lemma {:induction false} FoldClears(s: State, p: OrderId, c: Code)
    requires p in s.orders && Cleared(s.lines, c)
    ensures Cleared(Consolidate(s, p).lines, c)
  {
    hide MergedOrder, RepointLedger;
  }

  lemma {:induction false} GatherClears(s: State, found: seq<OrderId>, seen: set<Code>, c: Code)
    requires (forall i :: 0 <= i < |found| ==> found[i] in s.orders) && Cleared(s.lines, c)
    ensures Cleared(Gather(s, found, seen).0.lines, c)
    decreases |found|
  {
    hide Consolidate, Cleared;
    if |found| > 0 {
      var code := s.orders[found[0]].code;
      if |code| > 0 && code in seen {
        GatherClears(s, found[1..], seen, c);
      } else {
        FoldClears(s, found[0], c);
        GatherClears(Consolidate(s, found[0]), found[1..], seen + {code}, c);
      }
    }
  }

  lemma {:induction false} PlansUnexcluded(s: State, req: Request, c: Code, targets: seq<Target>)
    requires Cleared(s.lines, c) && forall i :: 0 <= i < |targets| ==> targets[i].order in s.orders
    ensures PlanAll(s, req.(draftCode := None, freshCode := c), targets, false) ==
            PlanAll(s, req.(draftCode := Some(c)), targets, false)
    decreases |targets|
  {
    hide Cleared, MergeItems, Available;
    if |targets| > 0 {
      PlansUnexcluded(s, req, c, targets[..|targets| - 1]);
      forall o: OrderId, h: HubId ensures Reserved(s.lines, o, h, Some(c)) == Reserved(s.lines, o, h, None) {
        NothingExcluded(s.lines, o, h, c);
      }
    }
  }

  lemma {:induction false} NothingExcluded(ls: seq<Line>, o: OrderId, h: HubId, c: Code)
    requires Cleared(ls, c)
    ensures Reserved(ls, o, h, Some(c)) == Reserved(ls, o, h, None)
  {
    SumPointwise(ls, ReservedAt(o, h, Some(c)), ls, ReservedAt(o, h, None));
  }

  /** Saving a draft again is dropping its lines and saving a new draft under its code. */
  lemma {:induction false} DraftReplaced(s: State, req: Request, c: Code)
    requires FoundIn(s, req) && |req.found| > 0 && req.draftCode == Some(c)
    requires forall i :: 0 <= i < |s.lines| && IsPlanned(s.lines[i]) ==> s.lines[i].trip.Some?
    ensures var dropped := Discard(s, c, req.userHub);
      (dropped.Err? ==> SaveDraft(s, req) == Err(dropped.error)) &&
      (dropped.Ok? ==>
        FoundIn(dropped.value, req) &&
        SaveDraft(s, req) == SaveDraft(dropped.value, req.(draftCode := None, freshCode := c)))
  {
    hide Gather, PlanAll, Route, ReserveAll, HasLine, Departed;
    var dropped := Discard(s, c, req.userHub);
    if dropped.Ok? {
      GatherClears(dropped.value, req.found, {}, c);
      var (clean, targets) := Gather(dropped.value, req.found, {});
      PlansUnexcluded(clean, req, c, targets);
      assert req.(draftCode := Some(c)) == req;
    }
  }
}
