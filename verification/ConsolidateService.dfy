/** consolidateSiblingOrdersByCode on the tables. */
module ConsolidateService {
  import opened Basics
  import opened Sums
  import opened Model
  import opened Consolidation
  import opened Tables

  lemma {:induction false} KeeperIs(ls: seq<Line>, sibs: seq<OrderId>, i: nat, from: nat, k: nat)
    requires from <= k < i < |ls| && Joins(ls, sibs, k, i) && forall j :: from <= j < k ==> !Joins(ls, sibs, j, i)
    ensures Keeper(ls, sibs, i, from) == Some(k)
    decreases k - from
  {
    if from < k { KeeperIs(ls, sibs, i, from + 1, k); }
  }

  lemma {:induction false} NoKeeper(ls: seq<Line>, sibs: seq<OrderId>, i: nat, from: nat)
    requires from <= i < |ls| && forall j :: from <= j < i ==> !Joins(ls, sibs, j, i)
    ensures Keeper(ls, sibs, i, from) == None
    decreases i - from
  {
    if from < i { NoKeeper(ls, sibs, i, from + 1); }
  }

  /** The line has a trip code to be grouped under. */
  predicate Keyed(ls: seq<Line>, sibs: seq<OrderId>, i: nat)
    requires i < |ls|
  {
    InGroup(ls[i], sibs) && ls[i].trip.Some? && |ls[i].trip.value| > 0
  }

  /** tripByCode holds the first line of every trip seen so far. */
  ghost predicate Indexes(m: map<Code, nat>, ls: seq<Line>, sibs: seq<OrderId>, n: nat)
    requires n <= |ls|
  {
    (forall c :: c in m ==> m[c] < n && Keyed(ls, sibs, m[c]) && ls[m[c]].trip == Some(c) &&
                            forall j :: 0 <= j < m[c] && Keyed(ls, sibs, j) ==> ls[j].trip != Some(c)) &&
    (forall j :: 0 <= j < n && Keyed(ls, sibs, j) ==> ls[j].trip.value in m)
  }

  lemma {:induction false} LookedUp(m: map<Code, nat>, ls: seq<Line>, sibs: seq<OrderId>, i: nat)
    requires i < |ls| && Indexes(m, ls, sibs, i)
    ensures Keeper(ls, sibs, i, 0) == if Keyed(ls, sibs, i) && ls[i].trip.value in m
        then Some(m[ls[i].trip.value]) else None
  {
    if Keyed(ls, sibs, i) && ls[i].trip.value in m {
      KeeperIs(ls, sibs, i, 0, m[ls[i].trip.value]);
    } else {
      NoKeeper(ls, sibs, i, 0);
    }
  }

  /** The objects in memory after i lines: gathered quantities, nothing deleted yet. */
  ghost predicate Gathered(work: seq<Line>, ls: seq<Line>, sibs: seq<OrderId>, i: nat)
    requires i <= |ls|
  {
    |work| == |ls| && forall j :: 0 <= j < |ls| ==> work[j] == MergeLines(ls, sibs, i)[j].(live := ls[j].live)
  }

  lemma {:induction false} GatherOne(work: seq<Line>, ls: seq<Line>, sibs: seq<OrderId>, i: nat)
    requires i < |ls| && Gathered(work, ls, sibs, i)
    ensures match Keeper(ls, sibs, i, 0)
            case None => Gathered(work, ls, sibs, i + 1)
            case Some(k) => Gathered(work[k := work[k].(qty := Some(Allocated(work[k]) + Allocated(ls[i])))], ls,
              sibs, i + 1)
  {
  }

  /**
   * The in-memory pass over the group's lines: quantities gathered on the first line of each trip, duplicates noted.
   */
  method GatherLines(ls: seq<Line>, sibs: seq<OrderId>) returns (work: seq<Line>, duplicates: set<nat>)
    ensures Gathered(work, ls, sibs, |ls|)
    ensures forall i: nat :: i in duplicates <==> IsDuplicate(ls, sibs, i)
  {
    hide MergeLines, Keeper, Gathered;
    work, duplicates := ls, {};
    var tripByCode: map<Code, nat> := map[];
    NothingGathered(ls, sibs);
    for i := 0 to |ls|
      invariant |work| == |ls| && Gathered(work, ls, sibs, i)
      invariant forall j: nat :: j in duplicates <==> j < i && IsDuplicate(ls, sibs, j)
      invariant Indexes(tripByCode, ls, sibs, i)
    {
      LookedUp(tripByCode, ls, sibs, i);
      GatherOne(work, ls, sibs, i);
      var line := ls[i];
      if Keyed(ls, sibs, i) {
        if line.trip.value in tripByCode {
          var k := tripByCode[line.trip.value];
          work := work[k := work[k].(qty := Some(Allocated(work[k]) + Allocated(line)))];
          duplicates := duplicates + {i};
        } else {
          tripByCode := tripByCode[line.trip.value := i];
        }
      }
    }
  }

  lemma {:induction false} NothingGathered(ls: seq<Line>, sibs: seq<OrderId>)
    ensures Gathered(ls, ls, sibs, 0)
  {
  }

  /** The trip table once duplicates are deleted and kept lines saved under the primary row. */
  function SavedLines(work: seq<Line>, duplicates: set<nat>, sibs: seq<OrderId>, p: OrderId): (r: seq<Line>)
    ensures |r| == |work|
  {
    seq(|work|, i requires 0 <= i < |work| =>
      if i in duplicates then work[i].(live := false)
      else if InGroup(work[i], sibs) then work[i].(order := p)
      else work[i])
  }

  /** The two UPDATE statements on the invoices. */
  function Relinked(l: seq<Tx>, duplicates: set<nat>, sibs: seq<OrderId>, p: OrderId): (r: seq<Tx>)
    ensures |r| == |l|
  {
    seq(|l|, i requires 0 <= i < |l| =>
      l[i].(order := if l[i].order in sibs then p else l[i].order,
            line := if l[i].line.Some? && l[i].line.value in duplicates then None else l[i].line))
  }

  lemma {:induction false} SavedAsMerged(work: seq<Line>, duplicates: set<nat>, ls: seq<Line>, l: seq<Tx>,
        sibs: seq<OrderId>, p: OrderId)
    requires Gathered(work, ls, sibs, |ls|) && forall i: nat :: i in duplicates <==> IsDuplicate(ls, sibs, i)
    ensures SavedLines(work, duplicates, sibs, p) == Repoint(MergeLines(ls, sibs, |ls|), sibs, p)
    ensures Relinked(l, duplicates, sibs, p) == RepointLedger(l, ls, sibs, p)
  {
    hide Keeper;
  }

  method ConsolidateSiblings(db: Database, p: OrderId)
    requires p in db.orders
    modifies db
    ensures db.Rows() == Consolidate(old(db.Rows()), p)
  {
    hide MergeLines, SavedLines, Relinked, Repoint, RepointLedger, Gathered, IsDuplicate, MergedOrder, Siblings;
    var code := db.orders[p].code;
    var siblings := SiblingsOf(db.Rows(), code);
    if |code| > 0 && |siblings| > 1 {
      assert siblings[0] in siblings;
      var merged := MergedOrder(db.orders, siblings, p);
      var work, duplicates := GatherLines(db.lines, siblings);
      SavedAsMerged(work, duplicates, db.lines, db.ledger, siblings, p);
      db.ledger := Relinked(db.ledger, duplicates, siblings, p);
      db.lines := SavedLines(work, duplicates, siblings, p);
      db.orders := Retire(db.orders, siblings, p)[p := merged];
    }
  }
}
