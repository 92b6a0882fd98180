/** When readers can tell whether a code has been consolidated. */
module FindOneLaws {
  import opened Basics
  import opened Sums
  import opened Model
  import opened Consolidation
  import opened ConsolidationLaws
  import opened LineLaws
  import opened FindOne
  import opened RequestLaws

  function AwaitsReceipt(): Line -> bool {
    (t: Line) => t.kind.InboundLine? && t.status.LinePending?
  }

  /** Readers and writers agree on which rows are drafts: no status is a draft word in another case. */
  predicate SameDrafts(orders: map<OrderId, Order>, ids: seq<OrderId>) {
    forall i :: 0 <= i < |ids| && ids[i] in orders ==>
      ReadsAsDraft(orders[ids[i]].status) == DraftLike(orders[ids[i]].status)
  }

  lemma {:induction false} SameMembers(orders: map<OrderId, Order>, ids: seq<OrderId>)
    requires SameDrafts(orders, ids)
    ensures ReadNonDrafts(orders, ids) == NonDrafts(orders, ids)
    decreases |ids|
  {
    hide ReadsAsDraft;
    if |ids| > 0 {
      SameMembers(orders, ids[..|ids| - 1]);
    }
  }

  lemma {:induction false} PendingIsChosen(ls: seq<Line>, ids: seq<OrderId>)
    ensures Sum(ls, PendingOf(ids)) == Sum(ls, WithKeys(LineOwner(), Owners(ids), Chosen(AwaitsReceipt())))
  {
    SumPointwise(ls, PendingOf(ids), ls, WithKeys(LineOwner(), Owners(ids), Chosen(AwaitsReceipt())));
  }

  lemma {:induction false} PendingOfOne(ls: seq<Line>, p: OrderId)
    ensures Sum(ls, PendingOf([p])) == AllocatedTo(ls, p, AwaitsReceipt())
  {
    SumPointwise(ls, PendingOf([p]), ls, WithKey(LineOwner(), Some(p), Chosen(AwaitsReceipt())));
  }

  /** The pending quantity moves by exactly the drift of the lines awaiting a receipt. */
  lemma {:induction false} PendingDrifts(s: State, p: OrderId)
    requires Splits(s, p)
    ensures var sibs := SiblingsOf(s, s.orders[p].code);
      Sum(Consolidate(s, p).lines, PendingOf([p])) ==
      Sum(s.lines, PendingOf(sibs)) + Drift(s.lines, sibs, |s.lines|, AwaitsReceipt())
  {
    hide Consolidate, SiblingsOf, Sum, PendingOf, AllocatedTo, Drift;
    var sibs := SiblingsOf(s, s.orders[p].code);
    SplitFacts(s, p, sibs);
    LinesDrift(s, p, AwaitsReceipt());
    PendingOfOne(Consolidate(s, p).lines, p);
    PendingIsChosen(s.lines, sibs);
    SumByKey(s.lines, Owners(sibs), LineOwner(), Chosen(AwaitsReceipt()));
  }

  /** The first line of a trip awaits a receipt whenever a line merged into it does. */
  predicate KeepersStandIn(ls: seq<Line>, sibs: seq<OrderId>) {
    forall i :: 0 <= i < |ls| && IsDuplicate(ls, sibs, i) && AwaitsReceipt()(ls[i]) ==>
      AwaitsReceipt()(ls[Keeper(ls, sibs, i, 0).value])
  }

  /** The trips with a receipt outstanding are the same exactly when the keepers stand in. */
  lemma {:induction false} SamePendingTrips(s: State, p: OrderId)
    requires Splits(s, p)
    ensures var sibs := SiblingsOf(s, s.orders[p].code);
      PendingTrips(Consolidate(s, p).lines, [p]) == PendingTrips(s.lines, sibs) <==> KeepersStandIn(s.lines, sibs)
  {
    hide Consolidate, SiblingsOf, MergedOrder, RepointLedger, KeepersStandIn, PendingTrips, MergeLines, Repoint;
    var sibs := SiblingsOf(s, s.orders[p].code);
    SplitFacts(s, p, sibs);
    TablesAfter(s, p, sibs);
    TripsShrink(s.lines, sibs, p);
    if KeepersStandIn(s.lines, sibs) { TripsKept(s.lines, sibs, p); } else { TripLost(s.lines, sibs, p); }
  }

  lemma {:induction false} TripsShrink(ls: seq<Line>, sibs: seq<OrderId>, p: OrderId)
    requires p in sibs
    ensures PendingTrips(Repoint(MergeLines(ls, sibs, |ls|), sibs, p), [p]) <= PendingTrips(ls, sibs)
  {
    hide MergeLines, Keeper;
    var r := Repoint(MergeLines(ls, sibs, |ls|), sibs, p);
    forall c | c in PendingTrips(r, [p]) ensures c in PendingTrips(ls, sibs) {
      var i :| 0 <= i < |r| && r[i].order in [p] && IsPendingInbound(r[i]) && r[i].trip == Some(c) && |c| > 0;
      assert ls[i].order in sibs && IsPendingInbound(ls[i]) && ls[i].trip == Some(c);
    }
  }

  lemma {:induction false} TripsKept(ls: seq<Line>, sibs: seq<OrderId>, p: OrderId)
    requires p in sibs && KeepersStandIn(ls, sibs)
    ensures PendingTrips(ls, sibs) <= PendingTrips(Repoint(MergeLines(ls, sibs, |ls|), sibs, p), [p])
  {
    hide MergeLines, Keeper;
    var r := Repoint(MergeLines(ls, sibs, |ls|), sibs, p);
    forall c | c in PendingTrips(ls, sibs) ensures c in PendingTrips(r, [p]) {
      var i :| 0 <= i < |ls| && ls[i].order in sibs && IsPendingInbound(ls[i]) && ls[i].trip == Some(c) && |c| > 0;
      var k := if IsDuplicate(ls, sibs, i) then Keeper(ls, sibs, i, 0).value else i;
      if IsDuplicate(ls, sibs, i) { KeepersStay(ls, sibs, i); }
      assert r[k].order in [p] && IsPendingInbound(r[k]) && r[k].trip == Some(c);
    }
  }

  /** Every other line on the keeper's trip is merged away as well. */
  lemma {:induction false} OneKeeper(ls: seq<Line>, sibs: seq<OrderId>, i: nat, j: nat)
    requires i < |ls| && j < |ls| && Keeper(ls, sibs, i, 0).Some? && Joins(ls, sibs, j, i)
    ensures j == Keeper(ls, sibs, i, 0).value || IsDuplicate(ls, sibs, j)
  {
    var k := Keeper(ls, sibs, i, 0).value;
    assert k < j ==> Joins(ls, sibs, k, j);
  }

  /** A trip whose first line does not await a receipt is no longer shown: only that line is left on it. */
  lemma {:induction false} TripLost(ls: seq<Line>, sibs: seq<OrderId>, p: OrderId)
    requires p in sibs && !KeepersStandIn(ls, sibs)
    ensures PendingTrips(Repoint(MergeLines(ls, sibs, |ls|), sibs, p), [p]) != PendingTrips(ls, sibs)
  {
    hide MergeLines, Keeper, Repoint;
    var i :| 0 <= i < |ls| && IsDuplicate(ls, sibs, i) && AwaitsReceipt()(ls[i]) &&
      !AwaitsReceipt()(ls[Keeper(ls, sibs, i, 0).value]);
    assert ls[i].trip.value in PendingTrips(ls, sibs);
    var r := Repoint(MergeLines(ls, sibs, |ls|), sibs, p);
    forall j | 0 <= j < |ls| && IsPendingInbound(r[j]) && r[j].order in [p] ensures r[j].trip != ls[i].trip {
      LineGone(ls, sibs, p, i, j);
    }
  }

  lemma {:induction false} LineGone(ls: seq<Line>, sibs: seq<OrderId>, p: OrderId, i: nat, j: nat)
    requires p in sibs && i < |ls| && j < |ls| && IsDuplicate(ls, sibs, i)
    requires !AwaitsReceipt()(ls[Keeper(ls, sibs, i, 0).value])
    requires var t := Repoint(MergeLines(ls, sibs, |ls|), sibs, p)[j]; IsPendingInbound(t) && t.order in [p]
    ensures ls[j].trip != ls[i].trip && Repoint(MergeLines(ls, sibs, |ls|), sibs, p)[j].trip == ls[j].trip
  {
    hide MergeLines, Keeper;
    if ls[j].trip == ls[i].trip { OneKeeper(ls, sibs, i, j); }
  }

  /** The columns a reader would add up over the rows it counts. */
  predicate SameColumns(orders: map<OrderId, Order>, a: seq<OrderId>, b: seq<OrderId>) {
    Sum(a, TotalCol(orders)) == Sum(b, TotalCol(orders)) && Sum(a, InboundCol(orders)) == Sum(b, InboundCol(orders)) &&
    Sum(a, OutboundCol(orders)) == Sum(b, OutboundCol(orders)) &&
    Sum(a, RemainingCol(orders)) == Sum(b, RemainingCol(orders)) && SummedLoad(orders, a) == SummedLoad(orders, b)
  }

  /** A view that adds the columns up over the given rows. */
  function Added(orders: map<OrderId, Order>, rows: seq<OrderId>, pending: int, trips: set<Code>): View {
    View(Sum(rows, TotalCol(orders)), Sum(rows, InboundCol(orders)), Sum(rows, OutboundCol(orders)),
         Sum(rows, RemainingCol(orders)), SummedLoad(orders, rows), pending, trips)
  }

  lemma {:induction false} AddedAlike(orders: map<OrderId, Order>, a: seq<OrderId>, b: seq<OrderId>, p: int, q: int,
        x: set<Code>, y: set<Code>)
    ensures Added(orders, a, p, x) == Added(orders, b, q, y) <==> SameColumns(orders, a, b) && p == q && x == y
  {
    hide SummedLoad;
  }

  lemma {:induction false} FoundSplit(s: State, p: OrderId, sibs: seq<OrderId>)
    requires Splits(s, p) && sibs == SiblingsOf(s, s.orders[p].code)
    ensures Find(s, s.orders[p].code) ==
            Ok(Added(s.orders, Members(s.orders, sibs), Sum(s.lines, PendingOf(sibs)), PendingTrips(s.lines, sibs)))
  {
    hide SiblingsOf, Members, PendingTrips, SummedLoad, PendingOf;
  }

  lemma {:induction false} FoundMerged(s: State, p: OrderId, sibs: seq<OrderId>)
    requires Splits(s, p) && sibs == SiblingsOf(s, s.orders[p].code)
    ensures var r := Consolidate(s, p); var counted := Consolidation.Active(s.orders, sibs);
      Find(r, s.orders[p].code) ==
      Ok(Added(s.orders, counted, Sum(r.lines, PendingOf([p])), PendingTrips(r.lines, [p])))
  {
    hide SiblingsOf, Consolidate, Consolidation.Active, PendingTrips, SummedLoad, PendingOf, NonDrafts, Repoint,
        MergeLines, RepointLedger;
    TablesAfter(s, p, sibs);
    SiblingsAfter(s, p);
  }

  /**
   * findOne(code) answers the same before and after consolidation exactly when the rows readers and writers count
   * carry the same, the lines awaiting a receipt do not drift, and every trip's first line stands in for those merged
   * into it.
   */
  lemma {:induction false} ConsolidationSeen(s: State, p: OrderId)
    requires Splits(s, p)
    ensures var code := s.orders[p].code; var sibs := SiblingsOf(s, code);
      Find(Consolidate(s, p), code) == Find(s, code) <==>
        SameColumns(s.orders, Members(s.orders, sibs), Consolidation.Active(s.orders, sibs)) &&
        Drift(s.lines, sibs, |s.lines|, AwaitsReceipt()) == 0 && KeepersStandIn(s.lines, sibs)
  {
    hide Consolidate, SiblingsOf, Find, PendingTrips, Members, Consolidation.Active, Drift, KeepersStandIn, PendingOf,
        Added, SameColumns;
    var sibs, r := SiblingsOf(s, s.orders[p].code), Consolidate(s, p);
    FoundSplit(s, p, sibs);
    FoundMerged(s, p, sibs);
    AddedAlike(s.orders, Members(s.orders, sibs), Consolidation.Active(s.orders, sibs), Sum(s.lines, PendingOf(sibs)),
      Sum(r.lines, PendingOf([p])), PendingTrips(s.lines, sibs), PendingTrips(r.lines, [p]));
    PendingDrifts(s, p);
    SamePendingTrips(s, p);
  }

  /** With draft statuses spelled as the writers spell them, only the trip lines decide. */
  lemma {:induction false} ConsolidationInvisible(s: State, p: OrderId)
    requires Splits(s, p) && SameDrafts(s.orders, SiblingsOf(s, s.orders[p].code))
    ensures var code := s.orders[p].code; var sibs := SiblingsOf(s, code);
      Find(Consolidate(s, p), code) == Find(s, code) <==>
        Drift(s.lines, sibs, |s.lines|, AwaitsReceipt()) == 0 && KeepersStandIn(s.lines, sibs)
  {
    hide Consolidate, SiblingsOf, Find, Drift, KeepersStandIn, SameDrafts;
    ConsolidationSeen(s, p);
    SameMembers(s.orders, SiblingsOf(s, s.orders[p].code));
  }

  lemma {:induction false} SiblingsAfter(s: State, p: OrderId)
    requires Splits(s, p)
    ensures SiblingsOf(Consolidate(s, p), s.orders[p].code) == [p]
  {
    OneRowLeft(s, p);
    assert Numbered(Consolidate(s, p));
    SiblingsAlone(Consolidate(s, p), p);
  }

  // ----- Where readers do notice ---------------------------------------------------------------

  const ROW := Order("A", INBOUND, 5, 5, 0, 5, Load(0.0, 0.0), Some(1), Some(1), None, None, true)
  const AWAITED := Line(0, Some("T"), Some(1), None, InboundLine, LinePending, Some(2), true)
  const LEAVING := Line(1, Some("T"), Some(1), None, OutboundLine, LinePending, Some(3), true)

  function Mixed(): State {
    State(map[0 := ROW, 1 := ROW], 2, [], [AWAITED, LEAVING], map[])
  }

  lemma {:induction false} MixedSiblings()
    ensures SiblingsOf(Mixed(), "A") == [0, 1] && Splits(Mixed(), 0)
  {
    assert Siblings(Mixed().orders, "A", 0) == [];
    assert Siblings(Mixed().orders, "A", 1) == [0];
  }

  lemma {:induction false} MixedMerged()
    ensures Repoint(MergeLines([AWAITED, LEAVING], [0, 1], 2), [0, 1], 0) ==
        [AWAITED.(qty := Some(5)), LEAVING.(live := false)]
  {
    var ls, sibs := [AWAITED, LEAVING], [0, 1];
    assert 0 in sibs && 1 in sibs;
    assert Keeper(ls, sibs, 0, 0) == None;
    assert Joins(ls, sibs, 0, 1);
    assert Keeper(ls, sibs, 1, 0) == Some(0);
    assert MergeLines(ls, sibs, 1) == ls;
  }

  lemma {:induction false} TwoLines(a: Line, b: Line, ids: seq<OrderId>)
    ensures Sum([a, b], PendingOf(ids)) == PendingOf(ids)(a) + PendingOf(ids)(b)
  {
    assert [a, b][..1] == [a] && [a][..0] == [];
    assert Sum([a], PendingOf(ids)) == PendingOf(ids)(a);
  }

  /** An inbound and an outbound line on one trip are merged into one line, so five units seem to be on their way in. */
  lemma {:induction false} MixedLinesShow()
    ensures Find(Mixed(), "A").Ok? && Find(Mixed(), "A").value.pendingQty == 2
    ensures Find(Consolidate(Mixed(), 0), "A").Ok? && Find(Consolidate(Mixed(), 0), "A").value.pendingQty == 5
  {
    hide Consolidate, SiblingsOf, Repoint, MergeLines, RepointLedger, MergedOrder, Members, SummedLoad, PendingTrips;
    MixedSiblings();
    TablesAfter(Mixed(), 0, [0, 1]);
    SiblingsAfter(Mixed(), 0);
    MixedMerged();
    assert 0 in [0, 1] && 1 in [0, 1] && 0 in [0];
    TwoLines(AWAITED, LEAVING, [0, 1]);
    TwoLines(AWAITED.(qty := Some(5)), LEAVING.(live := false), [0]);
  }

  const MISSPELT := ROW.(status := OTHER("draft"))

  function Misspelt(): State {
    State(map[0 := MISSPELT, 1 := ROW], 2, [], [], map[])
  }

  lemma {:induction false} MisspeltSiblings()
    ensures SiblingsOf(Misspelt(), "A") == [0, 1] && Splits(Misspelt(), 0)
  {
    assert Siblings(Misspelt().orders, "A", 0) == [];
    assert Siblings(Misspelt().orders, "A", 1) == [0];
  }

  lemma {:induction false} DraftInLowerCase()
    ensures ReadsAsDraft(OTHER("draft")) && !DraftLike(OTHER("draft"))
  {
    assert "draft"[..4] == "draf" && "draf"[..3] == "dra" && "dra"[..2] == "dr" && "dr"[..1] == "d" && "d"[..0] == "";
    assert Upper("") == "" && Upper("d") == "D" && Upper("dr") == "DR";
    assert Upper("dra") == "DRA" && Upper("draf") == "DRAF";
    assert Upper("draft") == "DRAFT";
  }

  /** The letter in either case; the dotless small i counts as an I. */
  predicate SpellsLetter(c: char, letter: char) {
    c == letter || (c as int == letter as int + 32 && 'a' <= c <= 'z') || (c == '\U{0131}' && letter == 'I')
  }

  predicate Spells(name: string, word: string) {
    |name| == |word| && forall i :: 0 <= i < |word| ==> SpellsLetter(name[i], word[i])
  }

  lemma {:induction false} UpperLetterSpells(c: char, letter: char)
    requires 'A' <= letter <= 'Z'
    ensures UpperChar(c) == letter <==> SpellsLetter(c, letter)
  {
  }

  lemma {:induction false} SpellsOneMore(name: string, word: string)
    requires 0 < |name| == |word|
    ensures var n := |name| - 1;
      Spells(name, word) <==> Spells(name[..n], word[..n]) && SpellsLetter(name[n], word[n])
  {
    hide SpellsLetter;
  }

  lemma {:induction false} UpperSpells(name: string, word: string)
    requires forall i :: 0 <= i < |word| ==> 'A' <= word[i] <= 'Z'
    ensures Upper(name) == word <==> Spells(name, word)
    decreases |name|
  {
    hide UpperChar, SpellsLetter;
    UpperLength(name);
    if 0 < |name| && |name| == |word| {
      hide Spells;
      var n := |name| - 1;
      UpperSpells(name[..n], word[..n]);
      UpperLetterSpells(name[n], word[n]);
      SpellsOneMore(name, word);
      UpperLength(name[..n]);
      assert word == word[..n] + [word[n]];
    }
  }

  lemma {:induction false} UpperLength(name: string)
    ensures |Upper(name)| == |name|
    decreases |name|
  {
    if 0 < |name| { UpperLength(name[..|name| - 1]); }
  }

  /** An order is found by its code exactly when the code is not empty and some live row carries it. */
  lemma {:induction false} FoundExactly(s: State, code: Code)
    ensures Find(s, code).Ok? <==>
      0 < |code| &&
      exists o: OrderId :: o < s.nextOrder && o in s.orders && s.orders[o].live && s.orders[o].code == code
    ensures Find(s, code).Err? ==> Find(s, code).error == NotFound
  {
    hide Siblings, ViewOf;
    var sibs := SiblingsOf(s, code);
    if |sibs| > 0 { assert sibs[0] in sibs; }
    if o: OrderId :| o < s.nextOrder && IsLive(s.orders, o) && s.orders[o].code == code { assert o in sibs; }
  }

  /** Readers take a status for a draft's exactly when it spells one of the three words, in any case. */
  lemma {:induction false} ReadersTakeForDraft(st: Status)
    ensures ReadsAsDraft(st) <==>
      st in {DRAFT, PENDING, WAITING} ||
      (st.OTHER? && (Spells(st.name, "DRAFT") || Spells(st.name, "PENDING") || Spells(st.name, "WAITING")))
  {
    hide Upper, Spells;
    if st.OTHER? {
      UpperSpells(st.name, "DRAFT");
      UpperSpells(st.name, "PENDING");
      UpperSpells(st.name, "WAITING");
    }
  }

  lemma {:induction false} MisspeltRows()
    ensures Members(Misspelt().orders, [0, 1]) == [1] && Consolidation.Active(Misspelt().orders, [0, 1]) == [0, 1]
  {
    var orders := Misspelt().orders;
    DraftInLowerCase();
    assert [0, 1][..1] == [0] && [0][..0] == [];
    assert ReadNonDrafts(orders, [0]) == [] && NonDrafts(orders, [0]) == [0];
  }

  /** A row whose status is spelled "draft" is a draft to readers only: consolidation doubles the total they see. */
  lemma {:induction false} MisspeltDraftShows()
    ensures Find(Misspelt(), "A").Ok? && Find(Misspelt(), "A").value.total == 5
    ensures Find(Consolidate(Misspelt(), 0), "A").Ok? && Find(Consolidate(Misspelt(), 0), "A").value.total == 10
  {
    hide Consolidate, SiblingsOf, Repoint, MergeLines, RepointLedger, Members, Consolidation.Active, SummedLoad,
        PendingTrips, NonDrafts;
    MisspeltSiblings();
    TablesAfter(Misspelt(), 0, [0, 1]);
    SiblingsAfter(Misspelt(), 0);
    MisspeltRows();
    assert [0, 1][..1] == [0] && [0][..0] == [] && [1][..0] == [];
  }
}
