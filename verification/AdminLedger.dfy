/** The super administrator's edits of single invoices: delete, restore, change the quantity. */
module AdminLedger {
  import opened Basics
  import opened Sums
  import opened Model
  import opened RunningBalance

  datatype Edit = Delete(row: nat) | Restore(row: nat) | SetQty(row: nat, qty: int)

  function StatusOf(received: int, sent: int): Status {
    var left := Max(0, received - sent);
    if received == 0 then PENDING
    else if left == 0 && sent > 0 then COMPLETED_OUTBOUND
    else if sent > 0 && left > 0 then PARTIALLY_DELIVERED
    else STORED
  }

  function Recomputed(o: Order, received: int, sent: int): Order {
    o.(total := received, inbound := received, outbound := sent, remaining := Max(0, received - sent),
      status := StatusOf(received, sent))
  }

  /**
   * The row says what the ledger says: all that came in, all that went out, the difference, and one of four statuses,
   * each meaning what its name says.
   */
  predicate Tells(o: Order, received: int, sent: int) {
    o.total == received && o.inbound == received && o.outbound == sent &&
    o.remaining == (if sent <= received then received - sent else 0) &&
    (o.status.PENDING? <==> received == 0) &&
    (o.status.COMPLETED_OUTBOUND? <==> received != 0 && 0 < sent && received <= sent) &&
    (o.status.PARTIALLY_DELIVERED? <==> received != 0 && 0 < sent < received) &&
    (o.status.STORED? <==> received != 0 && sent <= 0)
  }

  lemma {:induction false} RecomputedTells(o: Order, received: int, sent: int)
    ensures Tells(Recomputed(o, received, sent), received, sent)
    ensures Tells(o, received, sent) <==> o == Recomputed(o, received, sent)
  {
  }

  /** The group's sums are written to every row that shares the code; a ledger that went negative is refused. */
  function Resync(s: State, ids: seq<OrderId>): Result<State> {
    var received, sent := GroupIn(s.ledger, ids), GroupOut(s.ledger, ids);
    if received < sent then Err(BadRequest)
    else Ok(s.(orders := map o | o in s.orders ::
      if o in ids then Recomputed(s.orders[o], received, sent) else s.orders[o]))
  }

  function Group(s: State, o: OrderId): seq<OrderId>
    requires o in s.orders
  {
    SiblingsOf(s, s.orders[o].code)
  }

  /** Lines of the edited invoice's trip take the new quantity. */
  function Reallocated(ls: seq<Line>, ids: seq<OrderId>, trip: Option<Code>, q: int): (r: seq<Line>)
    ensures |r| == |ls|
    ensures forall i :: 0 <= i < |ls| ==>
      r[i] == if trip.Some? && |trip.value| > 0 && ls[i].live && ls[i].order in ids && ls[i].trip == trip
              then ls[i].(qty := Some(q)) else ls[i]
  {
    seq(|ls|, i requires 0 <= i < |ls| =>
      if trip.Some? && |trip.value| > 0 && ls[i].live && ls[i].order in ids && ls[i].trip == trip
      then ls[i].(qty := Some(q)) else ls[i])
  }

  function ApplyEdit(s: State, e: Edit): Result<State> {
    if e.SetQty? && e.qty < 1 then Err(BadRequest)
    else if e.row >= |s.ledger| then Err(NotFound)
    else
      var t := s.ledger[e.row];
      if t.live != !e.Restore? then Err(BadRequest)
      else if !IsLive(s.orders, t.order) then Err(NotFound)
      else
        var ids := Group(s, t.order);
        match e
        case Delete(i) => Resync(s.(ledger := s.ledger[i := t.(live := false)]), ids)
        case Restore(i) => Resync(s.(ledger := s.ledger[i := t.(live := true)]), ids)
        case SetQty(i, q) =>
          var edited := s.(ledger := s.ledger[i := t.(qty := q)]);
          var synced :- Resync(edited, ids);
          Ok(synced.(ledger := Rewritten(edited.ledger, ids), lines := Reallocated(s.lines, ids, t.trip, q)))
  }

  /** A refused edit leaves everything as it was. */
  function Edited(s: State, e: Edit): State {
    var r := ApplyEdit(s, e);
    if r.Ok? then r.value else s
  }

  function EditAll(s: State, edits: seq<Edit>): State
    decreases |edits|
  {
    if |edits| == 0 then s else Edited(EditAll(s, edits[..|edits| - 1]), edits[|edits| - 1])
  }
}

/** What the edits keep. */
module AdminLaws {
  import opened Basics
  import opened Sums
  import opened Model
  import opened RunningBalance
  import opened AdminLedger

  /** No more has left under the code than came in. */
  predicate Solvent(s: State, code: Code) {
    GroupOut(s.ledger, SiblingsOf(s, code)) <= GroupIn(s.ledger, SiblingsOf(s, code))
  }

  /** Every row of the code tells the live receipts and dispatches of the code. */
  ghost predicate Reflects(s: State, code: Code) {
    var ids := SiblingsOf(s, code);
    forall o :: o in ids && o in s.orders ==> Tells(s.orders[o], GroupIn(s.ledger, ids), GroupOut(s.ledger, ids))
  }

  // ----- What an edit does not touch -----------------------------------------------------------

  lemma {:induction false} SameSiblings(a: map<OrderId, Order>, b: map<OrderId, Order>, code: Code, n: nat)
    requires a.Keys == b.Keys && forall o :: o in a ==> a[o].code == b[o].code && a[o].live == b[o].live
    ensures Siblings(a, code, n) == Siblings(b, code, n)
    decreases n
  {
    if n > 0 {
      SameSiblings(a, b, code, n - 1);
    }
  }

  lemma {:induction false} EditFrame(s: State, e: Edit)
    requires ApplyEdit(s, e).Ok?
    ensures var r := ApplyEdit(s, e).value;
      r.nextOrder == s.nextOrder && r.stops == s.stops && |r.ledger| == |s.ledger| &&
      r.orders.Keys == s.orders.Keys &&
      (forall o :: o in s.orders ==> r.orders[o].code == s.orders[o].code && r.orders[o].live == s.orders[o].live) &&
      forall code :: SiblingsOf(r, code) == SiblingsOf(s, code)
  {
    hide SiblingsOf, GroupIn, GroupOut, StatusOf;
    var r := ApplyEdit(s, e).value;
    forall code ensures SiblingsOf(r, code) == SiblingsOf(s, code) {
      SameGroup(s, r, code);
    }
  }

  lemma {:induction false} SameGroup(s: State, r: State, code: Code)
    requires r.nextOrder == s.nextOrder && r.orders.Keys == s.orders.Keys
    requires forall o :: o in s.orders ==> r.orders[o].code == s.orders[o].code && r.orders[o].live == s.orders[o].live
    ensures SiblingsOf(r, code) == SiblingsOf(s, code)
  {
    SameSiblings(r.orders, s.orders, code, s.nextOrder);
  }

  /** The stored balances do not count in any sum. */
  lemma {:induction false} BalancesDoNotCount(l: seq<Tx>, ids: seq<OrderId>, group: seq<OrderId>)
    ensures GroupIn(Rewritten(l, ids), group) == GroupIn(l, group)
    ensures GroupOut(Rewritten(l, ids), group) == GroupOut(l, group)
  {
    var r := Rewritten(l, ids);
    SumPointwise(r, (t: Tx) => if LiveIn(t, group) && t.kind.InboundTx? then t.qty else 0,
                 l, (t: Tx) => if LiveIn(t, group) && t.kind.InboundTx? then t.qty else 0);
    SumPointwise(r, (t: Tx) => if LiveIn(t, group) && IsDispatch(t.kind) then t.qty else 0,
                 l, (t: Tx) => if LiveIn(t, group) && IsDispatch(t.kind) then t.qty else 0);
  }

  /** An invoice of another code counts for neither side. */
  lemma {:induction false} OtherRows(l: seq<Tx>, i: nat, t: Tx, group: seq<OrderId>)
    requires i < |l| && l[i].order !in group && t.order == l[i].order
    ensures GroupIn(l[i := t], group) == GroupIn(l, group) && GroupOut(l[i := t], group) == GroupOut(l, group)
  {
    SumUpdate(l, i, t, (t: Tx) => if LiveIn(t, group) && t.kind.InboundTx? then t.qty else 0);
    SumUpdate(l, i, t, (t: Tx) => if LiveIn(t, group) && IsDispatch(t.kind) then t.qty else 0);
  }

  function EditedRow(t: Tx, e: Edit): Tx {
    match e
    case Delete(_) => t.(live := false)
    case Restore(_) => t.(live := true)
    case SetQty(_, q) => t.(qty := q)
  }

  /** An accepted edit, taken apart: the row changed, its group was re-synced, nothing else moved. */
  lemma {:induction false} EditAccepted(s: State, e: Edit)
    requires ApplyEdit(s, e).Ok?
    ensures e.row < |s.ledger| && IsLive(s.orders, s.ledger[e.row].order)
    ensures var r := ApplyEdit(s, e).value;
      var t := s.ledger[e.row]; var edited := s.ledger[e.row := EditedRow(t, e)];
      var ids := SiblingsOf(s, s.orders[t.order].code);
      (if e.SetQty? then r.ledger == Rewritten(edited, ids) else r.ledger == edited) &&
      GroupOut(edited, ids) <= GroupIn(edited, ids) && r.orders.Keys == s.orders.Keys &&
      forall o :: o in s.orders ==>
        r.orders[o] == if o in ids then Recomputed(s.orders[o], GroupIn(edited, ids), GroupOut(edited, ids))
          else s.orders[o]
  {
    hide SiblingsOf, GroupIn, GroupOut, Recomputed, Rewritten;
  }

  // ----- One edit ------------------------------------------------------------------------------

  /** The edited code ends solvent, with every cached quantity and status a function of the live sums. */
  lemma {:induction false} EditReflects(s: State, e: Edit)
    requires ApplyEdit(s, e).Ok?
    ensures var code := s.orders[s.ledger[e.row].order].code;
      Solvent(ApplyEdit(s, e).value, code) && Reflects(ApplyEdit(s, e).value, code)
  {
    hide ApplyEdit, SiblingsOf, GroupIn, GroupOut;
    EditAccepted(s, e);
    EditFrame(s, e);
    var t := s.ledger[e.row];
    var ids := SiblingsOf(s, s.orders[t.order].code);
    BalancesDoNotCount(s.ledger[e.row := EditedRow(t, e)], ids, ids);
  }

  /** Codes other than the edited one keep their sums and their rows. */
  lemma {:induction false} OtherCodesUntouched(s: State, e: Edit, code: Code)
    requires ApplyEdit(s, e).Ok? && s.orders[s.ledger[e.row].order].code != code
    ensures var r := ApplyEdit(s, e).value; var ids := SiblingsOf(s, code);
      SiblingsOf(r, code) == ids && GroupIn(r.ledger, ids) == GroupIn(s.ledger, ids) &&
        GroupOut(r.ledger, ids) == GroupOut(s.ledger, ids) &&
      forall o :: o in ids ==> o in s.orders && o in r.orders && r.orders[o] == s.orders[o]
  {
    hide ApplyEdit, GroupIn, GroupOut, Siblings;
    EditAccepted(s, e);
    EditFrame(s, e);
    var t := s.ledger[e.row];
    var edited := EditedRow(t, e);
    OtherRows(s.ledger, e.row, edited, SiblingsOf(s, code));
    BalancesDoNotCount(s.ledger[e.row := edited], SiblingsOf(s, s.orders[t.order].code), SiblingsOf(s, code));
  }

  /** An edit keeps a solvent code solvent and a reflecting one reflecting, whichever invoice it touches. */
  lemma {:induction false} EditKeeps(s: State, e: Edit, code: Code)
    ensures Solvent(s, code) ==> Solvent(Edited(s, e), code)
    ensures Reflects(s, code) ==> Reflects(Edited(s, e), code)
  {
    hide ApplyEdit, SiblingsOf, GroupIn, GroupOut;
    if ApplyEdit(s, e).Ok? {
      EditAccepted(s, e);
      if s.orders[s.ledger[e.row].order].code == code {
        EditReflects(s, e);
      } else {
        OtherCodesUntouched(s, e, code);
      }
    }
  }

  /** After a quantity edit every active row of the code stores its balance, so the listing shows what is stored. */
  lemma {:induction false} EditStores(s: State, e: Edit)
    requires e.SetQty? && ApplyEdit(s, e).Ok? && e.row < |s.ledger| && IsLive(s.orders, s.ledger[e.row].order)
    ensures StoresBalances(ApplyEdit(s, e).value.ledger, SiblingsOf(s, s.orders[s.ledger[e.row].order].code))
  {
    hide ApplyEdit, SiblingsOf, Rewritten, StoresBalances, GroupIn, GroupOut, Recomputed;
    EditAccepted(s, e);
    var t := s.ledger[e.row];
    RewrittenStores(s.ledger[e.row := EditedRow(t, e)], SiblingsOf(s, s.orders[t.order].code));
  }

  /**
   * After a quantity edit the balance stored in the code's last active row is the cached remaining quantity iff no row
   * ever took more than there was.
   */
  lemma {:induction false} EditedBalance(s: State, e: Edit, last: nat)
    requires e.SetQty? && ApplyEdit(s, e).Ok? && e.row < |s.ledger| && IsLive(s.orders, s.ledger[e.row].order)
    requires IsLastActive(ApplyEdit(s, e).value.ledger, SiblingsOf(s, s.orders[s.ledger[e.row].order].code), last)
    requires ReceiptsPositive(ApplyEdit(s, e).value.ledger, SiblingsOf(s, s.orders[s.ledger[e.row].order].code))
    requires GroupAdjusted(ApplyEdit(s, e).value.ledger, SiblingsOf(s, s.orders[s.ledger[e.row].order].code)) == 0
    ensures last < |ApplyEdit(s, e).value.ledger|
    ensures var r := ApplyEdit(s, e).value; var o := s.ledger[e.row].order; var ids := SiblingsOf(s, s.orders[o].code);
      o in ids && o in r.orders ==>
        (r.ledger[last].running == r.orders[o].remaining <==>
         forall k :: 0 <= k <= |r.ledger| ==> 0 <= Prefix(r.ledger, ids, k))
  {
    hide ApplyEdit, SiblingsOf, GroupIn, GroupOut, GroupAdjusted, Balance, Prefix;
    var r, o := ApplyEdit(s, e).value, s.ledger[e.row].order;
    var ids := SiblingsOf(s, s.orders[o].code);
    EditFrame(s, e);
    EditReflects(s, e);
    EditStores(s, e);
    BalanceSettled(r.ledger, ids, last + 1, |r.ledger|);
    LastBalanceUnadjusted(r.ledger, ids);
  }

  /**
   * An edit is accepted exactly when its row is there to be edited and the code's ledger covers its dispatches after
   * it.
   */
  lemma {:induction false} EditAcceptable(s: State, e: Edit)
    ensures ApplyEdit(s, e).Ok? <==>
      (e.SetQty? ==> 1 <= e.qty) && e.row < |s.ledger| && s.ledger[e.row].live == !e.Restore? &&
      IsLive(s.orders, s.ledger[e.row].order) &&
      var t := s.ledger[e.row]; var ids := SiblingsOf(s, s.orders[t.order].code);
      var edited := s.ledger[e.row := if e.SetQty? then t.(qty := e.qty) else t.(live := e.Restore?)];
      GroupOut(edited, ids) <= GroupIn(edited, ids)
  {
    hide SiblingsOf, GroupIn, GroupOut, Recomputed, Rewritten;
  }

  /**
   * Deleting and restoring change one flag of one invoice. A quantity edit changes that invoice's quantity, gives every
   * live line of the code on its trip the new quantity, and moves nothing else but stored balances of the code.
   */
  lemma {:induction false} EditTables(s: State, e: Edit)
    requires ApplyEdit(s, e).Ok?
    ensures var r := ApplyEdit(s, e).value;
      e.row < |s.ledger| && |r.ledger| == |s.ledger| && |r.lines| == |s.lines| && r.stops == s.stops &&
      r.nextOrder == s.nextOrder
    ensures var r := ApplyEdit(s, e).value; var code := s.orders[s.ledger[e.row].order].code;
      forall i :: 0 <= i < |s.ledger| ==>
        var was, now := s.ledger[i], r.ledger[i];
        var balanced := e.SetQty? && now.live && IsLive(s.orders, was.order) && was.order < s.nextOrder &&
          s.orders[was.order].code == code;
        now == was.(running := now.running, qty := if i == e.row && e.SetQty? then e.qty else was.qty,
                    live := if i == e.row && !e.SetQty? then e.Restore? else was.live) &&
        (!balanced ==> now.running == was.running)
    ensures var r := ApplyEdit(s, e).value; var t := s.ledger[e.row]; var code := s.orders[t.order].code;
      forall i :: 0 <= i < |s.lines| ==>
        var was := s.lines[i];
        r.lines[i] ==
        if e.SetQty? && was.live && t.trip.Some? && |t.trip.value| > 0 && was.trip == t.trip &&
          IsLive(s.orders, was.order) && was.order < s.nextOrder && s.orders[was.order].code == code
        then was.(qty := Some(e.qty)) else was
  {
    hide Siblings, GroupIn, GroupOut, Recomputed, Balance;
  }

  // ----- Any sequence of edits -----------------------------------------------------------------

  lemma {:induction false} EditsKeep(s: State, edits: seq<Edit>, code: Code)
    ensures Solvent(s, code) ==> Solvent(EditAll(s, edits), code)
    ensures Reflects(s, code) ==> Reflects(EditAll(s, edits), code)
    decreases |edits|
  {
    hide Edited, Solvent, Reflects;
    if |edits| > 0 {
      EditsKeep(s, edits[..|edits| - 1], code);
      EditKeeps(EditAll(s, edits[..|edits| - 1]), edits[|edits| - 1], code);
    }
  }

  /** One accepted edit of the code anywhere in the run is enough, whatever was cached before it. */
  lemma {:induction false} EditedOnceReflects(s: State, edits: seq<Edit>, k: nat, code: Code)
    requires k < |edits|
    requires ApplyEdit(EditAll(s, edits[..k]), edits[k]).Ok?
    requires var at := EditAll(s, edits[..k]); at.orders[at.ledger[edits[k].row].order].code == code
    ensures Solvent(EditAll(s, edits), code) && Reflects(EditAll(s, edits), code)
    decreases |edits|
  {
    hide ApplyEdit, Solvent, Reflects;
    var n := |edits| - 1;
    if k == n {
      EditReflects(EditAll(s, edits[..n]), edits[n]);
    } else {
      assert edits[..n][..k] == edits[..k];
      EditedOnceReflects(s, edits[..n], k, code);
      EditKeeps(EditAll(s, edits[..n]), edits[n], code);
    }
  }

  // ----- Restore undoes delete -----------------------------------------------------------------

  /** Restoring what was just deleted gives the old database back exactly when it was in sync and solvent. */
  lemma {:induction false} RestoreUndoesDelete(s: State, i: nat)
    requires ApplyEdit(s, Delete(i)).Ok?
    ensures ApplyEdit(ApplyEdit(s, Delete(i)).value, Restore(i)) == Ok(s) <==>
            Reflects(s, s.orders[s.ledger[i].order].code) && Solvent(s, s.orders[s.ledger[i].order].code)
  {
    hide GroupIn, GroupOut, SiblingsOf, Tells, StatusOf;
    var r := ApplyEdit(s, Delete(i)).value;
    EditFrame(s, Delete(i));
    EditAccepted(s, Delete(i));
    var ids := SiblingsOf(s, s.orders[s.ledger[i].order].code);
    assert r.ledger[i := r.ledger[i].(live := true)] == s.ledger;
    var back := ApplyEdit(r, Restore(i));
    if GroupOut(s.ledger, ids) <= GroupIn(s.ledger, ids) {
      RestoredRows(s, r, ids, back.value);
      forall o | o in ids && o in s.orders
        ensures var received, sent := GroupIn(s.ledger, ids), GroupOut(s.ledger, ids);
          Tells(s.orders[o], received, sent) <==> s.orders[o] == Recomputed(s.orders[o], received, sent)
      {
        RecomputedTells(s.orders[o], GroupIn(s.ledger, ids), GroupOut(s.ledger, ids));
      }
    }
  }

  lemma {:induction false} RestoredRows(s: State, r: State, ids: seq<OrderId>, back: State)
    requires r.orders.Keys == s.orders.Keys == back.orders.Keys
    requires back == s.(orders := back.orders)
    requires forall o :: o in s.orders && o !in ids ==> r.orders[o] == s.orders[o] == back.orders[o]
    requires forall o :: o in s.orders && o in ids ==>
      back.orders[o] == Recomputed(s.orders[o], GroupIn(s.ledger, ids), GroupOut(s.ledger, ids))
    ensures back == s <==>
      forall o :: o in ids && o in s.orders ==>
        s.orders[o] == Recomputed(s.orders[o], GroupIn(s.ledger, ids), GroupOut(s.ledger, ids))
  {
    if forall o :: o in ids && o in s.orders ==> s.orders[o] == back.orders[o] {
      assert back.orders == s.orders;
    }
  }
}
