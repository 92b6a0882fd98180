/** The running balance stored with every invoice, rewritten after a quantity edit and recomputed for display. */
module RunningBalance {
  import opened Basics
  import opened Sums
  import opened Model

  predicate LiveIn(t: Tx, ids: seq<OrderId>) {
    t.live && t.order in ids
  }

  /** runningStock after the first n rows: up by a receipt, down by anything else, never below zero. */
  function Balance(l: seq<Tx>, ids: seq<OrderId>, n: nat): int
    requires n <= |l|
    decreases n
  {
    if n == 0 then 0
    else
      var before, t := Balance(l, ids, n - 1), l[n - 1];
      if !LiveIn(t, ids) then before
      else if t.kind.InboundTx? then before + t.qty
      else Max(0, before - t.qty)
  }

  // ----- The closed form -----------------------------------------------------------------------

  /** What a row adds to the unclamped balance. */
  function Delta(ids: seq<OrderId>): Tx -> int {
    (t: Tx) => if !LiveIn(t, ids) then 0 else if t.kind.InboundTx? then t.qty else -t.qty
  }

  function Prefix(l: seq<Tx>, ids: seq<OrderId>, n: nat): int
    requires n <= |l|
  {
    Sum(l[..n], Delta(ids))
  }

  /** m is the least of the prefix sums up to n (the empty one included). */
  ghost predicate IsLowest(l: seq<Tx>, ids: seq<OrderId>, n: nat, m: int)
    requires n <= |l|
  {
    (forall k :: 0 <= k <= n ==> m <= Prefix(l, ids, k)) && exists k :: 0 <= k <= n && m == Prefix(l, ids, k)
  }

  ghost predicate ReceiptsPositive(l: seq<Tx>, ids: seq<OrderId>) {
    forall i :: 0 <= i < |l| && LiveIn(l[i], ids) && l[i].kind.InboundTx? ==> 0 <= l[i].qty
  }

  lemma {:induction false} PrefixStep(l: seq<Tx>, ids: seq<OrderId>, n: nat)
    requires 0 < n <= |l|
    ensures Prefix(l, ids, n) == Prefix(l, ids, n - 1) + Delta(ids)(l[n - 1])
  {
    assert l[..n] == l[..n - 1] + [l[n - 1]];
    SumSnoc(l[..n - 1], l[n - 1], Delta(ids));
  }

  /**
   * Every balance is its prefix sum minus the lowest prefix sum so far: clamping forgives exactly the deepest
   * deficit.
   */
  lemma {:induction false} ClosedForm(l: seq<Tx>, ids: seq<OrderId>, n: nat)
    requires n <= |l| && ReceiptsPositive(l, ids)
    ensures IsLowest(l, ids, n, Prefix(l, ids, n) - Balance(l, ids, n))
    decreases n
  {
    if n == 0 {
      assert Prefix(l, ids, 0) == 0;
    } else {
      ClosedForm(l, ids, n - 1);
      PrefixStep(l, ids, n);
      var m, low := Prefix(l, ids, n - 1) - Balance(l, ids, n - 1), Prefix(l, ids, n) - Balance(l, ids, n);
      var k :| 0 <= k <= n - 1 && m == Prefix(l, ids, k);
      assert low == if Prefix(l, ids, n) < m then Prefix(l, ids, n) else m;
      assert low == Prefix(l, ids, if Prefix(l, ids, n) < m then n else k);
    }
  }

  // ----- Against the order's remaining quantity ------------------------------------------------

  function GroupIn(l: seq<Tx>, ids: seq<OrderId>): int {
    Sum(l, (t: Tx) => if LiveIn(t, ids) && t.kind.InboundTx? then t.qty else 0)
  }

  function GroupOut(l: seq<Tx>, ids: seq<OrderId>): int {
    Sum(l, (t: Tx) => if LiveIn(t, ids) && IsDispatch(t.kind) then t.qty else 0)
  }

  function GroupAdjusted(l: seq<Tx>, ids: seq<OrderId>): int {
    Sum(l, (t: Tx) => if LiveIn(t, ids) && t.kind.AdjustmentTx? then t.qty else 0)
  }

  lemma {:induction false} WholePrefix(l: seq<Tx>, ids: seq<OrderId>)
    ensures Prefix(l, ids, |l|) == GroupIn(l, ids) - GroupOut(l, ids) - GroupAdjusted(l, ids)
    decreases |l|
  {
    if |l| > 0 {
      var n := |l| - 1;
      WholePrefix(l[..n], ids);
      PrefixStep(l, ids, |l|);
      assert l[..n][..n] == l[..n];
    }
  }

  /** The last balance is the remaining quantity exactly when the adjustments cancel the deepest deficit. */
  lemma {:induction false} LastBalance(l: seq<Tx>, ids: seq<OrderId>, lowest: int)
    requires ReceiptsPositive(l, ids) && IsLowest(l, ids, |l|, lowest) && GroupOut(l, ids) <= GroupIn(l, ids)
    ensures Balance(l, ids, |l|) == Max(0, GroupIn(l, ids) - GroupOut(l, ids)) <==> GroupAdjusted(l, ids) == -lowest
  {
    ClosedForm(l, ids, |l|);
    WholePrefix(l, ids);
  }

  /** With adjustments of quantity 0: exactly when no row ever took more than there was. */
  lemma {:induction false} LastBalanceUnadjusted(l: seq<Tx>, ids: seq<OrderId>)
    requires ReceiptsPositive(l, ids) && GroupOut(l, ids) <= GroupIn(l, ids) && GroupAdjusted(l, ids) == 0
    ensures Balance(l, ids, |l|) == Max(0, GroupIn(l, ids) - GroupOut(l, ids)) <==>
            forall k :: 0 <= k <= |l| ==> 0 <= Prefix(l, ids, k)
  {
    ClosedForm(l, ids, |l|);
    var lowest := Prefix(l, ids, |l|) - Balance(l, ids, |l|);
    LastBalance(l, ids, lowest);
    assert Prefix(l, ids, 0) == 0;
  }

  // ----- The two loops -------------------------------------------------------------------------

  /** The rows after the edit: active ones carry their balance, the others are as they were. */
  function Rewritten(l: seq<Tx>, ids: seq<OrderId>): (r: seq<Tx>)
    ensures |r| == |l|
    ensures forall i :: 0 <= i < |l| ==>
      r[i] == if LiveIn(l[i], ids) then l[i].(running := Balance(l, ids, i + 1)) else l[i]
  {
    seq(|l|, i requires 0 <= i < |l| => if LiveIn(l[i], ids) then l[i].(running := Balance(l, ids, i + 1)) else l[i])
  }

  /** Every active row carries its balance. */
  predicate StoresBalances(l: seq<Tx>, ids: seq<OrderId>) {
    forall i :: 0 <= i < |l| && LiveIn(l[i], ids) ==> l[i].running == Balance(l, ids, i + 1)
  }

  /** A balance never depends on the balances stored before. */
  lemma {:induction false} BalanceUnstored(l: seq<Tx>, ids: seq<OrderId>, n: nat)
    requires n <= |l|
    ensures Balance(Rewritten(l, ids), ids, n) == Balance(l, ids, n)
    decreases n
  {
    if n > 0 { BalanceUnstored(l, ids, n - 1); }
  }

  /** Rewriting leaves every active row with its balance, so rewriting again changes nothing. */
  lemma {:induction false} RewrittenStores(l: seq<Tx>, ids: seq<OrderId>)
    ensures StoresBalances(Rewritten(l, ids), ids) && Rewritten(Rewritten(l, ids), ids) == Rewritten(l, ids)
  {
    hide Balance;
    var r := Rewritten(l, ids);
    forall i | 0 <= i < |r| && LiveIn(r[i], ids) ensures r[i].running == Balance(r, ids, i + 1) {
      BalanceUnstored(l, ids, i + 1);
    }
  }

  predicate IsLastActive(l: seq<Tx>, ids: seq<OrderId>, last: nat) {
    last < |l| && LiveIn(l[last], ids) && forall i :: last < i < |l| ==> !LiveIn(l[i], ids)
  }

  /** After the last active row the balance stays what it was. */
  lemma {:induction false} BalanceSettled(l: seq<Tx>, ids: seq<OrderId>, k: nat, n: nat)
    requires k <= n <= |l| && forall i :: k <= i < n ==> !LiveIn(l[i], ids)
    ensures Balance(l, ids, n) == Balance(l, ids, k)
    decreases n
  {
    if k < n { BalanceSettled(l, ids, k, n - 1); }
  }

  /** The loop of updateTransactionQuantity; a row is written only when its balance moved. */
  method RewriteBalances(l: seq<Tx>, ids: seq<OrderId>) returns (r: seq<Tx>)
    ensures r == Rewritten(l, ids)
    ensures ReceiptsPositive(l, ids) ==>
      forall i :: 0 <= i < |l| && LiveIn(l[i], ids) ==> IsLowest(l, ids, i + 1, Prefix(l, ids, i + 1) - r[i].running)
  {
    r := l;
    var runningStock := 0;
    for i := 0 to |l|
      invariant runningStock == Balance(l, ids, i) && |r| == |l|
      invariant forall j :: i <= j < |l| ==> r[j] == l[j]
      invariant forall j :: 0 <= j < i ==> r[j] == Rewritten(l, ids)[j]
    {
      if LiveIn(l[i], ids) {
        if l[i].kind.InboundTx? {
          runningStock := runningStock + l[i].qty;
        } else {
          runningStock := Max(0, runningStock - l[i].qty);
        }
        if r[i].running != runningStock {
          r := r[i := r[i].(running := runningStock)];
        }
      }
    }
    if ReceiptsPositive(l, ids) {
      forall i | 0 <= i < |l| && LiveIn(l[i], ids)
        ensures IsLowest(l, ids, i + 1, Prefix(l, ids, i + 1) - r[i].running)
      {
        ClosedForm(l, ids, i + 1);
      }
    }
  }

  /** One row of getOrderTransactions: the invoice and, unless deleted, the stock after it. */
  datatype Shown = Shown(index: nat, cumulative: Option<int>)

  predicate Listed(shown: seq<Shown>, i: nat) {
    exists k :: 0 <= k < |shown| && shown[k].index == i
  }

  lemma {:induction false} ListedMore(shown: seq<Shown>, row: Shown)
    ensures Listed(shown + [row], row.index) && forall i: nat :: Listed(shown, i) ==> Listed(shown + [row], i)
  {
    var more := shown + [row];
    assert more[|shown|] == row;
    forall i: nat | Listed(shown, i) ensures Listed(more, i) {
      var k :| 0 <= k < |shown| && shown[k].index == i;
      assert more[k] == shown[k];
    }
  }

  /** Each live row is shown with the balance stored in it. */
  predicate ShowsStored(l: seq<Tx>, shown: seq<Shown>) {
    forall k :: 0 <= k < |shown| && shown[k].index < |l| && l[shown[k].index].live ==>
      shown[k].cumulative == Some(l[shown[k].index].running)
  }

  lemma {:induction false} ShownAsStored(l: seq<Tx>, ids: seq<OrderId>, shown: seq<Shown>)
    requires forall k :: 0 <= k < |shown| ==> shown[k].index < |l| && l[shown[k].index].order in ids
    requires forall k :: 0 <= k < |shown| ==>
      shown[k].cumulative == if l[shown[k].index].live then Some(Rewritten(l, ids)[shown[k].index].running) else None
    requires forall i :: 0 <= i < |l| && l[i].order in ids ==> Listed(shown, i)
    ensures StoresBalances(l, ids) <==> ShowsStored(l, shown)
  {
    hide Balance;
    if ShowsStored(l, shown) {
      forall i | 0 <= i < |l| && LiveIn(l[i], ids) ensures l[i].running == Balance(l, ids, i + 1) {
        assert Listed(shown, i);
        var k :| 0 <= k < |shown| && shown[k].index == i;
        assert shown[k].cumulative == Some(Rewritten(l, ids)[i].running);
      }
    }
  }

  /**
   * getOrderTransactions walks deleted rows too and skips them in the sum: for live rows it shows what a quantity edit
   * stores, which is what is stored exactly when every active row carries its balance.
   */
  method OrderTransactions(l: seq<Tx>, ids: seq<OrderId>) returns (shown: seq<Shown>)
    ensures forall k :: 0 <= k < |shown| ==> shown[k].index < |l| && l[shown[k].index].order in ids
    ensures forall k :: 0 <= k < |shown| ==>
      shown[k].cumulative == if l[shown[k].index].live then Some(Rewritten(l, ids)[shown[k].index].running) else None
    ensures forall j, k :: 0 <= j < k < |shown| ==> shown[j].index < shown[k].index
    ensures forall i :: 0 <= i < |l| && l[i].order in ids ==> Listed(shown, i)
    ensures StoresBalances(l, ids) <==> ShowsStored(l, shown)
  {
    hide Listed, Rewritten, StoresBalances, ShowsStored;
    shown := [];
    var running := 0;
    for i := 0 to |l|
      invariant running == Balance(l, ids, i)
      invariant forall k :: 0 <= k < |shown| ==> shown[k].index < i && l[shown[k].index].order in ids
      invariant forall k :: 0 <= k < |shown| ==>
        shown[k].cumulative == if l[shown[k].index].live then Some(Rewritten(l, ids)[shown[k].index].running) else None
      invariant forall j, k :: 0 <= j < k < |shown| ==> shown[j].index < shown[k].index
      invariant forall m :: 0 <= m < i && l[m].order in ids ==> Listed(shown, m)
    {
      var t := l[i];
      if t.order in ids {
        if t.live {
          running := if t.kind.InboundTx? then running + t.qty else Max(0, running - t.qty);
        }
        ListedMore(shown, Shown(i, if t.live then Some(running) else None));
        shown := shown + [Shown(i, if t.live then Some(running) else None)];
      }
    }
    ShownAsStored(l, ids, shown);
  }
}
