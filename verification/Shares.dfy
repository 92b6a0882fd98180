/** Weight and volume shares of a partial dispatch, rounded to thousandths. */
module Shares {
  import opened Model
  import opened Receiving

  const HALF_THOUSANDTH := 1.0 / 2000.0

  lemma {:induction false} RoundingError(x: real)
    ensures x - HALF_THOUSANDTH < Round3(x) <= x + HALF_THOUSANDTH
    ensures 0.0 <= x ==> 0.0 <= Round3(x)
  {
    var n := (x * 1000.0 + 0.5).Floor;
    assert n as real <= x * 1000.0 + 0.5 < n as real + 1.0;
  }

  lemma {:induction false} RoundingMonotone(x: real, y: real)
    requires x <= y
    ensures Round3(x) <= Round3(y)
  {
    FloorMonotone(x * 1000.0 + 0.5, y * 1000.0 + 0.5);
  }

  lemma {:induction false} FloorMonotone(x: real, y: real)
    requires x <= y
    ensures x.Floor <= y.Floor
  {
  }

  /** The unrounded share. */
  function Exact(total: real, qty: int, whole: int): real
    requires whole != 0
  {
    total * qty as real / whole as real
  }

  lemma {:induction false} CancelFactor(x: real, y: real, w: real)
    requires 0.0 < w && x * w <= y * w
    ensures x <= y
  {
    assert 0.0 <= (y - x) * w;
  }

  lemma {:induction false} ExactBounds(total: real, qty: int, whole: int)
    requires 0.0 <= total && 0 <= qty <= whole && 0 < whole
    ensures 0.0 <= Exact(total, qty, whole) <= total && (qty == whole ==> Exact(total, qty, whole) == total)
  {
    var q, w := qty as real, whole as real;
    assert 0.0 <= total * q <= total * w;
    Divide(total * q, total, w);
  }

  lemma {:induction false} Divide(a: real, b: real, w: real)
    requires 0.0 < w && 0.0 <= a <= b * w
    ensures 0.0 <= a / w <= b && (a == b * w ==> a / w == b)
  {
    var d := a / w;
    assert a == d * w;
    CancelFactor(d, b, w);
    CancelFactor(0.0, d, w);
    if a == b * w { CancelFactor(b, d, w); }
  }

  lemma {:induction false} ExactMonotone(total: real, a: int, b: int, whole: int)
    requires 0.0 <= total && a <= b && 0 < whole
    ensures Exact(total, a, whole) <= Exact(total, b, whole)
  {
    var w := whole as real;
    assert total * a as real <= total * b as real;
    var x, y := Exact(total, a, whole), Exact(total, b, whole);
    assert x * w == total * a as real && y * w == total * b as real;
    CancelFactor(x, y, w);
  }

  /** A share lies between nothing and the total, up to half a thousandth. */
  lemma {:induction false} ShareBounds(total: real, qty: int, whole: int)
    requires 0.0 <= total && 0 <= qty && 0 <= whole
    ensures 0.0 <= Share(total, qty, whole) <= total + HALF_THOUSANDTH
  {
    if 0 < whole && qty < whole {
      ExactBounds(total, qty, whole);
      RoundingError(Exact(total, qty, whole));
    }
  }

  /** A larger partial quantity never gets a smaller share. */
  lemma {:induction false} ShareMonotone(total: real, a: int, b: int, whole: int)
    requires 0.0 <= total && a <= b < whole && 0 < whole
    ensures Share(total, a, whole) <= Share(total, b, whole)
  {
    ExactMonotone(total, a, b, whole);
    RoundingMonotone(Exact(total, a, whole), Exact(total, b, whole));
  }

  lemma {:induction false} FloorAtMost(x: real, n: int)
    ensures x.Floor <= n <==> x < n as real + 1.0
  {
  }

  lemma {:induction false} ThousandthsAtMost(n: int, total: real)
    ensures n as real / 1000.0 <= total <==> n <= (total * 1000.0).Floor
  {
    assert n as real / 1000.0 <= total <==> n as real <= total * 1000.0;
  }

  /**
   * A partial share stays within the total exactly when rounding does not carry it past the total's last thousandth.
   */
  lemma {:induction false} ShareWithinTotal(total: real, qty: int, whole: int)
    requires 0.0 <= total && 0 <= qty && 0 <= whole
    ensures Share(total, qty, whole) <= total <==>
            whole <= qty || Exact(total, qty, whole) * 1000.0 + 0.5 < (total * 1000.0).Floor as real + 1.0
  {
    if qty < whole {
      FloorAtMost(Exact(total, qty, whole) * 1000.0 + 0.5, (total * 1000.0).Floor);
      ThousandthsAtMost((Exact(total, qty, whole) * 1000.0 + 0.5).Floor, total);
    }
  }

  lemma {:induction false} PartBelow(total: real, qty: int, whole: int)
    requires 0.0 < total && 0 <= qty < whole
    ensures Exact(total, qty, whole) < total
  {
    var w, x := whole as real, Exact(total, qty, whole);
    assert x * w == total * qty as real < total * w;
    assert 0.0 < (total - x) * w;
  }

  /** All but one of enough pieces come as near to the total as one likes. */
  lemma {:induction false} AllButOne(total: real, whole: int, gap: real)
    requires 0.0 <= total && 0.0 < gap && 0 < whole && total * 1000.0 <= gap * whole as real
    ensures total * 1000.0 - gap <= Exact(total, whole - 1, whole) * 1000.0
  {
    var w, x := whole as real, Exact(total, whole - 1, whole);
    assert x * w == total * (whole - 1) as real == total * w - total;
    assert (total * 1000.0 - gap) * w == total * w * 1000.0 - gap * w;
    assert (x * 1000.0) * w == total * w * 1000.0 - total * 1000.0;
    CancelFactor(total * 1000.0 - gap, x * 1000.0, w);
  }

  /** No partial share exceeds the total exactly when the total ends in at most half a thousandth. */
  lemma {:induction false} NoShareAbove(total: real)
    requires 0.0 <= total
    ensures (forall qty, whole :: 0 <= qty < whole ==> Share(total, qty, whole) <= total) <==>
            total * 1000.0 - (total * 1000.0).Floor as real <= 0.5
  {
    hide Share, Exact;
    var top := (total * 1000.0).Floor as real;
    if total * 1000.0 - top <= 0.5 {
      forall qty, whole | 0 <= qty < whole ensures Share(total, qty, whole) <= total {
        ShareWithinTotal(total, qty, whole);
        if 0.0 < total { PartBelow(total, qty, whole); } else { ExactBounds(total, qty, whole); }
      }
    } else {
      var gap := total * 1000.0 - top - 0.5;
      var whole := (total * 1000.0 / gap).Floor + 1;
      EnoughPieces(total, gap);
      AllButOne(total, whole, gap);
      ShareWithinTotal(total, whole - 1, whole);
    }
  }

  lemma {:induction false} EnoughPieces(total: real, gap: real)
    requires 0.0 <= total && 0.0 < gap
    ensures var whole := (total * 1000.0 / gap).Floor + 1; 0 < whole && total * 1000.0 <= gap * whole as real
  {
    var x := total * 1000.0 / gap;
    var whole := x.Floor + 1;
    assert x * gap == total * 1000.0;
    CancelFactor(0.0, x, gap);
    assert x <= whole as real;
    assert 0.0 <= (whole as real - x) * gap;
  }

  /** A finer total can be exceeded: 999 of 1000 pieces of 0.0006 weigh 0.001. */
  lemma {:induction false} ShareAboveTotal()
    ensures Share(0.0006, 999, 1000) == 0.001 > 0.0006
  {
    assert 0.0006 * 999.0 / 1000.0 == 0.0005994;
    assert (0.0005994 * 1000.0 + 0.5).Floor == 1;
  }

  // ----- Partial dispatches of a whole ---------------------------------------------------------

  function Quantity(qs: seq<int>): int {
    if |qs| == 0 then 0 else Quantity(qs[..|qs| - 1]) + qs[|qs| - 1]
  }

  function ShareTotal(total: real, qs: seq<int>, whole: int): real {
    if |qs| == 0 then 0.0 else ShareTotal(total, qs[..|qs| - 1], whole) + Share(total, qs[|qs| - 1], whole)
  }

  lemma {:induction false} ExactAdds(total: real, a: int, b: int, whole: int)
    requires 0 < whole
    ensures Exact(total, a + b, whole) == Exact(total, a, whole) + Exact(total, b, whole)
  {
    var w := whole as real;
    var x, y, z := Exact(total, a, whole), Exact(total, b, whole), Exact(total, a + b, whole);
    assert x * w == total * a as real && y * w == total * b as real && z * w == total * (a + b) as real;
    assert (a + b) as real == a as real + b as real;
    assert (x + y) * w == z * w;
    CancelFactor(x + y, z, w);
    CancelFactor(z, x + y, w);
  }

  lemma {:induction false} ShareError(total: real, qty: int, whole: int)
    requires 0.0 <= total && 0 <= qty <= whole && 0 < whole
    ensures Exact(total, qty, whole) - HALF_THOUSANDTH <= Share(total, qty, whole) <= Exact(total, qty,
        whole) + HALF_THOUSANDTH
  {
    if qty == whole {
      ExactBounds(total, qty, whole);
    } else {
      RoundingError(Exact(total, qty, whole));
    }
  }

  lemma {:induction false} ErrorsAdd(total: real, qs: seq<int>, whole: int)
    requires 0.0 <= total && 0 < whole && forall i :: 0 <= i < |qs| ==> 0 <= qs[i] <= whole
    ensures Exact(total, Quantity(qs), whole) - |qs| as real * HALF_THOUSANDTH <= ShareTotal(total, qs, whole)
    ensures ShareTotal(total, qs, whole) <= Exact(total, Quantity(qs), whole) + |qs| as real * HALF_THOUSANDTH
  {
    if |qs| == 0 {
      assert Exact(total, 0, whole) == 0.0;
    } else {
      var n := |qs| - 1;
      ErrorsAdd(total, qs[..n], whole);
      ShareError(total, qs[n], whole);
      ExactAdds(total, Quantity(qs[..n]), qs[n], whole);
    }
  }

  lemma {:induction false} PartsFit(qs: seq<int>, whole: int)
    requires Quantity(qs) == whole && forall i :: 0 <= i < |qs| ==> 0 <= qs[i]
    ensures 0 <= whole && forall i :: 0 <= i < |qs| ==> qs[i] <= whole
  {
    if |qs| > 0 {
      PartsFit(qs[..|qs| - 1], Quantity(qs[..|qs| - 1]));
      assert forall i :: 0 <= i < |qs| - 1 ==> qs[..|qs| - 1][i] == qs[i];
    }
  }

  /** n partial dispatches that make up the whole weigh the contract's total, give or take n half thousandths. */
  lemma {:induction false} SharesAddUp(total: real, qs: seq<int>, whole: int)
    requires 0.0 <= total && 0 < whole && Quantity(qs) == whole && forall i :: 0 <= i < |qs| ==> 0 <= qs[i]
    ensures total - |qs| as real * HALF_THOUSANDTH <= ShareTotal(total, qs,
        whole) <= total + |qs| as real * HALF_THOUSANDTH
  {
    PartsFit(qs, whole);
    ErrorsAdd(total, qs, whole);
    ExactBounds(total, whole, whole);
  }
}
