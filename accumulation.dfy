/**
 * The payoff accumulators of a run: the running cumulative payoff history of
 * each agent and its discounted lifetime payoff.
 */
module Accumulation {
  const DiscountFactor: real := 0.9

  /** `arr.reduce((a, b) => a + b, 0)`: a left fold from 0. */
  function Sum(s: seq<real>): real {
    if s == [] then 0.0 else Sum(s[..|s| - 1]) + s[|s| - 1]
  }

  lemma SumAppend(s: seq<real>, x: real)
    ensures Sum(s + [x]) == Sum(s) + x
  {
    assert (s + [x])[..|s|] == s;
  }

  lemma SumOfThree(a: real, b: real, c: real)
    ensures Sum([a, b, c]) == a + b + c
  {
    assert [a, b, c][..2] == [a, b];
    assert [a, b][..1] == [a];
    assert [a][..0] == [];
    assert Sum([a]) == a;
    assert Sum([a, b]) == a + b;
  }

  /** `h` holds the running sums of `col`: entry k is the sum of entries 0..k. */
  ghost predicate IsRunningSums(h: seq<real>, col: seq<real>) {
    |h| == |col| && forall k :: 0 <= k < |h| ==> h[k] == Sum(col[..k + 1])
  }

  /** One push onto a payoff history: the last running total plus the payoff, or the payoff alone on the first push. */
  function Extend(h: seq<real>, p: real): (r: seq<real>)
    ensures |r| == |h| + 1 && r[..|h|] == h
  {
    h + [if |h| > 0 then h[|h| - 1] + p else p]
  }

  /** Pushing payoff p onto the running sums of a column gives the running sums of the column extended by p. */
  lemma {:induction false} ExtendRunningSums(h: seq<real>, col: seq<real>, p: real)
    requires IsRunningSums(h, col)
    ensures IsRunningSums(Extend(h, p), col + [p])
  {
    var h', col' := Extend(h, p), col + [p];
    forall k | 0 <= k < |h'| ensures h'[k] == Sum(col'[..k + 1]) {
      if k < |h| {
        assert col'[..k + 1] == col[..k + 1];
      } else {
        assert col'[..k + 1] == col + [p];
        SumAppend(col, p);
        if |h| > 0 {
          assert col[..|h|] == col;
        }
      }
    }
  }

  /** The last entry of a running-sum history is the total of the column. */
  lemma RunningTotal(h: seq<real>, col: seq<real>)
    requires IsRunningSums(h, col) && |h| > 0
    ensures h[|h| - 1] == Sum(col)
  {
    assert col[..|h|] == col;
  }

  /** `Math.pow(x, n)` for a natural exponent. */
  function Pow(x: real, n: nat): real {
    if n == 0 then 1.0 else x * Pow(x, n - 1)
  }

  /** `x * Math.pow(DISCOUNT_FACTOR, r)`: a payoff of round r discounted to round 0. */
  function Discount(x: real, r: nat): real {
    x * Pow(DiscountFactor, r)
  }

  /** `payoffs.map((p, r) => p * Math.pow(DISCOUNT_FACTOR, r))`. */
  function Weighted(col: seq<real>): (w: seq<real>)
    ensures |w| == |col|
  {
    seq(|col|, r requires 0 <= r < |col| => Discount(col[r], r))
  }

  /** The discounted lifetime payoff of a column of per-round payoffs. */
  function Discounted(col: seq<real>): real {
    Sum(Weighted(col))
  }

  lemma WeightedAppend(col: seq<real>, p: real)
    ensures Weighted(col + [p]) == Weighted(col) + [Discount(p, |col|)]
  {
    var w, w' := Weighted(col + [p]), Weighted(col) + [Discount(p, |col|)];
    assert |w| == |w'|;
    forall r | 0 <= r < |w| ensures w[r] == w'[r] {
      if r < |col| {
        assert (col + [p])[r] == col[r];
        assert w'[r] == Weighted(col)[r];
      } else {
        assert (col + [p])[r] == p;
      }
    }
    assert w == w';
  }

  /** A payoff in round n adds that payoff discounted n times. */
  lemma DiscountedAppend(col: seq<real>, p: real)
    ensures Discounted(col + [p]) == Discounted(col) + Discount(p, |col|)
  {
    WeightedAppend(col, p);
    SumAppend(Weighted(col), Discount(p, |col|));
  }

  /** A constant payoff p over n rounds is a geometric series: p (1 - 0.9^n) / (1 - 0.9). */
  lemma {:induction false} ConstantDiscounted(p: real, n: nat)
    ensures Discounted(seq(n, _ => p)) == p * (1.0 - Pow(DiscountFactor, n)) / (1.0 - DiscountFactor)
  {
    if n > 0 {
      var prefix := seq(n - 1, _ => p);
      assert seq(n, _ => p) == prefix + [p];
      ConstantDiscounted(p, n - 1);
      DiscountedAppend(prefix, p);
      var x := Pow(DiscountFactor, n - 1);
      assert Discount(p, n - 1) == p * x;
      assert Pow(DiscountFactor, n) == 0.9 * x;
      assert p * (1.0 - x) / 0.1 + p * x == p * (1.0 - 0.9 * x) / 0.1;
    }
  }
}
