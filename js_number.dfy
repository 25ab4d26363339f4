/** The part of JavaScript number semantics the pages rely on when they turn
    integer counts into percentages: division, which yields an infinity or NaN
    when the divisor is zero, scaling by 100, and the strict comparisons `>` and
    `<`, which are false whenever NaN takes part. Numbers are exact reals here;
    rounding of floating point is not modelled. */
module JsNumber {

  datatype Num = Finite(value: real) | PosInfinity | NegInfinity | NaN

  /** `a / b` on two integers: the exact quotient for a non-zero divisor;
      otherwise an infinity with the sign of `a`, or NaN for `0 / 0`. */
  function Divide(a: int, b: int): (q: Num)
    ensures b != 0 ==> q.Finite? && q.value * (b as real) == a as real
    ensures b == 0 ==> (q == PosInfinity <==> a > 0) && (q == NegInfinity <==> a < 0) && (q == NaN <==> a == 0)
  {
    if b != 0 then Finite(a as real / b as real)
    else if a > 0 then PosInfinity
    else if a < 0 then NegInfinity
    else NaN
  }

  /** `x * 100`. */
  function Hundredfold(x: Num): Num {
    match x
    case Finite(r) => Finite(r * 100.0)
    case _ => x
  }

  /** `(a / total) * 100`, the percentage every panel and tooltip shows. */
  function Percent(a: int, total: int): (p: Num)
    ensures total != 0 ==> p.Finite? && p.value * (total as real) == 100.0 * (a as real)
    ensures total == 0 ==> p == Divide(a, 0)
  {
    var q := Divide(a, total);
    if total != 0 then
      assert q.value * 100.0 * (total as real) == 100.0 * (q.value * (total as real));
      Hundredfold(q)
    else Hundredfold(q)
  }

  /** `x > y`: false whenever NaN takes part, the real order on finite
      numbers, and the infinities above and below every other number. */
  predicate Greater(x: Num, y: Num)
    ensures Greater(x, y) ==> x != NaN && y != NaN && x != y && x != NegInfinity && y != PosInfinity
    ensures x.Finite? && y.Finite? ==> (Greater(x, y) <==> x.value > y.value)
    ensures x == PosInfinity && y != PosInfinity && y != NaN ==> Greater(x, y)
    ensures y == NegInfinity && x != NegInfinity && x != NaN ==> Greater(x, y)
  {
    match (x, y)
    case (NaN, _) => false
    case (_, NaN) => false
    case (Finite(a), Finite(b)) => a > b
    case (PosInfinity, _) => y != PosInfinity
    case (_, NegInfinity) => x != NegInfinity
    case _ => false
  }

  /** Percentages of counts that lie between 0 and a common total compare as
      the counts themselves do. When the total is 0 every such count is 0, every
      percentage is NaN and no comparison holds, which again agrees with the
      counts. */
  lemma PercentOrder(a: int, b: int, total: int)
    requires 0 <= a <= total && 0 <= b <= total
    ensures Greater(Percent(a, total), Percent(b, total)) <==> a > b
  {
    if total > 0 {
      var t := total as real;
      assert Percent(a, total) == Finite(a as real / t * 100.0);
      assert Percent(b, total) == Finite(b as real / t * 100.0);
      if a > b {
        DivideMonotone(b as real, a as real, t);
      } else {
        DivideMonotone(a as real, b as real, t);
      }
    }
  }

  lemma DivideMonotone(x: real, y: real, t: real)
    requires t > 0.0 && x <= y
    ensures x / t * 100.0 <= y / t * 100.0
    ensures x < y ==> x / t * 100.0 < y / t * 100.0
  {
    var d := y / t - x / t;
    assert d * t == y - x;
  }

  /** A count between 0 and a positive total is a finite percentage in [0, 100]. */
  lemma PercentRange(a: int, total: int)
    requires 0 <= a <= total && total > 0
    ensures Percent(a, total).Finite?
    ensures 0.0 <= Percent(a, total).value <= 100.0
  {
    DivideMonotone(0.0, a as real, total as real);
    DivideMonotone(a as real, total as real, total as real);
  }

  /** Percentages of parts add up to the percentage of their sum. */
  lemma PercentAdds(a: int, b: int, total: int)
    requires total != 0
    ensures Percent(a, total).value + Percent(b, total).value == Percent(a + b, total).value
  {
    var t := total as real;
    assert (a + b) as real / t == a as real / t + b as real / t;
  }

  /** A non-zero total is one hundred percent of itself. */
  lemma PercentOfWhole(total: int)
    requires total != 0
    ensures Percent(total, total) == Finite(100.0)
  {
    var t := total as real;
    assert t != 0.0;
    assert t / t == 1.0;
    assert Divide(total, total) == Finite(1.0);
  }
}
