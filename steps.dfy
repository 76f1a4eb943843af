/**
 * The pressure-advance values, one per printed object. Values are kept in
 * thousandths (0.13 is 130): the analyser rounds every value to three
 * decimals, so in these units `round((pa + step) * 1000) / 1000` is plain
 * addition. The step `f'{(end - start) / n:.3f}'` is modelled as the exact
 * quotient rounded to the nearest thousandth, halves away from zero. Python
 * formats the binary float nearest the quotient instead, so a quotient that
 * lies exactly halfway between two thousandths may round the other way there.
 */
module PaSteps {
  import opened Wrappers

  /** `n` values starting at `pa`, each `step` above the one before. */
  function Steps(pa: int, step: int, n: nat): (r: seq<int>)
    ensures |r| == n
    decreases n
  {
    if n == 0 then [] else [pa] + Steps(pa + step, step, n - 1)
  }

  /** The k-th value is `pa + k * step`, and consecutive values differ by `step`. */
  lemma {:induction false} StepsClosedForm(pa: int, step: int, n: nat)
    ensures forall k :: 0 <= k < n ==> Steps(pa, step, n)[k] == pa + k * step
    ensures forall k :: 0 <= k < n - 1 ==> Steps(pa, step, n)[k + 1] == Steps(pa, step, n)[k] + step
    decreases n
  {
    if n > 0 {
      StepsClosedForm(pa + step, step, n - 1);
      var r := Steps(pa, step, n);
      forall k | 0 <= k < n ensures r[k] == pa + k * step {
        if k > 0 {
          assert r[k] == Steps(pa + step, step, n - 1)[k - 1];
          assert (pa + step) + (k - 1) * step == pa + k * step;
        }
      }
    }
  }

  /** Appending the next value keeps the run: how the `while idx != 0` loops build it. */
  lemma {:induction false} StepsSnoc(pa: int, step: int, n: nat)
    ensures Steps(pa, step, n + 1) == Steps(pa, step, n) + [pa + n * step]
    decreases n
  {
    if n > 0 {
      StepsSnoc(pa + step, step, n - 1);
      assert (pa + step) + (n - 1) * step == pa + n * step;
    }
  }

  /** `d / n` rounded to the nearest integer, halves away from zero. */
  function RoundDiv(d: int, n: nat): (q: int)
    requires n > 0
  {
    if d >= 0 then (2 * d + n) / (2 * n) else -((-2 * d + n) / (2 * n))
  }

  /** The rounded quotient is within half a unit of the exact one, and exact when `n` divides `d`. */
  lemma RoundDivNearest(d: int, n: nat)
    requires n > 0
    ensures var q := RoundDiv(d, n); -(n as int) <= 2 * (q * n - d) <= n
    ensures d % n == 0 ==> RoundDiv(d, n) * n == d
  {
    if d >= 0 {
      RoundUpNearest(d, n);
    } else {
      var q := RoundDiv(-d, n);
      RoundUpNearest(-d, n);
      assert RoundDiv(d, n) == -q;
      assert (-q) * n - d == -(q * n - (-d));
      if d % n == 0 {
        NegatedMultiple(d, n);
      }
    }
  }

  /** Rounding a non-negative quotient: `(2d + n) / 2n`. */
  lemma RoundUpNearest(d: int, n: nat)
    requires d >= 0 && n > 0
    ensures var q := (2 * d + n) / (2 * n); -(n as int) < 2 * (q * n - d) <= n
    ensures d % n == 0 ==> (2 * d + n) / (2 * n) * n == d
  {
    var m, t := 2 * n, 2 * d + n;
    var q := t / m;
    assert 2 * (q * n - d) == n - t % m by {
      assert t == q * m + t % m;
      assert q * m == 2 * (q * n);
    }
    if d % n == 0 {
      var p := d / n;
      assert t == p * m + n by {
        assert d == p * n;
        assert p * m == 2 * (p * n);
      }
      DivUnique(t, m, p, n);
    }
  }

  /** `n` divides `-d` when it divides `d`. */
  lemma NegatedMultiple(d: int, n: nat)
    requires n > 0 && d % n == 0
    ensures (-d) % n == 0
  {
    var p := d / n;
    assert d == p * n;
    assert -d == (-p) * n;
    DivUnique(-d, n, -p, 0);
  }

  lemma DivUnique(t: int, m: int, p: int, r: int)
    requires m > 0 && 0 <= r < m && t == p * m + r
    ensures t / m == p && t % m == r
  {
    var q := t / m;
    assert t == q * m + t % m;
    var a := q - p;
    assert a * m == q * m - p * m;
    assert a * m == r - t % m;
    if a >= 1 {
      MulAtLeast(a, m);
    } else if a <= -1 {
      MulAtLeast(-a, m);
    }
  }

  lemma MulAtLeast(a: int, m: int)
    requires a >= 1 && m > 0
    ensures a * m >= m
  {
    assert a * m == (a - 1) * m + m;
    assert (a - 1) * m >= 0;
  }

  lemma MulCancelLess(a: int, b: int, n: int)
    requires n > 0 && a * n < b * n
    ensures a < b
  {
    assert (b - a) * n == b * n - a * n;
  }

  /** The fields `startPA`, `stepPA`, `endPA` and `steps` of the analyser. */
  datatype Plan = Plan(startPA: int, stepPA: int, endPA: int, steps: seq<int>)

  /**
   * `calcStep(start_pa, end_pa)` with `n` objects. `None` stands for an argument that
   * `float()` refuses; that exception, and the division by zero when there are no
   * objects, are swallowed and leave the plan as it was.
   */
  function CalcStepPlan(p: Plan, n: nat, start: Option<int>, end: Option<int>): (r: Plan)
  {
    if start.None? || end.None? || n == 0 then p
    else
      var step := RoundDiv(end.value - start.value, n);
      Plan(start.value, step, start.value + n * step, Steps(start.value, step, n))
  }

  /**
   * The plan `calcStep` computes: `n` values from the start value up in equal steps, the
   * step the nearest thousandth to `(end - start) / n`, and the end value one step past
   * the last value. A refused argument or no objects leaves the plan unchanged.
   */
  lemma CalcStepMeaning(p: Plan, n: nat, start: Option<int>, end: Option<int>)
    ensures var r := CalcStepPlan(p, n, start, end);
            if start.None? || end.None? || n == 0 then r == p
            else
              && r.startPA == start.value
              && |r.steps| == n
              && r.steps[0] == start.value
              && (forall k :: 0 <= k < n - 1 ==> r.steps[k + 1] == r.steps[k] + r.stepPA)
              && r.endPA == r.steps[n - 1] + r.stepPA
              && -(n as int) <= 2 * (r.stepPA * n - (end.value - start.value)) <= n
              && ((end.value - start.value) % n == 0 ==> r.endPA == end.value)
  {
    if start.Some? && end.Some? && n > 0 {
      var r := CalcStepPlan(p, n, start, end);
      StepsClosedForm(start.value, r.stepPA, n);
      RoundDivNearest(end.value - start.value, n);
      assert r.steps[n - 1] == start.value + (n - 1) * r.stepPA;
      assert start.value + (n - 1) * r.stepPA + r.stepPA == start.value + n * r.stepPA;
    }
  }
}
