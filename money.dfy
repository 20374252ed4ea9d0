/**
 * Money arithmetic shared by the payoff engine, the allocator and the
 * import screen. Amounts are exact reals; the only rounding is the
 * explicit cent rounding the program applies when it emits a figure.
 */
module Money {

  function Min(a: real, b: real): real { if a <= b then a else b }

  function Max(a: real, b: real): real { if a >= b then a else b }

  function Abs(x: real): real { if x < 0.0 then -x else x }

  /** `Math.round(x * 100) / 100`: JavaScript's Math.round sends halves up, so this is floor(100x + 1/2) / 100. */
  function Round2(x: real): (r: real)
    ensures x - 0.005 < r <= x + 0.005
  {
    ((x * 100.0 + 0.5).Floor as real) / 100.0
  }

  /** `Math.round(p * 1000) / 10`: a fraction shown as a percentage with one decimal. */
  function RoundPct(p: real): (r: real)
    ensures 100.0 * p - 0.05 < r <= 100.0 * p + 0.05
  {
    ((p * 1000.0 + 0.5).Floor as real) / 10.0
  }

  /** Rounding to cents never reverses the order of two amounts. */
  lemma Round2Monotone(x: real, y: real)
    requires x <= y
    ensures Round2(x) <= Round2(y)
  {
    var fx, fy := (x * 100.0 + 0.5).Floor, (y * 100.0 + 0.5).Floor;
    assert fx as real <= x * 100.0 + 0.5 <= y * 100.0 + 0.5 < fy as real + 1.0;
    assert fx <= fy;
  }

  /** The rounded amount exceeds half a cent exactly when the exact amount is at least half a cent. */
  lemma Round2AboveHalfCent(x: real)
    ensures Round2(x) > 0.005 <==> x >= 0.005
  {
    var f := (x * 100.0 + 0.5).Floor;
    if x >= 0.005 {
      assert x * 100.0 + 0.5 >= 1.0;
      assert f >= 1;
    } else {
      assert x * 100.0 + 0.5 < 1.0;
      assert f <= 0;
    }
  }

  /** Left-to-right sum of a list of amounts (a JavaScript `reduce((s, x) => s + x, 0)`). */
  function Sum(s: seq<real>): real
  {
    if s == [] then 0.0 else Sum(s[..|s| - 1]) + s[|s| - 1]
  }

  lemma {:induction false} SumAppend(a: seq<real>, b: seq<real>)
    ensures Sum(a + b) == Sum(a) + Sum(b)
    decreases |b|
  {
    if b != [] {
      assert (a + b)[..|a + b| - 1] == a + b[..|b| - 1];
      SumAppend(a, b[..|b| - 1]);
    } else {
      assert a + b == a;
    }
  }

  lemma {:induction false} SumNonNegative(s: seq<real>)
    requires forall i :: 0 <= i < |s| ==> s[i] >= 0.0
    ensures Sum(s) >= 0.0
  {
    if s != [] {
      SumNonNegative(s[..|s| - 1]);
    }
  }
}
