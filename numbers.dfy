/**
 * Numeric helpers shared by the server, the inference script and the client pages:
 * the left-fold sum that `reduce((a, b) => a + b, 0)` computes, JavaScript's
 * `Math.round` and `Number(x.toFixed(d))`, and clamping.
 */
module Numbers {

  /** `s.reduce((a, b) => a + b, 0)`: a left fold from 0. */
  function Sum(s: seq<real>): real
    decreases |s|
  {
    if |s| == 0 then 0.0 else Sum(s[..|s| - 1]) + s[|s| - 1]
  }

  lemma SumAppend(s: seq<real>, x: real)
    ensures Sum(s + [x]) == Sum(s) + x
  {
    assert (s + [x])[..|s + [x]| - 1] == s;
  }

  /** A sum of values that each lie in [lo, hi] lies in [|s|*lo, |s|*hi]. */
  lemma {:induction false} SumBounds(s: seq<real>, lo: real, hi: real)
    requires forall i :: 0 <= i < |s| ==> lo <= s[i] <= hi
    ensures |s| as real * lo <= Sum(s) <= |s| as real * hi
    decreases |s|
  {
    if |s| > 0 {
      var n := (|s| - 1) as real;
      SumBounds(s[..|s| - 1], lo, hi);
      assert |s| as real * lo == n * lo + lo;
      assert |s| as real * hi == n * hi + hi;
    }
  }

  /** Two sequences that agree pointwise have the same sum. */
  lemma {:induction false} SumPointwise(s: seq<real>, t: seq<real>)
    requires |s| == |t|
    requires forall i :: 0 <= i < |s| ==> s[i] == t[i]
    ensures Sum(s) == Sum(t)
  {
    assert s == t;
  }

  /** Summing after multiplying every entry by `k` is multiplying the sum by `k`. */
  lemma {:induction false} SumScaled(s: seq<real>, t: seq<real>, k: real)
    requires |s| == |t|
    requires forall i :: 0 <= i < |s| ==> t[i] == k * s[i]
    ensures Sum(t) == k * Sum(s)
    decreases |s|
  {
    if |s| > 0 {
      SumScaled(s[..|s| - 1], t[..|t| - 1], k);
    }
  }

  /** `Math.max(lo, Math.min(hi, x))`. */
  function Clamp(x: real, lo: real, hi: real): (r: real)
    requires lo <= hi
    ensures lo <= r <= hi
    ensures lo <= x <= hi ==> r == x
    ensures x < lo ==> r == lo
    ensures hi < x ==> r == hi
  {
    if x < lo then lo else if hi < x then hi else x
  }

  function Abs(x: real): (r: real)
    ensures r >= 0.0 && (r == x || r == -x)
  {
    if x < 0.0 then -x else x
  }

  function Pow10(d: nat): (r: nat)
    ensures r >= 1
  {
    if d == 0 then 1 else 10 * Pow10(d - 1)
  }

  /**
   * JavaScript `Math.round`: the nearest integer, ties going towards +infinity.
   */
  function JsRound(x: real): (r: int)
    ensures x - 0.5 < r as real <= x + 0.5
  {
    (x + 0.5).Floor
  }

  /**
   * `Number(x.toFixed(d))` on the exact value: the nearest multiple of 10^-d,
   * ties going away from zero (toFixed works on the magnitude and prefixes the sign).
   */
  function ToFixed(x: real, d: nat): real
  {
    WithSignOf(x, RoundMagnitude(Abs(x), Pow10(d) as real))
  }

  /** A magnitude given the sign of x. */
  function WithSignOf(x: real, mag: real): real {
    if x < 0.0 then -mag else mag
  }

  /** The multiple of 1/p nearest to a >= 0, ties upwards. */
  function RoundMagnitude(a: real, p: real): real
    requires p >= 1.0
  {
    (a * p + 0.5).Floor as real / p
  }

  lemma RoundMagnitudeClose(a: real, p: real)
    requires p >= 1.0
    ensures -0.5 <= (RoundMagnitude(a, p) - a) * p <= 0.5
  {
    var m := (a * p + 0.5).Floor as real;
    assert (m / p) * p == m;
    assert (m / p - a) * p == m - a * p;
  }

  /** toFixed moves a value by at most half a unit in the last kept decimal. */
  lemma ToFixedClose(x: real, d: nat)
    ensures Abs(ToFixed(x, d) - x) * Pow10(d) as real <= 0.5
  {
    SignedRoundClose(x, Pow10(d) as real);
  }

  /** Rounding |x| to a multiple of 1/p and restoring the sign stays within half of 1/p of x. */
  lemma SignedRoundClose(x: real, p: real)
    requires p >= 1.0
    ensures Abs(WithSignOf(x, RoundMagnitude(Abs(x), p)) - x) * p <= 0.5
  {
    RoundMagnitudeClose(Abs(x), p);
    SignedClose(x, RoundMagnitude(Abs(x), p), p);
  }

  /**
   * A magnitude within half a unit of |x|, given the sign of x, is within
   * half a unit of x.
   */
  lemma SignedClose(x: real, mag: real, p: real)
    requires p >= 1.0 && -0.5 <= (mag - Abs(x)) * p <= 0.5
    ensures Abs(WithSignOf(x, mag) - x) * p <= 0.5
  {
    var e := mag - Abs(x);
    assert Abs(WithSignOf(x, mag) - x) == Abs(e);
    if e < 0.0 {
      assert Abs(e) * p == -(e * p);
    }
  }
}
