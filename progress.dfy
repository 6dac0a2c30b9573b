/** The percentage formulas of the pipeline: download (0-80), remux (80-98) and save
    (90-98 on the worker side, 98-99 on the controller side), the clamp every report goes
    through, and the number shown on the toolbar badge. Floating-point numbers are
    modelled as exact reals; `Math.round` is rounding half up. */
module Progress {

  /** `Math.round(x)`: the nearest integer, a half rounded up. */
  function Round(x: real): (r: int)
    ensures r as real - 0.5 <= x < r as real + 0.5
  {
    (x + 0.5).Floor
  }

  lemma {:induction false} RoundMonotone(x: real, y: real)
    requires x <= y
    ensures Round(x) <= Round(y)
  {
  }

  /** `x` forced into the interval from `lo` to `hi`. */
  function Clamp(x: real, lo: real, hi: real): (r: real)
    requires lo <= hi
    ensures lo <= r <= hi
    ensures lo <= x <= hi ==> r == x
    ensures x < lo ==> r == lo
    ensures hi < x ==> r == hi
  {
    if x < lo then lo else if hi < x then hi else x
  }

  /** The percentage reported after downloading segment `i` of `n`: the fraction `i / n`
      of 80, rounded, and never above 80. */
  function DownloadPercent(i: nat, n: nat): (r: int)
    requires 0 < n
    ensures 0 <= r <= 80
  {
    var x := Round((i as real / n as real) * 80.0);
    if x < 80 then x else 80
  }

  lemma {:induction false} DownloadPercentMonotone(i: nat, j: nat, n: nat)
    requires 0 < n && i <= j
    ensures DownloadPercent(i, n) <= DownloadPercent(j, n)
  {
    assert i as real / n as real <= j as real / n as real;
    RoundMonotone((i as real / n as real) * 80.0, (j as real / n as real) * 80.0);
  }

  /** Halfway through the segments the report is 40, half of the download band. */
  lemma {:induction false} DownloadPercentHalfway(i: nat, n: nat)
    requires 0 < n && 2 * i == n
    ensures DownloadPercent(i, n) == 40
  {
    assert i as real / n as real == 0.5;
    assert (i as real / n as real) * 80.0 == 40.0;
  }

  /** The worker's percentage after sending the chunk that ends at byte `end` of `total`:
      the fraction `end / total` of 98, rounded, then held between 90 and 98. */
  function SavePercent(end: nat, total: nat): (r: int)
    requires 0 < total
    ensures 90 <= r <= 98
    ensures total <= end ==> r == 98
  {
    assert total <= end ==> 1.0 <= end as real / total as real;
    var x := Round(98.0 * (end as real / total as real));
    if x < 90 then 90 else if 98 < x then 98 else x
  }

  lemma {:induction false} SavePercentMonotone(e1: nat, e2: nat, total: nat)
    requires 0 < total && e1 <= e2
    ensures SavePercent(e1, total) <= SavePercent(e2, total)
  {
    assert e1 as real / total as real <= e2 as real / total as real;
    RoundMonotone(98.0 * (e1 as real / total as real), 98.0 * (e2 as real / total as real));
  }

  /** The remux percentage for the engine's completion ratio: 80 plus the ratio's share of
      18 rounded to two decimals, that share capped at 18. */
  function RemuxPercent(ratio: real): (r: real)
    ensures r <= 98.0
    ensures 0.0 <= ratio ==> 80.0 <= r
  {
    var x := Round(ratio * 18.0 * 100.0) as real / 100.0;
    80.0 + (if x < 18.0 then x else 18.0)
  }

  /** The controller's percentage after a chunk arrives, with `bytes` received so far and
      `total` declared by the worker (`0` when absent, in which case `bytes` stands in for
      it): 98 plus the received fraction capped at 1, rounded to two decimals and held
      between 98 and 99. A zero-length first chunk with no declared total makes the source
      divide 0 by 0; the model yields 98 there. */
  function SaveChunkPercent(bytes: nat, total: nat): (r: real)
    ensures 98.0 <= r <= 99.0
    ensures 0 < total <= bytes ==> r == 99.0
  {
    var denominator := if total != 0 then total else bytes;
    if denominator == 0 then 98.0
    else
      var ratio := bytes as real / denominator as real;
      assert 0 < total <= bytes ==> 1.0 <= ratio;
      var capped := if ratio < 1.0 then ratio else 1.0;
      var x := Round((98.0 + capped) * 100.0) as real / 100.0;
      Clamp(x, 98.0, 99.0)
  }

  lemma {:induction false} SaveChunkPercentMonotone(b1: nat, b2: nat, total: nat)
    requires 0 < total && b1 <= b2
    ensures SaveChunkPercent(b1, total) <= SaveChunkPercent(b2, total)
  {
    var r1, r2 := b1 as real / total as real, b2 as real / total as real;
    assert r1 <= r2;
    var c1 := if r1 < 1.0 then r1 else 1.0;
    var c2 := if r2 < 1.0 then r2 else 1.0;
    RoundMonotone((98.0 + c1) * 100.0, (98.0 + c2) * 100.0);
  }

  /** Reading the integer part of a number's decimal text, for a number written without
      an exponent: truncation toward zero. */
  function Truncate(x: real): (r: int)
    ensures 0.0 <= x ==> r as real <= x < r as real + 1.0
    ensures x < 0.0 ==> r as real - 1.0 < x <= r as real
  {
    if 0.0 <= x then x.Floor else -((-x).Floor)
  }

  /** The badge number of a running job: the integer part of its progress, held between
      0 and 99. */
  function BadgePercent(progress: real): (r: nat)
    ensures r <= 99
    ensures 0.0 <= progress < 100.0 ==> r as real <= progress < r as real + 1.0
    ensures progress < 1.0 ==> r == 0
    ensures 99.0 <= progress ==> r == 99
  {
    var t := Truncate(progress);
    if t < 0 then 0 else if 99 < t then 99 else t
  }
}
