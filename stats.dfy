/**
 * The derived figures the screens display: the progress percentage, its
 * rounded value (`Math.round`), and the "+k more" indicator under a
 * truncated widget list.
 */
module Stats {
  import opened Basics
  import opened Text

  /** `total > 0 ? (done / total) * 100 : 0`, computed exactly. */
  function Progress(done: nat, total: nat): (p: real)
    ensures total == 0 ==> p == 0.0
    ensures done <= total ==> 0.0 <= p <= 100.0
    ensures 0 < total && done == total ==> p == 100.0
    ensures done == 0 ==> p == 0.0
  {
    if total > 0 then
      assert done <= total ==> (done as real) / (total as real) <= 1.0;
      (done as real) / (total as real) * 100.0
    else 0.0
  }

  /** `Math.round(x)`: the nearest integer, halves rounded up. */
  function Round(x: real): (r: int)
    ensures r as real - 0.5 <= x < r as real + 0.5
  {
    (x + 0.5).Floor
  }

  /** `Math.max(total, 1)`. */
  function AtLeastOne(total: nat): (m: nat)
    ensures 1 <= m && (total >= 1 ==> m == total)
  {
    if total >= 1 then total else 1
  }

  /** `Math.round((done / Math.max(total, 1)) * 100)`. */
  function RoundedPercent(done: nat, total: nat): int
  {
    Round(Progress(done, AtLeastOne(total)))
  }

  /** `Math.round` lands on an integer as soon as the exact value is one. */
  lemma RoundOfInteger(k: int)
    ensures Round(k as real) == k
  {
  }

  /**
   * The rounded percentage is 0 for an empty or untouched list, 100 when every
   * item is done, always within 0..100, and never more than half a point from
   * the exact progress.
   */
  lemma RoundedPercentBounds(done: nat, total: nat)
    requires done <= total
    ensures 0 <= RoundedPercent(done, total) <= 100
    ensures total == 0 || done == 0 ==> RoundedPercent(done, total) == 0
    ensures 0 < total && done == total ==> RoundedPercent(done, total) == 100
    ensures 0 < total ==>
      RoundedPercent(done, total) as real - 0.5 <= Progress(done, total) < RoundedPercent(done, total) as real + 0.5
  {
    var p := Progress(done, AtLeastOne(total));
    assert 0.0 <= p <= 100.0;
    if total == 0 || done == 0 {
      RoundOfInteger(0);
    } else if done == total {
      RoundOfInteger(100);
    }
  }

  /** Two of six items done shows 33; one of eight shows 13 (the half rounds up). */
  lemma RoundedPercentExamples()
    ensures RoundedPercent(2, 6) == 33
    ensures RoundedPercent(1, 8) == 13
    ensures RoundedPercent(0, 0) == 0
  {
    assert Progress(2, 6) == 200.0 / 6.0;
    assert Progress(1, 8) == 12.5;
  }

  /**
   * The indicator under a widget that shows the first `limit` entries:
   * `n > limit ? "+" + (n - limit) + " more " + noun : nothing`.
   */
  function MoreIndicator(n: nat, limit: nat, noun: string): (shown: Option<string>)
    ensures shown.Some? <==> n > limit
  {
    if n > limit then Some("+" + NatToString(n - limit) + " more " + noun) else None
  }

  /** The number in the indicator is exactly the count of entries left off the widget. */
  lemma MoreIndicatorCount(n: nat, limit: nat, noun: string)
    requires n > limit
    ensures ParseInt(MoreIndicator(n, limit, noun).value) == Some(n - limit)
  {
    var rest := " more " + noun;
    ParseIntLeadingCount(n - limit, rest);
    assert MoreIndicator(n, limit, noun).value == "+" + NatToString(n - limit) + rest;
  }
}
