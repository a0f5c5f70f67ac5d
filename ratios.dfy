/** The guarded ratios every dashboard card computes: a percentage of a count, a mean
    over a count, and a percentage change against a previous value. Each is 0 when its
    denominator is 0 (or, for a change, not positive). */
module Ratios {
  /** `whole > 0 ? (part / whole) * 100 : 0`: the rate that, applied to `whole`, gives
      `part`; 100 exactly when the part is the whole. */
  function Percent(part: nat, whole: nat): (r: real)
    ensures whole == 0 ==> r == 0.0
    ensures r >= 0.0
    ensures part <= whole ==> r <= 100.0
    ensures whole > 0 ==> r * (whole as real) == (part as real) * 100.0
    ensures whole > 0 ==> (r == 100.0 <==> part == whole)
  {
    if whole > 0 then
      var q := part as real / whole as real;
      FractionBounds(part as real, whole as real);
      assert q * (whole as real) == part as real;
      q * 100.0
    else 0.0
  }

  lemma FractionBounds(p: real, w: real)
    requires p >= 0.0 && w > 0.0
    ensures p / w >= 0.0
    ensures p <= w ==> p / w <= 1.0
    ensures p == w ==> p / w == 1.0
  {
    var q := p / w;
    assert q * w == p;
  }

  /** `n > 0 ? total / n : 0`: the mean, which multiplied back by `n` gives the total. */
  function Mean(total: real, n: nat): (r: real)
    ensures n == 0 ==> r == 0.0
    ensures n > 0 ==> r * (n as real) == total
    ensures n > 0 && total >= 0.0 ==> r >= 0.0
  {
    if n > 0 then
      FractionBounds(if total >= 0.0 then total else 0.0, n as real);
      total / n as real
    else 0.0
  }

  /** `anterior > 0 ? ((atual - anterior) / anterior) * 100 : 0`: its sign is the
      direction of the change. */
  function Variation(atual: real, anterior: real): (r: real)
    ensures anterior <= 0.0 ==> r == 0.0
    ensures anterior > 0.0 ==> (r > 0.0 <==> atual > anterior)
    ensures anterior > 0.0 ==> (r < 0.0 <==> atual < anterior)
    ensures anterior > 0.0 ==> r * anterior == (atual - anterior) * 100.0
  {
    if anterior > 0.0 then
      var q := (atual - anterior) / anterior;
      SignOfQuotient(atual - anterior, anterior);
      q * 100.0
    else 0.0
  }

  lemma SignOfQuotient(d: real, w: real)
    requires w > 0.0
    ensures d / w > 0.0 <==> d > 0.0
    ensures d / w < 0.0 <==> d < 0.0
    ensures (d / w) * w == d
  {
    var q := d / w;
    assert q * w == d;
  }
}
