/** The figures the statistics threads compute from the counters: the loss
    rate of the receiver (`loss_rate`) and the drop rate of the sender
    (`drop_rate`) share one guarded formula, and the receiver grades its loss
    rate and its delay estimate with fixed thresholds. */
module Stats {
  /** `lost / (delivered + lost) * 100`, or 0 while nothing was observed. */
  function LossPercent(lost: nat, delivered: nat): (r: real)
    ensures 0.0 <= r <= 100.0
    ensures lost + delivered > 0 ==> r * (lost + delivered) as real == 100.0 * lost as real
    ensures r == 0.0 <==> lost == 0
    ensures r == 100.0 <==> lost > 0 && delivered == 0
  {
    var total := lost + delivered;
    if total > 0 then
      var f := lost as real / total as real;
      FractionBounds(lost as real, total as real);
      var r := f * 100.0;
      assert r * total as real == 100.0 * lost as real;
      assert r == 100.0 ==> lost == total;
      r
    else 0.0
  }

  /** A share of a positive whole lies in [0, 1], and is 1 only for the
      whole. */
  lemma FractionBounds(part: real, whole: real)
    requires 0.0 <= part <= whole && whole > 0.0
    ensures 0.0 <= part / whole <= 1.0
    ensures part / whole * whole == part
    ensures part / whole == 1.0 ==> part == whole
  {
    var f := part / whole;
    assert f * whole == part;
    assert (1.0 - f) * whole == whole - part;
  }

  /** More losses against the same number of delivered packets never lower
      the rate. */
  lemma LossPercentMonotone(lost1: nat, lost2: nat, delivered: nat)
    requires lost1 <= lost2
    ensures LossPercent(lost1, delivered) <= LossPercent(lost2, delivered)
  {
    if lost1 > 0 {
      var t1, t2 := (lost1 + delivered) as real, (lost2 + delivered) as real;
      var r1, r2 := LossPercent(lost1, delivered), LossPercent(lost2, delivered);
      assert r1 * t1 == 100.0 * lost1 as real;
      assert r2 * t2 == 100.0 * lost2 as real;
      // lost / (lost + d) grows with lost: lost1 * t2 <= lost2 * t1
      assert lost1 as real * t2 <= lost2 as real * t1 by {
        assert lost1 as real * t2 - lost2 as real * t1
          == delivered as real * (lost1 as real - lost2 as real);
      }
      var c := t1 * t2;
      assert c > 0.0;
      assert r1 * c == 100.0 * lost1 as real * t2;
      assert r2 * c == 100.0 * lost2 as real * t1;
      assert r1 * c <= r2 * c;
    }
  }

  /** The three-colour status shown next to a figure. */
  datatype Indicator = Green | Yellow | Red

  function Severity(i: Indicator): nat {
    match i
    case Green => 0
    case Yellow => 1
    case Red => 2
  }

  /** `loss_status`: green below 5 %, yellow below 15 %, red otherwise. */
  function LossIndicator(rate: real): (i: Indicator)
    ensures i == Green <==> rate < 5.0
    ensures i == Red <==> rate >= 15.0
  {
    if rate < 5.0 then Green else if rate < 15.0 then Yellow else Red
  }

  /** `delay_status`: green below 50 ms, yellow below 100 ms, red otherwise. */
  function DelayIndicator(ms: real): (i: Indicator)
    ensures i == Green <==> ms < 50.0
    ensures i == Red <==> ms >= 100.0
  {
    if ms < 50.0 then Green else if ms < 100.0 then Yellow else Red
  }

  /** A worse figure never gets a better colour. */
  lemma IndicatorsMonotone(a: real, b: real)
    requires a <= b
    ensures Severity(LossIndicator(a)) <= Severity(LossIndicator(b))
    ensures Severity(DelayIndicator(a)) <= Severity(DelayIndicator(b))
  {
  }
}
