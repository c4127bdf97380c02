/** The tick period the server derives from its tick rate. */
module Tick {
  import opened Wire

  /** One second as a Go `time.Duration`, in nanoseconds. */
  const Second: int := 1_000_000_000

  /** `time.Second / time.Duration(tickRate)`: Go's integer division, which
      truncates toward zero and panics on a zero divisor (`None`). */
  function TickPeriod(tickRate: int): (period: Option<int>)
    ensures period.None? <==> tickRate == 0
    ensures tickRate > 0 ==> period.value * tickRate <= Second < (period.value + 1) * tickRate
    ensures tickRate < 0 ==> period.value * tickRate <= Second < (period.value - 1) * tickRate
    ensures tickRate < 0 ==> period.value <= 0
    // time.NewTicker accepts only a positive period
    ensures period.Some? ==> (period.value > 0 <==> 0 < tickRate <= Second)
  {
    if tickRate == 0 then None
    else if tickRate > 0 then
      var q := Second / tickRate;
      PositiveQuotient(tickRate, q);
      Some(q)
    else
      var q := Second / -tickRate;
      PositiveQuotient(-tickRate, q);
      Some(-q)
  }

  /** The bounds of Euclidean division of one second by a positive divisor. */
  lemma PositiveQuotient(d: int, q: int)
    requires d > 0 && q == Second / d
    ensures q * d <= Second < (q + 1) * d
    ensures q >= 0
    ensures q > 0 <==> d <= Second
  {
    var m := Second % d;
    assert Second == q * d + m && 0 <= m < d;
    assert (q + 1) * d == q * d + d;
    if q > 0 {
      assert q * d >= d;
    }
  }
}
