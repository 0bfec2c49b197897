/**
 * The five-minute time sequence the batch front ends step through:
 * `[start + timedelta(seconds=x) for x in range(0, nb_seconds, 300)]`
 * with `nb_seconds` the span from start to end plus 300.  Times are
 * integer seconds; time zones and formatting are not modelled.
 */
module Cadence {
  /** The radar's scan interval, in seconds. */
  const Step: int := 300

  /** The number of offsets `range(0, span + 300, 300)` yields. */
  function Count(span: int): (n: nat)
  {
    if span + Step <= 0 then 0 else (span + Step - 1) / Step + 1
  }

  /** `range(0, span + 300, 300)`. */
  function Offsets(span: int): (r: seq<int>)
    ensures |r| == Count(span)
    ensures forall k :: 0 <= k < |r| ==> r[k] == Step * k
  {
    seq(Count(span), k => Step * k)
  }

  /**
   * An offset is produced exactly when it is a non-negative multiple of
   * 300 below `span + 300`.
   */
  lemma {:induction false} OffsetsExactly(span: int, x: int)
    ensures x in Offsets(span) <==> 0 <= x && x % Step == 0 && x < span + Step
  {
    var r := Offsets(span);
    if x in r {
      var k :| 0 <= k < |r| && r[k] == x;
      assert x == Step * k;
      assert k <= (span + Step - 1) / Step;
      assert Step * k <= Step * ((span + Step - 1) / Step) <= span + Step - 1;
    }
    if 0 <= x && x % Step == 0 && x < span + Step {
      var k := x / Step;
      assert x == Step * k;
      assert k <= (span + Step - 1) / Step by {
        assert Step * k <= span + Step - 1;
      }
      assert r[k] == x;
    }
  }

  /** The sequence is empty iff the end lies at least 300 s before the start. */
  lemma OffsetsEmpty(span: int)
    ensures Offsets(span) == [] <==> span <= -Step
  {
  }

  /** The times of the span from `start` to `end`. */
  function Times(start: int, end: int): (r: seq<int>)
    ensures |r| == Count(end - start)
    ensures forall k :: 0 <= k < |r| ==> r[k] == start + Step * k
  {
    seq(Count(end - start), k => start + Step * k)
  }

  /**
   * The times start at `start`, are 300 s apart, and the last one is
   * the first of the sequence at or after `end`.
   */
  lemma {:induction false} TimesCoverSpan(start: int, end: int)
    requires start <= end
    ensures |Times(start, end)| > 0 && Times(start, end)[0] == start
    ensures forall k :: 0 <= k < |Times(start, end)| - 1 ==> Times(start, end)[k + 1] - Times(start, end)[k] == Step
    ensures var t := Times(start, end); end <= t[|t| - 1] < end + Step
  {
    var n := Count(end - start);
    var q := (end - start + Step - 1) / Step;
    assert n == q + 1;
    assert Step * q <= end - start + Step - 1;
    assert end - start + Step - 1 < Step * q + Step;
  }
}
