/** The rhythm both lock packages tick to. */
module Cadence {

  /** The ticker period: half the lease, or the lease where that truncates to zero. */
  function Interval(lease: int): (i: int)
    requires lease > 0
    ensures 0 < i <= lease && (lease == 1 || 2 * i <= lease < 2 * i + 2)
  {
    if lease / 2 <= 0 then lease else lease / 2
  }

  /** Tick starts in order, at most `gap` apart. */
  predicate Paced(starts: seq<int>, gap: int) {
    forall i :: 0 <= i < |starts| - 1 ==> starts[i] <= starts[i + 1] <= starts[i] + gap
  }

  /** The first start at or after a deadline comes less than one gap after it. */
  lemma {:induction false} FirstStart(starts: seq<int>, gap: int, deadline: int) returns (k: nat)
    requires starts != [] && Paced(starts, gap)
    requires starts[0] < deadline + gap && deadline <= starts[|starts| - 1]
    ensures k < |starts| && deadline <= starts[k] < deadline + gap
    ensures forall i :: 0 <= i < k ==> starts[i] < deadline
    decreases |starts|
  {
    if deadline <= starts[0] {
      k := 0;
    } else {
      assert starts[0 + 1] <= starts[0] + gap;
      var k' := FirstStart(starts[1..], gap, deadline);
      k := k' + 1;
    }
  }
}
