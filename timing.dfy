/** Frame-time bookkeeping shared by the countdowns that stand in for the coroutines. */
module Timing {
  /** Total duration of a run of frames. */
  function Sum(dts: seq<real>): real
  {
    if dts == [] then 0.0 else dts[0] + Sum(dts[1..])
  }

  /** Every frame duration is non-negative, as the engine's delta time is. */
  predicate NonNegative(dts: seq<real>)
  {
    forall i :: 0 <= i < |dts| ==> dts[i] >= 0.0
  }

  lemma {:induction false} SumNonNegative(dts: seq<real>)
    requires NonNegative(dts)
    ensures Sum(dts) >= 0.0
  {
    if dts != [] {
      NonNegativeTail(dts);
      SumNonNegative(dts[1..]);
    }
  }

  lemma NonNegativeTail(dts: seq<real>)
    requires dts != [] && NonNegative(dts)
    ensures dts[0] >= 0.0 && NonNegative(dts[1..])
  {
  }
}
