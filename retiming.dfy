/** `adjustSpeed`: choosing the playback speed and splitting the audio tempo
    change into `atempo` stages that each stay within [0.5, 2.0]. */
module Retiming {
  import opened Wrappers
  import opened Numbers
  import opened MediaProbe

  const MinSpeed: real := 0.25
  const MaxSpeed: real := 4.0

  /** `targetDuration ? originalDuration / targetDuration : (inputSpeed || 1)`. */
  function RequestedSpeed(original: real, target: Option<real>, inputSpeed: Option<real>): (r: real)
    ensures target.Some? && target.value != 0.0 ==> r * target.value == original
    ensures (target.None? || target.value == 0.0) && inputSpeed.Some? && inputSpeed.value != 0.0 ==> r == inputSpeed.value
    ensures (target.None? || target.value == 0.0) && (inputSpeed.None? || inputSpeed.value == 0.0) ==> r == 1.0
  {
    if target.Some? && target.value != 0.0 then original / target.value else OrElse(inputSpeed, 1.0)
  }

  /** `Math.max(0.25, Math.min(4, speed))`. */
  function ClampSpeed(speed: real): (r: real)
    ensures MinSpeed <= r <= MaxSpeed
    ensures MinSpeed <= speed <= MaxSpeed ==> r == speed
    ensures speed < MinSpeed ==> r == MinSpeed
    ensures speed > MaxSpeed ==> r == MaxSpeed
  {
    Max(MinSpeed, Min(MaxSpeed, speed))
  }

  function ChooseSpeed(original: real, target: Option<real>, inputSpeed: Option<real>): real {
    ClampSpeed(RequestedSpeed(original, target, inputSpeed))
  }

  function Product(stages: seq<real>): real {
    if stages == [] then 1.0 else stages[0] * Product(stages[1..])
  }

  /** A measure that the halving and doubling steps of the tempo chain
      decrease. */
  function ChainMeasure(cur: real): nat
    requires cur > 0.0
  {
    if cur > 2.0 then cur.Floor else if cur < 0.5 then (1.0 / cur).Floor else 0
  }

  lemma ChainMeasureDecreases(cur: real)
    requires cur > 0.0
    ensures cur > 2.0 ==> ChainMeasure(cur / 2.0) < ChainMeasure(cur)
    ensures cur < 0.5 ==> ChainMeasure(cur / 0.5) < ChainMeasure(cur)
  {
    if cur < 0.5 {
      var inv := 1.0 / cur;
      assert inv > 2.0;
      assert 1.0 / (cur / 0.5) == inv / 2.0;
    }
  }

  /** The stages `buildAtempoFilter(s)` emits: ×2.0 while above 2.0, then ×0.5
      while below 0.5, then the residual. Every stage lies in [0.5, 2.0]. */
  function AtempoChain(cur: real): (r: seq<real>)
    requires cur > 0.0
    ensures |r| >= 1
    ensures forall k :: 0 <= k < |r| ==> 0.5 <= r[k] <= 2.0
    ensures 0.5 <= cur <= 2.0 ==> r == [cur]
    decreases ChainMeasure(cur)
  {
    ChainMeasureDecreases(cur);
    if cur > 2.0 then [2.0] + AtempoChain(cur / 2.0)
    else if cur < 0.5 then [0.5] + AtempoChain(cur / 0.5)
    else [cur]
  }

  /** The stages multiply back to the speed they were built for. */
  lemma {:induction false} AtempoChainProduct(cur: real)
    requires cur > 0.0
    ensures Product(AtempoChain(cur)) == cur
    decreases ChainMeasure(cur)
  {
    ChainMeasureDecreases(cur);
    var r := AtempoChain(cur);
    if cur > 2.0 {
      AtempoChainProduct(cur / 2.0);
      assert r[1..] == AtempoChain(cur / 2.0);
      assert Product(r) == 2.0 * (cur / 2.0);
    } else if cur < 0.5 {
      AtempoChainProduct(cur / 0.5);
      assert r[1..] == AtempoChain(cur / 0.5);
      assert Product(r) == 0.5 * (cur / 0.5);
    } else {
      assert r == [cur];
      assert Product(r) == cur * Product([]);
    }
  }

  /** Every stage but the last is ×2.0 when slowing audio down is not needed
      (`cur > 2`), and ×0.5 otherwise; within [0.5, 2.0] there is one stage. */
  lemma {:induction false} AtempoChainUniformPrefix(cur: real)
    requires cur > 0.0
    ensures forall k :: 0 <= k < |AtempoChain(cur)| - 1 ==> AtempoChain(cur)[k] == (if cur > 2.0 then 2.0 else 0.5)
    decreases ChainMeasure(cur)
  {
    ChainMeasureDecreases(cur);
    if cur > 2.0 {
      var next := cur / 2.0;
      AtempoChainUniformPrefix(next);
      assert !(next < 0.5);
      if next > 2.0 {
      } else {
        assert AtempoChain(next) == [next];
      }
    } else if cur < 0.5 {
      var next := cur / 0.5;
      AtempoChainUniformPrefix(next);
      assert !(next > 2.0);
    }
  }

  /** `buildAtempoFilter`: the two while-loops over `cur`. */
  method BuildAtempoFilter(s: real) returns (filters: seq<real>)
    requires s > 0.0
    ensures filters == AtempoChain(s)
  {
    filters := [];
    var cur := s;
    while cur > 2.0
      invariant cur > 0.0
      invariant filters + AtempoChain(cur) == AtempoChain(s)
      decreases ChainMeasure(cur)
    {
      ChainMeasureDecreases(cur);
      ghost var rest := AtempoChain(cur / 2.0);
      assert AtempoChain(cur) == [2.0] + rest;
      assert (filters + [2.0]) + rest == filters + ([2.0] + rest);
      filters := filters + [2.0];
      cur := cur / 2.0;
    }
    while cur < 0.5
      invariant 0.0 < cur <= 2.0
      invariant filters + AtempoChain(cur) == AtempoChain(s)
      decreases ChainMeasure(cur)
    {
      ChainMeasureDecreases(cur);
      ghost var rest := AtempoChain(cur / 0.5);
      assert AtempoChain(cur) == [0.5] + rest;
      assert (filters + [0.5]) + rest == filters + ([0.5] + rest);
      filters := filters + [0.5];
      cur := cur / 0.5;
    }
    assert AtempoChain(cur) == [cur];
    filters := filters + [cur];
  }

  /** The parameters of the retiming job: video timestamps are divided by
      `speed`, audio goes through the `atempo` stages. */
  datatype SpeedPlan = SpeedPlan(originalDuration: real, speed: real, atempo: seq<real>)

  datatype SpeedError = ProbeFailed

  /** `adjustSpeed(inputPath, targetDuration, inputSpeed)` up to the engine run:
      a failed probe rejects, otherwise the chosen speed and its tempo chain. */
  method AdjustSpeed(probe: Probe, target: Option<real>, inputSpeed: Option<real>)
    returns (r: Result<SpeedPlan, SpeedError>)
    ensures probe.ProbeError? <==> r.Failure?
    ensures r.Success? ==> r.value.originalDuration == DurationOrZero(probe)
    ensures r.Success? ==> r.value.speed == ChooseSpeed(DurationOrZero(probe), target, inputSpeed)
    ensures r.Success? ==> MinSpeed <= r.value.speed <= MaxSpeed
    ensures r.Success? ==> r.value.atempo == AtempoChain(r.value.speed)
    ensures r.Success? ==> Product(r.value.atempo) == r.value.speed
  {
    if probe.ProbeError? {
      return Failure(ProbeFailed);
    }
    var originalDuration := DurationOrZero(probe);
    var speed := ChooseSpeed(originalDuration, target, inputSpeed);
    var stages := BuildAtempoFilter(speed);
    AtempoChainProduct(speed);
    r := Success(SpeedPlan(originalDuration, speed, stages));
  }

  /** The lower and upper clamps give two equal stages each. */
  lemma AtempoChainAtClamps()
    ensures AtempoChain(MinSpeed) == [0.5, 0.5]
    ensures AtempoChain(MaxSpeed) == [2.0, 2.0]
  {
    assert AtempoChain(1.0 / 2.0) == [0.5];
    assert AtempoChain(2.0) == [2.0];
  }

  /** Worked examples: a requested 0.1× clamps to 0.25 and 9× clamps to 4. */
  lemma SpeedExamples()
    ensures ChooseSpeed(1.0, Some(10.0), None) == 0.25
    ensures ChooseSpeed(5.0, None, Some(9.0)) == 4.0
    ensures ChooseSpeed(5.0, Some(0.0), None) == 1.0
  {
  }
}
