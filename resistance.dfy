/** The resistance estimator of the MQ-2 sensor and the averages that the
    calibration and the normal read take over it. Floats are idealised as
    `real`; a raw sample is an unbounded `int`, so that the formula is stated
    for every value it can be handed. */
module Resistance {

  /** Load resistance on the board, in kilo-ohms. */
  const RL_VALUE: real := 10.0

  /** The raw value reported at full scale: the 16-bit interface reports a
      10-bit conversion shifted left by six bits, so 1023 * 64. */
  const FULL_SCALE: int := 65472

  /** Sensor resistance in clean air divided by Ro, from the datasheet chart. */
  const RO_CLEAN_AIR_FACTOR: real := 9.83

  /** Samples taken by the calibration. */
  const CALIBRATION_SAMPLE_TIMES: nat := 50

  /** Iterations of the normal read; each iteration takes two samples. */
  const READ_SAMPLE_TIMES: nat := 5

  /** Samples one normal read consumes. */
  const READ_SAMPLES_CONSUMED: nat := 2 * READ_SAMPLE_TIMES

  /** The largest resistance the formula gives: that of raw values 0 and 1. */
  const MAX_RESISTANCE: real := RL_VALUE * (FULL_SCALE - 1) as real

  /** The divisor the formula uses: a raw value of 0 is treated as 1. */
  function GuardedRaw(raw: int): (d: int)
    ensures d != 0
    ensures raw != 0 ==> d == raw
    ensures raw == 0 ==> d == 1
  {
    if raw == 0 then 1 else raw
  }

  /** Sensor resistance (kilo-ohms) from one raw sample of the voltage across
      the load resistor. The sensor and the load resistor form a voltage
      divider, so the guarded raw value times (Rs + RL) is RL times full scale. */
  function ResistanceCalculation(raw: int): (r: real)
    ensures (r + RL_VALUE) * GuardedRaw(raw) as real == RL_VALUE * FULL_SCALE as real
    ensures r < 0.0 <==> raw < 0 || raw > FULL_SCALE
    ensures r == 0.0 <==> raw == FULL_SCALE
    ensures r <= MAX_RESISTANCE
  {
    var d := GuardedRaw(raw) as real;
    RL_VALUE * (FULL_SCALE as real - d) / d
  }

  /** The zero guard: a raw value of 0 gives the resistance of a raw value of 1. */
  lemma ZeroGuard()
    ensures ResistanceCalculation(0) == ResistanceCalculation(1)
    ensures ResistanceCalculation(0) == RL_VALUE * (FULL_SCALE - 1) as real
  {
  }

  /** For positive raw values the resistance strictly decreases as the raw value grows. */
  lemma ResistanceDecreasing(raw1: int, raw2: int)
    requires 1 <= raw1 < raw2
    ensures ResistanceCalculation(raw1) > ResistanceCalculation(raw2)
  {
    var x1, x2 := raw1 as real, raw2 as real;
    var q1, q2 := ResistanceCalculation(raw1) + RL_VALUE, ResistanceCalculation(raw2) + RL_VALUE;
    var p1, p2, p3 := q1 * x1, q2 * x2, q2 * x1;
    assert p1 == p2 == RL_VALUE * FULL_SCALE as real;
    assert q2 > 0.0;
    // so q1 * x1 == q2 * x2 > q2 * x1, and dividing by x1 > 0 gives q1 > q2
    assert p2 > p3;
    CancelPositiveFactor(q1, q2, x1);
  }

  lemma CancelPositiveFactor(a: real, b: real, c: real)
    requires c > 0.0 && a * c > b * c
    ensures a > b
  {
  }

  /** Every sample lies in the converter's range up to and including full scale. */
  ghost predicate WithinScale(s: seq<int>) {
    forall i :: 0 <= i < |s| ==> 0 <= s[i] <= FULL_SCALE
  }

  /** Every sample lies strictly below full scale (and is not negative). */
  ghost predicate BelowFullScale(s: seq<int>) {
    forall i :: 0 <= i < |s| ==> 0 <= s[i] < FULL_SCALE
  }

  /** Sum of the resistances of the samples, taken in order. */
  function SumResistance(s: seq<int>): real
  {
    if s == [] then 0.0 else SumResistance(s[..|s| - 1]) + ResistanceCalculation(s[|s| - 1])
  }

  /** Sum of the raw values of the samples, as reals. */
  function SumRaw(s: seq<int>): real
  {
    if s == [] then 0.0 else SumRaw(s[..|s| - 1]) + s[|s| - 1] as real
  }

  /** n samples accumulate to at most n times the largest resistance. */
  lemma {:induction false} SumResistanceAtMost(s: seq<int>)
    ensures SumResistance(s) <= |s| as real * MAX_RESISTANCE
  {
    if s != [] {
      var init := s[..|s| - 1];
      SumResistanceAtMost(init);
      AddOneMoreBound(|init| as real, MAX_RESISTANCE, SumResistance(init), ResistanceCalculation(s[|s| - 1]));
    }
  }

  /** Samples within scale accumulate to a non-negative sum, and samples below
      full scale to a positive one. */
  lemma {:induction false} SumResistanceSign(s: seq<int>)
    ensures WithinScale(s) ==> SumResistance(s) >= 0.0
    ensures BelowFullScale(s) && s != [] ==> SumResistance(s) > 0.0
  {
    if s != [] {
      var init := s[..|s| - 1];
      assert WithinScale(s) ==> WithinScale(init);
      assert BelowFullScale(s) ==> BelowFullScale(init);
      SumResistanceSign(init);
    }
  }

  /** n samples within scale accumulate to a raw sum between 0 and n times full scale. */
  lemma {:induction false} SumRawBounds(s: seq<int>)
    requires WithinScale(s)
    ensures 0.0 <= SumRaw(s) <= |s| as real * FULL_SCALE as real
  {
    if s != [] {
      var init := s[..|s| - 1];
      assert WithinScale(init);
      SumRawBounds(init);
      AddOneMoreBound(|init| as real, FULL_SCALE as real, SumRaw(init), s[|s| - 1] as real);
    }
  }

  lemma {:induction false} SumResistanceConstant(s: seq<int>, v: int)
    requires forall i :: 0 <= i < |s| ==> s[i] == v
    ensures SumResistance(s) == |s| as real * ResistanceCalculation(v)
  {
    if s != [] {
      var init := s[..|s| - 1];
      SumResistanceConstant(init, v);
      AddOneMore(|init| as real, ResistanceCalculation(v), SumResistance(init));
    }
  }

  lemma {:induction false} SumRawConstant(s: seq<int>, v: int)
    requires forall i :: 0 <= i < |s| ==> s[i] == v
    ensures SumRaw(s) == |s| as real * v as real
  {
    if s != [] {
      var init := s[..|s| - 1];
      SumRawConstant(init, v);
      AddOneMore(|init| as real, v as real, SumRaw(init));
    }
  }

  /** One more equal term: n copies of x plus x are n + 1 copies. */
  lemma AddOneMore(n: real, x: real, sum: real)
    requires sum == n * x
    ensures sum + x == (n + 1.0) * x
  {
  }

  /** One more term under the bound keeps the sum under n + 1 bounds. */
  lemma AddOneMoreBound(n: real, bound: real, sum: real, x: real)
    requires sum <= n * bound && x <= bound
    ensures sum + x <= (n + 1.0) * bound
  {
  }

  /** Ro from the samples a calibration reads: the mean resistance of the first
      CALIBRATION_SAMPLE_TIMES samples divided by the clean-air factor. */
  function CalibrationRo(s: seq<int>): (ro: real)
    requires |s| >= CALIBRATION_SAMPLE_TIMES
    ensures ro <= MAX_RESISTANCE / RO_CLEAN_AIR_FACTOR
    ensures WithinScale(s[..CALIBRATION_SAMPLE_TIMES]) ==> ro >= 0.0
  {
    SumResistanceAtMost(s[..CALIBRATION_SAMPLE_TIMES]);
    SumResistanceSign(s[..CALIBRATION_SAMPLE_TIMES]);
    SumResistance(s[..CALIBRATION_SAMPLE_TIMES]) / CALIBRATION_SAMPLE_TIMES as real / RO_CLEAN_AIR_FACTOR
  }

  /** Calibration over samples that all lie strictly below full scale yields a positive Ro. */
  lemma CalibrationPositive(s: seq<int>)
    requires |s| >= CALIBRATION_SAMPLE_TIMES
    requires BelowFullScale(s[..CALIBRATION_SAMPLE_TIMES])
    ensures CalibrationRo(s) > 0.0
  {
    SumResistanceSign(s[..CALIBRATION_SAMPLE_TIMES]);
  }

  /** Calibration over a constant source: Ro is that sample's resistance over the clean-air factor. */
  lemma CalibrationConstant(s: seq<int>, v: int)
    requires |s| >= CALIBRATION_SAMPLE_TIMES
    requires forall i :: 0 <= i < CALIBRATION_SAMPLE_TIMES ==> s[i] == v
    ensures CalibrationRo(s) == ResistanceCalculation(v) / RO_CLEAN_AIR_FACTOR
    ensures 0 <= v < FULL_SCALE ==> CalibrationRo(s) > 0.0
  {
    SumResistanceConstant(s[..CALIBRATION_SAMPLE_TIMES], v);
  }

  /** A mid-scale source (32736, half of full scale) gives resistance RL, so Ro == RL / 9.83. */
  lemma CalibrationMidScale(s: seq<int>)
    requires |s| >= CALIBRATION_SAMPLE_TIMES
    requires forall i :: 0 <= i < CALIBRATION_SAMPLE_TIMES ==> s[i] == 32736
    ensures CalibrationRo(s) == RL_VALUE / RO_CLEAN_AIR_FACTOR
  {
    CalibrationConstant(s, 32736);
  }

  /** The first sample of every consecutive pair: samples 1, 3, 5, ... counted from one. */
  function FirstOfPairs(s: seq<int>): (f: seq<int>)
    requires |s| % 2 == 0
    ensures |f| == |s| / 2
  {
    if s == [] then [] else FirstOfPairs(s[..|s| - 2]) + [s[|s| - 2]]
  }

  /** The second sample of every consecutive pair: samples 2, 4, 6, ... counted from one. */
  function SecondOfPairs(s: seq<int>): (f: seq<int>)
    requires |s| % 2 == 0
    ensures |f| == |s| / 2
  {
    if s == [] then [] else SecondOfPairs(s[..|s| - 2]) + [s[|s| - 1]]
  }

  /** Pair k of the samples is (FirstOfPairs(s)[k], SecondOfPairs(s)[k]). */
  lemma {:induction false} PairsIndex(s: seq<int>)
    requires |s| % 2 == 0
    ensures forall k :: 0 <= k < |s| / 2 ==> FirstOfPairs(s)[k] == s[2 * k]
    ensures forall k :: 0 <= k < |s| / 2 ==> SecondOfPairs(s)[k] == s[2 * k + 1]
  {
    if s != [] {
      var init := s[..|s| - 2];
      PairsIndex(init);
      assert forall k :: 0 <= k < |init| / 2 ==> init[2 * k] == s[2 * k] && init[2 * k + 1] == s[2 * k + 1];
    }
  }

  /** One more calibration sample adds its resistance to the running sum. */
  lemma SumResistanceAppend(s: seq<int>, v: int)
    ensures SumResistance(s + [v]) == SumResistance(s) + ResistanceCalculation(v)
  {
    assert (s + [v])[..|s|] == s;
  }

  /** The running sums of a normal read after one more pair of samples. */
  lemma PairSumsAppend(s: seq<int>, first: int, second: int)
    requires |s| % 2 == 0
    ensures SumRaw(FirstOfPairs(s + [first, second])) == SumRaw(FirstOfPairs(s)) + first as real
    ensures SumResistance(SecondOfPairs(s + [first, second]))
         == SumResistance(SecondOfPairs(s)) + ResistanceCalculation(second)
  {
    assert (s + [first, second])[..|s|] == s;
  }

  /** What a normal read returns for the samples it consumes: the mean
      resistance of the second sample of each pair, and the mean raw value of
      the first sample of each pair. */
  function ReadResult(s: seq<int>): (r: (real, real))
    requires |s| >= READ_SAMPLES_CONSUMED
    ensures r.0 <= MAX_RESISTANCE
  {
    var taken := s[..READ_SAMPLES_CONSUMED];
    SumResistanceAtMost(SecondOfPairs(taken));
    (SumResistance(SecondOfPairs(taken)) / READ_SAMPLE_TIMES as real,
     SumRaw(FirstOfPairs(taken)) / READ_SAMPLE_TIMES as real)
  }

  /** When every sample a read consumes is within scale, the averaged
      resistance is not negative and the averaged raw value lies in [0, 65472]. */
  lemma ReadInRange(s: seq<int>)
    requires |s| >= READ_SAMPLES_CONSUMED
    requires WithinScale(s[..READ_SAMPLES_CONSUMED])
    ensures 0.0 <= ReadResult(s).0 && 0.0 <= ReadResult(s).1 <= FULL_SCALE as real
  {
    var taken := s[..READ_SAMPLES_CONSUMED];
    PairsIndex(taken);
    SumResistanceSign(SecondOfPairs(taken));
    SumRawBounds(FirstOfPairs(taken));
  }

  /** A source that alternates a, b, a, b, ... gives the resistance of b and the raw value a:
      the two averages come from different samples. */
  lemma ReadAlternating(s: seq<int>, a: int, b: int)
    requires |s| >= READ_SAMPLES_CONSUMED
    requires forall i :: 0 <= i < READ_SAMPLE_TIMES ==> s[2 * i] == a && s[2 * i + 1] == b
    ensures ReadResult(s) == (ResistanceCalculation(b), a as real)
  {
    var taken := s[..READ_SAMPLES_CONSUMED];
    PairsIndex(taken);
    SumResistanceConstant(SecondOfPairs(taken), b);
    SumRawConstant(FirstOfPairs(taken), a);
  }

  /** A constant source gives that sample's resistance and raw value. */
  lemma ReadConstant(s: seq<int>, v: int)
    requires |s| >= READ_SAMPLES_CONSUMED
    requires forall i :: 0 <= i < READ_SAMPLES_CONSUMED ==> s[i] == v
    ensures ReadResult(s) == (ResistanceCalculation(v), v as real)
  {
    forall i | 0 <= i < READ_SAMPLE_TIMES
      ensures s[2 * i] == v && s[2 * i + 1] == v
    {
    }
    ReadAlternating(s, v, v);
  }
}
