/** The MQ-2 sensor object: an analog channel that delivers raw samples one
    at a time, and the sensor that calibrates Ro against it once and then
    produces averaged reads and gas readings. */
module MQ2 {
  import opened Results
  import opened Resistance
  import opened GasCurves

  /** Ro the sensor holds before calibration replaces it. */
  const DEFAULT_RO: real := 10.0

  /** The analog input channel. The hardware is replaced by the sequence of
      raw samples it will deliver; a read when none is left is the hardware
      read error, which the sensor does not catch. */
  class AnalogChannel {
    var pending: seq<int>

    constructor (samples: seq<int>)
      ensures pending == samples
    {
      pending := samples;
    }

    /** The next raw sample. */
    method Read() returns (v: Result<int>)
      modifies this
      ensures old(pending) == [] ==> v == Err(ReadFailure) && pending == []
      ensures old(pending) != [] ==> v == Ok(old(pending)[0]) && pending == old(pending)[1..]
    {
      if pending == [] {
        return Err(ReadFailure);
      }
      v := Ok(pending[0]);
      pending := pending[1..];
    }
  }

  class Sensor {
    /** Calibration constant: the sensor resistance in clean air divided by the clean-air factor. */
    var ro: real
    const channel: AnalogChannel

    constructor (channel: AnalogChannel, ro: real)
      ensures this.channel == channel && this.ro == ro
    {
      this.channel := channel;
      this.ro := ro;
    }

    /** Creates a sensor on the channel and calibrates it, storing the result as Ro.
        A read failure during calibration means no sensor is created. */
    static method Create(channel: AnalogChannel) returns (r: Result<Sensor>)
      modifies channel
      ensures |old(channel.pending)| >= CALIBRATION_SAMPLE_TIMES ==>
        && r.Ok? && fresh(r.value) && r.value.channel == channel
        && r.value.ro == CalibrationRo(old(channel.pending))
        && channel.pending == old(channel.pending)[CALIBRATION_SAMPLE_TIMES..]
      ensures |old(channel.pending)| < CALIBRATION_SAMPLE_TIMES ==>
        r == Err(ReadFailure) && channel.pending == []
    {
      var sensor := new Sensor(channel, DEFAULT_RO);
      var ro :- sensor.Calibration();
      sensor.ro := ro;
      return Ok(sensor);
    }

    /** Averages the resistance of CALIBRATION_SAMPLE_TIMES samples taken in
        clean air and divides by the clean-air factor. Ro itself is not changed. */
    method Calibration() returns (val: Result<real>)
      modifies channel
      ensures |old(channel.pending)| >= CALIBRATION_SAMPLE_TIMES ==>
        && val == Ok(CalibrationRo(old(channel.pending)))
        && channel.pending == old(channel.pending)[CALIBRATION_SAMPLE_TIMES..]
      ensures |old(channel.pending)| < CALIBRATION_SAMPLE_TIMES ==>
        val == Err(ReadFailure) && channel.pending == []
    {
      ghost var taken: seq<int> := [];
      var sum := 0.0;
      for i := 0 to CALIBRATION_SAMPLE_TIMES
        invariant |taken| == i
        invariant old(channel.pending) == taken + channel.pending
        invariant sum == SumResistance(taken)
      {
        var raw :- channel.Read();
        sum := sum + ResistanceCalculation(raw);
        SumResistanceAppend(taken, raw);
        taken := taken + [raw];
      }
      assert old(channel.pending)[..CALIBRATION_SAMPLE_TIMES] == taken;
      sum := sum / CALIBRATION_SAMPLE_TIMES as real;
      sum := sum / RO_CLEAN_AIR_FACTOR;
      return Ok(sum);
    }

    /** Takes READ_SAMPLE_TIMES pairs of samples: the first of each pair is
        added to the raw-value average, the second is converted to a
        resistance and added to the resistance average. Returns the pair
        (mean resistance, mean raw value). */
    method Read() returns (res: Result<(real, real)>)
      modifies channel
      ensures |old(channel.pending)| >= READ_SAMPLES_CONSUMED ==>
        && res == Ok(ReadResult(old(channel.pending)))
        && channel.pending == old(channel.pending)[READ_SAMPLES_CONSUMED..]
      ensures |old(channel.pending)| < READ_SAMPLES_CONSUMED ==>
        res == Err(ReadFailure) && channel.pending == []
    {
      ghost var taken: seq<int> := [];
      var rs := 0.0;
      var rawValue := 0.0;
      for i := 0 to READ_SAMPLE_TIMES
        invariant |taken| == 2 * i
        invariant old(channel.pending) == taken + channel.pending
        invariant rawValue == SumRaw(FirstOfPairs(taken))
        invariant rs == SumResistance(SecondOfPairs(taken))
      {
        ghost var before := channel.pending;
        var first := channel.Read();
        if first.Err? {
          return Err(ReadFailure);
        }
        rawValue := rawValue + first.value as real;
        ghost var between := channel.pending;
        var second := channel.Read();
        if second.Err? {
          return Err(ReadFailure);
        }
        assert before == [first.value] + between && between == [second.value] + channel.pending;
        assert old(channel.pending) == (taken + [first.value, second.value]) + channel.pending;
        rs := rs + ResistanceCalculation(second.value);
        PairSumsAppend(taken, first.value, second.value);
        taken := taken + [first.value, second.value];
      }
      assert old(channel.pending)[..READ_SAMPLES_CONSUMED] == taken;
      rs := rs / READ_SAMPLE_TIMES as real;
      rawValue := rawValue / READ_SAMPLE_TIMES as real;
      return Ok((rs, rawValue));
    }

    /** One reading of all seven gases: an averaged read, then every curve at
        the ratio of the averaged resistance to Ro. The raw-value average is
        discarded, and Ro is left as it was. */
    method Percentage(m: Math) returns (reading: Result<GasReading>)
      modifies channel
      ensures ro == old(ro)
      ensures |old(channel.pending)| >= READ_SAMPLES_CONSUMED ==>
        && reading == Percentages(ReadResult(old(channel.pending)).0, ro, m)
        && channel.pending == old(channel.pending)[READ_SAMPLES_CONSUMED..]
      ensures |old(channel.pending)| < READ_SAMPLES_CONSUMED ==>
        reading == Err(ReadFailure) && channel.pending == []
    {
      var read :- Read();
      reading := Percentages(read.0, ro, m);
    }
  }
}
