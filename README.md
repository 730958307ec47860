# MQ-2 gas sensor signal pipeline, in Dafny

This project models the signal pipeline of the MQ-2 multi-gas sensor driver of a
small weather station (`sensors/mq2.py`, class `MQ2Sensor`), and proves
properties of it:

- a raw analog sample becomes a sensor resistance through the voltage-divider
  formula `RL * (65472 - raw) / raw`, with a raw value of 0 treated as 1;
- the calibration averages the resistance of 50 samples taken in clean air,
  divides by the clean-air factor 9.83, and the sensor stores the result as Ro;
- a normal read runs five iterations that each read the channel twice: the
  first sample goes into the raw-value average, the second into the
  resistance average;
- a gas id 0..6 selects one of seven fixed log-space curves (LPG, CO, smoke,
  propane, hydrogen, alcohol, methane), any other id gives 0;
- a reading evaluates all seven curves, in that order, at the one ratio Rs/Ro.

Files:

- `results.dfy` (module `Results`): the exceptions the code can raise, as the
  `Err` side of a `Result`. `:-` propagates them as Python propagates the
  exception.
- `resistance.dfy` (module `Resistance`): the constants, the resistance
  formula, the sums behind the two averages, and `CalibrationRo` and
  `ReadResult`. These two functions state what a calibration and a read
  return for the samples they consume.
- `curves.dfy` (module `GasCurves`): curve constants, curve evaluation, the gas
  dispatch and the seven-field `GasReading`.
- `sensor.dfy` (module `MQ2`): the analog channel and the sensor as classes.
  `Sensor.ro` is a field that creation sets from the calibration. The loops of
  `Calibration` and `Read` are proved against `CalibrationRo` and `ReadResult`.

Modelling choices:

- The analog channel is an `AnalogChannel` object whose `pending` sequence
  holds the raw samples still to come. Each read takes the head. Reading an
  empty channel is the hardware read error. The sensor does not catch this
  error: `Calibration`, `Read`, `Percentage` and `Create` then return
  `Err(ReadFailure)`.
- Floats are idealised as `real`. Raw samples are unbounded `int`s, so the
  formula is stated for every value, including ones the hardware never delivers.
- `math.log` and `math.pow(10, _)` are passed in as a `Math` record. The
  proofs that need them assume only `Lawful`: ln is strictly increasing on
  positive numbers with ln(1) = 0, and pow10 is strictly increasing and positive.
- The exceptions the code can raise are modelled:
  - a division of Rs by an Ro of 0 is `ZeroDivision`;
  - a ratio that is not positive is `MathDomain` (the ValueError of `math.log`);
  - a curve with slope 0 is `ZeroDivision`.

  An unknown gas id returns 0 without looking at the ratio, as the source does.

Constants and data, which are not members and so have no row below:

- `RL_VALUE`, `RO_CLEAN_AIR_FACTOR`, `CALIBRATION_SAMPLE_TIMES` and
  `READ_SAMPLE_TIMES` in `Resistance` are sensors/mq2.py:14-21. `FULL_SCALE`
  is the constant 65472 of line 118.
- `GAS_LPG` to `GAS_CH4` in `GasCurves` are lines 24-30.
- The seven `*_CURVE` constants are lines 46-70. `CURVES` lists them in gas-id
  order; `CurvesFall` and `GetGasPercentage` state how they are used.
- `GasReading` is the named tuple of lines 142 and 151, with its fields in the
  same order. `GasReading.Field` numbers its fields by gas id; `ReadingOrder`
  and `Percentages` state what each field holds.

Points where the code does less than its comments and names suggest:

- The comment on `READ_SAMPLE_TIMES` (sensors/mq2.py:21) speaks of how many
  samples normal operation takes, 5. The loop reads the channel twice per
  iteration (lines 132-133), so a read consumes 10 samples. The two averages
  then come from different samples (`ReadAlternating`).
- Nothing in the code guarantees Ro > 0 or Rs/Ro > 0. Ro is positive when every
  calibration sample lies in [0, 65472) (`CalibrationPositive`). If the averaged
  resistance is 0 (for example, all five resistance samples at full scale), the
  reading fails in the logarithm (`ZeroResistanceFails`). Samples above 65472
  give negative resistances (`ResistanceCalculation`).

## Model

| member | source | states |
|---|---|---|
| `Resistance.ResistanceCalculation` | sensors/mq2.py:106-118 | total over all integers; voltage-divider relation (Rs + RL) * guarded raw == RL * 65472; negative exactly for raw < 0 or raw > 65472, zero exactly at raw == 65472 |
| `Resistance.GuardedRaw` | sensors/mq2.py:115-116 | the divisor is never 0: it is 1 for a raw value of 0 and the raw value otherwise |
| `Resistance.ZeroGuard` | sensors/mq2.py:115-118 | a raw value of 0 gives the same resistance as 1, namely 10 * 65471 |
| `Resistance.ResistanceDecreasing` | sensors/mq2.py:118 | for 1 <= raw1 < raw2 the resistance of raw1 is strictly larger |
| `Resistance.SumResistanceAtMost` | sensors/mq2.py:90-92 | the resistance `SumResistance` accumulates over n samples is at most n times the largest resistance 10 * 65471 |
| `Resistance.SumResistanceSign` | sensors/mq2.py:90-92 | that accumulated resistance is non-negative when all samples are within scale, and positive when there is at least one and all are below full scale |
| `Resistance.SumResistanceConstant` | sensors/mq2.py:90-92 | n equal samples accumulate to n times that sample's resistance |
| `Resistance.SumRawBounds` | sensors/mq2.py:130-132 | the raw values `SumRaw` accumulates over n samples within scale lie between 0 and n * 65472 |
| `Resistance.SumRawConstant` | sensors/mq2.py:130-132 | n equal raw samples accumulate to n times the raw value |
| `Resistance.CalibrationRo` | sensors/mq2.py:89-97 | the value calibration returns for the samples it consumes (mean resistance of the first 50 over 9.83): at most 10 * 65471 / 9.83, and non-negative when those samples are within scale |
| `Resistance.CalibrationPositive` | sensors/mq2.py:89-97 | Ro is positive when all 50 calibration samples lie in [0, 65472) |
| `Resistance.CalibrationConstant` | sensors/mq2.py:89-97 | a constant source r gives Ro == resistance(r) / 9.83, positive for 0 <= r < 65472 |
| `Resistance.CalibrationMidScale` | sensors/mq2.py:89-97 | 50 samples of 32736 give Ro == 10 / 9.83 |
| `Resistance.FirstOfPairs` | sensors/mq2.py:131-132 | the samples that feed the raw-value accumulator, one per iteration (length n / 2); their positions are stated by `PairsIndex` |
| `Resistance.SecondOfPairs` | sensors/mq2.py:131-133 | the samples that feed the resistance accumulator, one per iteration (length n / 2); their positions are stated by `PairsIndex` |
| `Resistance.PairsIndex` | sensors/mq2.py:131-133 | pair k of the read's samples contributes sample 2k to the raw average and sample 2k+1 to the resistance average |
| `Resistance.PairSumsAppend` | sensors/mq2.py:132-133 | one more iteration adds the first sample's raw value and the second sample's resistance to the running sums |
| `Resistance.ReadResult` | sensors/mq2.py:128-139 | the pair a read returns for the samples it consumes: the mean resistance of the 2nd, 4th, ..., 10th samples, at most 10 * 65471, and the mean raw value of the 1st, 3rd, ..., 9th |
| `Resistance.ReadInRange` | sensors/mq2.py:128-139 | when the 10 samples are within scale, the mean resistance is not negative and the mean raw value lies in [0, 65472] |
| `Resistance.ReadAlternating` | sensors/mq2.py:128-139 | a source a, b, a, b, ... reads as (resistance(b), a): the two averages come from different samples |
| `Resistance.ReadConstant` | sensors/mq2.py:128-139 | a constant source r reads as (resistance(r), r) |
| `GasCurves.CurvesFall` | sensors/mq2.py:46-70 | there are seven curves, each with x == 2.3 and a negative slope |
| `GasCurves.Exponent` | sensors/mq2.py:193 | the computed log-concentration e lies on the curve: y + slope * (e - x) == ln(ratio) |
| `GasCurves.ExponentDecreasing` | sensors/mq2.py:193 | on a curve with negative slope the exponent strictly decreases in ln(ratio) |
| `GasCurves.GetPercentage` | sensors/mq2.py:187-193 | ratio <= 0 fails in the logarithm; slope 0 fails in the division; otherwise 10 to the power of the on-curve exponent |
| `GasCurves.GetGasPercentage` | sensors/mq2.py:160-176 | the if/elif chain agrees with the curve table indexed by gas id 0..6; every other id yields 0 |
| `GasCurves.GasPercentageDecreasing` | sensors/mq2.py:160-193 | for every known gas and lawful ln/pow10 the estimate is defined, positive and strictly decreasing in the ratio |
| `GasCurves.LpgAtUnitRatio` | sensors/mq2.py:187-193 | with the LPG curve (2.3, 0.21, -0.47), at ratio 1 the estimate is 10 to the power 2.3 + 0.21 / 0.47 |
| `GasCurves.Collect` | sensors/mq2.py:144-151 | evaluations in order give all their values, or the error of the first failing one (every earlier one succeeded) |
| `GasCurves.Percentages` | sensors/mq2.py:141-151 | Ro == 0 fails with a division by zero; a non-positive ratio fails in the logarithm; otherwise field i of the reading is the dispatch of gas id i at the single ratio rs / ro |
| `GasCurves.ReadingOrder` | sensors/mq2.py:142-151 | the fields lpg, co, smoke, propane, hydrogen, alcohol, methane hold the dispatch of ids 0..6 at the one ratio rs / ro |
| `GasCurves.ReadingDecreasing` | sensors/mq2.py:141-151 | with Ro > 0, a larger resistance lowers each of the seven fields, and all are positive |
| `GasCurves.ZeroResistanceFails` | sensors/mq2.py:141-151 | an averaged resistance of 0 (for example, all five resistance samples at full scale) makes the reading fail, in the logarithm or, for Ro == 0, in the division |
| `MQ2.AnalogChannel.Read` | sensors/mq2.py:132-133 | each `self.chan_MQ2.value` (here and at line 92) returns the next pending sample and consumes it, or fails without consuming when none is left |
| `MQ2.Sensor.constructor` | sensors/mq2.py:32-33 | the sensor holds its channel and the given initial Ro |
| `MQ2.Sensor.Create` | sensors/mq2.py:32-79 | creates a fresh sensor whose Ro is the calibration of the first 50 samples, which it consumes; a read failure creates no sensor |
| `MQ2.Sensor.Calibration` | sensors/mq2.py:89-97 | the 50-iteration loop consumes exactly 50 samples and returns `CalibrationRo` of them, or fails when fewer are available |
| `MQ2.Sensor.Read` | sensors/mq2.py:128-139 | the 5-iteration loop consumes exactly 10 samples and returns `ReadResult` of them, or fails when fewer are available |
| `MQ2.Sensor.Percentage` | sensors/mq2.py:141-151 | reads, discards the raw average, and returns `Percentages` of the averaged resistance and Ro; Ro is unchanged |

## Left out

- Hardware setup (sensors/mq2.py:5-9, 34-44): the SPI bus, chip select, MCP3008 and `AnalogIn` are foreign drivers. `AnalogChannel` and its sample sequence stand in for them.
- Timing (sensors/mq2.py:19-20, 93, 134): `time.sleep` between samples only paces the hardware and has no effect on values.
- Diagnostics (sensors/mq2.py:75, 77-79): the `print` calls are output only.
- Values of `math.log` and `math.pow`: they are parameters. Only the laws in `GasCurves.Lawful` are assumed, and only by the lemmas that require them.
- Float rounding: floats are idealised as `real`. `OverflowError` from `math.pow` for very large exponents is not modelled.
- `db/sqlite_connector.py`, `main.py`, `sensors/dht22.py` are not part of this model. They are database I/O, the polling loop with its signal handling, and a temperature/humidity driver.
- Resistance.SumResistance, Resistance.SumRaw: the two running sums carry no contract of their own. Their bounds are the lemmas `SumResistanceAtMost`, `SumResistanceSign` and `SumRawBounds`, because the same bounds as contracts of the recursive functions make every proof that mentions a sum too costly.
- Resistance.FirstOfPairs, Resistance.SecondOfPairs: their own contracts state only the length; which sample sits at which position is the separate lemma `PairsIndex`, because a quantified contract on these two functions makes the proof of `Sensor.Read` too costly.
