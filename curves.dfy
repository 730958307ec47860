/** The gas curve model: seven fixed calibration curves, one per gas, a
    dispatch from gas id to curve, and the seven-field reading built from one
    resistance ratio. The natural logarithm and the power of ten are floating
    point library functions; they are passed in as a `Math` record, and the
    properties below assume only the laws that `Lawful` states of them. */
module GasCurves {
  import opened Results

  const GAS_LPG: int := 0
  const GAS_CO: int := 1
  const GAS_SMOKE: int := 2
  const GAS_PROPANE: int := 3
  const GAS_H2: int := 4
  const GAS_ALCOHOL: int := 5
  const GAS_CH4: int := 6

  /** A line in log space: at log-concentration x the log-ratio is y, with the given slope. */
  datatype Curve = Curve(x: real, y: real, slope: real)

  const LPG_CURVE: Curve := Curve(2.3, 0.21, -0.47)
  const CO_CURVE: Curve := Curve(2.3, 0.72, -0.34)
  const SMOKE_CURVE: Curve := Curve(2.3, 0.53, -0.44)
  const PROPANE_CURVE: Curve := Curve(2.3, 0.24, -0.47)
  const H2_CURVE: Curve := Curve(2.3, 0.33, -0.47)
  const ALCOHOL_CURVE: Curve := Curve(2.3, 0.45, -0.37)
  const CH4_CURVE: Curve := Curve(2.3, 0.49, -0.38)

  /** The curves indexed by gas id, in the fixed species order. */
  const CURVES: seq<Curve> :=
    [LPG_CURVE, CO_CURVE, SMOKE_CURVE, PROPANE_CURVE, H2_CURVE, ALCOHOL_CURVE, CH4_CURVE]

  /** Every curve falls: more gas means a lower resistance ratio. */
  lemma CurvesFall()
    ensures |CURVES| == 7
    ensures forall i :: 0 <= i < |CURVES| ==> CURVES[i].slope < 0.0 && CURVES[i].x == 2.3
  {
  }

  /** The natural logarithm and the power of ten. */
  datatype Math = Math(ln: real -> real, pow10: real -> real)

  /** The laws of the two functions the proofs rely on. */
  ghost predicate Lawful(m: Math) {
    && m.ln(1.0) == 0.0
    && (forall a, b :: 0.0 < a < b ==> m.ln(a) < m.ln(b))
    && (forall a, b :: a < b ==> m.pow10(a) < m.pow10(b))
    && (forall a :: m.pow10(a) > 0.0)
  }

  /** The log-concentration at which the curve reaches the given log-ratio. */
  function Exponent(c: Curve, lnRatio: real): (e: real)
    requires c.slope != 0.0
    ensures c.y + c.slope * (e - c.x) == lnRatio
  {
    (lnRatio - c.y) / c.slope + c.x
  }

  /** On a falling curve the exponent strictly decreases as the log-ratio grows. */
  lemma ExponentDecreasing(c: Curve, l1: real, l2: real)
    requires c.slope < 0.0 && l1 < l2
    ensures Exponent(c, l1) > Exponent(c, l2)
  {
  }

  /** Concentration (ppm) of a gas from the ratio Rs/Ro and the gas's curve. The
      logarithm is taken first, so a non-positive ratio fails before the slope
      is divided by. */
  function GetPercentage(ratio: real, c: Curve, m: Math): (r: Result<real>)
    ensures ratio <= 0.0 ==> r == Err(MathDomain)
    ensures ratio > 0.0 && c.slope == 0.0 ==> r == Err(ZeroDivision)
    ensures ratio > 0.0 && c.slope != 0.0 ==> r == Ok(m.pow10(Exponent(c, m.ln(ratio))))
  {
    if ratio <= 0.0 then Err(MathDomain)
    else if c.slope == 0.0 then Err(ZeroDivision)
    else Ok(m.pow10((m.ln(ratio) - c.y) / c.slope + c.x))
  }

  /** Concentration of the gas with the given id; an unknown id yields 0. */
  function GetGasPercentage(ratio: real, gasId: int, m: Math): (r: Result<real>)
    ensures 0 <= gasId < |CURVES| ==> r == GetPercentage(ratio, CURVES[gasId], m)
    ensures !(0 <= gasId < |CURVES|) ==> r == Ok(0.0)
  {
    if gasId == GAS_LPG then GetPercentage(ratio, LPG_CURVE, m)
    else if gasId == GAS_CO then GetPercentage(ratio, CO_CURVE, m)
    else if gasId == GAS_SMOKE then GetPercentage(ratio, SMOKE_CURVE, m)
    else if gasId == GAS_PROPANE then GetPercentage(ratio, PROPANE_CURVE, m)
    else if gasId == GAS_H2 then GetPercentage(ratio, H2_CURVE, m)
    else if gasId == GAS_ALCOHOL then GetPercentage(ratio, ALCOHOL_CURVE, m)
    else if gasId == GAS_CH4 then GetPercentage(ratio, CH4_CURVE, m)
    else Ok(0.0)
  }

  /** For each known gas, the estimate is defined exactly for positive ratios,
      and it is positive and strictly decreasing in the ratio. */
  lemma GasPercentageDecreasing(m: Math, gasId: int, ratio1: real, ratio2: real)
    requires Lawful(m)
    requires 0 <= gasId < |CURVES|
    requires 0.0 < ratio1 < ratio2
    ensures GetGasPercentage(ratio1, gasId, m).Ok? && GetGasPercentage(ratio2, gasId, m).Ok?
    ensures GetGasPercentage(ratio1, gasId, m).value > GetGasPercentage(ratio2, gasId, m).value > 0.0
  {
    ExponentDecreasing(CURVES[gasId], m.ln(ratio1), m.ln(ratio2));
  }

  /** At ratio 1 (sensor resistance equal to Ro) the LPG estimate is 10 to the power 2.3 + 0.21 / 0.47. */
  lemma LpgAtUnitRatio(m: Math)
    requires Lawful(m)
    ensures GetGasPercentage(1.0, GAS_LPG, m) == Ok(m.pow10(2.3 + 0.21 / 0.47))
  {
  }

  /** One estimate per gas, in the fixed species order. */
  datatype GasReading = GasReading(lpg: real, co: real, smoke: real, propane: real,
                                   hydrogen: real, alcohol: real, methane: real)
  {
    /** The field of the gas with the given id. */
    function Field(gasId: int): real
      requires 0 <= gasId < 7
    {
      match gasId
      case 0 => lpg
      case 1 => co
      case 2 => smoke
      case 3 => propane
      case 4 => hydrogen
      case 5 => alcohol
      case 6 => methane
    }
  }

  /** The values of a list of results evaluated in order, or the first failure among them. */
  function Collect(results: seq<Result<real>>): (r: Result<seq<real>>)
    ensures r.Ok? <==> forall i :: 0 <= i < |results| ==> results[i].Ok?
    ensures r.Ok? ==> |r.value| == |results|
    ensures r.Ok? ==> forall i :: 0 <= i < |results| ==> results[i] == Ok(r.value[i])
    ensures results != [] && results[0].Err? ==> r == Err(results[0].error)
    ensures r.Err? ==> exists j :: 0 <= j < |results| && results[j] == Err(r.error)
                                   && forall i :: 0 <= i < j ==> results[i].Ok?
  {
    if results == [] then Ok([])
    else
      var head :- results[0];
      var tail :- Collect(results[1..]);
      Ok([head] + tail)
  }

  /** The reading for an averaged resistance rs and the calibration constant
      ro: every gas is evaluated at the one ratio rs / ro, in species order,
      and the first failure ends the reading. */
  function Percentages(rs: real, ro: real, m: Math): (r: Result<GasReading>)
    ensures ro == 0.0 ==> r == Err(ZeroDivision)
    ensures ro != 0.0 && rs / ro <= 0.0 ==> r == Err(MathDomain)
    ensures ro != 0.0 && rs / ro > 0.0 ==> r.Ok?
    ensures r.Ok? ==> forall gasId :: 0 <= gasId < 7 ==>
      Ok(r.value.Field(gasId)) == GetGasPercentage(rs / ro, gasId, m)
  {
    if ro == 0.0 then Err(ZeroDivision)
    else
      var ratio := rs / ro;
      var v :- Collect([GetGasPercentage(ratio, GAS_LPG, m), GetGasPercentage(ratio, GAS_CO, m),
                        GetGasPercentage(ratio, GAS_SMOKE, m), GetGasPercentage(ratio, GAS_PROPANE, m),
                        GetGasPercentage(ratio, GAS_H2, m), GetGasPercentage(ratio, GAS_ALCOHOL, m),
                        GetGasPercentage(ratio, GAS_CH4, m)]);
      Ok(GasReading(v[0], v[1], v[2], v[3], v[4], v[5], v[6]))
  }

  /** The named fields of a reading are, in order, the LPG, CO, smoke,
      propane, hydrogen, alcohol and methane estimates at the one ratio rs / ro. */
  lemma ReadingOrder(rs: real, ro: real, m: Math)
    requires Percentages(rs, ro, m).Ok?
    ensures var g, ratio := Percentages(rs, ro, m).value, rs / ro;
      && Ok(g.lpg) == GetGasPercentage(ratio, GAS_LPG, m)
      && Ok(g.co) == GetGasPercentage(ratio, GAS_CO, m)
      && Ok(g.smoke) == GetGasPercentage(ratio, GAS_SMOKE, m)
      && Ok(g.propane) == GetGasPercentage(ratio, GAS_PROPANE, m)
      && Ok(g.hydrogen) == GetGasPercentage(ratio, GAS_H2, m)
      && Ok(g.alcohol) == GetGasPercentage(ratio, GAS_ALCOHOL, m)
      && Ok(g.methane) == GetGasPercentage(ratio, GAS_CH4, m)
  {
    var g := Percentages(rs, ro, m).value;
    assert g.lpg == g.Field(GAS_LPG) && g.co == g.Field(GAS_CO) && g.smoke == g.Field(GAS_SMOKE);
    assert g.propane == g.Field(GAS_PROPANE) && g.hydrogen == g.Field(GAS_H2);
    assert g.alcohol == g.Field(GAS_ALCOHOL) && g.methane == g.Field(GAS_CH4);
  }

  /** With a positive Ro, a higher averaged resistance lowers every one of the
      seven estimates, and all of them are positive. */
  lemma ReadingDecreasing(m: Math, ro: real, rs1: real, rs2: real)
    requires Lawful(m)
    requires ro > 0.0 && 0.0 < rs1 < rs2
    ensures Percentages(rs1, ro, m).Ok? && Percentages(rs2, ro, m).Ok?
    ensures forall gasId :: 0 <= gasId < 7 ==>
      Percentages(rs1, ro, m).value.Field(gasId) > Percentages(rs2, ro, m).value.Field(gasId) > 0.0
  {
    var ratio1, ratio2 := rs1 / ro, rs2 / ro;
    DivideByPositive(rs1, rs2, ro);
    var r1, r2 := Percentages(rs1, ro, m), Percentages(rs2, ro, m);
    forall gasId | 0 <= gasId < 7
      ensures r1.value.Field(gasId) > r2.value.Field(gasId) > 0.0
    {
      GasPercentageDecreasing(m, gasId, ratio1, ratio2);
    }
  }

  lemma DivideByPositive(a: real, b: real, c: real)
    requires c > 0.0 && 0.0 < a < b
    ensures 0.0 < a / c < b / c
  {
  }

  /** A saturated sensor (all samples at full scale) has resistance 0, so the
      logarithm of the ratio fails whatever the (non-zero) Ro. */
  lemma ZeroResistanceFails(m: Math, ro: real)
    ensures Percentages(0.0, ro, m) == Err(if ro == 0.0 then ZeroDivision else MathDomain)
  {
  }
}
