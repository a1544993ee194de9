/** A toy vapour-compression cycle: compressor, evaporator, condenser and
    expansion valve, each a fixed-ratio or fixed-offset transform, chained so
    that every component's outlet feeds the next one's inlet.

    All quantities are exact `real`s. The one operation real arithmetic cannot
    express, the fractional power `3 ** (0.4/1.4)` of the isentropic relation,
    is the parameter `power` (the float operator `**`); lemmas that need its
    value assume only that it is exact at the one point the compressor uses.
 */
module Hvac {

  /** The operator `x ** y` on floats. */
  type Power = (real, real) -> real

  /** Fixed compressor pressure ratio. */
  const PressureRatio: real := 3.0
  /** Heat-capacity ratio of air, gamma. */
  const HeatCapacityRatio: real := 1.4
  /** Exponent (gamma - 1) / gamma of the isentropic temperature relation. */
  const IsentropicExponent: real := (HeatCapacityRatio - 1.0) / HeatCapacityRatio
  /** Specific heat of air in kJ/(kg K). */
  const SpecificHeat: real := 1.005
  /** Temperature drop across the evaporator. */
  const EvaporatorDrop: real := 10.0
  /** Temperature rise across the condenser. */
  const CondenserRise: real := 10.0
  /** Pressure factor across the expansion valve. */
  const ValvePressureFactor: real := 0.5
  /** Temperature drop across the expansion valve. */
  const ValveTempDrop: real := 5.0

  /** A computation that may fail the way Python's `/` does on a zero divisor. */
  datatype Outcome<T> = Ok(value: T) | DivisionByZero

  datatype CompressorState = CompressorState(outletTemp: real, outletPressure: real, workInput: real)
  datatype EvaporatorState = EvaporatorState(outletTemp: real, heatAbsorbed: real)
  datatype CondenserState = CondenserState(outletTemp: real, heatReleased: real)
  datatype ValveState = ValveState(outletTemp: real, outletPressure: real)

  /** The nine figures the page reports for one run of the cycle. */
  datatype Performance = Performance(
    compressorOutletTemp: real,
    compressorOutletPressure: real,
    workInput: real,
    evaporatorOutletTemp: real,
    heatAbsorbed: real,
    condenserOutletTemp: real,
    heatReleased: real,
    valveOutletTemp: real,
    valveOutletPressure: real)

  /** `x` to the natural power `n`. */
  function Pow(x: real, n: nat): real {
    if n == 0 then 1.0 else x * Pow(x, n - 1)
  }

  /** The temperature factor the compressor applies: `3 ** (0.4/1.4)`. */
  function IsentropicFactor(power: Power): real {
    power(PressureRatio, IsentropicExponent)
  }

  /** `power` returns the true positive real root at the point the compressor
      uses: since the exponent is 2/7 (`ExponentIsTwoSevenths`), the factor K
      = 3^(2/7) is the positive real with K^7 = 3^2. */
  predicate ExactAtIsentropicPoint(power: Power) {
    var k := IsentropicFactor(power);
    k > 0.0 && Pow(k, 7) == Pow(PressureRatio, 2)
  }

  /** `calculate_compressor`: fixed pressure ratio, ideal-gas isentropic
      temperature rise and the work it takes. The pressure ratio is recomputed
      by dividing by the inlet pressure, which fails when that is zero. The
      efficiency argument is not used. */
  function Compressor(power: Power, massFlowRate: real, inletTemp: real, inletPressure: real, efficiency: real)
    : (r: Outcome<CompressorState>)
    ensures r.DivisionByZero? <==> inletPressure == 0.0
    ensures r.Ok? ==> r.value.outletPressure == 3.0 * inletPressure
    ensures r.Ok? ==> r.value.outletTemp == inletTemp * IsentropicFactor(power)
    ensures r.Ok? ==> r.value.workInput == 1.005 * massFlowRate * inletTemp * (IsentropicFactor(power) - 1.0)
  {
    var outletPressure := inletPressure * PressureRatio;
    if inletPressure == 0.0 then DivisionByZero
    else
      var ratio := outletPressure / inletPressure;
      assert ratio == PressureRatio;
      var outletTemp := inletTemp * power(ratio, IsentropicExponent);
      var workInput := massFlowRate * (outletTemp - inletTemp) * SpecificHeat;
      Ok(CompressorState(outletTemp, outletPressure, workInput))
  }

  /** `calculate_evaporator`: a fixed temperature drop; the heat absorbed is
      the drop times the mass flow and the specific heat, whatever the inlet
      temperature. Pressure and efficiency are not used. */
  function Evaporator(massFlowRate: real, inletTemp: real, inletPressure: real, efficiency: real)
    : (r: EvaporatorState)
    ensures r.outletTemp < inletTemp
    ensures inletTemp - r.outletTemp == 10.0
    ensures r.heatAbsorbed == 10.05 * massFlowRate
  {
    var outletTemp := inletTemp - EvaporatorDrop;
    var heatAbsorbed := massFlowRate * (inletTemp - outletTemp) * SpecificHeat;
    EvaporatorState(outletTemp, heatAbsorbed)
  }

  /** `calculate_condenser`: a fixed temperature rise; the heat released is
      the rise times the mass flow and the specific heat, whatever the inlet
      temperature. Pressure and efficiency are not used. */
  function Condenser(massFlowRate: real, inletTemp: real, inletPressure: real, efficiency: real)
    : (r: CondenserState)
    ensures r.outletTemp > inletTemp
    ensures r.outletTemp - inletTemp == 10.0
    ensures r.heatReleased == 10.05 * massFlowRate
  {
    var outletTemp := inletTemp + CondenserRise;
    var heatReleased := massFlowRate * (outletTemp - inletTemp) * SpecificHeat;
    CondenserState(outletTemp, heatReleased)
  }

  /** `calculate_expansion_valve`: pressure halves, temperature drops by 5. */
  function ExpansionValve(inletTemp: real, inletPressure: real): (r: ValveState)
    ensures 2.0 * r.outletPressure == inletPressure
    ensures inletTemp - r.outletTemp == 5.0
  {
    ValveState(inletTemp - ValveTempDrop, inletPressure * ValvePressureFactor)
  }

  /** `calculate_hvac_performance`: the four components in a chain, compressor
      outlet into the evaporator, evaporator outlet into the condenser (both at
      the compressor's outlet pressure), condenser outlet into the valve. */
  function HvacPerformance(power: Power, temp: real, pressure: real, massFlowRate: real, efficiency: real)
    : (r: Outcome<Performance>)
    ensures r.DivisionByZero? <==> pressure == 0.0
    ensures r.Ok? ==> r.value.compressorOutletTemp == temp * IsentropicFactor(power)
    ensures r.Ok? ==> r.value.compressorOutletPressure == 3.0 * pressure
    ensures r.Ok? ==> r.value.workInput == 1.005 * massFlowRate * temp * (IsentropicFactor(power) - 1.0)
    ensures r.Ok? ==> r.value.evaporatorOutletTemp == r.value.compressorOutletTemp - 10.0
    ensures r.Ok? ==> r.value.condenserOutletTemp == r.value.compressorOutletTemp
    ensures r.Ok? ==> r.value.heatAbsorbed == r.value.heatReleased == 10.05 * massFlowRate
    ensures r.Ok? ==> r.value.valveOutletTemp == r.value.compressorOutletTemp - 5.0
    ensures r.Ok? ==> r.value.valveOutletPressure == 1.5 * pressure
  {
    match Compressor(power, massFlowRate, temp, pressure, efficiency)
    case DivisionByZero => DivisionByZero
    case Ok(comp) =>
      var evap := Evaporator(massFlowRate, comp.outletTemp, comp.outletPressure, efficiency);
      var cond := Condenser(massFlowRate, evap.outletTemp, comp.outletPressure, efficiency);
      var valve := ExpansionValve(cond.outletTemp, comp.outletPressure);
      Ok(Performance(
        comp.outletTemp, comp.outletPressure, comp.workInput,
        evap.outletTemp, evap.heatAbsorbed,
        cond.outletTemp, cond.heatReleased,
        valve.outletTemp, valve.outletPressure))
  }

  /** The isentropic exponent (1.4 - 1) / 1.4 is exactly 2/7 over the reals. */
  lemma ExponentIsTwoSevenths()
    ensures 7.0 * IsentropicExponent == 2.0
  {
  }

  /** A number in [0, 1] keeps every power in [0, 1]. */
  lemma {:induction false} PowAtMostOne(x: real, n: nat)
    requires 0.0 <= x <= 1.0
    ensures 0.0 <= Pow(x, n) <= 1.0
  {
    if n > 0 {
      PowAtMostOne(x, n - 1);
      var p := Pow(x, n - 1);
      assert Pow(x, n) == x * p;
      assert 0.0 <= x * p <= p;
    }
  }

  /** The compressor's temperature factor 3^(2/7) exceeds one. */
  lemma IsentropicFactorAboveOne(power: Power)
    requires ExactAtIsentropicPoint(power)
    ensures IsentropicFactor(power) > 1.0
  {
    var k := IsentropicFactor(power);
    if k <= 1.0 {
      PowAtMostOne(k, 7);
      assert false;
    }
  }

  /** With an exact power, the compressor heats exactly the inlets above zero
      degrees, and it takes work exactly when mass flow and inlet temperature
      are nonzero and of the same sign. */
  lemma CompressorWorkSign(power: Power, massFlowRate: real, inletTemp: real, inletPressure: real, efficiency: real)
    requires ExactAtIsentropicPoint(power)
    requires inletPressure != 0.0
    ensures Compressor(power, massFlowRate, inletTemp, inletPressure, efficiency).Ok?
    ensures var c := Compressor(power, massFlowRate, inletTemp, inletPressure, efficiency).value;
      (c.outletTemp > inletTemp <==> inletTemp > 0.0) &&
      (c.workInput > 0.0 <==> massFlowRate * inletTemp > 0.0) &&
      (c.workInput == 0.0 <==> massFlowRate * inletTemp == 0.0)
  {
    var k := IsentropicFactor(power);
    IsentropicFactorAboveOne(power);
    var c := Compressor(power, massFlowRate, inletTemp, inletPressure, efficiency).value;
    assert c.outletTemp - inletTemp == inletTemp * (k - 1.0);
    assert c.workInput == 1.005 * (k - 1.0) * (massFlowRate * inletTemp);
    ProductSign(1.005 * (k - 1.0), massFlowRate * inletTemp);
    ProductSign(k - 1.0, inletTemp);
  }

  /** Multiplying by a positive number keeps the sign. */
  lemma ProductSign(a: real, b: real)
    requires a > 0.0
    ensures a * b > 0.0 <==> b > 0.0
    ensures a * b == 0.0 <==> b == 0.0
  {
  }

  /** The condenser undoes the evaporator: the temperature comes back to where
      it started and the heat released equals the heat absorbed. */
  lemma CondenserUndoesEvaporator(massFlowRate: real, temp: real, p1: real, p2: real, e1: real, e2: real)
    ensures var evap := Evaporator(massFlowRate, temp, p1, e1);
      var cond := Condenser(massFlowRate, evap.outletTemp, p2, e2);
      cond.outletTemp == temp && cond.heatReleased == evap.heatAbsorbed
  {
  }

  /** The efficiency argument has no effect on any figure. */
  lemma EfficiencyIgnored(power: Power, temp: real, pressure: real, massFlowRate: real, e1: real, e2: real)
    ensures HvacPerformance(power, temp, pressure, massFlowRate, e1)
         == HvacPerformance(power, temp, pressure, massFlowRate, e2)
  {
  }

  /** With no mass flow there is no work and no heat exchanged. */
  lemma ZeroMassFlow(power: Power, temp: real, pressure: real, efficiency: real)
    requires pressure != 0.0
    ensures var r := HvacPerformance(power, temp, pressure, 0.0, efficiency).value;
      r.workInput == 0.0 && r.heatAbsorbed == 0.0 && r.heatReleased == 0.0
  {
  }

  /** Over the whole cycle, with an exact power: the refrigerant leaves the
      valve at half the compressor's outlet pressure and five degrees below its
      outlet temperature, and the compressor takes work exactly when mass flow
      and inlet temperature are nonzero and of the same sign. */
  lemma CycleWorkSign(power: Power, temp: real, pressure: real, massFlowRate: real, efficiency: real)
    requires ExactAtIsentropicPoint(power)
    requires pressure != 0.0
    ensures var r := HvacPerformance(power, temp, pressure, massFlowRate, efficiency).value;
      (r.workInput > 0.0 <==> massFlowRate * temp > 0.0) &&
      (r.compressorOutletTemp > temp <==> temp > 0.0) &&
      2.0 * r.valveOutletPressure == r.compressorOutletPressure &&
      r.valveOutletTemp == r.compressorOutletTemp - 5.0
  {
    CompressorWorkSign(power, massFlowRate, temp, pressure, efficiency);
  }
}
