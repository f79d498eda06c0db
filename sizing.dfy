/**
 * The energy sizing calculator of the planner's main screen: from the daily
 * one-way range, the active unit system and the fleet parameters it derives
 * the round-trip distance, the energy each vehicle needs (with buffer), the
 * fleet total and the minimum charging power per vehicle.
 * All quantities are exact reals; the floating-point rounding of the browser
 * is not modelled.
 */
module Sizing {

  /** The four consumption conventions the user can choose between. */
  datatype UnitSystem =
    | UK          // miles per kWh (an efficiency)
    | US          // kWh per 100 miles (a consumption rate)
    | MetricEff   // km per kWh (an efficiency)
    | MetricCons  // kWh per 100 km (a consumption rate)

  /** The two systems whose native distance unit is the mile. */
  predicate IsImperial(u: UnitSystem) {
    u == UK || u == US
  }

  /** The two systems that express consumption as distance per kWh. */
  predicate IsEfficiency(u: UnitSystem) {
    u == UK || u == MetricEff
  }

  /** The vehicle form state of the main screen. */
  datatype VehicleData = VehicleData(
    quantity: real,
    consumption: real,
    consumptionUnit: string,
    bufferPercent: real,
    dwellTime: real)

  /** What the calculator reports to the rest of the planner. */
  datatype Requirements = Requirements(
    vehicleDistance: real,
    energyPerVehicle: real,
    totalFleetEnergy: real,
    minimumChargingPower: real)

  /** The inputs the calculator divides by; the source checks neither. */
  predicate Computable(units: UnitSystem, v: VehicleData) {
    v.dwellTime != 0.0 && (IsEfficiency(units) ==> v.consumption != 0.0)
  }

  /**
   * Energy for one round trip before the buffer: distance over efficiency,
   * or distance times the per-100 rate.
   */
  function BaseEnergy(units: UnitSystem, distance: real, consumption: real): (e: real)
    requires IsEfficiency(units) ==> consumption != 0.0
    ensures IsEfficiency(units) ==> e * consumption == distance
    ensures !IsEfficiency(units) ==> 100.0 * e == distance * consumption
  {
    match units
    case UK => distance / consumption
    case US => distance * consumption / 100.0
    case MetricEff => distance / consumption
    case MetricCons => distance * consumption / 100.0
  }

  /** The buffered energy: the base grown by the buffer percentage. */
  function WithBuffer(base: real, bufferPercent: real): (e: real)
    ensures e == base + base * bufferPercent / 100.0
  {
    base * (1.0 + bufferPercent / 100.0)
  }

  /** The main screen's calculation. */
  function CalculateRequirements(dailyRange: real, units: UnitSystem, v: VehicleData): (r: Requirements)
    requires Computable(units, v)
    ensures r.vehicleDistance == 2.0 * dailyRange
    ensures r.totalFleetEnergy == r.energyPerVehicle * v.quantity
    ensures r.minimumChargingPower * v.dwellTime == r.energyPerVehicle
  {
    var vehicleDistance := dailyRange * 2.0;
    var energyPerVehicle := WithBuffer(BaseEnergy(units, vehicleDistance, v.consumption), v.bufferPercent);
    Requirements(
      vehicleDistance,
      energyPerVehicle,
      energyPerVehicle * v.quantity,
      energyPerVehicle / v.dwellTime)
  }

  /** The buffered energy per vehicle, spelled out per convention. */
  lemma EnergyPerVehicleByConvention(dailyRange: real, units: UnitSystem, v: VehicleData)
    requires Computable(units, v)
    ensures IsEfficiency(units) ==>
      CalculateRequirements(dailyRange, units, v).energyPerVehicle * v.consumption
        == 2.0 * dailyRange * (1.0 + v.bufferPercent / 100.0)
    ensures !IsEfficiency(units) ==>
      CalculateRequirements(dailyRange, units, v).energyPerVehicle
        == 2.0 * dailyRange * v.consumption / 100.0 * (1.0 + v.bufferPercent / 100.0)
  {
  }

  /** With no buffer the per-vehicle energy is the base energy itself. */
  lemma ZeroBufferKeepsBase(dailyRange: real, units: UnitSystem, v: VehicleData)
    requires Computable(units, v) && v.bufferPercent == 0.0
    ensures CalculateRequirements(dailyRange, units, v).energyPerVehicle
      == BaseEnergy(units, 2.0 * dailyRange, v.consumption)
  {
  }

  /** The fleet total is additive in the number of vehicles. */
  lemma FleetEnergyLinearInQuantity(dailyRange: real, units: UnitSystem, v: VehicleData, a: real, b: real)
    requires Computable(units, v)
    ensures CalculateRequirements(dailyRange, units, v.(quantity := a + b)).totalFleetEnergy
      == CalculateRequirements(dailyRange, units, v.(quantity := a)).totalFleetEnergy
       + CalculateRequirements(dailyRange, units, v.(quantity := b)).totalFleetEnergy
  {
  }

  /** The per-vehicle energy is affine in the buffer percentage. */
  lemma EnergyAffineInBuffer(dailyRange: real, units: UnitSystem, v: VehicleData, p: real, q: real)
    requires Computable(units, v)
    ensures CalculateRequirements(dailyRange, units, v.(bufferPercent := p + q)).energyPerVehicle
      == CalculateRequirements(dailyRange, units, v.(bufferPercent := p)).energyPerVehicle
       + BaseEnergy(units, 2.0 * dailyRange, v.consumption) * q / 100.0
  {
  }

  /**
   * Only the efficiency-versus-rate distinction matters: miles and kilometres
   * are treated the same for equal numeric inputs.
   */
  lemma DistanceUnitIrrelevant(dailyRange: real, v: VehicleData)
    requires v.dwellTime != 0.0
    ensures v.consumption != 0.0 ==>
      CalculateRequirements(dailyRange, UK, v) == CalculateRequirements(dailyRange, MetricEff, v)
    ensures CalculateRequirements(dailyRange, US, v) == CalculateRequirements(dailyRange, MetricCons, v)
  {
  }

  /** The start-up state of the main screen. */
  function DefaultVehicleData(): (v: VehicleData)
    ensures v.quantity == 10.0 && v.consumption == 2.5 && v.bufferPercent == 20.0 && v.dwellTime == 8.0
  {
    VehicleData(10.0, 2.5, "miles/kWh", 20.0, 8.0)
  }

  /** What the start-up state yields: 200 miles, 96 kWh, 960 kWh and 12 kW. */
  lemma DefaultRequirements()
    ensures Computable(UK, DefaultVehicleData())
    ensures CalculateRequirements(100.0, UK, DefaultVehicleData()) == Requirements(200.0, 96.0, 960.0, 12.0)
  {
  }

  /** A metric rate example: 50 km at 25 kWh/100 km with 20% over 8 h. */
  lemma MetricRateExample()
    ensures CalculateRequirements(50.0, MetricCons, VehicleData(1.0, 25.0, "kWh/100km", 20.0, 8.0))
      == Requirements(100.0, 30.0, 30.0, 3.75)
  {
  }
}
