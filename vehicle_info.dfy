/**
 * The earlier vehicle-information prototype: a single sizing formula that
 * always reads consumption as kWh per 100 distance units, and a form handler
 * that replaces one field of the vehicle record.
 */
module VehicleInfo {
  import Sizing

  /** The prototype's vehicle record (no unit field). */
  datatype VehicleData = VehicleData(
    quantity: real,
    consumption: real,
    bufferPercent: real,
    dwellTime: real)

  /** The keys of the record that the form can edit. */
  datatype Field = Quantity | Consumption | BufferPercent | DwellTime

  /** Reads one field of the record by key. */
  function FieldValue(d: VehicleData, f: Field): real {
    match f
    case Quantity => d.quantity
    case Consumption => d.consumption
    case BufferPercent => d.bufferPercent
    case DwellTime => d.dwellTime
  }

  /** The record with `field` set to `value`, every other field copied. */
  function UpdateVehicleData(d: VehicleData, field: Field, value: real): (r: VehicleData)
    ensures FieldValue(r, field) == value
    ensures forall f :: f != field ==> FieldValue(r, f) == FieldValue(d, f)
  {
    match field
    case Quantity => d.(quantity := value)
    case Consumption => d.(consumption := value)
    case BufferPercent => d.(bufferPercent := value)
    case DwellTime => d.(dwellTime := value)
  }

  /** Updating a field to the value it already has changes nothing. */
  lemma UpdateSameValueIsIdentity(d: VehicleData, field: Field)
    ensures UpdateVehicleData(d, field, FieldValue(d, field)) == d
  {
  }

  /** Two updates of the same field: the later one wins. */
  lemma UpdateOverwrites(d: VehicleData, field: Field, a: real, b: real)
    ensures UpdateVehicleData(UpdateVehicleData(d, field, a), field, b) == UpdateVehicleData(d, field, b)
  {
  }

  /** The prototype's calculation: kWh per 100 units, whatever the units. */
  function CalculateRequirements(dailyRange: real, v: VehicleData): (r: Sizing.Requirements)
    requires v.dwellTime != 0.0
    ensures r.vehicleDistance == 2.0 * dailyRange
    ensures 100.0 * r.energyPerVehicle == r.vehicleDistance * v.consumption * (1.0 + v.bufferPercent / 100.0)
    ensures r.totalFleetEnergy == r.energyPerVehicle * v.quantity
    ensures r.minimumChargingPower * v.dwellTime == r.energyPerVehicle
  {
    var vehicleDistance := dailyRange * 2.0;
    var baseEnergy := (vehicleDistance * v.consumption) / 100.0;
    var energyWithBuffer := baseEnergy * (1.0 + v.bufferPercent / 100.0);
    Sizing.Requirements(
      vehicleDistance,
      energyWithBuffer,
      energyWithBuffer * v.quantity,
      energyWithBuffer / v.dwellTime)
  }

  /** The same record seen by the newer calculator. */
  function AsMainScreenData(v: VehicleData, consumptionUnit: string): Sizing.VehicleData {
    Sizing.VehicleData(v.quantity, v.consumption, consumptionUnit, v.bufferPercent, v.dwellTime)
  }

  /**
   * The prototype agrees with the newer calculator's consumption-rate
   * branches, in kilometres and in miles alike.
   */
  lemma AgreesWithRateBranches(dailyRange: real, v: VehicleData, consumptionUnit: string)
    requires v.dwellTime != 0.0
    ensures CalculateRequirements(dailyRange, v)
      == Sizing.CalculateRequirements(dailyRange, Sizing.MetricCons, AsMainScreenData(v, consumptionUnit))
    ensures CalculateRequirements(dailyRange, v)
      == Sizing.CalculateRequirements(dailyRange, Sizing.US, AsMainScreenData(v, consumptionUnit))
  {
  }
}
