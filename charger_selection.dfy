/**
 * The charger selection step: a fixed catalog of charger models, whether a
 * model delivers the minimum power a vehicle needs within its dwell time, and
 * the fleet-wide power and price of choosing a model.
 */
module ChargerSelection {
  import opened Wrappers
  import Sizing

  datatype CurrentType = AC | DC

  datatype ChargerType = ChargerType(
    id: string,
    power: real,          // kW
    name: string,
    currentType: CurrentType,
    connector: string,
    typicalPrice: real)   // pounds

  /** The catalog, in display order. */
  const AvailableChargers: seq<ChargerType> := [
    ChargerType("ac22", 22.0, "22kW AC Charger", AC, "Type 2", 3500.0),
    ChargerType("dc50", 50.0, "50kW DC Fast Charger", DC, "CCS/CHAdeMO", 15000.0),
    ChargerType("dc120", 120.0, "120kW DC Ultra Fast", DC, "CCS", 35000.0),
    ChargerType("dc180", 180.0, "180kW DC Ultra Fast", DC, "CCS", 55000.0)
  ]

  /** A model is suitable when it reaches the minimum power per vehicle. */
  predicate IsChargerSuitable(chargerPower: real, minimumPowerPerVehicle: real) {
    chargerPower >= minimumPowerPerVehicle
  }

  /** Total installed power when every vehicle gets one charger. */
  function CalculateTotalPower(chargerPower: real, vehicleQuantity: real): (total: real)
    ensures vehicleQuantity == 0.0 ==> total == 0.0
    ensures vehicleQuantity >= 1.0 && chargerPower >= 0.0 ==> total >= chargerPower
  {
    chargerPower * vehicleQuantity
  }

  /** Estimated price of one charger per vehicle. */
  function TotalEstimatedCost(charger: ChargerType, vehicleQuantity: real): (cost: real)
    ensures vehicleQuantity == 0.0 ==> cost == 0.0
    ensures vehicleQuantity >= 1.0 && charger.typicalPrice >= 0.0 ==> cost >= charger.typicalPrice
  {
    assert vehicleQuantity >= 1.0 && charger.typicalPrice >= 0.0 ==>
      charger.typicalPrice * (vehicleQuantity - 1.0) >= 0.0;
    charger.typicalPrice * vehicleQuantity
  }

  /** A card is highlighted when its id is the selected model's id. */
  predicate IsSelected(selected: Option<ChargerType>, charger: ChargerType) {
    selected.Some? && selected.value.id == charger.id
  }

  /** The "too slow" badge and warning. */
  predicate ShowsTooSlowWarning(charger: ChargerType, minimumPowerPerVehicle: real) {
    !IsChargerSuitable(charger.power, minimumPowerPerVehicle)
  }

  /** A more powerful model is suitable whenever a weaker one is. */
  lemma SuitabilityUpwardClosed(weaker: real, stronger: real, minimumPowerPerVehicle: real)
    requires weaker <= stronger
    requires IsChargerSuitable(weaker, minimumPowerPerVehicle)
    ensures IsChargerSuitable(stronger, minimumPowerPerVehicle)
  {
  }

  /** Raising the requirement can only turn suitable models unsuitable. */
  lemma SuitabilityAntitoneInRequirement(power: real, lower: real, higher: real)
    requires lower <= higher
    requires IsChargerSuitable(power, higher)
    ensures IsChargerSuitable(power, lower)
  {
  }

  /** The warning shows exactly on unsuitable models. */
  lemma WarningIffUnsuitable(charger: ChargerType, minimumPowerPerVehicle: real)
    ensures ShowsTooSlowWarning(charger, minimumPowerPerVehicle)
      <==> charger.power < minimumPowerPerVehicle
  {
  }

  /** Four models, distinct ids, strictly increasing power and price. */
  lemma CatalogWellFormed()
    ensures |AvailableChargers| == 4
    ensures forall i, j :: 0 <= i < j < |AvailableChargers| ==>
      AvailableChargers[i].id != AvailableChargers[j].id &&
      AvailableChargers[i].power < AvailableChargers[j].power &&
      AvailableChargers[i].typicalPrice < AvailableChargers[j].typicalPrice
    ensures AvailableChargers[0].power == 22.0 && AvailableChargers[1].power == 50.0
    ensures AvailableChargers[2].power == 120.0 && AvailableChargers[3].power == 180.0
  {
  }

  /**
   * Because power grows along the catalog, the suitable models form a suffix
   * of it: every model after a suitable one is suitable too.
   */
  lemma SuitableModelsFormSuffix(minimumPowerPerVehicle: real, i: int, j: int)
    requires 0 <= i < j < |AvailableChargers|
    requires IsChargerSuitable(AvailableChargers[i].power, minimumPowerPerVehicle)
    ensures IsChargerSuitable(AvailableChargers[j].power, minimumPowerPerVehicle)
  {
  }

  /** At most one catalog card is highlighted, whatever is selected. */
  lemma AtMostOneCardSelected(selected: Option<ChargerType>, i: int, j: int)
    requires 0 <= i < j < |AvailableChargers|
    ensures !(IsSelected(selected, AvailableChargers[i]) && IsSelected(selected, AvailableChargers[j]))
  {
  }

  /** A catalog model that is selected has its own card highlighted. */
  lemma SelectedCardIsHighlighted(i: int)
    requires 0 <= i < |AvailableChargers|
    ensures IsSelected(Some(AvailableChargers[i]), AvailableChargers[i])
    ensures forall j :: 0 <= j < |AvailableChargers| && j != i ==>
      !IsSelected(Some(AvailableChargers[i]), AvailableChargers[j])
  {
  }

  /**
   * Against the sizing calculator: a model is suitable exactly when, running
   * for the whole dwell time, it delivers the buffered energy of one vehicle.
   */
  lemma SuitableIffEnergyDeliveredInDwellTime(
    charger: ChargerType, dailyRange: real, units: Sizing.UnitSystem, v: Sizing.VehicleData)
    requires Sizing.Computable(units, v) && v.dwellTime > 0.0
    ensures var req := Sizing.CalculateRequirements(dailyRange, units, v);
      (IsChargerSuitable(charger.power, req.minimumChargingPower)
       <==> charger.power * v.dwellTime >= req.energyPerVehicle)
  {
  }

  /**
   * One suitable charger per vehicle, running for the whole dwell time,
   * delivers at least the fleet's buffered energy.
   */
  lemma SuitableFleetPowerCoversFleetEnergy(
    charger: ChargerType, dailyRange: real, units: Sizing.UnitSystem, v: Sizing.VehicleData)
    requires Sizing.Computable(units, v) && v.dwellTime > 0.0 && v.quantity >= 0.0
    requires IsChargerSuitable(charger.power,
      Sizing.CalculateRequirements(dailyRange, units, v).minimumChargingPower)
    ensures CalculateTotalPower(charger.power, v.quantity) * v.dwellTime
      >= Sizing.CalculateRequirements(dailyRange, units, v).totalFleetEnergy
  {
    var req := Sizing.CalculateRequirements(dailyRange, units, v);
    SuitableIffEnergyDeliveredInDwellTime(charger, dailyRange, units, v);
    assert charger.power * v.dwellTime * v.quantity >= req.energyPerVehicle * v.quantity;
  }

  /**
   * Price grows with power along the catalog, so the first suitable model
   * is the cheapest suitable one for any fleet size.
   */
  lemma FirstSuitableIsCheapest(minimumPowerPerVehicle: real, vehicleQuantity: real, i: int, j: int)
    requires 0 <= i < |AvailableChargers| && 0 <= j < |AvailableChargers| && vehicleQuantity >= 0.0
    requires IsChargerSuitable(AvailableChargers[i].power, minimumPowerPerVehicle)
    requires forall k :: 0 <= k < i ==> !IsChargerSuitable(AvailableChargers[k].power, minimumPowerPerVehicle)
    requires IsChargerSuitable(AvailableChargers[j].power, minimumPowerPerVehicle)
    ensures TotalEstimatedCost(AvailableChargers[i], vehicleQuantity)
      <= TotalEstimatedCost(AvailableChargers[j], vehicleQuantity)
  {
  }

  /** In the start-up state (12 kW needed) every catalog model is suitable. */
  lemma DefaultStateAllModelsSuitable(i: int)
    requires 0 <= i < |AvailableChargers|
    ensures Sizing.Computable(Sizing.UK, Sizing.DefaultVehicleData())
    ensures IsChargerSuitable(AvailableChargers[i].power,
      Sizing.CalculateRequirements(100.0, Sizing.UK, Sizing.DefaultVehicleData()).minimumChargingPower)
  {
  }
}
