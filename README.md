# EV depot charging planner — verified model of the sizing and layout core

The planner helps a fleet operator size electric-vehicle charging at a depot.
This Dafny project models its calculation and state-handling core and proves
properties of it. All quantities are exact `real`s. JavaScript's `Math.round`
is `(x + 0.5).Floor`.

- `Sizing` (`sizing.dfy`) models the main screen's energy calculator. From the
  daily one-way range, the active unit system and the vehicle data it derives
  four values: the round-trip distance, the buffered energy per vehicle, the
  fleet energy and the minimum charging power.
- `VehicleInfo` (`vehicle_info.dfy`) models the earlier prototype. Its single
  formula agrees with the newer calculator's consumption-rate branches. Its
  record update replaces exactly one field.
- `DepotLocation` (`depot_location.dfy`) models the unit handling:
  - the country-to-units table and the range conversion on a unit switch;
  - the slider bounds;
  - a `UnitSession` class with the toggle and country handlers.
  
  The session keeps the range label consistent with the unit system. A manual
  unit choice is never overridden by a later country change. A whole number
  of miles from 0 to 100000 survives a round trip through kilometres exactly.
  A whole number of kilometres in the same range survives a round trip
  through miles only to within one unit.
- `ChargerLayout` (`charger_layout.dfy`) models the layout editor: a
  `LayoutEditor` class over the element list and the placement mode, plus the
  cable estimate as pure functions. The editor never holds two distribution
  panels or two main supplies. The great-circle distance is a function
  parameter. The charger cap is only a disabled button: clicks in charger mode
  keep adding chargers, and a lemma proves this.
- `ChargerSelection` (`charger_selection.dfy`) models the static catalog,
  suitability, the fleet power and cost products, and card selection.
- `Wrappers` (`wrappers.dfy`) holds `Option`.

Two behaviours of the code are worth stating on their own:
- The range entered is one way, and the calculator doubles it before anything
  else (src/App.tsx:54). So 50 km at 25 kWh/100 km with a 20 % buffer over
  8 h gives 100 km, 25 kWh base, 30 kWh buffered and 3.75 kW
  (`Sizing.MetricRateExample`).
- The cap on chargers is only the disabled button (src/ChargerLayout.tsx:170).
  The click handler does not check it, so the cap can be exceeded
  (`ChargerLayout.ChargerCapNotEnforcedByClicks`).

## Model

| member | source | states |
|---|---|---|
| Sizing.BaseEnergy | src/App.tsx:58-71 | Efficiency systems: energy × consumption = distance. Rate systems: 100 × energy = distance × consumption. |
| Sizing.WithBuffer | src/App.tsx:73-74 | Buffered energy = base plus bufferPercent % of the base. |
| Sizing.CalculateRequirements | src/App.tsx:53-85 | Distance = 2 × range. Fleet energy = per-vehicle energy × quantity. Minimum power × dwell time = per-vehicle energy. Requires dwellTime ≠ 0, and consumption ≠ 0 for efficiency systems; the source checks neither. |
| Sizing.EnergyPerVehicleByConvention | src/App.tsx:54-74 | Buffered energy per convention: for efficiency systems, energy × consumption = 2 × range × (1 + buffer/100); for rate systems, energy = 2 × range × consumption / 100 × (1 + buffer/100). |
| Sizing.ZeroBufferKeepsBase | src/App.tsx:74 | A 0 % buffer leaves the base energy unchanged. |
| Sizing.FleetEnergyLinearInQuantity | src/App.tsx:76 | Fleet energy is additive in the vehicle count. |
| Sizing.EnergyAffineInBuffer | src/App.tsx:74 | Raising the buffer by q points adds base × q / 100 to the per-vehicle energy. |
| Sizing.DistanceUnitIrrelevant | src/App.tsx:58-71 | For equal inputs, 'us' gives the same result as 'metric-cons' (consumption 0 included), and, for non-zero consumption, 'uk' the same as 'metric-eff'. |
| Sizing.DefaultVehicleData | src/App.tsx:42-48 | Start-up vehicle data: 10 vehicles, consumption 2.5, 20 % buffer, 8 h dwell. |
| Sizing.DefaultRequirements | src/App.tsx:37-48 | The start-up state (100 miles, 'uk') gives 200 miles, 96 kWh, 960 kWh and 12 kW. |
| Sizing.MetricRateExample | src/App.tsx:68-77 | 50 km at 25 kWh/100 km with a 20 % buffer over 8 h gives 100 km, 30 kWh and 3.75 kW. |
| VehicleInfo.UpdateVehicleData | src/VehicleInfo.tsx:25-30 | The named field takes the new value and every other field keeps its old value. |
| VehicleInfo.UpdateSameValueIsIdentity | src/VehicleInfo.tsx:25-30 | Writing a field's current value back returns the same record. |
| VehicleInfo.UpdateOverwrites | src/VehicleInfo.tsx:25-30 | Of two updates to the same field, the later one wins. |
| VehicleInfo.CalculateRequirements | src/VehicleInfo.tsx:33-46 | Distance = 2 × range. 100 × energy = distance × consumption × (1 + buffer/100), with no unit setting. Fleet energy = energy × quantity. Power × dwell time = energy. Requires dwellTime ≠ 0; the source does not check it. |
| VehicleInfo.AgreesWithRateBranches | src/VehicleInfo.tsx:34-38 | The prototype's result equals the newer calculator's 'metric-cons' result, and its 'us' result, for equal inputs. |
| DepotLocation.Round | src/DepotLocationPanel.tsx:113 | Math.round gives the integer n with n − 0.5 ≤ x < n + 0.5. |
| DepotLocation.RoundIsNearest | src/DepotLocationPanel.tsx:117 | That integer is unique: any n in that window is the rounding. |
| DepotLocation.ConvertRange | src/DepotLocationPanel.tsx:107-120 | Imperial → metric: a whole number of km within half a unit of range × 1.609344. Metric → imperial: a whole number of miles within half a unit of range × 0.621371. Within one family: range and label unchanged. |
| DepotLocation.ConvertKeepsNativeUnit | src/DepotLocationPanel.tsx:107-120 | A range labelled in its system's unit stays labelled in the new system's unit after any switch. |
| DepotLocation.MilesRoundTrip | src/DepotLocationPanel.tsx:113-117 | For every whole number of miles from 0 to 100000, converting to metric and back restores the number exactly. |
| DepotLocation.KilometresRoundTripWithinOne | src/DepotLocationPanel.tsx:113-117 | For every whole number of km from 0 to 100000, converting to imperial and back moves the value by at most 1. |
| DepotLocation.KilometresRoundTripCanLoseOne | src/DepotLocationPanel.tsx:113-117 | 12 km converts to 7 miles and back to 11 km. |
| DepotLocation.DefaultRangeToMetric | src/DepotLocationPanel.tsx:111-114 | 100 miles under 'uk' becomes 161 km under 'metric-eff'. |
| DepotLocation.RangeMin | src/DepotLocationPanel.tsx:146-148 | The slider's lower end: 6 for imperial systems, 10 for metric ones; SliderBounds states the bounds. |
| DepotLocation.RangeMax | src/DepotLocationPanel.tsx:146-148 | The slider's upper end: 311 for imperial systems, 500 for metric ones; SliderBounds states the bounds. |
| DepotLocation.SliderBounds | src/DepotLocationPanel.tsx:146-148 | The slider runs 6..311 for imperial systems and 10..500 for metric ones, with min < max. |
| DepotLocation.ConvertStaysOnSlider | src/DepotLocationPanel.tsx:107-120 | A whole-number range on the slider lands on the new system's slider after a switch, except 311 miles. |
| DepotLocation.TopOfMilesSliderLeavesKmSlider | src/DepotLocationPanel.tsx:146-148 | 311 miles converts to 501 km, above the 500 km slider maximum. |
| DepotLocation.PreferredUnits | src/DepotLocationPanel.tsx:29-36 | GB/AU → 'uk', US/CA → 'us', DE/FR → 'metric-cons'. No country maps to 'metric-eff'. Every other country has no default. |
| DepotLocation.UnitSession.constructor | src/App.tsx:37-40 | Starts at 100 miles, 'uk', GB, with no manual choice; the range label matches the system. |
| DepotLocation.UnitSession.HandleUnitsChange | src/DepotLocationPanel.tsx:123-128 | Sets the manual-choice flag and the new system, and converts the range from the old system. The country is unchanged and the label invariant is kept. |
| DepotLocation.UnitSession.HandleCountryChange | src/DepotLocationPanel.tsx:94-104 | Always records the country and never changes the flag. Before a manual choice, a mapped country sets its default system and converts the range. Otherwise the units, range and label are unchanged. The label invariant is kept. |
| DepotLocation.UnitSession.ConvertRangeUnits | src/DepotLocationPanel.tsx:107-120 | The session's range and label become ConvertRange of their old values. |
| DepotLocation.UnitSession.SetDailyRange | src/DepotLocationPanel.tsx:259 | The slider and the input store the given value without clamping. |
| ChargerLayout.Filter | src/ChargerLayout.tsx:97 | The result holds exactly the elements that pass the test, and is no longer than the input. |
| ChargerLayout.FilterAppend | src/ChargerLayout.tsx:140 | Filtering a concatenation is the concatenation of the filtered parts, so relative order is kept. |
| ChargerLayout.OfKindWithoutKind | src/ChargerLayout.tsx:77-81 | After removing one type, none of that type is left and every other type keeps its elements in order. |
| ChargerLayout.HasKindIffCounted | src/ChargerLayout.tsx:152-155 | `some` of a type holds iff the filtered count of that type is positive. |
| ChargerLayout.ModeAfterClick | src/ChargerLayout.tsx:86-89 | After a click the mode is null or 'charger', and it is 'charger' exactly when it was 'charger' before: panel and main-supply modes switch off, and no mode stays no mode. |
| ChargerLayout.ElementName | src/ChargerLayout.tsx:68-72 | The name tells the type apart: chargers get a name starting "Charger ", the panel exactly "Distribution Panel", the main supply exactly "Main Supply". |
| ChargerLayout.NewElement | src/ChargerLayout.tsx:64-73 | The new element has the mode's type, the clicked position and ElementName's name; its id starts with the type's key and a dash. |
| ChargerLayout.PlaceElement | src/ChargerLayout.tsx:75-83 | With no mode the list is unchanged. Otherwise the new element is last and every other element of the result was already in the list. |
| ChargerLayout.PlaceSingleInstance | src/ChargerLayout.tsx:75-82 | Placing a panel or main supply puts the new element last and leaves exactly one of its type. Before it come exactly the old elements of the other types, each keeping its relative order. Every other type keeps its own sub-list, and no element of another type is lost. |
| ChargerLayout.PlaceChargerAppends | src/ChargerLayout.tsx:64-83 | Placing a charger appends it after the unchanged prior list. It is named "Charger k+1" for the k chargers already placed, and the charger count grows by one. |
| ChargerLayout.ChargerCapNotEnforcedByClicks | src/ChargerLayout.tsx:60-90 | From one charger below the fleet size, with the button enabled, two clicks in charger mode end one charger above the cap. |
| ChargerLayout.SingleInstances | src/ChargerLayout.tsx:76-82 | At most one distribution panel and one main supply; its partners are the two lemmas below. |
| ChargerLayout.PlaceKeepsSingleInstances | src/ChargerLayout.tsx:75-83 | Any click keeps at most one panel and one main supply. |
| ChargerLayout.RemoveKeepsSingleInstances | src/ChargerLayout.tsx:139-141 | Removing an element keeps at most one panel and one main supply. |
| ChargerLayout.FilterCountKindAtMost | src/ChargerLayout.tsx:140 | Filtering never increases the count of any type. |
| ChargerLayout.FindIsOnlyOfKind | src/ChargerLayout.tsx:98-99 | When exactly one element has a type, the element `find` returns is that one, so the estimate's panel is the placed panel. |
| ChargerLayout.WithoutId | src/ChargerLayout.tsx:140 | The result holds exactly the elements whose id differs from the removed one. |
| ChargerLayout.RemoveKeepsOrder | src/ChargerLayout.tsx:139-141 | Removing an id from a concatenation removes it from each part, so the surviving elements keep their relative order. |
| ChargerLayout.RemoveIdempotent | src/ChargerLayout.tsx:139-141 | Removing the same id twice is the same as removing it once. |
| ChargerLayout.ChargerButtonDisabled | src/ChargerLayout.tsx:170 | The button is disabled when the charger count is at least the fleet size; CompleteLayoutDisablesChargerButton and ChargerCapNotEnforcedByClicks are its properties. |
| ChargerLayout.AllRequiredElementsPlaced | src/ChargerLayout.tsx:152-155 | Complete iff the charger count equals the fleet size and the panel and main-supply counts are positive (`some` expressed by counts). |
| ChargerLayout.CompleteLayoutDisablesChargerButton | src/ChargerLayout.tsx:152-170 | A complete layout has the charger button disabled. |
| ChargerLayout.Find | src/ChargerLayout.tsx:98-99 | Returns nothing iff no element has the type; otherwise the first element of that type in the list. |
| ChargerLayout.FindAppendOther | src/ChargerLayout.tsx:98-99 | Appending an element of another type does not change what is found. |
| ChargerLayout.ChargerCables | src/ChargerLayout.tsx:119-124 | One cable per charger in list order, from the charger to the panel, with length dist(charger, panel) and the charger's id. |
| ChargerLayout.ChargerCablesAppend | src/ChargerLayout.tsx:119-124 | The cables of a concatenation are the concatenation of the cables. |
| ChargerLayout.SumLengths | src/ChargerLayout.tsx:132 | The left-to-right sum of the lengths; SumLengthsAppend and SumLengthsNonNegative state its properties. |
| ChargerLayout.SumLengthsAppend | src/ChargerLayout.tsx:132 | The length sum is additive over concatenation. |
| ChargerLayout.SumLengthsNonNegative | src/ChargerLayout.tsx:132 | Non-negative lengths have a non-negative sum. |
| ChargerLayout.CalculateCableDistances | src/ChargerLayout.tsx:96-135 | Without a panel or a main supply the result is empty with total 0. Otherwise: the charger cables from the first panel; the main cable from that panel to the first main supply; total = sum of charger lengths + main length. |
| ChargerLayout.CableCountMatchesChargers | src/ChargerLayout.tsx:119-124 | On a complete layout there is one charger cable per placed charger, each ending at the panel, with matching ids. |
| ChargerLayout.TotalAtLeastMainCable | src/ChargerLayout.tsx:126-132 | With non-negative distances the total is ≥ 0 and, when complete, ≥ the main cable's length. |
| ChargerLayout.PlacingChargerAddsItsCable | src/ChargerLayout.tsx:119-132 | With a panel and a main supply placed, a new charger raises the total by exactly its distance to the panel. |
| ChargerLayout.CompleteLayoutHasEstimate | src/ChargerLayout.tsx:152-155 | When all required elements are placed, the estimate is complete and has one cable per vehicle. |
| ChargerLayout.CableCost | src/ChargerLayout.tsx:339 | Cost = total × £25/m: non-negative for a non-negative total, and 0 for an incomplete layout. |
| ChargerLayout.IncompleteLayoutCostsNothing | src/ChargerLayout.tsx:96-103 | Without a panel or a main supply the estimated cable cost is 0. |
| ChargerLayout.PlacingChargerAddsItsCost | src/ChargerLayout.tsx:119-132 | On a complete layout a new charger raises the cost by £25 × its distance to the panel. |
| ChargerLayout.LayoutEditor.constructor | src/ChargerLayout.tsx:53-54 | The editor starts with no elements and no placement mode, which satisfies the single-instance invariant. |
| ChargerLayout.LayoutEditor.Click | src/ChargerLayout.tsx:60-90 | The new list is PlaceElement of the old list and mode; the new mode is ModeAfterClick of the old one. The single-instance invariant is kept. |
| ChargerLayout.LayoutEditor.RemoveElement | src/ChargerLayout.tsx:139-141 | The list loses exactly the elements with that id; the mode is unchanged. The single-instance invariant is kept. |
| ChargerLayout.LayoutEditor.PressPlacementButton | src/ChargerLayout.tsx:168-199 | A button toggles its mode on or off. The charger button does nothing while the charger count ≥ the fleet size. The list is unchanged, so the invariant is kept. |
| ChargerSelection.CalculateTotalPower | src/ChargerSelection.tsx:66-68 | Zero vehicles need zero power; with at least one vehicle the total is at least one charger's power. |
| ChargerSelection.TotalEstimatedCost | src/ChargerSelection.tsx:136 | Zero vehicles cost nothing; with at least one vehicle the cost is at least one charger's price. |
| ChargerSelection.IsChargerSuitable | src/ChargerSelection.tsx:62-64 | Suitable when the model's power reaches the minimum per vehicle; the lemmas below state its properties. |
| ChargerSelection.IsSelected | src/ChargerSelection.tsx:82 | A card is highlighted when its id equals the selected model's id; AtMostOneCardSelected and SelectedCardIsHighlighted state its properties. |
| ChargerSelection.ShowsTooSlowWarning | src/ChargerSelection.tsx:140 | The warning shows on a model that is not suitable; WarningIffUnsuitable states it in terms of power. |
| ChargerSelection.SuitableFleetPowerCoversFleetEnergy | src/ChargerSelection.tsx:62-68 | A suitable model, one per vehicle, delivers at least the fleet's buffered energy within the dwell time. |
| ChargerSelection.FirstSuitableIsCheapest | src/ChargerSelection.tsx:27-64 | The first suitable catalog model costs no more, for any fleet size, than any other suitable model. |
| ChargerSelection.SuitabilityUpwardClosed | src/ChargerSelection.tsx:62-64 | A model at least as powerful as a suitable one is suitable. |
| ChargerSelection.SuitabilityAntitoneInRequirement | src/ChargerSelection.tsx:62-64 | A model suitable for a higher requirement is suitable for a lower one. |
| ChargerSelection.WarningIffUnsuitable | src/ChargerSelection.tsx:140 | The "too slow" warning shows iff power < the minimum per vehicle. |
| ChargerSelection.CatalogWellFormed | src/ChargerSelection.tsx:27-60 | Four models with distinct ids, strictly increasing power 22 < 50 < 120 < 180, and strictly increasing price. |
| ChargerSelection.SuitableModelsFormSuffix | src/ChargerSelection.tsx:27-64 | Every catalog model after a suitable one is suitable. |
| ChargerSelection.AtMostOneCardSelected | src/ChargerSelection.tsx:82 | No two catalog cards are highlighted at once. |
| ChargerSelection.SelectedCardIsHighlighted | src/ChargerSelection.tsx:82 | Selecting a catalog model highlights its card and no other. |
| ChargerSelection.SuitableIffEnergyDeliveredInDwellTime | src/ChargerSelection.tsx:62-64 | A model is suitable iff power × dwell time ≥ the calculator's buffered energy per vehicle. |
| ChargerSelection.DefaultStateAllModelsSuitable | src/ChargerSelection.tsx:62-64 | At the start-up requirement of 12 kW every catalog model is suitable. |

## Left out

- The haversine body (src/ChargerLayout.tsx:106-117) is floating-point trigonometry. The distance is an uninterpreted parameter `dist`, so the self-distance and symmetry laws of the formula are not proved.
- Element ids read the clock (`Date.now()`). The clock reading is a parameter `now`.
- IEEE-754 rounding is not modelled. Every formula is over exact reals, so a result that floats would round is exact here: a 1-mile range at 3 miles/kWh gives exactly 2/3 kWh, which no double equals.
- Map rendering and interaction, marker icons, the cable-route show/hide toggle, and all styling are presentation only.
- Display formatting is not modelled: `toFixed`, `toLocaleString`, the "hours needed" figure in the too-slow warning, and the placement-mode label.
- The address field and the geocoding placeholder (src/DepotLocationPanel.tsx:139-143) only log to the console. The depot location picked on the map is not part of the unit logic.
- The `onLayoutComplete` logging (src/App.tsx:137-139) and the `VehicleConfigPanel` component are not part of this model; that component's source is not available.
- src/DepotMap.tsx is map plumbing and is not part of this model.
- `countryUnits` is a JavaScript object. A lookup of a key it inherits from `Object.prototype` would return an inherited value (a function, or `Object.prototype` itself for `__proto__`), which the truthiness test at src/DepotLocationPanel.tsx:99 would accept. The model treats the table as the six-entry map, which is all the country selector offers.
- React's batching of state updates is not modelled. Each handler reads the state of the render it was created in and writes new values, and the model applies those writes in order to the old values.
- DepotLocation.MilesRoundTrip: proved for whole numbers from 0 to 100000. This covers the 6..311 miles slider. It is not claimed for all inputs, for two reasons. The round trip fails for very large ranges. The range input also accepts non-whole values, which come back rounded (100.3 miles → 161 km → 100 miles).
- DepotLocation.KilometresRoundTripWithinOne: proved for whole numbers from 0 to 100000, for the same two reasons.
- Sizing.CalculateRequirements: requires dwellTime ≠ 0, and consumption ≠ 0 under 'uk' and 'metric-eff'. The source divides by both unchecked, and the result of a division by zero (Infinity or NaN) is not modelled.
- VehicleInfo.CalculateRequirements: requires dwellTime ≠ 0. The source divides by it unchecked, and the result of a division by zero (Infinity or NaN) is not modelled.
