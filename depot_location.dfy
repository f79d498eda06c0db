/**
 * The depot-location panel's unit handling: the country-to-units table, the
 * conversion of the daily range when the unit system crosses between the
 * imperial and the metric family, the range slider's bounds, and the session
 * state that the unit toggle and the country selector update.
 */
module DepotLocation {
  import opened Sizing
  import opened Wrappers

  /** The distance unit shown beside the daily range. */
  datatype DistanceUnit = Miles | Km

  /** The distance unit a unit system works in. */
  function NativeUnit(u: UnitSystem): DistanceUnit {
    if IsImperial(u) then Miles else Km
  }

  const MilesToKm: real := 1.609344
  const KmToMiles: real := 0.621371

  /** JavaScript's Math.round: the nearest integer, halves rounded upward. */
  function Round(x: real): (n: int)
    ensures n as real - 0.5 <= x < n as real + 0.5
  {
    (x + 0.5).Floor
  }

  /** Any integer within half a unit below and under half above is the rounding. */
  lemma RoundIsNearest(x: real, n: int)
    requires n as real - 0.5 <= x < n as real + 0.5
    ensures Round(x) == n
  {
  }

  /** The daily range together with the unit it is displayed in. */
  datatype RangeSetting = RangeSetting(value: real, unit: DistanceUnit)

  /** A real with no fractional part. */
  predicate IsWhole(x: real) {
    x.Floor as real == x
  }

  /**
   * The range after switching from `fromUnit` to `toUnit`. Only a switch that
   * crosses the imperial/metric boundary rescales, to the nearest whole
   * number in the new unit; the current unit label is not consulted.
   */
  function ConvertRange(fromUnit: UnitSystem, toUnit: UnitSystem, range: RangeSetting): (r: RangeSetting)
    ensures IsImperial(fromUnit) == IsImperial(toUnit) ==> r == range
    ensures IsImperial(fromUnit) && !IsImperial(toUnit) ==>
      r.unit == Km && IsWhole(r.value) &&
      -0.5 < r.value - range.value * MilesToKm <= 0.5
    ensures !IsImperial(fromUnit) && IsImperial(toUnit) ==>
      r.unit == Miles && IsWhole(r.value) &&
      -0.5 < r.value - range.value * KmToMiles <= 0.5
  {
    var fromImperial := IsImperial(fromUnit);
    var toImperial := IsImperial(toUnit);
    if fromImperial && !toImperial then
      RangeSetting(Round(range.value * MilesToKm) as real, Km)
    else if !fromImperial && toImperial then
      RangeSetting(Round(range.value * KmToMiles) as real, Miles)
    else
      range
  }

  /** A range labelled in its system's unit stays so labelled after any switch. */
  lemma ConvertKeepsNativeUnit(fromUnit: UnitSystem, toUnit: UnitSystem, range: RangeSetting)
    requires range.unit == NativeUnit(fromUnit)
    ensures ConvertRange(fromUnit, toUnit, range).unit == NativeUnit(toUnit)
  {
  }

  /** Switching to metric and back restores any whole number of miles up to 100000. */
  lemma MilesRoundTrip(imperial: UnitSystem, metric: UnitSystem, n: int)
    requires IsImperial(imperial) && !IsImperial(metric)
    requires 0 <= n <= 100000
    ensures ConvertRange(metric, imperial, ConvertRange(imperial, metric, RangeSetting(n as real, Miles)))
      == RangeSetting(n as real, Miles)
  {
    var km := Round(n as real * MilesToKm);
    assert n as real * MilesToKm - 0.5 < km as real <= n as real * MilesToKm + 0.5;
    var back := km as real * KmToMiles;
    assert n as real * 0.999999690624 - 0.3106855 < back <= n as real * 0.999999690624 + 0.3106855;
    RoundIsNearest(back, n);
  }

  /** Switching to imperial and back moves a whole number of km by at most one. */
  lemma KilometresRoundTripWithinOne(imperial: UnitSystem, metric: UnitSystem, n: int)
    requires IsImperial(imperial) && !IsImperial(metric)
    requires 0 <= n <= 100000
    ensures var r := ConvertRange(imperial, metric, ConvertRange(metric, imperial, RangeSetting(n as real, Km)));
      r.unit == Km && IsWhole(r.value) && n as real - 1.0 <= r.value <= n as real + 1.0
  {
    var miles := Round(n as real * KmToMiles);
    assert n as real * KmToMiles - 0.5 < miles as real <= n as real * KmToMiles + 0.5;
    var back := miles as real * MilesToKm;
    assert n as real * 0.999999690624 - 0.804672 < back <= n as real * 0.999999690624 + 0.804672;
    var k := Round(back);
    assert n - 2 < k < n + 2;
  }

  /** The kilometre round trip is not exact: 12 km comes back as 11 km. */
  lemma KilometresRoundTripCanLoseOne()
    ensures ConvertRange(UK, MetricCons, ConvertRange(MetricCons, UK, RangeSetting(12.0, Km)))
      == RangeSetting(11.0, Km)
  {
  }

  /** The default range of 100 miles becomes 161 km on a switch to km/kWh. */
  lemma DefaultRangeToMetric()
    ensures ConvertRange(UK, MetricEff, RangeSetting(100.0, Miles)) == RangeSetting(161.0, Km)
  {
  }

  /** Lower end of the range slider. */
  function RangeMin(u: UnitSystem): int {
    if IsImperial(u) then 6 else 10
  }

  /** Upper end of the range slider. */
  function RangeMax(u: UnitSystem): int {
    if IsImperial(u) then 311 else 500
  }

  /** The slider's bounds: 6..311 miles, 10..500 km, never empty. */
  lemma SliderBounds(u: UnitSystem)
    ensures IsImperial(u) ==> RangeMin(u) == 6 && RangeMax(u) == 311
    ensures !IsImperial(u) ==> RangeMin(u) == 10 && RangeMax(u) == 500
    ensures RangeMin(u) < RangeMax(u)
  {
  }

  /**
   * A whole-number range inside the slider stays inside the slider of the
   * system switched to, with one exception: 311 miles becomes 501 km.
   */
  lemma ConvertStaysOnSlider(fromUnit: UnitSystem, toUnit: UnitSystem, n: int)
    requires RangeMin(fromUnit) <= n <= RangeMax(fromUnit)
    requires !(IsImperial(fromUnit) && n == 311)
    ensures var r := ConvertRange(fromUnit, toUnit, RangeSetting(n as real, NativeUnit(fromUnit)));
      RangeMin(toUnit) as real <= r.value <= RangeMax(toUnit) as real
  {
  }

  /** The top of the miles slider lands one kilometre above the km slider. */
  lemma TopOfMilesSliderLeavesKmSlider()
    ensures ConvertRange(US, MetricCons, RangeSetting(311.0, Miles)) == RangeSetting(501.0, Km)
    ensures 501 > RangeMax(MetricCons)
  {
  }

  /** Which unit system a country defaults to. */
  const CountryUnits: map<string, UnitSystem> :=
    map["GB" := UK, "US" := US, "CA" := US, "AU" := UK, "DE" := MetricCons, "FR" := MetricCons]

  /** The default unit system for a country, if it has one. */
  function PreferredUnits(country: string): (r: Option<UnitSystem>)
    ensures r == Some(UK) <==> country == "GB" || country == "AU"
    ensures r == Some(US) <==> country == "US" || country == "CA"
    ensures r == Some(MetricCons) <==> country == "DE" || country == "FR"
    ensures r != Some(MetricEff)
  {
    if country in CountryUnits then Some(CountryUnits[country]) else None
  }

  /**
   * The unit-related state of one planning session: the active unit system,
   * the daily range and its label, the selected country, and whether the user
   * has picked units by hand.
   */
  class UnitSession {
    var currentUnits: UnitSystem
    var dailyRange: real
    var rangeUnit: DistanceUnit
    var selectedCountry: string
    var userChangedUnits: bool

    /** The range label agrees with the active unit system. */
    ghost predicate Valid()
      reads this
    {
      rangeUnit == NativeUnit(currentUnits)
    }

    /** The start-up state: 100 miles, miles/kWh, Great Britain, no manual choice. */
    constructor ()
      ensures Valid()
      ensures currentUnits == UK && dailyRange == 100.0 && rangeUnit == Miles
      ensures selectedCountry == "GB" && !userChangedUnits
    {
      currentUnits := UK;
      dailyRange := 100.0;
      rangeUnit := Miles;
      selectedCountry := "GB";
      userChangedUnits := false;
    }

    /** The unit toggle: records the manual choice and converts the range. */
    method HandleUnitsChange(units: UnitSystem)
      modifies this
      ensures userChangedUnits
      ensures currentUnits == units
      ensures RangeSetting(dailyRange, rangeUnit)
        == ConvertRange(old(currentUnits), units, RangeSetting(old(dailyRange), old(rangeUnit)))
      ensures selectedCountry == old(selectedCountry)
      ensures old(Valid()) ==> Valid()
    {
      userChangedUnits := true;
      var oldUnits := currentUnits;
      currentUnits := units;
      ConvertRangeUnits(oldUnits, units);
      if old(Valid()) {
        ConvertKeepsNativeUnit(oldUnits, units, RangeSetting(old(dailyRange), old(rangeUnit)));
      }
    }

    /**
     * The country selector: always records the country; applies the
     * country's default units, converting the range, only while the user has
     * not picked units by hand.
     */
    method HandleCountryChange(country: string)
      modifies this
      ensures selectedCountry == country
      ensures userChangedUnits == old(userChangedUnits)
      ensures old(userChangedUnits) || PreferredUnits(country).None? ==>
        currentUnits == old(currentUnits) && dailyRange == old(dailyRange) && rangeUnit == old(rangeUnit)
      ensures !old(userChangedUnits) && PreferredUnits(country).Some? ==>
        currentUnits == PreferredUnits(country).value &&
        RangeSetting(dailyRange, rangeUnit)
          == ConvertRange(old(currentUnits), currentUnits, RangeSetting(old(dailyRange), old(rangeUnit)))
      ensures old(Valid()) ==> Valid()
    {
      selectedCountry := country;
      if !userChangedUnits {
        var preferredUnit := PreferredUnits(country);
        if preferredUnit.Some? {
          var oldUnits := currentUnits;
          currentUnits := preferredUnit.value;
          ConvertRangeUnits(oldUnits, preferredUnit.value);
          if old(Valid()) {
            ConvertKeepsNativeUnit(oldUnits, preferredUnit.value, RangeSetting(old(dailyRange), old(rangeUnit)));
          }
        }
      }
    }

    /** Rescales the range and relabels it when the switch crosses families. */
    method ConvertRangeUnits(fromUnit: UnitSystem, toUnit: UnitSystem)
      modifies this`dailyRange, this`rangeUnit
      ensures RangeSetting(dailyRange, rangeUnit)
        == ConvertRange(fromUnit, toUnit, RangeSetting(old(dailyRange), old(rangeUnit)))
    {
      var fromImperial := IsImperial(fromUnit);
      var toImperial := IsImperial(toUnit);
      if fromImperial && !toImperial {
        dailyRange := Round(dailyRange * MilesToKm) as real;
        rangeUnit := Km;
      } else if !fromImperial && toImperial {
        dailyRange := Round(dailyRange * KmToMiles) as real;
        rangeUnit := Miles;
      }
    }

    /** The range input and slider: the typed value is stored unclamped. */
    method SetDailyRange(range: real)
      modifies this`dailyRange
      ensures dailyRange == range
    {
      dailyRange := range;
    }
  }
}
