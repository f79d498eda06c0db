/**
 * The layout editor: the list of elements placed on the depot map (chargers,
 * at most one distribution panel, at most one main supply), the placement
 * mode the buttons select, and the cable estimate derived from the list.
 * The great-circle distance between two map points is a parameter `dist`.
 */
module ChargerLayout {
  import opened Wrappers

  datatype ElementType = Charger | DistributionPanel | MainSupply

  datatype Position = Position(lat: real, lng: real)

  datatype LayoutElement = LayoutElement(id: string, kind: ElementType, position: Position, name: string)

  /** The keys the element types are written with in ids. */
  function KindLabel(k: ElementType): string {
    match k
    case Charger => "charger"
    case DistributionPanel => "distributionPanel"
    case MainSupply => "mainSupply"
  }

  function Digit(d: nat): char
    requires d < 10
  {
    "0123456789"[d]
  }

  /** Decimal notation of a natural number, as template strings print it. */
  function NatToString(n: nat): (s: string)
    ensures |s| >= 1
    decreases n
  {
    if n < 10 then [Digit(n)] else NatToString(n / 10) + [Digit(n % 10)]
  }

  /** The elements of `s` that satisfy `keep`, in their original order. */
  function Filter(s: seq<LayoutElement>, keep: LayoutElement -> bool): (r: seq<LayoutElement>)
    ensures |r| <= |s|
    ensures forall x :: x in r <==> x in s && keep(x)
  {
    if s == [] then []
    else if keep(s[0]) then [s[0]] + Filter(s[1..], keep)
    else Filter(s[1..], keep)
  }

  /** Filtering a concatenation filters each part: relative order is kept. */
  lemma {:induction false} FilterAppend(a: seq<LayoutElement>, b: seq<LayoutElement>, keep: LayoutElement -> bool)
    ensures Filter(a + b, keep) == Filter(a, keep) + Filter(b, keep)
  {
    if a == [] {
      assert a + b == b;
    } else {
      assert (a + b)[1..] == a[1..] + b;
      FilterAppend(a[1..], b, keep);
    }
  }

  function OfKind(s: seq<LayoutElement>, k: ElementType): seq<LayoutElement> {
    Filter(s, (e: LayoutElement) => e.kind == k)
  }

  function WithoutKind(s: seq<LayoutElement>, k: ElementType): seq<LayoutElement> {
    Filter(s, (e: LayoutElement) => e.kind != k)
  }

  function WithoutId(s: seq<LayoutElement>, id: string): (r: seq<LayoutElement>)
    ensures forall x :: x in r <==> x in s && x.id != id
  {
    Filter(s, (e: LayoutElement) => e.id != id)
  }

  /** How many elements of a type are placed. */
  function CountKind(s: seq<LayoutElement>, k: ElementType): nat {
    |OfKind(s, k)|
  }

  /** Whether some element of a type is placed. */
  predicate HasKind(s: seq<LayoutElement>, k: ElementType) {
    exists i :: 0 <= i < |s| && s[i].kind == k
  }

  /** Removing one type leaves every other type's elements, in order. */
  lemma {:induction false} OfKindWithoutKind(s: seq<LayoutElement>, k: ElementType, k': ElementType)
    ensures OfKind(WithoutKind(s, k), k') == if k' == k then [] else OfKind(s, k')
  {
    if s != [] {
      OfKindWithoutKind(s[1..], k, k');
    }
  }

  /** An element of a type is placed exactly when the count is positive. */
  lemma {:induction false} HasKindIffCounted(s: seq<LayoutElement>, k: ElementType)
    ensures HasKind(s, k) <==> CountKind(s, k) > 0
  {
    if s != [] {
      HasKindIffCounted(s[1..], k);
      if s[0].kind != k && HasKind(s, k) {
        var i :| 0 <= i < |s| && s[i].kind == k;
        assert s[1..][i - 1].kind == k;
      }
      if HasKind(s[1..], k) {
        var i :| 0 <= i < |s[1..]| && s[1..][i].kind == k;
        assert s[i + 1].kind == k;
      }
    }
  }

  /**
   * The name a newly placed element is given: a numbered "Charger k" for
   * chargers, a fixed name otherwise, so the name tells the type apart.
   */
  function ElementName(mode: ElementType, s: seq<LayoutElement>): (n: string)
    ensures mode == Charger <==> |n| > 8 && n[..8] == "Charger "
    ensures n == "Distribution Panel" <==> mode == DistributionPanel
    ensures n == "Main Supply" <==> mode == MainSupply
  {
    match mode
    case Charger =>
      var n := "Charger " + NatToString(CountKind(s, Charger) + 1);
      assert n[..8] == "Charger " && n[0] == 'C';
      n
    case DistributionPanel =>
      assert "Distribution Panel"[0] == 'D';
      "Distribution Panel"
    case MainSupply =>
      assert "Main Supply"[0] == 'M';
      "Main Supply"
  }

  /** The element a click places; `now` is the clock reading used in its id. */
  function NewElement(mode: ElementType, s: seq<LayoutElement>, pos: Position, now: nat): (e: LayoutElement)
    ensures e.kind == mode && e.position == pos && e.name == ElementName(mode, s)
    ensures |e.id| > |KindLabel(mode)| && e.id[..|KindLabel(mode)| + 1] == KindLabel(mode) + "-"
  {
    LayoutElement(KindLabel(mode) + "-" + NatToString(now), mode, pos, ElementName(mode, s))
  }

  /** The element list after a map click in the given placement mode. */
  function PlaceElement(s: seq<LayoutElement>, mode: Option<ElementType>, pos: Position, now: nat): (r: seq<LayoutElement>)
    ensures mode.None? ==> r == s
    ensures mode.Some? ==>
      && |r| > 0
      && r[|r| - 1] == NewElement(mode.value, s, pos, now)
      && (forall x :: x in r ==> x in s || x == r[|r| - 1])
  {
    match mode
    case None => s
    case Some(k) =>
      var e := NewElement(k, s, pos, now);
      if k == DistributionPanel then WithoutKind(s, DistributionPanel) + [e]
      else if k == MainSupply then WithoutKind(s, MainSupply) + [e]
      else s + [e]
  }

  /** The placement mode after a click: single-instance modes switch off. */
  function ModeAfterClick(mode: Option<ElementType>): (m: Option<ElementType>)
    ensures m == None || m == Some(Charger)
    ensures m == Some(Charger) <==> mode == Some(Charger)
  {
    match mode
    case Some(DistributionPanel) => None
    case Some(MainSupply) => None
    case _ => mode
  }

  /**
   * Placing a panel or a main supply: the new element is last, it is the only
   * one of its type, the elements before it are the old elements of the other
   * types in their old relative order, and every element of another type
   * survives.
   */
  lemma PlaceSingleInstance(s: seq<LayoutElement>, k: ElementType, pos: Position, now: nat)
    requires k == DistributionPanel || k == MainSupply
    ensures var r := PlaceElement(s, Some(k), pos, now);
      && |r| > 0
      && r[|r| - 1] == NewElement(k, s, pos, now)
      && r[..|r| - 1] == WithoutKind(s, k)
      && CountKind(r, k) == 1
      && (forall k' :: k' != k ==> OfKind(r, k') == OfKind(s, k'))
      && (forall x :: x in s && x.kind != k ==> x in r)
  {
    var e := NewElement(k, s, pos, now);
    var r := PlaceElement(s, Some(k), pos, now);
    assert r == WithoutKind(s, k) + [e];
    forall k': ElementType ensures OfKind(r, k') == if k' == k then [e] else OfKind(s, k') {
      FilterAppend(WithoutKind(s, k), [e], (x: LayoutElement) => x.kind == k');
      OfKindWithoutKind(s, k, k');
    }
  }

  /**
   * Placing a charger appends it, named after the number of chargers already
   * placed, and leaves the earlier elements as they were.
   */
  lemma PlaceChargerAppends(s: seq<LayoutElement>, pos: Position, now: nat)
    ensures var r := PlaceElement(s, Some(Charger), pos, now);
      && r[..|s|] == s
      && |r| == |s| + 1
      && r[|s|].kind == Charger
      && r[|s|].name == "Charger " + NatToString(CountKind(s, Charger) + 1)
      && CountKind(r, Charger) == CountKind(s, Charger) + 1
  {
    var e := NewElement(Charger, s, pos, now);
    var r := PlaceElement(s, Some(Charger), pos, now);
    assert r == s + [e];
    assert r[..|s|] == s;
    FilterAppend(s, [e], (x: LayoutElement) => x.kind == Charger);
  }

  /** At most one distribution panel and at most one main supply are placed. */
  predicate SingleInstances(s: seq<LayoutElement>) {
    CountKind(s, DistributionPanel) <= 1 && CountKind(s, MainSupply) <= 1
  }

  /** Filtering by any test never adds elements of a type. */
  lemma {:induction false} FilterCountKindAtMost(s: seq<LayoutElement>, keep: LayoutElement -> bool, k: ElementType)
    ensures CountKind(Filter(s, keep), k) <= CountKind(s, k)
  {
    if s != [] {
      FilterCountKindAtMost(s[1..], keep, k);
      if keep(s[0]) {
        assert Filter(s, keep)[1..] == Filter(s[1..], keep);
      }
    }
  }

  /** Every click keeps at most one panel and one main supply. */
  lemma PlaceKeepsSingleInstances(s: seq<LayoutElement>, mode: Option<ElementType>, pos: Position, now: nat)
    requires SingleInstances(s)
    ensures SingleInstances(PlaceElement(s, mode, pos, now))
  {
    match mode
    case None =>
    case Some(k) =>
      if k == DistributionPanel || k == MainSupply {
        PlaceSingleInstance(s, k, pos, now);
      } else {
        var e := NewElement(k, s, pos, now);
        assert PlaceElement(s, mode, pos, now) == s + [e];
        FilterAppend(s, [e], (x: LayoutElement) => x.kind == DistributionPanel);
        FilterAppend(s, [e], (x: LayoutElement) => x.kind == MainSupply);
      }
  }

  /** Removing an element keeps at most one panel and one main supply. */
  lemma RemoveKeepsSingleInstances(s: seq<LayoutElement>, id: string)
    requires SingleInstances(s)
    ensures SingleInstances(WithoutId(s, id))
  {
    FilterCountKindAtMost(s, (e: LayoutElement) => e.id != id, DistributionPanel);
    FilterCountKindAtMost(s, (e: LayoutElement) => e.id != id, MainSupply);
  }

  /**
   * When a type occurs exactly once, the first element of that type, which
   * the cable estimate uses, is the only one.
   */
  lemma {:induction false} FindIsOnlyOfKind(s: seq<LayoutElement>, k: ElementType)
    requires CountKind(s, k) == 1
    ensures Find(s, k).Some? && OfKind(s, k) == [Find(s, k).value]
  {
    HasKindIffCounted(s, k);
    if s[0].kind != k {
      HasKindIffCounted(s[1..], k);
      FindIsOnlyOfKind(s[1..], k);
    }
  }

  /** Whether the "Place Charger" button is disabled. */
  predicate ChargerButtonDisabled(s: seq<LayoutElement>, vehicleQuantity: real) {
    CountKind(s, Charger) as real >= vehicleQuantity
  }

  /**
   * The cap on chargers is only the disabled button: a click in charger mode
   * adds a charger however many there are, and the mode stays on, so two
   * clicks from one below the cap end one above it.
   */
  lemma ChargerCapNotEnforcedByClicks(s: seq<LayoutElement>, vehicleQuantity: real, p: Position, q: Position, t1: nat, t2: nat)
    requires CountKind(s, Charger) as real == vehicleQuantity - 1.0
    ensures var m1 := ModeAfterClick(Some(Charger));
      var s2 := PlaceElement(PlaceElement(s, Some(Charger), p, t1), m1, q, t2);
      && !ChargerButtonDisabled(s, vehicleQuantity)
      && m1 == Some(Charger)
      && CountKind(s2, Charger) as real == vehicleQuantity + 1.0
  {
    PlaceChargerAppends(s, p, t1);
    PlaceChargerAppends(PlaceElement(s, Some(Charger), p, t1), q, t2);
  }

  /** Removal distributes over concatenation, so the survivors keep their order. */
  lemma RemoveKeepsOrder(a: seq<LayoutElement>, b: seq<LayoutElement>, id: string)
    ensures WithoutId(a + b, id) == WithoutId(a, id) + WithoutId(b, id)
  {
    FilterAppend(a, b, (e: LayoutElement) => e.id != id);
  }

  lemma {:induction false} RemoveIdempotent(s: seq<LayoutElement>, id: string)
    ensures WithoutId(WithoutId(s, id), id) == WithoutId(s, id)
  {
    if s != [] {
      RemoveIdempotent(s[1..], id);
    }
  }

  /** Whether every charger, the panel and the main supply are in place. */
  function AllRequiredElementsPlaced(s: seq<LayoutElement>, vehicleQuantity: real): (b: bool)
    ensures b <==> (CountKind(s, Charger) as real == vehicleQuantity
                    && CountKind(s, DistributionPanel) > 0 && CountKind(s, MainSupply) > 0)
  {
    HasKindIffCounted(s, DistributionPanel);
    HasKindIffCounted(s, MainSupply);
    CountKind(s, Charger) as real == vehicleQuantity && HasKind(s, DistributionPanel) && HasKind(s, MainSupply)
  }

  /** A complete layout has the charger button disabled. */
  lemma CompleteLayoutDisablesChargerButton(s: seq<LayoutElement>, vehicleQuantity: real)
    requires AllRequiredElementsPlaced(s, vehicleQuantity)
    ensures ChargerButtonDisabled(s, vehicleQuantity)
  {
  }

  /** The first element of a type, as Array.prototype.find gives it. */
  function Find(s: seq<LayoutElement>, k: ElementType): (r: Option<LayoutElement>)
    ensures r.None? <==> !HasKind(s, k)
    ensures r.Some? ==> r.value.kind == k
    ensures r.Some? ==> exists i :: 0 <= i < |s| && s[i] == r.value && forall j :: 0 <= j < i ==> s[j].kind != k
  {
    if s == [] then None
    else if s[0].kind == k then Some(s[0])
    else
      assert forall j :: 1 <= j < |s| ==> s[j] == s[1..][j - 1];
      Find(s[1..], k)
  }

  /** Finding in a list extended by an element of another type finds the same. */
  lemma {:induction false} FindAppendOther(s: seq<LayoutElement>, e: LayoutElement, k: ElementType)
    requires e.kind != k
    ensures Find(s + [e], k) == Find(s, k)
  {
    if s != [] {
      assert (s + [e])[1..] == s[1..] + [e];
      FindAppendOther(s[1..], e, k);
    }
  }

  datatype ChargerCable = ChargerCable(from: Position, to: Position, length: real, chargerId: string)

  datatype MainCable = MainCable(from: Position, to: Position, length: real)

  /** The cable estimate; an incomplete layout has no main cable and total 0. */
  datatype CableCalculations = CableCalculations(chargerCables: seq<ChargerCable>, mainCable: Option<MainCable>, totalLength: real)

  /** One cable from each charger to the panel, in list order. */
  function ChargerCables(chargers: seq<LayoutElement>, panel: Position, dist: (Position, Position) -> real): (r: seq<ChargerCable>)
    ensures |r| == |chargers|
    ensures forall i :: 0 <= i < |r| ==>
      r[i] == ChargerCable(chargers[i].position, panel, dist(chargers[i].position, panel), chargers[i].id)
  {
    if chargers == [] then []
    else [ChargerCable(chargers[0].position, panel, dist(chargers[0].position, panel), chargers[0].id)]
         + ChargerCables(chargers[1..], panel, dist)
  }

  /** The sum of the cables' lengths. */
  function SumLengths(cables: seq<ChargerCable>): real {
    if cables == [] then 0.0 else cables[0].length + SumLengths(cables[1..])
  }

  lemma {:induction false} SumLengthsAppend(a: seq<ChargerCable>, b: seq<ChargerCable>)
    ensures SumLengths(a + b) == SumLengths(a) + SumLengths(b)
  {
    if a == [] {
      assert a + b == b;
    } else {
      assert (a + b)[1..] == a[1..] + b;
      SumLengthsAppend(a[1..], b);
    }
  }

  lemma ChargerCablesAppend(a: seq<LayoutElement>, b: seq<LayoutElement>, panel: Position, dist: (Position, Position) -> real)
    ensures ChargerCables(a + b, panel, dist) == ChargerCables(a, panel, dist) + ChargerCables(b, panel, dist)
  {
  }

  /** The cable estimate for a layout. */
  function CalculateCableDistances(s: seq<LayoutElement>, dist: (Position, Position) -> real): (r: CableCalculations)
    ensures r.mainCable.None? <==> !HasKind(s, DistributionPanel) || !HasKind(s, MainSupply)
    ensures r.mainCable.None? ==> r.chargerCables == [] && r.totalLength == 0.0
    ensures r.mainCable.Some? ==>
      var panel := Find(s, DistributionPanel).value;
      var supply := Find(s, MainSupply).value;
      && r.mainCable.value == MainCable(panel.position, supply.position, dist(panel.position, supply.position))
      && r.chargerCables == ChargerCables(OfKind(s, Charger), panel.position, dist)
      && r.totalLength == SumLengths(r.chargerCables) + r.mainCable.value.length
  {
    var chargers := OfKind(s, Charger);
    var distributionPanel := Find(s, DistributionPanel);
    var mainSupply := Find(s, MainSupply);
    if distributionPanel.None? || mainSupply.None? then
      CableCalculations([], None, 0.0)
    else
      var chargerCables := ChargerCables(chargers, distributionPanel.value.position, dist);
      var mainCable := MainCable(distributionPanel.value.position, mainSupply.value.position,
                                 dist(distributionPanel.value.position, mainSupply.value.position));
      CableCalculations(chargerCables, Some(mainCable), SumLengths(chargerCables) + mainCable.length)
  }

  /** One charger cable per placed charger, each ending at the panel. */
  lemma CableCountMatchesChargers(s: seq<LayoutElement>, dist: (Position, Position) -> real)
    requires HasKind(s, DistributionPanel) && HasKind(s, MainSupply)
    ensures var r := CalculateCableDistances(s, dist);
      && |r.chargerCables| == CountKind(s, Charger)
      && forall i :: 0 <= i < |r.chargerCables| ==>
           r.chargerCables[i].to == Find(s, DistributionPanel).value.position &&
           r.chargerCables[i].chargerId == OfKind(s, Charger)[i].id
  {
  }

  /** With non-negative distances the total is at least the main cable. */
  lemma {:induction false} SumLengthsNonNegative(cables: seq<ChargerCable>)
    requires forall i :: 0 <= i < |cables| ==> cables[i].length >= 0.0
    ensures SumLengths(cables) >= 0.0
  {
    if cables != [] {
      SumLengthsNonNegative(cables[1..]);
    }
  }

  lemma TotalAtLeastMainCable(s: seq<LayoutElement>, dist: (Position, Position) -> real)
    requires forall p, q :: dist(p, q) >= 0.0
    ensures var r := CalculateCableDistances(s, dist);
      r.totalLength >= 0.0 && (r.mainCable.Some? ==> r.totalLength >= r.mainCable.value.length)
  {
    var r := CalculateCableDistances(s, dist);
    if r.mainCable.Some? {
      SumLengthsNonNegative(r.chargerCables);
    }
  }

  /**
   * On a layout with both a panel and a main supply, placing one more charger
   * adds exactly its own cable to the total.
   */
  lemma PlacingChargerAddsItsCable(s: seq<LayoutElement>, pos: Position, now: nat, dist: (Position, Position) -> real)
    requires HasKind(s, DistributionPanel) && HasKind(s, MainSupply)
    ensures var panel := Find(s, DistributionPanel).value;
      CalculateCableDistances(PlaceElement(s, Some(Charger), pos, now), dist).totalLength
        == CalculateCableDistances(s, dist).totalLength + dist(pos, panel.position)
  {
    var e := NewElement(Charger, s, pos, now);
    var s' := s + [e];
    assert PlaceElement(s, Some(Charger), pos, now) == s';
    FindAppendOther(s, e, DistributionPanel);
    FindAppendOther(s, e, MainSupply);
    var panel := Find(s, DistributionPanel).value.position;
    var supply := Find(s, MainSupply).value.position;
    var cables := ChargerCables(OfKind(s, Charger), panel, dist);
    FilterAppend(s, [e], (x: LayoutElement) => x.kind == Charger);
    assert OfKind(s', Charger) == OfKind(s, Charger) + [e];
    ChargerCablesAppend(OfKind(s, Charger), [e], panel, dist);
    var extra := ChargerCables([e], panel, dist);
    SumLengthsAppend(cables, extra);
    assert SumLengths(extra) == dist(pos, panel);
    assert CalculateCableDistances(s, dist).totalLength == SumLengths(cables) + dist(panel, supply);
    assert CalculateCableDistances(s', dist).totalLength == SumLengths(cables + extra) + dist(panel, supply);
  }

  /** A complete layout has a cable estimate with one cable per vehicle. */
  lemma CompleteLayoutHasEstimate(s: seq<LayoutElement>, vehicleQuantity: real, dist: (Position, Position) -> real)
    requires AllRequiredElementsPlaced(s, vehicleQuantity)
    ensures var r := CalculateCableDistances(s, dist);
      r.mainCable.Some? && |r.chargerCables| as real == vehicleQuantity
  {
  }

  /** Installation cost per metre of cable, in pounds. */
  const CableCostPerMetre: real := 25.0

  /** The estimated cable cost shown in the summary. */
  function CableCost(c: CableCalculations): (cost: real)
    ensures c.totalLength >= 0.0 ==> cost >= 0.0
    ensures c.mainCable.None? && c.totalLength == 0.0 ==> cost == 0.0
  {
    c.totalLength * CableCostPerMetre
  }

  /** Without a panel or a main supply the estimate costs nothing. */
  lemma IncompleteLayoutCostsNothing(s: seq<LayoutElement>, dist: (Position, Position) -> real)
    requires !HasKind(s, DistributionPanel) || !HasKind(s, MainSupply)
    ensures CableCost(CalculateCableDistances(s, dist)) == 0.0
  {
  }

  /** On a complete layout each new charger adds £25 per metre of its cable. */
  lemma PlacingChargerAddsItsCost(s: seq<LayoutElement>, pos: Position, now: nat, dist: (Position, Position) -> real)
    requires HasKind(s, DistributionPanel) && HasKind(s, MainSupply)
    ensures var panel := Find(s, DistributionPanel).value;
      CableCost(CalculateCableDistances(PlaceElement(s, Some(Charger), pos, now), dist))
        == CableCost(CalculateCableDistances(s, dist)) + CableCostPerMetre * dist(pos, panel.position)
  {
    PlacingChargerAddsItsCable(s, pos, now, dist);
  }

  /**
   * The layout editor's state: the placed elements and the active placement
   * mode (None when no placement button is active).
   */
  class LayoutEditor {
    var layoutElements: seq<LayoutElement>
    var placementMode: Option<ElementType>

    /** The editor never holds two panels or two main supplies. */
    ghost predicate Valid()
      reads this
    {
      SingleInstances(layoutElements)
    }

    constructor ()
      ensures Valid()
      ensures layoutElements == [] && placementMode == None
    {
      layoutElements := [];
      placementMode := None;
    }

    /** A click on the map at `pos`, with `now` the clock reading for the id. */
    method Click(pos: Position, now: nat)
      requires Valid()
      modifies this
      ensures Valid()
      ensures layoutElements == PlaceElement(old(layoutElements), old(placementMode), pos, now)
      ensures placementMode == ModeAfterClick(old(placementMode))
    {
      PlaceKeepsSingleInstances(layoutElements, placementMode, pos, now);
      if placementMode.None? {
        return;
      }
      var mode := placementMode.value;
      var newElement := NewElement(mode, layoutElements, pos, now);
      if mode == DistributionPanel {
        layoutElements := WithoutKind(layoutElements, DistributionPanel) + [newElement];
      } else if mode == MainSupply {
        layoutElements := WithoutKind(layoutElements, MainSupply) + [newElement];
      } else {
        layoutElements := layoutElements + [newElement];
      }
      if mode == DistributionPanel || mode == MainSupply {
        placementMode := None;
      }
    }

    /** The remove button of a listed element. */
    method RemoveElement(id: string)
      requires Valid()
      modifies this
      ensures Valid()
      ensures layoutElements == WithoutId(old(layoutElements), id)
      ensures placementMode == old(placementMode)
    {
      RemoveKeepsSingleInstances(layoutElements, id);
      layoutElements := WithoutId(layoutElements, id);
    }

    /**
     * A placement button: toggles its mode on or off. The charger button does
     * nothing while disabled.
     */
    method PressPlacementButton(k: ElementType, vehicleQuantity: real)
      requires Valid()
      modifies this
      ensures Valid()
      ensures layoutElements == old(layoutElements)
      ensures k == Charger && ChargerButtonDisabled(old(layoutElements), vehicleQuantity) ==>
        placementMode == old(placementMode)
      ensures !(k == Charger && ChargerButtonDisabled(old(layoutElements), vehicleQuantity)) ==>
        placementMode == if old(placementMode) == Some(k) then None else Some(k)
    {
      if k == Charger && ChargerButtonDisabled(layoutElements, vehicleQuantity) {
        return;
      }
      placementMode := if placementMode == Some(k) then None else Some(k);
    }
  }
}
