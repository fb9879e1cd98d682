/** The painting quote engine: job parameters in, itemised price out.
    Every table value is a short decimal, so `real` arithmetic states the price model exactly;
    `Math.round` is applied to the output fields only, as in the source. */
module Quote {
  import Numbers

  // ---- The option literals of the quote form, as closed enumerations ----

  datatype Scope = Walls /* "Väggar" */ | WallsAndCeiling /* "Väggar+Tak" */
  datatype Zone = ZoneA /* "Zon A" */ | ZoneB /* "Zon B" */ | ZoneC /* "Zon C" */
  datatype Substrate =
    | PaintedWall      /* "Målad vägg (gips/puts)" */
    | Wallpaper        /* "Tapet" */
    | ConcreteOrBrick  /* "Betong/tegel" */
    | WoodPanel        /* "Träpanel" */
  datatype WallpaperAction = PaintOver /* "Måla på" */ | RemoveWallpaper /* "Tapet bort" */
  datatype Condition = Good /* "Bra" */ | Normal /* "Normal" */ | Bad /* "Dåligt" */
  datatype Furnishing = Empty /* "Tomt" */ | HalfFurnished /* "Halvmöblerat" */ | Full /* "Fullt" */
  datatype ColorChange =
    | LightToLight  /* "Ljust→ljust" */
    | DarkToLight   /* "Mörkt→ljust" */
    | LightToDark   /* "Ljust→mörkt" */
    | Refresh       /* "Uppfräschning" */
  datatype Coats = Auto | One /* "1" */ | Two /* "2" */ | Three /* "3" */
  datatype Quality = Budget | Standard | Premium
  datatype Supplier = Painter /* "Målare" */ | Customer /* "Kund" */
  datatype YesNo = Yes /* "Ja" */ | No /* "Nej" */

  datatype QuoteInput = QuoteInput(
    wallsAreaM2: real,
    ceilingAreaM2: real,
    ceilingHeightM: real,
    scope: Scope,
    zone: Zone,
    substrate: Substrate,
    wallpaperAction: WallpaperAction,
    condition: Condition,
    furnishing: Furnishing,
    colorChange: ColorChange,
    coats: Coats,
    quality: Quality,
    materialProvidedBy: Supplier,
    rotEnabled: YesNo,
    rotPercent: real)

  datatype QuoteOutput = QuoteOutput(
    totalAreaM2: real,
    coatsNumeric: int,
    laborBeforeROT: int,
    rotDeduction: int,
    laborAfterROT: int,
    materialCost: int,
    travelCost: int,
    totalBeforeROT: int,
    totalAfterROT: int,
    pricePerM2BeforeROT: real,
    pricePerM2AfterROT: real)

  // ---- Constants ----

  const BaseLaborPerM2: real := 280.0
  const BaseMaterialPerCoatPerM2: real := 35.0
  const HeightSurchargePer03M: real := 0.05
  const ReferenceHeightM: real := 2.4

  function TravelCost(zone: Zone): int {
    match zone
    case ZoneA => 500
    case ZoneB => 900
    case ZoneC => 1300
  }

  function AutoCoats(change: ColorChange): int {
    match change
    case LightToLight => 2
    case DarkToLight => 3
    case LightToDark => 2
    case Refresh => 1
  }

  function ColorChangeFactor(change: ColorChange): real {
    match change
    case LightToLight => 1.0
    case DarkToLight => 1.15
    case LightToDark => 1.05
    case Refresh => 0.9
  }

  function SubstrateFactor(substrate: Substrate): real {
    match substrate
    case PaintedWall => 1.0
    case Wallpaper => 1.05
    case ConcreteOrBrick => 1.1
    case WoodPanel => 1.1
  }

  function WallpaperActionFactor(action: WallpaperAction): real {
    match action
    case PaintOver => 1.0
    case RemoveWallpaper => 1.35
  }

  function ConditionFactor(condition: Condition): real {
    match condition
    case Good => 0.9
    case Normal => 1.0
    case Bad => 1.35
  }

  function FurnishingFactor(furnishing: Furnishing): real {
    match furnishing
    case Empty => 0.95
    case HalfFurnished => 1.0
    case Full => 1.15
  }

  function QualityFactor(quality: Quality): real {
    match quality
    case Budget => 0.85
    case Standard => 1.0
    case Premium => 1.25
  }

  // ---- The pricing steps ----

  /** Step 1: the priced area; the ceiling counts only when the scope includes it. */
  function TotalArea(input: QuoteInput): real {
    input.wallsAreaM2 + (if input.scope == WallsAndCeiling then input.ceilingAreaM2 else 0.0)
  }

  /** Step 2: the number of coats, resolved from the colour change when "Auto". */
  function CoatsNumeric(input: QuoteInput): (n: int)
    ensures 1 <= n <= 3
  {
    match input.coats
    case Auto => AutoCoats(input.colorChange)
    case One => 1
    case Two => 2
    case Three => 3
  }

  /** Step 3: the substrate factor; the wallpaper action only counts on wallpaper. */
  function SubstrateFactorWith(substrate: Substrate, action: WallpaperAction): (f: real)
    ensures 1.0 <= f
  {
    SubstrateFactor(substrate) * (if substrate == Wallpaper then WallpaperActionFactor(action) else 1.0)
  }

  function FactorSubstrate(input: QuoteInput): (f: real)
    ensures 1.0 <= f
    ensures input.substrate != Wallpaper ==> f == SubstrateFactor(input.substrate)
  {
    SubstrateFactorWith(input.substrate, input.wallpaperAction)
  }

  /** Step 6: 5 % more per 0.3 m of height above 2.4 m, pro rata, and no reduction below it. */
  function FactorHeight(heightM: real): (f: real)
    ensures f >= 1.0
  {
    var over := (heightM - ReferenceHeightM) / 0.3;
    1.0 + (if over > 0.0 then over else 0.0) * HeightSurchargePer03M
  }

  /** Step 9: the labour factor from the choices it depends on (quality is not one of them). */
  function LaborFactorOf(substrate: Substrate, action: WallpaperAction, condition: Condition,
                         furnishing: Furnishing, heightM: real, colorChange: ColorChange): (f: real)
    ensures f > 0.0
  {
    var s := SubstrateFactorWith(substrate, action);
    var c := ConditionFactor(condition);
    var fu := FurnishingFactor(furnishing);
    var h := FactorHeight(heightM);
    var cc := ColorChangeFactor(colorChange);
    assert s * c > 0.0;
    assert s * c * fu > 0.0;
    assert s * c * fu * h > 0.0;
    s * c * fu * h * cc
  }

  function LaborFactor(input: QuoteInput): (f: real)
    ensures f > 0.0
  {
    LaborFactorOf(input.substrate, input.wallpaperAction, input.condition, input.furnishing,
                  input.ceilingHeightM, input.colorChange)
  }

  /** Step 10: the material factor from the choices it depends on (condition, furnishing and
      height are not among them). */
  function MaterialFactorOf(substrate: Substrate, action: WallpaperAction, colorChange: ColorChange,
                            quality: Quality): (f: real)
    ensures f > 0.0
  {
    var s := SubstrateFactorWith(substrate, action);
    assert s * ColorChangeFactor(colorChange) > 0.0;
    s * ColorChangeFactor(colorChange) * QualityFactor(quality)
  }

  function MaterialFactor(input: QuoteInput): (f: real)
    ensures f > 0.0
  {
    MaterialFactorOf(input.substrate, input.wallpaperAction, input.colorChange, input.quality)
  }

  /** The unrounded intermediate amounts of steps 11-17. */
  datatype Breakdown = Breakdown(
    laborBefore: real,
    material: real,
    travel: real,
    rot: real,
    laborAfter: real,
    totalBefore: real,
    totalAfter: real,
    perM2Before: real,
    perM2After: real)

  /** What the amounts depend on: the area, the coat count, the two factors, the zone's fee,
      the supplier and the ROT choice. */
  datatype Pricing = Pricing(
    area: real,
    coats: int,
    laborFactor: real,
    materialFactor: real,
    travel: int,
    supplier: Supplier,
    rotEnabled: YesNo,
    rotPercent: real)

  function Prices(input: QuoteInput): Pricing {
    Pricing(TotalArea(input), CoatsNumeric(input), LaborFactor(input), MaterialFactor(input),
            TravelCost(input.zone), input.materialProvidedBy, input.rotEnabled, input.rotPercent)
  }

  /** Steps 11-17 on exact numbers. */
  function Amounts(p: Pricing): Breakdown {
    var laborBefore := BaseLaborPerM2 * p.laborFactor * p.area;
    var material :=
      if p.supplier == Customer then 0.0
      else BaseMaterialPerCoatPerM2 * p.coats as real * p.area * p.materialFactor;
    var travel := p.travel as real;
    var rot := if p.rotEnabled == Yes then laborBefore * p.rotPercent else 0.0;
    var laborAfter := laborBefore - rot;
    var totalBefore := laborBefore + material + travel;
    var totalAfter := laborAfter + material + travel;
    Breakdown(
      laborBefore, material, travel, rot, laborAfter, totalBefore, totalAfter,
      if p.area > 0.0 then totalBefore / p.area else 0.0,
      if p.area > 0.0 then totalAfter / p.area else 0.0)
  }

  function Unrounded(input: QuoteInput): Breakdown {
    Amounts(Prices(input))
  }

  /** `calculateQuote`: total over every input; rounding happens only here, at the output. */
  function CalculateQuote(input: QuoteInput): (r: QuoteOutput)
    ensures r.coatsNumeric in {1, 2, 3}
    ensures r.travelCost in {500, 900, 1300}
    ensures input.materialProvidedBy == Customer ==> r.materialCost == 0
    ensures input.rotEnabled == No ==> r.rotDeduction == 0 && r.laborAfterROT == r.laborBeforeROT
    ensures r.totalAreaM2 <= 0.0 ==> r.pricePerM2BeforeROT == 0.0 && r.pricePerM2AfterROT == 0.0
  {
    var b := Unrounded(input);
    QuoteOutput(
      TotalArea(input),
      CoatsNumeric(input),
      Numbers.Round(b.laborBefore),
      Numbers.Round(b.rot),
      Numbers.Round(b.laborAfter),
      Numbers.Round(b.material),
      TravelCost(input.zone),
      Numbers.Round(b.totalBefore),
      Numbers.Round(b.totalAfter),
      Numbers.RoundTenth(b.perM2Before),
      Numbers.RoundTenth(b.perM2After))
  }

  // ---- Properties of the quote ----

  /** The labour lines depend only on the area, the labour factor and the ROT choice. */
  lemma SameLaborData(p: Pricing, q: Pricing)
    requires p.area == q.area && p.laborFactor == q.laborFactor
    requires p.rotEnabled == q.rotEnabled && p.rotPercent == q.rotPercent
    ensures Amounts(p).laborBefore == Amounts(q).laborBefore
    ensures Amounts(p).rot == Amounts(q).rot
    ensures Amounts(p).laborAfter == Amounts(q).laborAfter
  {
  }

  /** The material line depends only on the area, the coat count, the material factor and the supplier. */
  lemma SameMaterialData(p: Pricing, q: Pricing)
    requires p.area == q.area && p.coats == q.coats && p.materialFactor == q.materialFactor
    requires p.supplier == q.supplier
    ensures Amounts(p).material == Amounts(q).material
  {
  }

  /** Two inputs with the same pricing data get the same quote. */
  lemma SameFactorsSameQuote(a: QuoteInput, b: QuoteInput)
    requires Prices(a) == Prices(b)
    ensures CalculateQuote(a) == CalculateQuote(b)
  {
  }

  /** The ceiling is priced exactly when the scope includes it. */
  lemma TotalAreaFollowsScope(input: QuoteInput)
    ensures input.scope == WallsAndCeiling ==>
      CalculateQuote(input).totalAreaM2 == input.wallsAreaM2 + input.ceilingAreaM2
    ensures input.scope == Walls ==> CalculateQuote(input).totalAreaM2 == input.wallsAreaM2
  {
  }

  /** With walls only, the whole quote ignores the ceiling area. */
  lemma CeilingIgnoredForWalls(input: QuoteInput, ceiling: real)
    requires input.scope == Walls
    ensures CalculateQuote(input.(ceilingAreaM2 := ceiling)) == CalculateQuote(input)
  {
    SameFactorsSameQuote(input.(ceilingAreaM2 := ceiling), input);
  }

  /** "Auto" resolves through the colour-change table (2/3/2/1); an explicit count is used as given. */
  lemma CoatsResolution(input: QuoteInput)
    ensures var n := CalculateQuote(input).coatsNumeric;
      && (input.coats == Auto && input.colorChange in {LightToLight, LightToDark} ==> n == 2)
      && (input.coats == Auto && input.colorChange == DarkToLight ==> n == 3)
      && (input.coats == Auto && input.colorChange == Refresh ==> n == 1)
      && (input.coats == One ==> n == 1)
      && (input.coats == Two ==> n == 2)
      && (input.coats == Three ==> n == 3)
  {
  }

  /** The wallpaper action matters only on wallpaper: on any other substrate the whole quote ignores it. */
  lemma WallpaperActionOnlyOnWallpaper(input: QuoteInput, action: WallpaperAction)
    requires input.substrate != Wallpaper
    ensures FactorSubstrate(input) == SubstrateFactor(input.substrate)
    ensures CalculateQuote(input.(wallpaperAction := action)) == CalculateQuote(input)
  {
    var other := input.(wallpaperAction := action);
    assert FactorSubstrate(other) == FactorSubstrate(input);
    SameFactorsSameQuote(other, input);
  }

  /** On wallpaper the two multipliers combine: 1.05 for painting over, 1.05 × 1.35 for removal. */
  lemma WallpaperSubstrateFactor(input: QuoteInput)
    requires input.substrate == Wallpaper
    ensures input.wallpaperAction == PaintOver ==> FactorSubstrate(input) == 1.05
    ensures input.wallpaperAction == RemoveWallpaper ==> FactorSubstrate(input) == 1.4175
  {
  }

  /** No surcharge up to 2.4 m; above it, exactly 0.05 more for every further 0.3 m. */
  lemma HeightFactorShape(h: real, k: real)
    ensures h <= ReferenceHeightM ==> FactorHeight(h) == 1.0
    ensures FactorHeight(2.1) == 1.0 && FactorHeight(2.4) == 1.0 && FactorHeight(2.7) == 1.05
    ensures h >= ReferenceHeightM ==> FactorHeight(h + 0.3) == FactorHeight(h) + 0.05
    ensures h <= k ==> FactorHeight(h) <= FactorHeight(k)
  {
  }

  /** The surcharge is proportional, not stepped: half of 0.3 m above the reference gives half of 5 %. */
  lemma HeightFactorIsProRata()
    ensures FactorHeight(2.55) == 1.025
  {
  }

  /** Quality never changes the labour lines. */
  lemma QualityNeverAffectsLabor(input: QuoteInput, q: Quality)
    ensures var a, b := CalculateQuote(input), CalculateQuote(input.(quality := q));
      a.laborBeforeROT == b.laborBeforeROT && a.rotDeduction == b.rotDeduction
      && a.laborAfterROT == b.laborAfterROT
  {
    var other := input.(quality := q);
    assert LaborFactor(other) == LaborFactor(input);
    SameLaborData(Prices(other), Prices(input));
  }

  /** Condition, furnishing and ceiling height never change the material cost. */
  lemma MaterialIgnoresLaborFactors(input: QuoteInput, c: Condition, f: Furnishing, h: real)
    ensures CalculateQuote(input.(condition := c, furnishing := f, ceilingHeightM := h)).materialCost
         == CalculateQuote(input).materialCost
  {
    var other := input.(condition := c, furnishing := f, ceilingHeightM := h);
    assert MaterialFactor(other) == MaterialFactor(input);
    SameMaterialData(Prices(other), Prices(input));
  }

  /** Material supplied by the customer costs nothing and changes no other line but the totals. */
  lemma CustomerSuppliedMaterial(input: QuoteInput)
    ensures var a, b := CalculateQuote(input), CalculateQuote(input.(materialProvidedBy := Customer));
      && b.materialCost == 0
      && a.totalAreaM2 == b.totalAreaM2 && a.coatsNumeric == b.coatsNumeric
      && a.laborBeforeROT == b.laborBeforeROT && a.rotDeduction == b.rotDeduction
      && a.laborAfterROT == b.laborAfterROT && a.travelCost == b.travelCost
  {
    var other := input.(materialProvidedBy := Customer);
    assert LaborFactor(other) == LaborFactor(input);
    SameLaborData(Prices(other), Prices(input));
  }

  /** Without ROT nothing is deducted and both totals agree. */
  lemma NoRotNoDeduction(input: QuoteInput)
    requires input.rotEnabled == No
    ensures var r := CalculateQuote(input);
      r.rotDeduction == 0 && r.laborAfterROT == r.laborBeforeROT && r.totalAfterROT == r.totalBeforeROT
      && r.pricePerM2AfterROT == r.pricePerM2BeforeROT
  {
  }

  lemma {:induction false} RoundShift(x: real, n: int)
    ensures Numbers.Round(x + n as real) == Numbers.Round(x) + n
  {
    assert x + n as real + 0.5 == (x + 0.5) + n as real;
  }

  /** The zone's flat fee (500/900/1300) enters both totals unchanged, after the other lines are summed. */
  lemma TravelAddedUnchanged(input: QuoteInput)
    ensures var r, b := CalculateQuote(input), Unrounded(input);
      && r.travelCost == (match input.zone case ZoneA => 500 case ZoneB => 900 case ZoneC => 1300)
      && r.totalBeforeROT == Numbers.Round(b.laborBefore + b.material) + r.travelCost
      && r.totalAfterROT == Numbers.Round(b.laborAfter + b.material) + r.travelCost
  {
    var b := Unrounded(input);
    RoundShift(b.laborBefore + b.material, TravelCost(input.zone));
    RoundShift(b.laborAfter + b.material, TravelCost(input.zone));
  }

  lemma LaborNonNegative(p: Pricing)
    requires p.area >= 0.0 && p.laborFactor > 0.0
    ensures Amounts(p).laborBefore >= 0.0
  {
    Numbers.ProductNonNegative(BaseLaborPerM2 * p.laborFactor, p.area);
  }

  lemma MaterialNonNegative(p: Pricing)
    requires p.area >= 0.0 && p.materialFactor > 0.0 && p.coats >= 1
    ensures Amounts(p).material >= 0.0
  {
    var k := BaseMaterialPerCoatPerM2 * p.coats as real;
    Numbers.ProductNonNegative(k, p.area);
    Numbers.ProductNonNegative(k * p.area, p.materialFactor);
  }

  lemma DeductionBounded(p: Pricing)
    requires p.area >= 0.0 && p.laborFactor > 0.0 && 0.0 <= p.rotPercent <= 0.30
    ensures 0.0 <= Amounts(p).rot <= Amounts(p).laborBefore
  {
    var laborBefore := Amounts(p).laborBefore;
    LaborNonNegative(p);
    Numbers.FractionAtMost(laborBefore, p.rotPercent);
  }

  /** The exact amounts are non-negative and ordered whenever the pricing data is. */
  lemma AmountsNonNegative(p: Pricing)
    requires p.area >= 0.0 && p.laborFactor > 0.0 && p.materialFactor > 0.0
    requires p.coats >= 1 && p.travel >= 0 && 0.0 <= p.rotPercent <= 0.30
    ensures var b := Amounts(p);
      && b.laborBefore >= 0.0 && b.material >= 0.0 && b.travel >= 0.0
      && 0.0 <= b.rot <= b.laborBefore
      && b.laborAfter >= 0.0 && b.totalAfter >= 0.0
      && b.totalAfter <= b.totalBefore
      && b.perM2Before >= 0.0 && b.perM2After >= 0.0
  {
    LaborNonNegative(p);
    MaterialNonNegative(p);
    DeductionBounded(p);
    var b := Amounts(p);
    if p.area > 0.0 {
      Numbers.QuotientNonNegative(b.totalBefore, p.area);
      Numbers.QuotientNonNegative(b.totalAfter, p.area);
    }
  }

  /** With non-negative areas and a deduction of at most 30 %, every amount is non-negative,
      the deduction never exceeds the labour, and the total after ROT never exceeds the total before. */
  lemma MoneyIsNonNegative(input: QuoteInput)
    requires input.wallsAreaM2 >= 0.0 && input.ceilingAreaM2 >= 0.0
    requires 0.0 <= input.rotPercent <= 0.30
    ensures var r := CalculateQuote(input);
      && r.laborBeforeROT >= 0 && r.rotDeduction >= 0 && r.laborAfterROT >= 0
      && r.materialCost >= 0 && r.travelCost >= 0
      && r.totalBeforeROT >= 0 && r.totalAfterROT >= 0
      && r.rotDeduction <= r.laborBeforeROT
      && r.totalAfterROT <= r.totalBeforeROT
      && r.pricePerM2BeforeROT >= 0.0 && r.pricePerM2AfterROT >= 0.0
  {
    var b := Unrounded(input);
    AmountsNonNegative(Prices(input));
    Numbers.RoundMonotone(b.rot, b.laborBefore);
    Numbers.RoundMonotone(b.totalAfter, b.totalBefore);
  }

  /** Unit prices are 0 without area and otherwise the unrounded total over the area, to a tenth. */
  lemma PricePerM2(input: QuoteInput)
    ensures var r, b, area := CalculateQuote(input), Unrounded(input), TotalArea(input);
      && (area <= 0.0 ==> r.pricePerM2BeforeROT == 0.0 && r.pricePerM2AfterROT == 0.0)
      && (area > 0.0 ==>
            r.pricePerM2BeforeROT == Numbers.RoundTenth(b.totalBefore / area)
            && r.pricePerM2AfterROT == Numbers.RoundTenth(b.totalAfter / area))
  {
  }

  /** Each rounded line is within half a unit of its exact value, so the rounded lines add up to
      within one unit of each other. */
  lemma RoundingOnlyAtOutput(input: QuoteInput)
    ensures var r, b := CalculateQuote(input), Unrounded(input);
      && b.laborBefore - 0.5 < r.laborBeforeROT as real <= b.laborBefore + 0.5
      && b.rot - 0.5 < r.rotDeduction as real <= b.rot + 0.5
      && b.laborAfter - 0.5 < r.laborAfterROT as real <= b.laborAfter + 0.5
      && b.material - 0.5 < r.materialCost as real <= b.material + 0.5
      && b.totalBefore - 0.5 < r.totalBeforeROT as real <= b.totalBefore + 0.5
      && b.totalAfter - 0.5 < r.totalAfterROT as real <= b.totalAfter + 0.5
      && b.perM2Before - 0.05 < r.pricePerM2BeforeROT <= b.perM2Before + 0.05
      && b.perM2After - 0.05 < r.pricePerM2AfterROT <= b.perM2After + 0.05
      && -1 <= r.laborAfterROT - (r.laborBeforeROT - r.rotDeduction) <= 1
      && -1 <= r.totalBeforeROT - (r.laborBeforeROT + r.materialCost + r.travelCost) <= 1
  {
  }

  /** The input used by the worked examples: 20 m² of painted walls, defaults everywhere else. */
  function Example(): QuoteInput {
    QuoteInput(20.0, 0.0, 2.4, Walls, ZoneA, PaintedWall, PaintOver, Normal, HalfFurnished,
               LightToLight, Auto, Standard, Painter, No, 0.30)
  }

  /** Labour after ROT is the rounded exact difference, which can differ from the difference of the
      rounded lines: for 1/56 m² at 30 %, labour is 5, the deduction 1.5 rounds to 2, and 3.5 rounds to 4. */
  lemma LaborAfterIsNotDifferenceOfRounded()
    ensures var r := CalculateQuote(Example().(wallsAreaM2 := 1.0 / 56.0, rotEnabled := Yes));
      r.laborBeforeROT == 5 && r.rotDeduction == 2 && r.laborAfterROT == 4
      && r.laborAfterROT != r.laborBeforeROT - r.rotDeduction
  {
    var input := Example().(wallsAreaM2 := 1.0 / 56.0, rotEnabled := Yes);
    assert LaborFactor(input) == 1.0;
    assert Unrounded(input).laborBefore == 5.0;
  }

  lemma {:induction false} AmountsGrowWithArea(p: Pricing, extra: real)
    requires extra > 0.0 && p.laborFactor > 0.0 && p.materialFactor > 0.0 && p.coats >= 1
    ensures Amounts(p.(area := p.area + extra)).laborBefore > Amounts(p).laborBefore
    ensures Amounts(p.(area := p.area + extra)).totalBefore > Amounts(p).totalBefore
  {
    var q := p.(area := p.area + extra);
    var small, large := Amounts(p), Amounts(q);
    var k := BaseLaborPerM2 * p.laborFactor;
    assert k > 0.0;
    assert k * q.area == k * p.area + k * extra;
    assert small.laborBefore == k * p.area && large.laborBefore == k * q.area;
    assert large.laborBefore > small.laborBefore by {
      assert k * extra > 0.0;
    }
    assert large.material >= small.material by {
      if p.supplier == Painter {
        var m := BaseMaterialPerCoatPerM2 * p.coats as real * p.materialFactor;
        assert m > 0.0 by {
          assert BaseMaterialPerCoatPerM2 * p.coats as real > 0.0;
        }
        assert small.material == m * p.area && large.material == m * q.area;
        assert m * q.area == m * p.area + m * extra;
        assert m * extra > 0.0;
      }
    }
    assert large.travel == small.travel;
  }

  /** More wall area strictly increases the exact labour and the exact total, and never decreases
      the rounded lines. */
  lemma LaborGrowsWithArea(input: QuoteInput, extra: real)
    requires extra > 0.0
    ensures var bigger := input.(wallsAreaM2 := input.wallsAreaM2 + extra);
      && Unrounded(bigger).laborBefore > Unrounded(input).laborBefore
      && Unrounded(bigger).totalBefore > Unrounded(input).totalBefore
      && CalculateQuote(bigger).laborBeforeROT >= CalculateQuote(input).laborBeforeROT
      && CalculateQuote(bigger).totalBeforeROT >= CalculateQuote(input).totalBeforeROT
  {
    var bigger := input.(wallsAreaM2 := input.wallsAreaM2 + extra);
    var p := Prices(input);
    assert TotalArea(bigger) == p.area + extra;
    assert LaborFactor(bigger) == LaborFactor(input);
    assert MaterialFactor(bigger) == MaterialFactor(input);
    assert Prices(bigger) == p.(area := p.area + extra);
    AmountsGrowWithArea(p, extra);
    var small, large := Unrounded(input), Unrounded(bigger);
    Numbers.RoundMonotone(small.laborBefore, large.laborBefore);
    Numbers.RoundMonotone(small.totalBefore, large.totalBefore);
  }

  /** 20 m² of painted walls, no ROT: 5600 labour, 1400 material, 500 travel, 7500 in all, 375.0 per m². */
  lemma ExampleWithoutRot()
    ensures CalculateQuote(Example())
         == QuoteOutput(20.0, 2, 5600, 0, 5600, 1400, 500, 7500, 7500, 375.0, 375.0)
  {
    assert Prices(Example()) == Pricing(20.0, 2, 1.0, 1.0, 500, Painter, No, 0.30);
    assert Unrounded(Example()) == Breakdown(5600.0, 1400.0, 500.0, 0.0, 5600.0, 7500.0, 7500.0, 375.0, 375.0);
  }

  /** The same job with 30 % ROT: 1680 deducted, 3920 labour, 5820 in all, 291.0 per m². */
  lemma ExampleWithRot()
    ensures CalculateQuote(Example().(rotEnabled := Yes))
         == QuoteOutput(20.0, 2, 5600, 1680, 3920, 1400, 500, 7500, 5820, 375.0, 291.0)
  {
    var input := Example().(rotEnabled := Yes);
    assert Prices(input) == Pricing(20.0, 2, 1.0, 1.0, 500, Painter, Yes, 0.30);
    assert Unrounded(input) == Breakdown(5600.0, 1400.0, 500.0, 1680.0, 3920.0, 7500.0, 5820.0, 375.0, 291.0);
  }
}
