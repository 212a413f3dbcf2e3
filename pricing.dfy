/**
 * The pricing engine of the bot: the strategy coefficient table and its
 * fallback, the box-type dispatch, the material cost of a closed box, the
 * box-type extra cost and the final price. All arithmetic is exact over
 * `real`; the quantity is an `int`.
 */
module Pricing {
  import opened Text

  /** The five pricing strategies and their multipliers. */
  const StrategyCoefficients: map<string, real> :=
    map["Complex" := 2.8, "Assembly" := 2.5, "Routine" := 2.0, "Competitive" := 1.6, "Discount" := 0.8]

  /** The strategy used when the advisory reply names none of the table's keys. */
  const FallbackStrategy: string := "Routine"

  /** Material cost per cubic millimetre of sheet. */
  const MaterialCostPerMm3: real := 0.000002

  /**
   * Replaces an advisory reply that is not a strategy name by the fallback,
   * so that the coefficient lookup in CalculatePrice cannot fail.
   */
  function ResolveStrategy(advice: string): (strategy: string)
    ensures strategy in StrategyCoefficients
    ensures advice in StrategyCoefficients ==> strategy == advice
    ensures advice !in StrategyCoefficients ==> strategy == FallbackStrategy
  {
    if advice in StrategyCoefficients then advice else FallbackStrategy
  }

  // The English box-type labels of the reply keyboard, lower-cased.
  const LightBoxEn: string := "lightbox"
  const ContainerEn: string := "container"
  const CoverEn: string := "cover"
  const LaserCutEn: string := "lasercut"

  // The Farsi box-type labels of the reply keyboard.
  /** "لایت‌باکس" (with a zero-width non-joiner) */
  const LightBoxFa: string := "\U{644}\U{627}\U{6CC}\U{62A}\U{200C}\U{628}\U{627}\U{6A9}\U{633}"
  /** "کانتینر" */
  const ContainerFa: string := "\U{6A9}\U{627}\U{646}\U{62A}\U{6CC}\U{646}\U{631}"
  /** "پوشش" */
  const CoverFa: string := "\U{67E}\U{648}\U{634}\U{634}"
  /** "برش لیزری" */
  const LaserCutFa: string := "\U{628}\U{631}\U{634}\U{20}\U{644}\U{6CC}\U{632}\U{631}\U{6CC}"

  /** The branch of the extra-cost computation a label selects. */
  datatype BoxKind = LightBox | Container | Cover | LaserCut | Unrecognised

  /** Dispatch on the lower-cased label, English or Farsi; anything else is Unrecognised. */
  function KindOf(boxType: string): BoxKind {
    var b := Lower(boxType);
    if b == LightBoxEn || b == LightBoxFa then LightBox
    else if b == ContainerEn || b == ContainerFa then Container
    else if b == CoverEn || b == CoverFa then Cover
    else if b == LaserCutEn || b == LaserCutFa then LaserCut
    else Unrecognised
  }

  /** Surface of a closed box with six faces, in mm². */
  function ClosedBoxArea(w: real, l: real, h: real): real {
    2.0 * (w * l + w * h + l * h)
  }

  /** Sheet volume of qty closed boxes times the cost per mm³. */
  function MaterialCost(w: real, l: real, h: real, t: real, qty: int): real {
    var volume := ClosedBoxArea(w, l, h) * t;
    var totalVolume := volume * qty as real;
    totalVolume * MaterialCostPerMm3
  }

  /**
   * Number of transformers for a lightbox order: one per two boxes, plus one,
   * that is floor(qty / 2) + 1 as with Python's floor division.
   */
  function TransformerCount(qty: int): (n: int)
    ensures 2 * (n - 1) <= qty < 2 * n
  {
    qty / 2 + 1
  }

  /** LEDs priced by the perimeter 2 * (w + h), plus transformers, for each box. */
  function LightBoxExtra(w: real, h: real, qty: int): real {
    var ledUnits := 2.0 * (w + h) / 100.0;
    var ledCost := ledUnits * 0.5;
    var transformerCost := TransformerCount(qty) as real * 5.0;
    (ledCost + transformerCost) * qty as real
  }

  /** Two hinges, a handle and a lock per box. */
  function ContainerExtra(qty: int): real {
    var hingeCost := 2.0 * 0.8;
    var handleCost := 1.2;
    var lockCost := 2.5;
    (hingeCost + handleCost + lockCost) * qty as real
  }

  /** Installation per box. */
  function CoverExtra(qty: int): real {
    var installationCost := 3.0;
    installationCost * qty as real
  }

  /** Laser cutting priced by the cut length 4 * (w + h + l). */
  function LaserCutExtra(w: real, l: real, h: real, qty: int): real {
    var perimeter := 4.0 * (w + h + l);
    perimeter * 0.002 * qty as real
  }

  /** The box-type-specific extra cost; an unrecognised label costs nothing and is no error. */
  function ExtraCost(boxType: string, w: real, l: real, h: real, qty: int): (r: real)
    ensures KindOf(boxType) == Container ==> r == 5.3 * qty as real
    ensures KindOf(boxType) == Cover ==> r == 3.0 * qty as real
    ensures KindOf(boxType) == Unrecognised ==> r == 0.0
  {
    match KindOf(boxType)
    case LightBox => LightBoxExtra(w, h, qty)
    case Container => ContainerExtra(qty)
    case Cover => CoverExtra(qty)
    case LaserCut => LaserCutExtra(w, l, h, qty)
    case Unrecognised => 0.0
  }

  /** The fields of the session that the price is computed from. */
  datatype Order = Order(width: real, length: real, height: real, thickness: real,
                         quantity: int, boxType: string, strategy: string)

  /** (material cost + extra cost) times the strategy's coefficient. */
  function CalculatePrice(o: Order): real
    requires o.strategy in StrategyCoefficients
  {
    var materialCost := MaterialCost(o.width, o.length, o.height, o.thickness, o.quantity);
    var boxTypeCost := ExtraCost(o.boxType, o.width, o.length, o.height, o.quantity);
    (materialCost + boxTypeCost) * StrategyCoefficients[o.strategy]
  }

  // ---------------------------------------------------------------------
  // Properties of the pricing engine

  /** Whatever the advisory service answers, the coefficient lookup succeeds. */
  lemma CoefficientLookupTotal(advice: string)
    ensures ResolveStrategy(advice) in StrategyCoefficients
    ensures StrategyCoefficients[ResolveStrategy(advice)] ==
      if advice in StrategyCoefficients then StrategyCoefficients[advice] else 2.0
  {
  }

  /** Unfolds the price for the coefficient of the order's strategy; a proof step of the lemmas below. */
  lemma PriceWithCoefficient(o: Order, c: real)
    requires o.strategy in StrategyCoefficients && StrategyCoefficients[o.strategy] == c
    ensures CalculatePrice(o) ==
      (MaterialCost(o.width, o.length, o.height, o.thickness, o.quantity)
       + ExtraCost(o.boxType, o.width, o.length, o.height, o.quantity)) * c
  {
  }

  /**
   * The price of an order whose strategy was resolved from an advisory reply:
   * (material cost + extra cost) times the reply's coefficient, or the
   * fallback's when the reply is not a strategy.
   */
  lemma PriceOfResolvedOrder(advice: string, o: Order)
    requires o.strategy == ResolveStrategy(advice)
    ensures o.strategy in StrategyCoefficients
    ensures CalculatePrice(o) ==
      (MaterialCost(o.width, o.length, o.height, o.thickness, o.quantity)
       + ExtraCost(o.boxType, o.width, o.length, o.height, o.quantity))
      * (if advice in StrategyCoefficients then StrategyCoefficients[advice] else 2.0)
  {
    CoefficientLookupTotal(advice);
    PriceWithCoefficient(o, if advice in StrategyCoefficients then StrategyCoefficients[advice] else 2.0);
  }

  /** Scaling both summands scales the product. */
  lemma ScaledSum(q: real, m: real, e: real, c: real)
    ensures (q * m + q * e) * c == q * ((m + e) * c)
  {
  }

  /**
   * Every box type but the lightbox prices an order of qty boxes at qty times
   * the price of one box: the material cost and all other extra costs are
   * linear in the quantity.
   */
  lemma PriceLinearExceptLightBox(o: Order)
    requires o.strategy in StrategyCoefficients && KindOf(o.boxType) != LightBox
    ensures CalculatePrice(o) == o.quantity as real * CalculatePrice(o.(quantity := 1))
  {
    var one := o.(quantity := 1);
    var c := StrategyCoefficients[o.strategy];
    MaterialCostPerBox(o.width, o.length, o.height, o.thickness, o.quantity);
    ExtraCostLinearExceptLightBox(o.boxType, o.width, o.length, o.height, o.quantity);
    PriceWithCoefficient(o, c);
    PriceWithCoefficient(one, c);
    ScaledSum(o.quantity as real, MaterialCost(o.width, o.length, o.height, o.thickness, 1),
              ExtraCost(o.boxType, o.width, o.length, o.height, 1), c);
  }

  /** The material cost of an order is qty times the cost of a single box. */
  lemma MaterialCostPerBox(w: real, l: real, h: real, t: real, qty: int)
    ensures MaterialCost(w, l, h, t, qty) == qty as real * MaterialCost(w, l, h, t, 1)
  {
  }

  /** A closed box costs the same whichever of its sides are called width, length and height. */
  lemma MaterialCostSymmetric(w: real, l: real, h: real, t: real, qty: int)
    ensures MaterialCost(w, l, h, t, qty) == MaterialCost(l, w, h, t, qty)
    ensures MaterialCost(w, l, h, t, qty) == MaterialCost(w, h, l, t, qty)
    ensures MaterialCost(w, l, h, t, qty) == MaterialCost(h, l, w, t, qty)
  {
  }

  /** Products of non-negative reals grow with their factors. */
  lemma ProductMonotone(a: real, a': real, b: real, b': real)
    requires 0.0 <= a <= a' && 0.0 <= b <= b'
    ensures a * b <= a' * b'
  {
    assert a * b <= a' * b;
    assert a' * b <= a' * b';
  }

  /**
   * For non-negative inputs the material cost does not decrease when a side,
   * the thickness or the quantity grows.
   */
  lemma MaterialCostMonotone(w: real, l: real, h: real, t: real, qty: int,
                             w': real, l': real, h': real, t': real, qty': int)
    requires 0.0 <= w <= w' && 0.0 <= l <= l' && 0.0 <= h <= h' && 0.0 <= t <= t' && 0 <= qty <= qty'
    ensures MaterialCost(w, l, h, t, qty) <= MaterialCost(w', l', h', t', qty')
  {
    ProductMonotone(w, w', l, l');
    ProductMonotone(w, w', h, h');
    ProductMonotone(l, l', h, h');
    var a, a' := ClosedBoxArea(w, l, h), ClosedBoxArea(w', l', h');
    ProductMonotone(t, t', qty as real, qty' as real);
    var k, k' := t * qty as real, t' * qty' as real;
    ProductMonotone(a, a', k, k');
    assert MaterialCost(w, l, h, t, qty) == (a * k) * MaterialCostPerMm3;
    assert MaterialCost(w', l', h', t', qty') == (a' * k') * MaterialCostPerMm3;
  }

  /** Dispatch depends only on the lower-cased label: "LightBox" and "LIGHTBOX" price as "lightbox". */
  lemma DispatchIgnoresCase(boxType: string, w: real, l: real, h: real, qty: int)
    ensures KindOf(Lower(boxType)) == KindOf(boxType)
    ensures ExtraCost(Lower(boxType), w, l, h, qty) == ExtraCost(boxType, w, l, h, qty)
  {
    LowerIdempotent(boxType);
  }

  // One lemma per label of the reply keyboards: each selects its own branch.

  lemma LightBoxEnUncased()
    ensures Lower(LightBoxEn) == LightBoxEn
  {
    LowerKeepsUncased(LightBoxEn);
  }

  lemma ContainerEnUncased()
    ensures Lower(ContainerEn) == ContainerEn
  {
    LowerKeepsUncased(ContainerEn);
  }

  lemma CoverEnUncased()
    ensures Lower(CoverEn) == CoverEn
  {
    LowerKeepsUncased(CoverEn);
  }

  lemma LaserCutEnUncased()
    ensures Lower(LaserCutEn) == LaserCutEn
  {
    LowerKeepsUncased(LaserCutEn);
  }

  lemma LightBoxFaUncased()
    ensures Lower(LightBoxFa) == LightBoxFa
  {
    LowerKeepsUncased(LightBoxFa);
  }

  lemma ContainerFaUncased()
    ensures Lower(ContainerFa) == ContainerFa
  {
    LowerKeepsUncased(ContainerFa);
  }

  lemma CoverFaUncased()
    ensures Lower(CoverFa) == CoverFa
  {
    LowerKeepsUncased(CoverFa);
  }

  lemma LaserCutFaUncased()
    ensures Lower(LaserCutFa) == LaserCutFa
  {
    LowerKeepsUncased(LaserCutFa);
  }

  lemma LightBoxEnglish()
    ensures KindOf(LightBoxEn) == LightBox
  {
    LightBoxEnUncased();
  }

  lemma LightBoxFarsi()
    ensures KindOf(LightBoxFa) == LightBox
  {
    LightBoxFaUncased();
  }

  lemma ContainerEnglish()
    ensures KindOf(ContainerEn) == Container
  {
    ContainerEnUncased();
    assert ContainerEn[0] != LightBoxFa[0];
  }

  lemma ContainerFarsi()
    ensures KindOf(ContainerFa) == Container
  {
    ContainerFaUncased();
  }

  lemma CoverEnglish()
    ensures KindOf(CoverEn) == Cover
  {
    CoverEnUncased();
  }

  lemma CoverFarsi()
    ensures KindOf(CoverFa) == Cover
  {
    CoverFaUncased();
  }

  lemma LaserCutEnglish()
    ensures KindOf(LaserCutEn) == LaserCut
  {
    LaserCutEnUncased();
    assert LaserCutEn[1] != LightBoxEn[1];
  }

  lemma LaserCutFarsi()
    ensures KindOf(LaserCutFa) == LaserCut
  {
    LaserCutFaUncased();
    assert LaserCutFa != LightBoxEn && LaserCutFa != ContainerFa && LaserCutFa != CoverFa && LaserCutFa != CoverEn;
    assert LaserCutFa[0] != LightBoxFa[0];
    assert LaserCutFa[0] != ContainerEn[0];
  }

  /** Both lightbox labels of the reply keyboards select the lightbox branch. */
  lemma LightBoxLabels()
    ensures KindOf(LightBoxEn) == LightBox && KindOf(LightBoxFa) == LightBox
  {
    LightBoxEnglish();
    LightBoxFarsi();
  }

  /** Both container labels select the container branch. */
  lemma ContainerLabels()
    ensures KindOf(ContainerEn) == Container && KindOf(ContainerFa) == Container
  {
    ContainerEnglish();
    ContainerFarsi();
  }

  /** Both cover labels select the cover branch. */
  lemma CoverLabels()
    ensures KindOf(CoverEn) == Cover && KindOf(CoverFa) == Cover
  {
    CoverEnglish();
    CoverFarsi();
  }

  /** Both laser-cut labels select the laser-cut branch. */
  lemma LaserCutLabels()
    ensures KindOf(LaserCutEn) == LaserCut && KindOf(LaserCutFa) == LaserCut
  {
    LaserCutEnglish();
    LaserCutFarsi();
  }

  /** The English and the Farsi label of a box type cost the same. */
  lemma LabelsPriceAlike(w: real, l: real, h: real, qty: int)
    ensures ExtraCost(LightBoxFa, w, l, h, qty) == ExtraCost(LightBoxEn, w, l, h, qty)
    ensures ExtraCost(ContainerFa, w, l, h, qty) == ExtraCost(ContainerEn, w, l, h, qty)
    ensures ExtraCost(CoverFa, w, l, h, qty) == ExtraCost(CoverEn, w, l, h, qty)
    ensures ExtraCost(LaserCutFa, w, l, h, qty) == ExtraCost(LaserCutEn, w, l, h, qty)
  {
    LightBoxLabels();
    ContainerLabels();
    CoverLabels();
    LaserCutLabels();
  }

  /** A lightbox order of any non-negative size is quoted at least one transformer. */
  lemma TransformerAtLeastOne(qty: int)
    requires 0 <= qty
    ensures TransformerCount(qty) >= 1
  {
  }

  /** The lightbox extra cost: half a unit per 100 mm of perimeter 2(w + h), five per transformer. */
  lemma LightBoxExtraCost(boxType: string, w: real, l: real, l': real, h: real, qty: int)
    requires KindOf(boxType) == LightBox
    ensures ExtraCost(boxType, w, l, h, qty) ==
      ((2.0 * (w + h) / 100.0) * 0.5 + (qty / 2 + 1) as real * 5.0) * qty as real
    ensures ExtraCost(boxType, w, l, h, qty) == ExtraCost(boxType, w, l', h, qty)
  {
  }

  /**
   * The transformer cost of an order is multiplied by the quantity once more:
   * one lightbox with no LED perimeter costs 5, but ten cost 6 transformers
   * x 5 x 10 = 300 rather than 10 x 5, so the lightbox cost is not linear in qty.
   */
  lemma LightBoxTransformersChargedPerBox()
    ensures ExtraCost(LightBoxEn, 0.0, 0.0, 0.0, 1) == 5.0
    ensures ExtraCost(LightBoxEn, 0.0, 0.0, 0.0, 10) == 300.0
  {
    LightBoxLabels();
    assert TransformerCount(1) == 1;
    assert LightBoxExtra(0.0, 0.0, 1) == (0.0 + 5.0) * 1.0;
    assert TransformerCount(10) == 6;
    assert LightBoxExtra(0.0, 0.0, 10) == (0.0 + 30.0) * 10.0;
  }

  /** The laser-cut extra cost: 0.002 per mm of the cut length 4(w + h + l), per box. */
  lemma LaserCutExtraCost(boxType: string, w: real, l: real, h: real, qty: int)
    requires KindOf(boxType) == LaserCut
    ensures ExtraCost(boxType, w, l, h, qty) == 4.0 * (w + h + l) * 0.002 * qty as real
    ensures ExtraCost(boxType, w, l, h, qty) == qty as real * ExtraCost(boxType, w, l, h, 1)
  {
  }

  /** Every extra cost but the lightbox's is qty times the extra cost of one box. */
  lemma ExtraCostLinearExceptLightBox(boxType: string, w: real, l: real, h: real, qty: int)
    requires KindOf(boxType) != LightBox
    ensures ExtraCost(boxType, w, l, h, qty) == qty as real * ExtraCost(boxType, w, l, h, 1)
  {
    if KindOf(boxType) == LaserCut {
      LaserCutExtraCost(boxType, w, l, h, qty);
    }
  }

  /** The container and cover extra costs do not depend on the dimensions. */
  lemma FixedExtrasIgnoreDimensions(boxType: string, w: real, l: real, h: real, w': real, l': real, h': real, qty: int)
    requires KindOf(boxType) == Container || KindOf(boxType) == Cover
    ensures ExtraCost(boxType, w, l, h, qty) == ExtraCost(boxType, w', l', h', qty)
  {
  }

  /** A sample order of ten 1200 x 1800 x 100 mm containers from 3 mm sheet. */
  lemma ContainerQuoteExample()
    ensures MaterialCost(1200.0, 1800.0, 100.0, 3.0, 10) == 295.2
    ensures ExtraCost(ContainerEn, 1200.0, 1800.0, 100.0, 10) == 53.0
    ensures CalculatePrice(Order(1200.0, 1800.0, 100.0, 3.0, 10, ContainerEn, "Routine")) == 696.4
  {
    ContainerLabels();
    assert ClosedBoxArea(1200.0, 1800.0, 100.0) == 4920000.0;
  }
}
