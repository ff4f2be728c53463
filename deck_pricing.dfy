/** The pricing part of the deck quote's `render` (deck/app.js): the quantity context, the raw
    materials subtotal that percent-of-materials lines charge on, the priced lines in catalog
    order, the totals and the admin discount. */
module DeckPricing {
  import opened Common
  import opened DeckTiers
  import opened DeckRules

  /** A catalog item; `mat`, `lab` and `pctOfMaterials` are the catalog's numbers after
      `parseNum`, `group` is empty when the item has none. */
  datatype Item = Item(
    id: string,
    name: string,
    unit: DeckUnit,
    mat: real,
    lab: real,
    group: string,
    permitOnly: bool,
    heightSensitive: bool,
    pctOfMaterials: real)

  datatype Catalog = Catalog(items: seq<Item>, markupTiers: seq<Tier>, rules: Rules)

  /** The state fields `render` prices from, once it has read the form. */
  datatype Snapshot = Snapshot(
    lenFt: real,
    widFt: real,
    deckSFOverride: real,
    heightFt: real,
    permitMode: string,
    attached: string,
    stairSteps: real,
    stairWidth: real,
    footingsOverride: real,
    railLFOverride: real,
    selected: map<string, bool>,
    admin: Admin)

  /** `state.selected[id]` is truthy; a missing entry is not selected. */
  predicate Selected(selected: map<string, bool>, id: string)
  {
    id in selected && selected[id]
  }

  /** The rail length of `render`: a positive override, else the perimeter. */
  function RailLF(s: Snapshot, sqrt: real -> real): (r: real)
    ensures s.railLFOverride > 0.0 ==> r == s.railLFOverride
    ensures s.railLFOverride <= 0.0 ==> r == PerimLF(s.lenFt, s.widFt, s.deckSFOverride, sqrt)
  {
    if s.railLFOverride > 0.0 then s.railLFOverride else PerimLF(s.lenFt, s.widFt, s.deckSFOverride, sqrt)
  }

  /** The context `render` hands to every `computeQty` call. */
  function ContextOf(c: Catalog, s: Snapshot, sqrt: real -> real): (ctx: QtyContext)
    // the area is never negative and the footings are counted for that same area
    ensures ctx.deckSF >= 0.0 && ctx.footings == Footings(c.rules, s.footingsOverride, ctx.deckSF)
    ensures ctx.railLF == RailLF(s, sqrt) && ctx.stairSteps == s.stairSteps
    ensures ctx.stairWidthMult == 1.0 || ctx.stairWidthMult == 1.25
  {
    var sf := DeckSF(s.lenFt, s.widFt, s.deckSFOverride);
    QtyContext(sf, RailLF(s, sqrt), Footings(c.rules, s.footingsOverride, sf), s.stairSteps, StairWidthMult(s.stairWidth))
  }

  /** What an item adds to the raw materials subtotal: quantity times the catalog material rate
      when it is selected and not itself a percent-of-materials item. */
  function RawMatTerm(it: Item, selected: map<string, bool>, ctx: QtyContext): real
  {
    if Selected(selected, it.id) && it.unit != PctOfMat then ComputeQty(it.unit, ctx) * it.mat else 0.0
  }

  /** Whether some item is selected and not itself a percent-of-materials item. */
  predicate AnyCharged(items: seq<Item>, selected: map<string, bool>)
  {
    items != [] &&
    (AnyCharged(items[..|items| - 1], selected) ||
     (Selected(selected, items[|items| - 1].id) && items[|items| - 1].unit != PctOfMat))
  }

  /** `rawMatSub`, accumulated in catalog order. */
  function RawMatSub(items: seq<Item>, selected: map<string, bool>, ctx: QtyContext): (r: real)
    // only selected items that are not themselves percent-of-materials items contribute
    ensures !AnyCharged(items, selected) ==> r == 0.0
  {
    if items == [] then 0.0
    else RawMatSub(items[..|items| - 1], selected, ctx) + RawMatTerm(items[|items| - 1], selected, ctx)
  }

  /** Some item is charged exactly when some index of the list holds a selected item that is not a
      percent-of-materials item. */
  lemma {:induction false} AnyChargedIff(items: seq<Item>, selected: map<string, bool>)
    ensures AnyCharged(items, selected) <==>
            exists k :: 0 <= k < |items| && Selected(selected, items[k].id) && items[k].unit != PctOfMat
  {
    if items != [] {
      var init := items[..|items| - 1];
      AnyChargedIff(init, selected);
      assert forall k :: 0 <= k < |init| ==> items[k] == init[k];
    }
  }

  /** One row of the quote table. */
  datatype DeckLine = DeckLine(
    id: string,
    name: string,
    unit: DeckUnit,
    qty: real,
    rMat: real,
    rLab: real,
    rawMat: real,
    rawLab: real,
    mat: real,
    lab: real,
    total: real)

  /** What every line is priced with: the quantity context, the markup percentage, the height
      multiplier and the raw materials subtotal. */
  datatype LinePricing = LinePricing(ctx: QtyContext, pct: real, heightMult: real, rawMatSub: real)

  /** The row `render` prices for a selected item. */
  function LineFor(it: Item, lp: LinePricing): (l: DeckLine)
    ensures l.id == it.id && l.unit == it.unit && l.qty == ComputeQty(it.unit, lp.ctx)
    // height-sensitive rates are scaled by the height multiplier, others are the catalog's
    ensures l.rMat == (if it.heightSensitive then it.mat * lp.heightMult else it.mat)
    ensures l.rLab == (if it.heightSensitive then it.lab * lp.heightMult else it.lab)
    // a percent-of-materials row charges its percentage of the subtotal, unmarked and without labour
    ensures it.unit == PctOfMat ==>
              l.rawMat == lp.rawMatSub * (it.pctOfMaterials / 100.0) && l.mat == l.rawMat &&
              l.rawLab == 0.0 && l.lab == 0.0
    // every other row is quantity times rate, marked up by the percentage
    ensures it.unit != PctOfMat ==>
              l.rawMat == l.qty * l.rMat && l.rawLab == l.qty * l.rLab &&
              l.mat == l.rawMat * (1.0 + lp.pct) && l.lab == l.rawLab * (1.0 + lp.pct)
    ensures l.total == l.mat + l.lab
  {
    if it.unit == PctOfMat then PctLine(it, lp) else RatedLine(it, lp)
  }

  /** The rate `render` charges: scaled by the height multiplier for height-sensitive items. */
  function ScaledRate(rate: real, it: Item, lp: LinePricing): real
  {
    if it.heightSensitive then rate * lp.heightMult else rate
  }

  /** A percent-of-materials row: its percentage of the raw materials subtotal, unmarked. */
  function PctLine(it: Item, lp: LinePricing): (l: DeckLine)
    ensures l.id == it.id && l.unit == it.unit && l.qty == ComputeQty(it.unit, lp.ctx)
    ensures l.rMat == ScaledRate(it.mat, it, lp) && l.rLab == ScaledRate(it.lab, it, lp)
    ensures l.rawMat == lp.rawMatSub * (it.pctOfMaterials / 100.0) && l.mat == l.rawMat
    ensures l.rawLab == 0.0 && l.lab == 0.0 && l.total == l.mat + l.lab
  {
    var raw := lp.rawMatSub * (it.pctOfMaterials / 100.0);
    DeckLine(it.id, it.name, it.unit, ComputeQty(it.unit, lp.ctx), ScaledRate(it.mat, it, lp), ScaledRate(it.lab, it, lp),
             raw, 0.0, raw, 0.0, raw + 0.0)
  }

  /** Any other row: quantity times rate, marked up by the percentage. */
  function RatedLine(it: Item, lp: LinePricing): (l: DeckLine)
    ensures l.id == it.id && l.unit == it.unit && l.qty == ComputeQty(it.unit, lp.ctx)
    ensures l.rMat == ScaledRate(it.mat, it, lp) && l.rLab == ScaledRate(it.lab, it, lp)
    ensures l.rawMat == l.qty * l.rMat && l.rawLab == l.qty * l.rLab
    ensures l.mat == l.rawMat * (1.0 + lp.pct) && l.lab == l.rawLab * (1.0 + lp.pct)
    ensures l.total == l.mat + l.lab
  {
    var qty := ComputeQty(it.unit, lp.ctx);
    var rMat, rLab := ScaledRate(it.mat, it, lp), ScaledRate(it.lab, it, lp);
    MulRegroup(qty, rMat, 1.0 + lp.pct);
    MulRegroup(qty, rLab, 1.0 + lp.pct);
    var mat, lab := qty * (rMat * (1.0 + lp.pct)), qty * (rLab * (1.0 + lp.pct));
    DeckLine(it.id, it.name, it.unit, qty, rMat, rLab, qty * rMat, qty * rLab, mat, lab, mat + lab)
  }

  /** The rows of the selected items, in catalog order. */
  function DeckLines(items: seq<Item>, selected: map<string, bool>, lp: LinePricing): (r: seq<DeckLine>)
    ensures |r| <= |items|
  {
    if items == [] then []
    else
      var last := items[|items| - 1];
      DeckLines(items[..|items| - 1], selected, lp) + (if Selected(selected, last.id) then [LineFor(last, lp)] else [])
  }

  function RawMatOf(l: DeckLine): real { l.rawMat }
  function RawLabOf(l: DeckLine): real { l.rawLab }
  function TotalOf(l: DeckLine): real { l.total }

  /** The discount type, "pct" when unset. */
  function DiscountType(admin: Admin): string
  {
    if admin.discountType == "" then "pct" else admin.discountType
  }

  /** The discount is applied only when the admin panel is unlocked and discounting is on. */
  predicate DiscountOn(admin: Admin)
  {
    admin.unlocked && admin.useDiscount
  }

  /** The admin discount on the priced total. */
  function Discount(admin: Admin, pricedTotal: real): (d: real)
    ensures !DiscountOn(admin) ==> d == 0.0
    ensures pricedTotal >= 0.0 ==> 0.0 <= d <= pricedTotal
    ensures pricedTotal >= 0.0 && d != 0.0 ==>
              DiscountOn(admin) && admin.discountValue > 0.0 && DiscountType(admin) in {"pct", "fixed"}
    // a percentage up to 100 takes exactly that share; a fixed amount is capped at the total
    ensures DiscountOn(admin) && pricedTotal >= 0.0 && DiscountType(admin) == "pct" && 0.0 < admin.discountValue <= 100.0 ==>
              d == Share(pricedTotal, admin.discountValue)
    ensures DiscountOn(admin) && pricedTotal >= 0.0 && DiscountType(admin) == "fixed" && admin.discountValue > 0.0 ==>
              d == Min(admin.discountValue, pricedTotal)
    // with a negative priced total, an active discount equals it, so the grand total is zero
    ensures DiscountOn(admin) && pricedTotal < 0.0 ==> d == pricedTotal
  {
    if !DiscountOn(admin) then 0.0
    else
      var raw := RawDiscount(admin.discountValue, DiscountType(admin), pricedTotal);
      if DiscountType(admin) == "pct" && pricedTotal >= 0.0 && 0.0 < admin.discountValue <= 100.0 then
        ShareBounds(pricedTotal, admin.discountValue);
        Clamp(raw, 0.0, pricedTotal)
      else Clamp(raw, 0.0, pricedTotal)
  }

  /** `total * (pct / 100)`. */
  function Share(total: real, pct: real): real
  {
    total * (pct / 100.0)
  }

  /** A share of at most 100% of a non-negative amount lies between 0 and the amount. */
  lemma ShareBounds(total: real, pct: real)
    requires total >= 0.0 && 0.0 <= pct <= 100.0
    ensures 0.0 <= Share(total, pct) <= total
  {
    var k := pct / 100.0;
    NonNegativeProduct(total, k);
    NonNegativeProduct(total, 1.0 - k);
    assert total * (1.0 - k) == total - total * k;
  }

  /** The discount before clamping: a percentage of the priced total or a fixed amount, and
      nothing for a value that is not positive or an unknown type. */
  function RawDiscount(dv: real, dt: string, pricedTotal: real): (r: real)
    ensures dv <= 0.0 || dt !in {"pct", "fixed"} ==> r == 0.0
    ensures dv > 0.0 && dt == "pct" ==> r == Share(pricedTotal, dv)
    ensures dv > 0.0 && dt == "fixed" ==> r == dv
  {
    if dv > 0.0 then
      if dt == "pct" then Share(pricedTotal, dv)
      else if dt == "fixed" then dv
      else 0.0
    else 0.0
  }

  /** The figures `render` shows. */
  datatype DeckQuote = DeckQuote(
    deckSF: real,
    perimLF: real,
    railRequired: bool,
    railLF: real,
    footings: real,
    pct: real,
    heightMult: real,
    rawMatSub: real,
    lines: seq<DeckLine>,
    rawMat: real,
    rawLab: real,
    pricedTotal: real,
    discount: real,
    grandTotal: real)

  function LinePricingOf(c: Catalog, s: Snapshot, sqrt: real -> real): LinePricing
  {
    var ctx := ContextOf(c, s, sqrt);
    LinePricing(ctx, MarkupPct(s.admin, c.markupTiers, ctx.deckSF),
                HeightMult(c.rules.heightMults, s.heightFt), RawMatSub(c.items, s.selected, ctx))
  }

  /** The pricing `render` performs on a snapshot. */
  function QuoteOf(c: Catalog, s: Snapshot, sqrt: real -> real): (q: DeckQuote)
    ensures q.discount == Discount(s.admin, q.pricedTotal)
    ensures q.grandTotal == q.pricedTotal - q.discount
    // the grand total lies between zero and a non-negative priced total, is the priced total
    // itself when no discount applies, and is zero when an active discount meets a negative
    // priced total
    ensures q.pricedTotal >= 0.0 ==> 0.0 <= q.grandTotal <= q.pricedTotal
    ensures !DiscountOn(s.admin) ==> q.grandTotal == q.pricedTotal
    ensures q.pricedTotal < 0.0 && DiscountOn(s.admin) ==> q.grandTotal == 0.0
  {
    var lp := LinePricingOf(c, s, sqrt);
    var lines := DeckLines(c.items, s.selected, lp);
    var priced := SumBy(lines, TotalOf);
    var discount := Discount(s.admin, priced);
    DeckQuote(lp.ctx.deckSF, PerimLF(s.lenFt, s.widFt, s.deckSFOverride, sqrt),
              RailingRequired(c.rules, s.heightFt), lp.ctx.railLF, lp.ctx.footings, lp.pct,
              lp.heightMult, lp.rawMatSub, lines, SumBy(lines, RawMatOf), SumBy(lines, RawLabOf),
              priced, discount, priced - discount)
  }

  /** The first loop of `render`: the raw materials subtotal. */
  method SumRawMat(items: seq<Item>, selected: map<string, bool>, ctx: QtyContext) returns (sub: real)
    ensures sub == RawMatSub(items, selected, ctx)
  {
    sub := 0.0;
    var i := 0;
    while i < |items|
      invariant 0 <= i <= |items|
      invariant sub == RawMatSub(items[..i], selected, ctx)
    {
      var it := items[i];
      assert items[..i + 1][..i] == items[..i];
      if Selected(selected, it.id) && it.unit != PctOfMat {
        var qty := ComputeQty(it.unit, ctx);
        sub := sub + qty * it.mat;
      }
      i := i + 1;
    }
    assert items[..|items|] == items;
  }

  /** The second loop of `render`: the rows and the running totals. */
  method PriceLines(items: seq<Item>, selected: map<string, bool>, lp: LinePricing)
    returns (lines: seq<DeckLine>, rawMat: real, rawLab: real, pricedTotal: real)
    ensures lines == DeckLines(items, selected, lp)
    ensures rawMat == SumBy(lines, RawMatOf)
    ensures rawLab == SumBy(lines, RawLabOf)
    ensures pricedTotal == SumBy(lines, TotalOf)
  {
    lines, rawMat, rawLab, pricedTotal := [], 0.0, 0.0, 0.0;
    var i := 0;
    while i < |items|
      invariant 0 <= i <= |items|
      invariant lines == DeckLines(items[..i], selected, lp)
      invariant rawMat == SumBy(lines, RawMatOf)
      invariant rawLab == SumBy(lines, RawLabOf)
      invariant pricedTotal == SumBy(lines, TotalOf)
    {
      var it := items[i];
      assert items[..i + 1][..i] == items[..i];
      if Selected(selected, it.id) {
        var l := LineFor(it, lp);
        var next := lines + [l];
        assert next[..|next| - 1] == lines;
        rawMat := rawMat + l.rawMat;
        rawLab := rawLab + l.rawLab;
        pricedTotal := pricedTotal + l.total;
        lines := next;
      }
      i := i + 1;
    }
    assert items[..|items|] == items;
  }

  /** The pricing part of `render`. */
  method PriceQuote(c: Catalog, s: Snapshot, sqrt: real -> real) returns (q: DeckQuote)
    ensures q == QuoteOf(c, s, sqrt)
  {
    var ctx := ContextOf(c, s, sqrt);
    var pct := MarkupPct(s.admin, c.markupTiers, ctx.deckSF);
    var rawMatSub := SumRawMat(c.items, s.selected, ctx);
    var hM := HeightMult(c.rules.heightMults, s.heightFt);
    var lp := LinePricing(ctx, pct, hM, rawMatSub);
    assert lp == LinePricingOf(c, s, sqrt);
    var lines, rawMat, rawLab, pricedTotal := PriceLines(c.items, s.selected, lp);
    var discount := Discount(s.admin, pricedTotal);
    q := DeckQuote(ctx.deckSF, PerimLF(s.lenFt, s.widFt, s.deckSFOverride, sqrt),
                   RailingRequired(c.rules, s.heightFt), ctx.railLF, ctx.footings, pct, hM,
                   rawMatSub, lines, rawMat, rawLab, pricedTotal, discount, pricedTotal - discount);
  }
}
