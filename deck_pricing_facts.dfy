/** What the deck quote's `render` promises about the quote it prices: which rows appear, what
    the percent-of-materials rows charge on, and the bounds of the discounted grand total. */
module DeckPricingFacts {
  import opened Common
  import opened DeckTiers
  import opened DeckRules
  import opened DeckPricing

  /** A row is in the quote exactly when some selected item of the catalog prices to it. */
  lemma {:induction false} DeckLinesExactly(items: seq<Item>, selected: map<string, bool>, lp: LinePricing, l: DeckLine)
    ensures l in DeckLines(items, selected, lp) <==>
              exists it :: it in items && Selected(selected, it.id) && l == LineFor(it, lp)
    decreases |items|
  {
    if items != [] {
      var init, last := items[..|items| - 1], items[|items| - 1];
      DeckLinesExactly(init, selected, lp, l);
      assert items == init + [last];
      if l in DeckLines(items, selected, lp) && l in DeckLines(init, selected, lp) {
        var it :| it in init && Selected(selected, it.id) && l == LineFor(it, lp);
        assert it in items;
      }
    }
  }

  /** Every row of the quote is priced as `render` prices its item: percent-of-materials rows
      charge their share of the quote's raw materials subtotal with no markup and no labour,
      and the others are marked up by the quote's percentage. */
  lemma QuoteLinesPriced(c: Catalog, s: Snapshot, sqrt: real -> real)
    ensures var q := QuoteOf(c, s, sqrt);
            forall l :: l in q.lines ==>
              exists it :: it in c.items && Selected(s.selected, it.id) && l == LineFor(it, LinePricing(ContextOf(c, s, sqrt), q.pct, q.heightMult, q.rawMatSub))
  {
    var lp := LinePricingOf(c, s, sqrt);
    forall l | l in QuoteOf(c, s, sqrt).lines
      ensures exists it :: it in c.items && Selected(s.selected, it.id) && l == LineFor(it, lp)
    {
      DeckLinesExactly(c.items, s.selected, lp, l);
    }
  }

  /** A row's raw materials, counting nothing for percent-of-materials rows. */
  function NonPctRawMat(l: DeckLine): real
  {
    if l.unit == PctOfMat then 0.0 else l.rawMat
  }

  /** The raw materials subtotal is the raw materials of the quote's other rows, as long as no
      selected height-sensitive item is scaled: the subtotal never sees the height multiplier. */
  lemma {:induction false} RawMatSubFromLines(items: seq<Item>, selected: map<string, bool>, lp: LinePricing)
    requires forall it :: it in items && Selected(selected, it.id) && it.heightSensitive ==> lp.heightMult == 1.0
    ensures RawMatSub(items, selected, lp.ctx) == SumBy(DeckLines(items, selected, lp), NonPctRawMat)
    decreases |items|
  {
    if items != [] {
      var init, last := items[..|items| - 1], items[|items| - 1];
      assert forall it :: it in init ==> it in items;
      RawMatSubFromLines(init, selected, lp);
      var extra := if Selected(selected, last.id) then [LineFor(last, lp)] else [];
      SumByAppend(DeckLines(init, selected, lp), extra, NonPctRawMat);
      RowRawMat(last, selected, lp);
    }
  }

  /** One item's share of the subtotal is the raw materials its row (if any) shows. */
  lemma RowRawMat(it: Item, selected: map<string, bool>, lp: LinePricing)
    requires Selected(selected, it.id) && it.heightSensitive ==> lp.heightMult == 1.0
    ensures RawMatTerm(it, selected, lp.ctx) ==
            SumBy(if Selected(selected, it.id) then [LineFor(it, lp)] else [], NonPctRawMat)
  {
    if Selected(selected, it.id) {
      assert [LineFor(it, lp)][..0] == [];
    }
  }

  /** A catalog without negative prices, percentages, multipliers or minimum footings. */
  predicate NonNegativeCatalog(c: Catalog)
  {
    (forall it :: it in c.items ==> it.mat >= 0.0 && it.lab >= 0.0 && it.pctOfMaterials >= 0.0) &&
    (forall t :: t in c.markupTiers ==> t.pct >= 0.0) &&
    (forall i :: 0 <= i < |c.rules.heightMults| ==> c.rules.heightMults[i].mult >= 0.0) &&
    MinFootings(c.rules) >= 0.0
  }

  /** The markup percentage is never negative for such a catalog. */
  lemma MarkupPctNonNegative(admin: Admin, tiers: seq<Tier>, sf: real)
    requires forall t :: t in tiers ==> t.pct >= 0.0
    ensures MarkupPct(admin, tiers, sf) >= 0.0
  {
    TierPctIsSmallestCover(tiers, sf);
  }

  /** Every quantity `render` bills from is non-negative. */
  lemma ContextNonNegative(c: Catalog, s: Snapshot, sqrt: real -> real)
    requires NonNegativeCatalog(c) && s.stairSteps >= 0.0
    requires forall x :: 0.0 <= x ==> 0.0 <= sqrt(x)
    ensures var ctx := ContextOf(c, s, sqrt);
            ctx.deckSF >= 0.0 && ctx.railLF >= 0.0 && ctx.footings >= 0.0 &&
            ctx.stairSteps >= 0.0 && ctx.stairWidthMult >= 0.0
  {
    var sf := DeckSF(s.lenFt, s.widFt, s.deckSFOverride);
    assert sqrt(sf) >= 0.0;
  }

  /** Every row of such a catalog has a non-negative total. */
  lemma LineTotalNonNegative(it: Item, lp: LinePricing)
    requires it.mat >= 0.0 && it.lab >= 0.0 && it.pctOfMaterials >= 0.0
    requires lp.ctx.deckSF >= 0.0 && lp.ctx.railLF >= 0.0 && lp.ctx.footings >= 0.0
    requires lp.ctx.stairSteps >= 0.0 && lp.ctx.stairWidthMult >= 0.0
    requires lp.pct >= 0.0 && lp.heightMult >= 0.0 && lp.rawMatSub >= 0.0
    ensures LineFor(it, lp).total >= 0.0
  {
    ComputeQtyNonNegative(it.unit, lp.ctx);
    if it.unit == PctOfMat {
      NonNegativeProduct(lp.rawMatSub, it.pctOfMaterials / 100.0);
    } else {
      RatedLineNonNegative(it, lp);
    }
  }

  /** A rated row of non-negative rates, quantity and markup has a non-negative total. */
  lemma RatedLineNonNegative(it: Item, lp: LinePricing)
    requires it.mat >= 0.0 && it.lab >= 0.0
    requires ComputeQty(it.unit, lp.ctx) >= 0.0
    requires lp.pct >= 0.0 && lp.heightMult >= 0.0
    ensures RatedLine(it, lp).total >= 0.0
  {
    var l := RatedLine(it, lp);
    ScaledRateNonNegative(it.mat, it, lp);
    ScaledRateNonNegative(it.lab, it, lp);
    NonNegativeProduct(l.qty, l.rMat);
    NonNegativeProduct(l.qty, l.rLab);
    NonNegativeProduct(l.rawMat, 1.0 + lp.pct);
    NonNegativeProduct(l.rawLab, 1.0 + lp.pct);
  }

  /** Scaling a non-negative rate by a non-negative multiplier keeps it non-negative. */
  lemma ScaledRateNonNegative(rate: real, it: Item, lp: LinePricing)
    requires rate >= 0.0 && lp.heightMult >= 0.0
    ensures ScaledRate(rate, it, lp) >= 0.0
  {
    NonNegativeProduct(rate, lp.heightMult);
  }

  /** The raw materials subtotal of such a catalog is non-negative. */
  lemma {:induction false} RawMatSubNonNegative(items: seq<Item>, selected: map<string, bool>, ctx: QtyContext)
    requires forall it :: it in items ==> it.mat >= 0.0
    requires ctx.deckSF >= 0.0 && ctx.railLF >= 0.0 && ctx.footings >= 0.0
    requires ctx.stairSteps >= 0.0 && ctx.stairWidthMult >= 0.0
    ensures RawMatSub(items, selected, ctx) >= 0.0
    decreases |items|
  {
    if items != [] {
      var init, last := items[..|items| - 1], items[|items| - 1];
      assert forall it :: it in init ==> it in items;
      RawMatSubNonNegative(init, selected, ctx);
      assert last in items;
      ComputeQtyNonNegative(last.unit, ctx);
      NonNegativeProduct(ComputeQty(last.unit, ctx), last.mat);
      assert RawMatTerm(last, selected, ctx) >= 0.0;
    }
  }

  /** Rows of items without negative prices, priced from non-negative quantities and rates,
      sum to a non-negative total. */
  lemma {:induction false} DeckLinesTotalNonNegative(items: seq<Item>, selected: map<string, bool>, lp: LinePricing)
    requires forall it :: it in items ==> it.mat >= 0.0 && it.lab >= 0.0 && it.pctOfMaterials >= 0.0
    requires lp.ctx.deckSF >= 0.0 && lp.ctx.railLF >= 0.0 && lp.ctx.footings >= 0.0
    requires lp.ctx.stairSteps >= 0.0 && lp.ctx.stairWidthMult >= 0.0
    requires lp.pct >= 0.0 && lp.heightMult >= 0.0 && lp.rawMatSub >= 0.0
    ensures SumBy(DeckLines(items, selected, lp), TotalOf) >= 0.0
    decreases |items|
  {
    if items != [] {
      var init, last := items[..|items| - 1], items[|items| - 1];
      assert forall it :: it in init ==> it in items;
      DeckLinesTotalNonNegative(init, selected, lp);
      var extra := if Selected(selected, last.id) then [LineFor(last, lp)] else [];
      SumByAppend(DeckLines(init, selected, lp), extra, TotalOf);
      if Selected(selected, last.id) {
        LineTotalNonNegative(last, lp);
        assert extra[..0] == [];
      }
    }
  }

  /** For a catalog without negative figures the priced total is non-negative. */
  lemma PricedTotalNonNegative(c: Catalog, s: Snapshot, sqrt: real -> real)
    requires NonNegativeCatalog(c) && s.stairSteps >= 0.0
    requires forall x :: 0.0 <= x ==> 0.0 <= sqrt(x)
    ensures SumBy(DeckLines(c.items, s.selected, LinePricingOf(c, s, sqrt)), TotalOf) >= 0.0
  {
    var ctx := ContextOf(c, s, sqrt);
    var lp := LinePricing(ctx, MarkupPct(s.admin, c.markupTiers, ctx.deckSF),
                          HeightMult(c.rules.heightMults, s.heightFt), RawMatSub(c.items, s.selected, ctx));
    assert LinePricingOf(c, s, sqrt) == lp;
    ContextNonNegative(c, s, sqrt);
    MarkupPctNonNegative(s.admin, c.markupTiers, ctx.deckSF);
    RawMatSubNonNegative(c.items, s.selected, ctx);
    if lp.heightMult != 1.0 {
      var i :| 0 <= i < |c.rules.heightMults| && lp.heightMult == c.rules.heightMults[i].mult;
    }
    DeckLinesTotalNonNegative(c.items, s.selected, lp);
  }

  /** So for such a catalog the grand total always lies between zero and the priced total. */
  lemma GrandTotalWithinPricedTotal(c: Catalog, s: Snapshot, sqrt: real -> real)
    requires NonNegativeCatalog(c) && s.stairSteps >= 0.0
    requires forall x :: 0.0 <= x ==> 0.0 <= sqrt(x)
    ensures var q := QuoteOf(c, s, sqrt);
            q.pricedTotal >= 0.0 && 0.0 <= q.grandTotal <= q.pricedTotal
  {
    PricedTotalNonNegative(c, s, sqrt);
  }

  /** A percentage of 100 or more, or a fixed amount at least the priced total, takes the whole
      priced total and leaves a grand total of exactly zero. */
  lemma DiscountClampsToTotal(admin: Admin, pricedTotal: real)
    requires DiscountOn(admin) && pricedTotal >= 0.0
    requires (DiscountType(admin) == "pct" && admin.discountValue >= 100.0) ||
             (DiscountType(admin) == "fixed" && admin.discountValue >= pricedTotal && admin.discountValue > 0.0)
    ensures Discount(admin, pricedTotal) == pricedTotal
    ensures pricedTotal - Discount(admin, pricedTotal) == 0.0
  {
    var raw := RawDiscount(admin.discountValue, DiscountType(admin), pricedTotal);
    if DiscountType(admin) == "pct" {
      var k := admin.discountValue / 100.0;
      NonNegativeProduct(pricedTotal, k - 1.0);
      assert pricedTotal * k == pricedTotal * (k - 1.0) + pricedTotal;
    }
    assert raw >= pricedTotal;
  }

  /** With no ordinary item selected the subtotal is zero, so every percent-of-materials row
      costs nothing: the percentage never applies to itself. */
  lemma {:induction false} PctAloneIsFree(items: seq<Item>, selected: map<string, bool>, lp: LinePricing)
    requires forall it :: it in items && Selected(selected, it.id) ==> it.unit == PctOfMat
    ensures RawMatSub(items, selected, lp.ctx) == 0.0
    ensures lp.rawMatSub == RawMatSub(items, selected, lp.ctx) ==>
              forall l :: l in DeckLines(items, selected, lp) ==> l.rawMat == 0.0 && l.total == 0.0
    decreases |items|
  {
    if items != [] {
      var init := items[..|items| - 1];
      assert forall it :: it in init ==> it in items;
      PctAloneIsFree(init, selected, lp);
    }
    if lp.rawMatSub == RawMatSub(items, selected, lp.ctx) {
      forall l | l in DeckLines(items, selected, lp) ensures l.rawMat == 0.0 && l.total == 0.0 {
        DeckLinesExactly(items, selected, lp, l);
      }
    }
  }

  /** One deck-area item at 2 material and 3 labour per SF, and a single 25% tier. */
  function ExampleCatalog(): Catalog
  {
    Catalog([Item("decking", "Decking", DeckSqFt, 2.0, 3.0, "", false, false, 0.0)],
            [Tier(1000.0, 0.25)], Rules([], None, None, None))
  }

  /** A 25 x 20 ft deck with the decking selected and no override or discount. */
  function ExampleSnapshot(): Snapshot
  {
    Snapshot(25.0, 20.0, 0.0, 3.0, "permit", "yes", 0.0, 36.0, 0.0, 0.0,
             map["decking" := true], Admin(false, false, Some(0.0), false, "pct", 0.0))
  }

  /** The example deck has 500 SF, falls in the 25% tier, is not height-scaled and has a raw
      materials subtotal of 1000. */
  lemma ExamplePricing(sqrt: real -> real)
    ensures var lp := LinePricingOf(ExampleCatalog(), ExampleSnapshot(), sqrt);
            lp.ctx.deckSF == 500.0 && lp.pct == 0.25 && lp.heightMult == 1.0 && lp.rawMatSub == 1000.0
  {
    var c, s := ExampleCatalog(), ExampleSnapshot();
    var ctx := ContextOf(c, s, sqrt);
    assert ctx.deckSF == 500.0;
    assert c.markupTiers[1..] == [];
    assert MarkupPct(s.admin, c.markupTiers, ctx.deckSF) == 0.25;
    assert c.items[..0] == [];
    assert RawMatSub(c.items, s.selected, ctx) == 1000.0;
  }

  /** Its one row, priced at 500 SF and 25%: raw 1000 and 1500, marked up to 1250 and 1875. */
  lemma ExampleLine(lp: LinePricing)
    requires lp.ctx.deckSF == 500.0 && lp.pct == 0.25
    ensures LineFor(ExampleCatalog().items[0], lp) ==
            DeckLine("decking", "Decking", DeckSqFt, 500.0, 2.0, 3.0, 1000.0, 1500.0, 1250.0, 1875.0, 3125.0)
  {
  }

  /** The quote has exactly that row. */
  lemma ExampleLines(sqrt: real -> real)
    ensures DeckLines(ExampleCatalog().items, ExampleSnapshot().selected, LinePricingOf(ExampleCatalog(), ExampleSnapshot(), sqrt)) ==
            [DeckLine("decking", "Decking", DeckSqFt, 500.0, 2.0, 3.0, 1000.0, 1500.0, 1250.0, 1875.0, 3125.0)]
  {
    var c, s := ExampleCatalog(), ExampleSnapshot();
    ExamplePricing(sqrt);
    ExampleLine(LinePricingOf(c, s, sqrt));
    assert c.items[..0] == [];
  }

  /** Its quote: raw 1000 and 1500, and a priced and grand total of 3125. */
  lemma EndToEndExample(sqrt: real -> real)
    ensures var q := QuoteOf(ExampleCatalog(), ExampleSnapshot(), sqrt);
            q.deckSF == 500.0 && q.pct == 0.25 &&
            q.lines == [DeckLine("decking", "Decking", DeckSqFt, 500.0, 2.0, 3.0, 1000.0, 1500.0, 1250.0, 1875.0, 3125.0)] &&
            q.rawMat == 1000.0 && q.rawLab == 1500.0 && q.pricedTotal == 3125.0 && q.grandTotal == 3125.0
  {
    ExamplePricing(sqrt);
    ExampleLines(sqrt);
    var l := DeckLine("decking", "Decking", DeckSqFt, 500.0, 2.0, 3.0, 1000.0, 1500.0, 1250.0, 1875.0, 3125.0);
    SumBySingleton(l, RawMatOf);
    SumBySingleton(l, RawLabOf);
    SumBySingleton(l, TotalOf);
  }
}
