/** What `calcQuote` promises about the quote it builds: which lines appear, in which order,
    how each is priced, the single trailing consumables line, and the totals. */
module InteriorQuoteFacts {
  import opened Common
  import opened InteriorGeometry
  import opened InteriorQuote

  /** Lines follow catalog order: the lines of a concatenated list are those of its parts, in order. */
  lemma {:induction false} LinesOfAppend(a: seq<Item>, b: seq<Item>, lineFor: Item -> seq<Line>)
    ensures LinesOf(a + b, lineFor) == LinesOf(a, lineFor) + LinesOf(b, lineFor)
    decreases |b|
  {
    if b == [] {
      assert a + b == a;
    } else {
      assert (a + b)[..|a + b| - 1] == a + b[..|b| - 1];
      assert (a + b)[|a + b| - 1] == b[|b| - 1];
      LinesOfAppend(a, b[..|b| - 1], lineFor);
    }
  }

  /** A line is in a list's lines exactly when some item of the list contributes it. */
  lemma {:induction false} LinesOfMember(items: seq<Item>, lineFor: Item -> seq<Line>, l: Line)
    ensures l in LinesOf(items, lineFor) <==> exists it :: it in items && l in lineFor(it)
    decreases |items|
  {
    if items != [] {
      var init, last := items[..|items| - 1], items[|items| - 1];
      LinesOfMember(init, lineFor, l);
      assert items == init + [last];
      if l in LinesOf(items, lineFor) {
        if l in LinesOf(init, lineFor) {
          var it :| it in init && l in lineFor(it);
          assert it in items;
        } else {
          assert l in lineFor(last);
        }
      }
    }
  }

  /** Scope lines are exactly the priced lines of enabled scope items with positive units and a rate. */
  lemma ScopeLinesExactly(items: seq<Item>, on: map<string, bool>, p: Pricing, l: Line)
    ensures l in ScopeLines(items, on, p) <==>
              exists s :: s in items && Enabled(on, s.key) && UnitsFor(s.unit, p) > 0.0 && s.name in p.rates &&
                          [l] == AddLine(p, s.name, s.unit, UnitsFor(s.unit, p))
  {
    LinesOfMember(items, (s: Item) => ScopeLine(s, on, p), l);
  }

  /** Fixture and door lines are exactly the lines of items with a positive quantity and a rate;
      a zero quantity never shows up as a line. */
  lemma QtyLinesExactly(items: seq<Item>, qty: map<string, real>, p: Pricing, l: Line)
    ensures l in QtyLines(items, qty, p) <==>
              exists f :: f in items && QtyOf(qty, f.key) > 0.0 && f.name in p.rates &&
                          [l] == AddLine(p, f.name, Each, QtyOf(qty, f.key))
  {
    LinesOfMember(items, (f: Item) => QtyLine(f, qty, p), l);
  }

  /** Add-on lines are exactly the priced lines of enabled add-ons that are not percent-of-materials. */
  lemma AddonLinesExactly(items: seq<Item>, on: map<string, bool>, p: Pricing, l: Line)
    ensures l in AddonLines(items, on, p) <==>
              exists a :: a in items && Enabled(on, a.key) && a.unit != PctMat &&
                          UnitsFor(a.unit, p) > 0.0 && a.name in p.rates &&
                          [l] == AddLine(p, a.name, a.unit, UnitsFor(a.unit, p))
  {
    LinesOfMember(items, (a: Item) => AddonLine(a, on, p), l);
  }

  /** Every first-pass line has positive units, an existing rate entry, the markups and the
      service multiplier applied, and a unit other than percent-of-materials. */
  lemma BaseLinesRated(d: QuoteData, inp: Inputs, p: Pricing)
    ensures forall l :: l in BaseLines(d, inp, p) ==> RatedLine(l, p) && MarkedUp(l, p) && l.unit != PctMat
  {
    forall l | l in BaseLines(d, inp, p)
      ensures RatedLine(l, p) && MarkedUp(l, p) && l.unit != PctMat
    {
      ScopeLinesExactly(d.scopeItems, inp.scopeOn, p, l);
      QtyLinesExactly(d.fixtures, inp.fixtureQty, p, l);
      QtyLinesExactly(d.doors, inp.doorQty, p, l);
      AddonLinesExactly(d.addons, inp.addonOn, p, l);
    }
  }

  /** No first-pass line is a percent-of-materials line. */
  lemma BaseLinesNotPct(d: QuoteData, inp: Inputs, p: Pricing)
    ensures forall l :: l in BaseLines(d, inp, p) ==> l.unit != PctMat
  {
    BaseLinesRated(d, inp, p);
  }

  /** `calcQuote` returns null exactly when neither both dimensions nor the typed area are positive. */
  lemma QuoteGate(d: QuoteData, inp: Inputs, sqrt: real -> real)
    ensures QuoteOf(d, inp, sqrt).None? <==>
              !((ToNum(inp.geometry.lengthFt, 0.0) > 0.0 && ToNum(inp.geometry.widthFt, 0.0) > 0.0) ||
                ToNum(inp.geometry.areaSF, 0.0) > 0.0)
  {
    AreaResolvedIff(inp.geometry, sqrt);
  }

  /** A quote's lines are the first-pass lines followed by the consumables pass. */
  lemma QuoteParts(d: QuoteData, inp: Inputs, sqrt: real -> real) returns (q: Quote, p: Pricing, base: seq<Line>)
    requires QuoteOf(d, inp, sqrt).Some?
    ensures QuoteOf(d, inp, sqrt) == Some(q)
    ensures p == PricingOf(d, inp, q.geometry)
    ensures base == BaseLines(d, inp, p)
    ensures q.lines == base + ConsumablesLines(d, inp.addonOn, p, base)
    ensures q.serviceMult == p.serviceMult
    ensures q.totals == TotalsOf(q.lines)
  {
    q := QuoteOf(d, inp, sqrt).value;
    p := PricingOf(d, inp, q.geometry);
    base := BaseLines(d, inp, p);
  }

  /** Every line of a quote has the markups and the service multiplier applied, and every line but
      the consumables line is priced from its rate entry with positive units. */
  lemma QuoteLinesPriced(d: QuoteData, inp: Inputs, sqrt: real -> real)
    requires QuoteOf(d, inp, sqrt).Some?
    ensures var q := QuoteOf(d, inp, sqrt).value;
            var p := PricingOf(d, inp, q.geometry);
            (forall l :: l in q.lines ==> MarkedUp(l, p)) &&
            (forall l :: l in q.lines && l.unit != PctMat ==> RatedLine(l, p))
  {
    var q, p, base := QuoteParts(d, inp, sqrt);
    BaseLinesRated(d, inp, p);
  }

  /** At most one percent-of-materials line, the last one, charging its percentage on the raw
      materials of all lines before it, with no labour. */
  predicate ConsumablesOnlyLast(lines: seq<Line>, rates: map<string, Rate>)
  {
    (forall i :: 0 <= i < |lines| && lines[i].unit == PctMat ==> i == |lines| - 1) &&
    (|lines| > 0 && lines[|lines| - 1].unit == PctMat ==>
       ConsumablesCharged(lines[..|lines| - 1], lines[|lines| - 1], rates))
  }

  /** The line charges its percentage on the raw materials of `before`, with no labour. */
  predicate ConsumablesCharged(before: seq<Line>, l: Line, rates: map<string, Rate>)
  {
    l.matRaw == SumBy(before, MatRawOf) * ConsumablesPct(rates, l.item) && l.labRaw == 0.0 && l.lab == 0.0
  }

  /** Appending the consumables pass to lines of other units keeps the consumables line last. */
  lemma ConsumablesTail(d: QuoteData, on: map<string, bool>, p: Pricing, base: seq<Line>)
    requires forall l :: l in base ==> l.unit != PctMat
    ensures ConsumablesOnlyLast(base + ConsumablesLines(d, on, p, base), d.rates)
  {
    var extra := ConsumablesLines(d, on, p, base);
    if extra == [] {
      assert base + extra == base;
      forall i | 0 <= i < |base| ensures base[i].unit != PctMat {
        assert base[i] in base;
      }
    } else {
      var a := FindConsumables(d.addons).value;
      assert extra == [ConsumablesLine(a, d.rates, p, SumBy(base, MatRawOf))];
      AppendedPctLineLast(base, extra[0], d.rates);
    }
  }

  /** One percent-of-materials line appended to lines of other units, charging on their raw
      materials, is the only such line and the last. */
  lemma AppendedPctLineLast(base: seq<Line>, c: Line, rates: map<string, Rate>)
    requires forall l :: l in base ==> l.unit != PctMat
    requires c.unit == PctMat && ConsumablesCharged(base, c, rates)
    ensures ConsumablesOnlyLast(base + [c], rates)
  {
    var lines := base + [c];
    assert lines[..|lines| - 1] == base && lines[|lines| - 1] == c;
    forall i | 0 <= i < |base| ensures lines[i].unit != PctMat {
      assert lines[i] == base[i] && base[i] in base;
    }
  }

  /** In every quote at most one percent-of-materials line appears, it comes last, and it charges
      the percentage on the raw materials of all lines before it, with no labour. */
  lemma ConsumablesLast(d: QuoteData, inp: Inputs, sqrt: real -> real)
    requires QuoteOf(d, inp, sqrt).Some?
    ensures ConsumablesOnlyLast(QuoteOf(d, inp, sqrt).value.lines, d.rates)
  {
    var q, p, base := QuoteParts(d, inp, sqrt);
    BaseLinesNotPct(d, inp, p);
    ConsumablesTail(d, inp.addonOn, p, base);
  }

  /** Totals whose grand total is the material and labour totals times the multiplier. */
  predicate TotalsConsistent(t: Totals, serviceMult: real)
  {
    t.totAll == (t.totMat + t.totLab) * serviceMult
  }

  lemma TotalsOfMarkedUp(lines: seq<Line>, p: Pricing)
    requires forall l :: l in lines ==> MarkedUp(l, p)
    ensures TotalsConsistent(TotalsOf(lines), p.serviceMult)
  {
    forall i | 0 <= i < |lines|
      ensures SellOf(lines[i]) == (MatOf(lines[i]) + LabOf(lines[i])) * p.serviceMult
    {
      assert lines[i] in lines;
    }
    SumByScaled(lines, MatOf, LabOf, SellOf, p.serviceMult);
  }

  /** The grand total of every quote is its material and labour totals times the service multiplier. */
  lemma QuoteTotals(d: QuoteData, inp: Inputs, sqrt: real -> real)
    requires QuoteOf(d, inp, sqrt).Some?
    ensures TotalsConsistent(QuoteOf(d, inp, sqrt).value.totals, QuoteOf(d, inp, sqrt).value.serviceMult)
  {
    var q, p, base := QuoteParts(d, inp, sqrt);
    QuoteLinesPriced(d, inp, sqrt);
    TotalsOfMarkedUp(q.lines, p);
  }

  /** The consumables line is present exactly when the first "jobConsumables" percent add-on
      exists and is switched on. */
  lemma ConsumablesPresence(d: QuoteData, inp: Inputs, sqrt: real -> real)
    requires QuoteOf(d, inp, sqrt).Some?
    ensures var q := QuoteOf(d, inp, sqrt).value;
            (exists i :: 0 <= i < |q.lines| && q.lines[i].unit == PctMat) <==>
              FindConsumables(d.addons).Some? && Enabled(inp.addonOn, FindConsumables(d.addons).value.key)
  {
    var q := QuoteOf(d, inp, sqrt).value;
    var p := PricingOf(d, inp, q.geometry);
    var base := BaseLines(d, inp, p);
    BaseLinesRated(d, inp, p);
    var extra := ConsumablesLines(d, inp.addonOn, p, base);
    assert q.lines == base + extra;
    if FindConsumables(d.addons).Some? && Enabled(inp.addonOn, FindConsumables(d.addons).value.key) {
      assert q.lines[|base|].unit == PctMat;
    }
  }

  /** A quote whose only enabled item is the consumables add-on charges nothing for it: the
      percentage has no base to apply to, and never applies to itself. */
  lemma ConsumablesAloneIsFree(d: QuoteData, inp: Inputs, sqrt: real -> real)
    requires QuoteOf(d, inp, sqrt).Some?
    requires BaseLines(d, inp, PricingOf(d, inp, QuoteOf(d, inp, sqrt).value.geometry)) == []
    ensures forall l :: l in QuoteOf(d, inp, sqrt).value.lines ==> l.matRaw == 0.0 && l.sell == 0.0
  {
    var q := QuoteOf(d, inp, sqrt).value;
    var p := PricingOf(d, inp, q.geometry);
    assert q.lines == ConsumablesLines(d, inp.addonOn, p, []);
  }
}
