/** The interior quote engine of app.js: `getServiceMultiplier`, `calcQuote` with its inner
    `unitsFor` and `addLine`. The engine reads an explicit snapshot of the form (`Inputs`)
    and the loaded catalog (`QuoteData`). */
module InteriorQuote {
  import opened Common
  import opened InteriorGeometry

  /** Unit codes of the catalog; any other code is kept as `OtherUnit`. */
  datatype Unit =
    | FloorSF | WallSF | PaintSF | LinearFt
    | Each | EachFixture | EachDoor | DoorCasingLF
    | PctMat
    | OtherUnit(code: string)

  /** One entry of `scopeItems`, `fixtures`, `doors` or `addons`. */
  datatype Item = Item(key: string, name: string, unit: Unit)

  /** One entry of `rates`, keyed by item label; `mat`/`lab` as `Number(...)` reads them. */
  datatype Rate = Rate(mat: Option<real>, lab: Option<real>)

  /** `defaults` of the catalog; `None` is a missing or null entry. */
  datatype Defaults = Defaults(
    heightFt: Option<real>,
    materialsMarkup: Option<real>,
    laborMarkup: Option<real>,
    handymanMultiplier: Option<real>,
    contractorMultiplier: Option<real>)

  datatype QuoteData = QuoteData(
    defaults: Defaults,
    scopeItems: seq<Item>,
    fixtures: seq<Item>,
    doors: seq<Item>,
    addons: seq<Item>,
    rates: map<string, Rate>)

  /** The part of the page state that `calcQuote` reads. */
  datatype Inputs = Inputs(
    serviceType: string,
    geometry: GeometryInputs,
    scopeOn: map<string, bool>,
    fixtureQty: map<string, real>,
    doorQty: map<string, real>,
    addonOn: map<string, bool>,
    muMat: Option<real>,
    muLab: Option<real>,
    multHandy: Option<real>,
    multContract: Option<real>)

  datatype Line = Line(
    item: string, unit: Unit, units: real,
    mat: real, lab: real, sell: real,
    matRaw: real, labRaw: real)

  datatype Totals = Totals(totMat: real, totLab: real, totAll: real)

  datatype Quote = Quote(
    geometry: Geometry,
    muMat: real, muLab: real,
    serviceType: string, serviceMult: real,
    lines: seq<Line>,
    totals: Totals)

  const DefaultMuMat: real := 0.25
  const DefaultMuLab: real := 0.35
  const DefaultMultiplier: real := 1.0
  const DefaultConsumablesPct: real := 0.05
  const CasingLFPerDoor: real := 14.0
  const ConsumablesKey: string := "jobConsumables"
  const Handyman: string := "Handyman"

  /** The door and fixture keys whose quantities feed the door and fixture allowances. */
  const DoorKeys: seq<string> := ["doorHollow", "doorSolid", "doorCloset"]
  const FixtureKeys: seq<string> :=
    ["toilet", "vanityFaucet", "showerPkg", "kitchenSinkFaucet",
     "dishwasher", "fridgeIce", "barSinkFaucet", "upflush"]

  /** A toggle is on only when it is present and true (a missing key reads as undefined). */
  predicate Enabled(on: map<string, bool>, key: string)
  {
    key in on && on[key]
  }

  /** `toNum(qty[key], 0)`: a missing quantity counts as 0. */
  function QtyOf(qty: map<string, real>, key: string): real
  {
    if key in qty then qty[key] else 0.0
  }

  /** The sum of the quantities of `keys`, left to right; it is never negative when none of them is. */
  function TotalQty(qty: map<string, real>, keys: seq<string>): (r: real)
    ensures (forall k :: k in keys ==> QtyOf(qty, k) >= 0.0) ==> r >= 0.0
  {
    var f := (k: string) => QtyOf(qty, k);
    if forall k :: k in keys ==> QtyOf(qty, k) >= 0.0 then
      assert forall i :: 0 <= i < |keys| ==> keys[i] in keys;
      SumByNonNegative(keys, f);
      SumBy(keys, f)
    else SumBy(keys, f)
  }

  /** `totalDoors`: the hollow, solid and closet door quantities added up. */
  lemma DoorTotal(qty: map<string, real>)
    ensures TotalQty(qty, DoorKeys) == QtyOf(qty, "doorHollow") + QtyOf(qty, "doorSolid") + QtyOf(qty, "doorCloset")
  {
    var f := (k: string) => QtyOf(qty, k);
    assert DoorKeys[..2][..1][..0] == [];
    assert SumBy(DoorKeys[..1], f) == f("doorHollow");
    assert SumBy(DoorKeys[..2], f) == f("doorHollow") + f("doorSolid");
  }

  /** `totalFixtures`: the eight fixture quantities added up in catalog order. */
  lemma FixtureTotal(qty: map<string, real>)
    ensures TotalQty(qty, FixtureKeys) ==
            QtyOf(qty, "toilet") + QtyOf(qty, "vanityFaucet") + QtyOf(qty, "showerPkg") + QtyOf(qty, "kitchenSinkFaucet") +
            QtyOf(qty, "dishwasher") + QtyOf(qty, "fridgeIce") + QtyOf(qty, "barSinkFaucet") + QtyOf(qty, "upflush")
  {
    var f := (k: string) => QtyOf(qty, k);
    assert FixtureKeys[..1][..0] == [];
    assert SumBy(FixtureKeys[..1], f) == f("toilet");
    assert FixtureKeys[..2][..1] == FixtureKeys[..1];
    assert SumBy(FixtureKeys[..2], f) == f("toilet") + f("vanityFaucet");
    assert FixtureKeys[..3][..2] == FixtureKeys[..2];
    assert SumBy(FixtureKeys[..3], f) == SumBy(FixtureKeys[..2], f) + f("showerPkg");
    assert FixtureKeys[..4][..3] == FixtureKeys[..3];
    assert SumBy(FixtureKeys[..4], f) == SumBy(FixtureKeys[..3], f) + f("kitchenSinkFaucet");
    assert FixtureKeys[..5][..4] == FixtureKeys[..4];
    assert SumBy(FixtureKeys[..5], f) == SumBy(FixtureKeys[..4], f) + f("dishwasher");
    assert FixtureKeys[..6][..5] == FixtureKeys[..5];
    assert SumBy(FixtureKeys[..6], f) == SumBy(FixtureKeys[..5], f) + f("fridgeIce");
    assert FixtureKeys[..7][..6] == FixtureKeys[..6];
    assert SumBy(FixtureKeys[..7], f) == SumBy(FixtureKeys[..6], f) + f("barSinkFaucet");
    assert FixtureKeys[..8][..7] == FixtureKeys[..7];
    assert FixtureKeys[..8] == FixtureKeys;
  }

  /** `getServiceMultiplier`: the handyman multiplier for "Handyman", the contractor one for
      every other service type, each falling back to 1.0 when not finite. */
  function ServiceMultiplier(serviceType: string, multHandy: Option<real>, multContract: Option<real>): (r: real)
    ensures serviceType == Handyman ==> r == ToNum(multHandy, DefaultMultiplier)
    ensures serviceType != Handyman ==> r == ToNum(multContract, DefaultMultiplier)
  {
    if serviceType == Handyman then ToNum(multHandy, DefaultMultiplier)
    else ToNum(multContract, DefaultMultiplier)
  }

  /** Everything a line's price depends on, fixed once per quote. */
  datatype Pricing = Pricing(
    g: Geometry,
    rates: map<string, Rate>,
    muMat: real, muLab: real, serviceMult: real,
    totalFixtures: real, totalDoors: real)

  /** `unitsFor`: the billable quantity of a unit code. */
  function UnitsFor(u: Unit, p: Pricing): (r: real)
    ensures u == FloorSF ==> r == p.g.areaSF
    ensures u == WallSF ==> r == p.g.wallSF
    ensures u == PaintSF ==> r == p.g.paintSF
    ensures u == LinearFt ==> r == p.g.perimeterLF
    ensures u == Each ==> r == 1.0
    ensures u == EachFixture ==> r == p.totalFixtures
    ensures u == EachDoor ==> r == p.totalDoors
    ensures u == DoorCasingLF ==> r == CasingLFPerDoor * p.totalDoors
    ensures u.PctMat? || u.OtherUnit? ==> r == 0.0
    ensures (p.g.areaSF >= 0.0 && p.g.wallSF >= 0.0 && p.g.paintSF >= 0.0 && p.g.perimeterLF >= 0.0 &&
             p.totalFixtures >= 0.0 && p.totalDoors >= 0.0) ==> r >= 0.0
  {
    match u
    case FloorSF => p.g.areaSF
    case WallSF => p.g.wallSF
    case PaintSF => p.g.paintSF
    case LinearFt => p.g.perimeterLF
    case Each => 1.0
    case EachFixture => p.totalFixtures
    case EachDoor => p.totalDoors
    case DoorCasingLF => p.totalDoors * CasingLFPerDoor
    case _ => 0.0
  }

  /** A line whose prices follow from its raw costs: markup per side, then the service multiplier. */
  predicate MarkedUp(l: Line, p: Pricing)
  {
    l.mat == l.matRaw * (1.0 + p.muMat) &&
    l.lab == l.labRaw * (1.0 + p.muLab) &&
    l.sell == (l.mat + l.lab) * p.serviceMult
  }

  /** A line priced from its rate entry: raw cost is units times the rate (0 when not finite). */
  predicate RatedLine(l: Line, p: Pricing)
  {
    l.units > 0.0 && l.item in p.rates &&
    l.matRaw == l.units * ToNum(p.rates[l.item].mat, 0.0) &&
    l.labRaw == l.units * ToNum(p.rates[l.item].lab, 0.0)
  }

  /** `addLine`: nothing for non-positive units or a label without a rate entry, otherwise
      one marked-up line priced from that entry. */
  function AddLine(p: Pricing, name: string, unit: Unit, units: real): (r: seq<Line>)
    ensures |r| <= 1
    ensures |r| == 1 <==> units > 0.0 && name in p.rates
    ensures |r| == 1 ==>
              r[0].item == name && r[0].unit == unit && r[0].units == units &&
              RatedLine(r[0], p) && MarkedUp(r[0], p)
  {
    if !(units > 0.0) || name !in p.rates then []
    else
      var rate := p.rates[name];
      var matRaw := units * ToNum(rate.mat, 0.0);
      var labRaw := units * ToNum(rate.lab, 0.0);
      var mat := matRaw * (1.0 + p.muMat);
      var lab := labRaw * (1.0 + p.muLab);
      [Line(name, unit, units, mat, lab, (mat + lab) * p.serviceMult, matRaw, labRaw)]
  }

  /** The line an enabled scope item contributes. */
  function ScopeLine(s: Item, on: map<string, bool>, p: Pricing): seq<Line>
  {
    if Enabled(on, s.key) then AddLine(p, s.name, s.unit, UnitsFor(s.unit, p)) else []
  }

  /** The line a fixture or door with a positive quantity contributes, billed as "EACH". */
  function QtyLine(f: Item, qty: map<string, real>, p: Pricing): seq<Line>
  {
    if QtyOf(qty, f.key) > 0.0 then AddLine(p, f.name, Each, QtyOf(qty, f.key)) else []
  }

  /** The line an enabled add-on contributes; percent-of-materials add-ons wait for the second pass. */
  function AddonLine(a: Item, on: map<string, bool>, p: Pricing): seq<Line>
  {
    if Enabled(on, a.key) && a.unit != PctMat then AddLine(p, a.name, a.unit, UnitsFor(a.unit, p)) else []
  }

  /** The lines a catalog list contributes, item by item in catalog order (one `forEach`). */
  function LinesOf(items: seq<Item>, lineFor: Item -> seq<Line>): seq<Line>
  {
    if items == [] then []
    else LinesOf(items[..|items| - 1], lineFor) + lineFor(items[|items| - 1])
  }

  function ScopeLines(items: seq<Item>, on: map<string, bool>, p: Pricing): seq<Line>
  {
    LinesOf(items, (s: Item) => ScopeLine(s, on, p))
  }

  function QtyLines(items: seq<Item>, qty: map<string, real>, p: Pricing): seq<Line>
  {
    LinesOf(items, (f: Item) => QtyLine(f, qty, p))
  }

  function AddonLines(items: seq<Item>, on: map<string, bool>, p: Pricing): seq<Line>
  {
    LinesOf(items, (a: Item) => AddonLine(a, on, p))
  }

  /** The first pass: scope, fixtures, doors, then add-ons, each in catalog order. */
  function BaseLines(d: QuoteData, inp: Inputs, p: Pricing): seq<Line>
  {
    ScopeLines(d.scopeItems, inp.scopeOn, p)
      + QtyLines(d.fixtures, inp.fixtureQty, p)
      + QtyLines(d.doors, inp.doorQty, p)
      + AddonLines(d.addons, inp.addonOn, p)
  }

  function MatRawOf(l: Line): real { l.matRaw }
  function MatOf(l: Line): real { l.mat }
  function LabOf(l: Line): real { l.lab }
  function SellOf(l: Line): real { l.sell }

  predicate IsConsumables(a: Item)
  {
    a.unit == PctMat && a.key == ConsumablesKey
  }

  /** `addons.find(...)`: the first percent-of-materials add-on keyed "jobConsumables". */
  function FindConsumables(addons: seq<Item>): (r: Option<Item>)
    ensures r.None? <==> forall a :: a in addons ==> !IsConsumables(a)
    ensures r.Some? ==> r.value in addons && IsConsumables(r.value)
    // `find` stops at the first match: no add-on listed before the one returned matches
    ensures r.Some? ==> exists i :: 0 <= i < |addons| && addons[i] == r.value &&
                                    forall j :: 0 <= j < i ==> !IsConsumables(addons[j])
  {
    if addons == [] then None
    else if IsConsumables(addons[0]) then Some(addons[0])
    else
      var r := FindConsumables(addons[1..]);
      assert r.Some? ==> exists i :: 0 <= i < |addons| && addons[i] == r.value && forall j :: 0 <= j < i ==> !IsConsumables(addons[j]) by {
        if r.Some? {
          var i :| 0 <= i < |addons[1..]| && addons[1..][i] == r.value && forall j :: 0 <= j < i ==> !IsConsumables(addons[1..][j]);
          NoConsumablesBefore(addons, i);
        }
      }
      r
  }

  /** A match at index `i` of the tail, with none before it there and none at the head, is a match
      at index `i + 1` of the whole list with none before it. */
  lemma NoConsumablesBefore(addons: seq<Item>, i: int)
    requires addons != [] && !IsConsumables(addons[0]) && 0 <= i < |addons| - 1
    requires forall j :: 0 <= j < i ==> !IsConsumables(addons[1..][j])
    ensures addons[i + 1] == addons[1..][i]
    ensures forall j :: 0 <= j < i + 1 ==> !IsConsumables(addons[j])
  {
    forall j | 1 <= j < i + 1 ensures !IsConsumables(addons[j]) {
      assert addons[j] == addons[1..][j - 1];
    }
  }

  /** The fraction the consumables line charges: its rate's material entry, 0.05 when the
      entry or the rate is missing. */
  function ConsumablesPct(rates: map<string, Rate>, name: string): real
  {
    ToNum(if name in rates then rates[name].mat else None, DefaultConsumablesPct)
  }

  /** The consumables line: the fraction of the raw-material subtotal, marked up as material,
      with no labour, then the service multiplier. Its `units` show the fraction as a percent. */
  function ConsumablesLine(a: Item, rates: map<string, Rate>, p: Pricing, rawMaterialSubtotal: real): (l: Line)
    ensures l.item == a.name && l.unit == PctMat
    ensures l.matRaw == rawMaterialSubtotal * ConsumablesPct(rates, a.name)
    ensures l.labRaw == 0.0 && l.lab == 0.0
    ensures l.units == ConsumablesPct(rates, a.name) * 100.0
    ensures MarkedUp(l, p)
  {
    var pct := ConsumablesPct(rates, a.name);
    var matRaw := rawMaterialSubtotal * pct;
    var mat := matRaw * (1.0 + p.muMat);
    var lab := 0.0;
    Line(a.name, PctMat, pct * 100.0, mat, lab, (mat + lab) * p.serviceMult, matRaw, 0.0)
  }

  /** The second pass: at most one consumables line, charged on the raw materials of `base`. */
  function ConsumablesLines(d: QuoteData, on: map<string, bool>, p: Pricing, base: seq<Line>): seq<Line>
  {
    match FindConsumables(d.addons)
    case None => []
    case Some(a) =>
      if Enabled(on, a.key) then [ConsumablesLine(a, d.rates, p, SumBy(base, MatRawOf))] else []
  }

  function TotalsOf(lines: seq<Line>): Totals
  {
    Totals(SumBy(lines, MatOf), SumBy(lines, LabOf), SumBy(lines, SellOf))
  }

  function PricingOf(d: QuoteData, inp: Inputs, g: Geometry): Pricing
  {
    Pricing(g, d.rates,
            ToNum(inp.muMat, DefaultMuMat), ToNum(inp.muLab, DefaultMuLab),
            ServiceMultiplier(inp.serviceType, inp.multHandy, inp.multContract),
            TotalQty(inp.fixtureQty, FixtureKeys), TotalQty(inp.doorQty, DoorKeys))
  }

  /** What `calcQuote` returns: `None` (null) when the area is not positive. */
  function QuoteOf(d: QuoteData, inp: Inputs, sqrt: real -> real): (q: Option<Quote>)
    // null exactly when the area does not come out positive
    ensures q.None? <==> !(ComputeGeometry(inp.geometry, sqrt).areaSF > 0.0)
    // a quote shows the geometry, the markups read with their defaults and the service multiplier
    ensures q.Some? ==> q.value.geometry == ComputeGeometry(inp.geometry, sqrt) &&
                        q.value.muMat == ToNum(inp.muMat, DefaultMuMat) && q.value.muLab == ToNum(inp.muLab, DefaultMuLab) &&
                        q.value.serviceType == inp.serviceType &&
                        q.value.serviceMult == ServiceMultiplier(inp.serviceType, inp.multHandy, inp.multContract)
  {
    var g := ComputeGeometry(inp.geometry, sqrt);
    if !(g.areaSF > 0.0) then None
    else
      var p := PricingOf(d, inp, g);
      var base := BaseLines(d, inp, p);
      var lines := base + ConsumablesLines(d, inp.addonOn, p, base);
      Some(Quote(g, p.muMat, p.muLab, inp.serviceType, p.serviceMult, lines, TotalsOf(lines)))
  }

  /** The `scopeItems.forEach` pass of `calcQuote`. */
  method PushScopeLines(lines0: seq<Line>, items: seq<Item>, on: map<string, bool>, p: Pricing) returns (lines: seq<Line>)
    ensures lines == lines0 + ScopeLines(items, on, p)
  {
    lines := lines0;
    for i := 0 to |items|
      invariant lines == lines0 + ScopeLines(items[..i], on, p)
    {
      assert items[..i + 1][..i] == items[..i];
      var s := items[i];
      if Enabled(on, s.key) {
        lines := lines + AddLine(p, s.name, s.unit, UnitsFor(s.unit, p));
      }
    }
    assert items[..|items|] == items;
  }

  /** The `fixtures.forEach` and `doors.forEach` passes of `calcQuote`. */
  method PushQtyLines(lines0: seq<Line>, items: seq<Item>, qty: map<string, real>, p: Pricing) returns (lines: seq<Line>)
    ensures lines == lines0 + QtyLines(items, qty, p)
  {
    lines := lines0;
    for i := 0 to |items|
      invariant lines == lines0 + QtyLines(items[..i], qty, p)
    {
      assert items[..i + 1][..i] == items[..i];
      var f := items[i];
      var q := QtyOf(qty, f.key);
      if q > 0.0 {
        lines := lines + AddLine(p, f.name, Each, q);
      }
    }
    assert items[..|items|] == items;
  }

  /** The `addons.forEach` pass of `calcQuote`, which leaves percent-of-materials add-ons out. */
  method PushAddonLines(lines0: seq<Line>, items: seq<Item>, on: map<string, bool>, p: Pricing) returns (lines: seq<Line>)
    ensures lines == lines0 + AddonLines(items, on, p)
  {
    lines := lines0;
    for i := 0 to |items|
      invariant lines == lines0 + AddonLines(items[..i], on, p)
    {
      assert items[..i + 1][..i] == items[..i];
      var a := items[i];
      if Enabled(on, a.key) && a.unit != PctMat {
        lines := lines + AddLine(p, a.name, a.unit, UnitsFor(a.unit, p));
      }
    }
    assert items[..|items|] == items;
  }

  /** The `reduce` calls of `calcQuote`: raw materials, and the three totals. */
  method SumLines(lines: seq<Line>) returns (rawMat: real, totals: Totals)
    ensures rawMat == SumBy(lines, MatRawOf)
    ensures totals == TotalsOf(lines)
  {
    rawMat := 0.0;
    var totMat, totLab, totAll := 0.0, 0.0, 0.0;
    for i := 0 to |lines|
      invariant rawMat == SumBy(lines[..i], MatRawOf)
      invariant totMat == SumBy(lines[..i], MatOf)
      invariant totLab == SumBy(lines[..i], LabOf)
      invariant totAll == SumBy(lines[..i], SellOf)
    {
      assert lines[..i + 1][..i] == lines[..i];
      rawMat := rawMat + lines[i].matRaw;
      totMat, totLab, totAll := totMat + lines[i].mat, totLab + lines[i].lab, totAll + lines[i].sell;
    }
    assert lines[..|lines|] == lines;
    totals := Totals(totMat, totLab, totAll);
  }

  /** `calcQuote`: refuses a non-positive area, pushes the lines in catalog order, then the
      consumables line from the raw-material subtotal, then sums the totals. */
  method CalcQuote(d: QuoteData, inp: Inputs, sqrt: real -> real) returns (q: Option<Quote>)
    ensures q == QuoteOf(d, inp, sqrt)
  {
    var g := ComputeGeometry(inp.geometry, sqrt);
    if !(g.areaSF > 0.0) {
      return None;
    }
    var p := PricingOf(d, inp, g);
    var lines := PushBaseLines(d, inp, p);
    lines := PushConsumablesLine(lines, d, inp.addonOn, p);
    var _, totals := SumLines(lines);
    q := Some(Quote(g, p.muMat, p.muLab, inp.serviceType, p.serviceMult, lines, totals));
  }

  /** The four `forEach` passes of `calcQuote`, in order: scope, fixtures, doors, add-ons. */
  method PushBaseLines(d: QuoteData, inp: Inputs, p: Pricing) returns (lines: seq<Line>)
    ensures lines == BaseLines(d, inp, p)
  {
    lines := PushScopeLines([], d.scopeItems, inp.scopeOn, p);
    lines := PushQtyLines(lines, d.fixtures, inp.fixtureQty, p);
    lines := PushQtyLines(lines, d.doors, inp.doorQty, p);
    lines := PushAddonLines(lines, d.addons, inp.addonOn, p);
  }

  /** The consumables step of `calcQuote`: the raw material subtotal of the lines so far, then
      the consumables line when that add-on exists and is switched on. */
  method PushConsumablesLine(base: seq<Line>, d: QuoteData, on: map<string, bool>, p: Pricing) returns (lines: seq<Line>)
    ensures lines == base + ConsumablesLines(d, on, p, base)
  {
    var rawMaterialSubtotal, _ := SumLines(base);
    lines := base;
    var pctAddon := FindConsumables(d.addons);
    if pctAddon.Some? && Enabled(on, pctAddon.value.key) {
      lines := lines + [ConsumablesLine(pctAddon.value, d.rates, p, rawMaterialSubtotal)];
    }
  }
}
