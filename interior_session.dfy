/** The page state of the interior quote (app.js `state`) and `initDefaultsFromData`, which
    fills it in place from the loaded catalog. */
module InteriorSession {
  import opened Common
  import opened InteriorGeometry
  import opened InteriorQuote
  import opened InteriorQuoteFacts

  const Subpanel: string := "subpanel"
  const Contractor: string := "Contractor"
  const DefaultCustomer: string := "Haroon Malik"

  /** The keys of a catalog list. */
  function KeysOf(items: seq<Item>): set<string>
  {
    set it | it in items :: it.key
  }

  /** `items.forEach(x => m[x.key] = value(x.key))` on `m0`, one item after the other. */
  function WithKeys<V>(m0: map<string, V>, items: seq<Item>, value: string -> V): (r: map<string, V>)
    // the loop adds exactly the catalog keys
    ensures r.Keys == m0.Keys + KeysOf(items)
  {
    if items == [] then m0
    else
      var init, last := items[..|items| - 1], items[|items| - 1];
      assert items == init + [last];
      assert KeysOf(items) == KeysOf(init) + {last.key};
      WithKeys(m0, init, value)[last.key := value(last.key)]
  }

  /** Every key of the list is set (a repeated key gets the same value again) and every other
      entry stays. */
  lemma {:induction false} WithKeysExactly<V>(m0: map<string, V>, items: seq<Item>, value: string -> V)
    ensures forall k :: k in WithKeys(m0, items, value) <==> k in m0 || k in KeysOf(items)
    ensures forall k :: k in WithKeys(m0, items, value) ==>
              WithKeys(m0, items, value)[k] == if k in KeysOf(items) then value(k) else m0[k]
  {
    if items != [] {
      var init, last := items[..|items| - 1], items[|items| - 1];
      assert items == init + [last];
      assert KeysOf(items) == KeysOf(init) + {last.key};
      WithKeysExactly(m0, init, value);
    }
  }

  /** The default of a scope toggle: on, except for "subpanel". */
  function ScopeDefault(key: string): bool { key != Subpanel }

  /** The default of an add-on toggle: on. */
  function AddonDefault(key: string): bool { true }

  /** The default quantity of a fixture or door: 0. */
  function QtyDefault(key: string): real { 0.0 }

  /** The `forEach` loop of `initDefaultsFromData` over one catalog list. */
  method SetEach<V>(m0: map<string, V>, items: seq<Item>, value: string -> V) returns (m: map<string, V>)
    ensures m == WithKeys(m0, items, value)
  {
    m := m0;
    for i := 0 to |items|
      invariant m == WithKeys(m0, items[..i], value)
    {
      assert items[..i + 1][..i] == items[..i];
      m := m[items[i].key := value(items[i].key)];
    }
    assert items[..|items|] == items;
  }

  class QuoteState {
    var serviceType: string
    var areaSF: Option<real>
    var lengthFt: Option<real>
    var widthFt: Option<real>
    var perimeterOverride: Option<real>
    var heightFt: Option<real>
    var custName: string
    var scopeOn: map<string, bool>
    var fixtureQty: map<string, real>
    var doorQty: map<string, real>
    var addonOn: map<string, bool>
    var muMat: Option<real>
    var muLab: Option<real>
    var multHandy: Option<real>
    var multContract: Option<real>

    /** The state before the catalog is loaded; an empty text field reads as `Number("")`, 0. */
    constructor ()
      ensures serviceType == Contractor && custName == []
      ensures areaSF == Some(0.0) && lengthFt == Some(0.0) && widthFt == Some(0.0) && perimeterOverride == Some(0.0)
      ensures heightFt == Some(DefaultHeightFt)
      ensures scopeOn == map[] && fixtureQty == map[] && doorQty == map[] && addonOn == map[]
      ensures muMat == Some(DefaultMuMat) && muLab == Some(DefaultMuLab)
      ensures multHandy == Some(DefaultMultiplier) && multContract == Some(DefaultMultiplier)
    {
      serviceType := Contractor;
      areaSF, lengthFt, widthFt, perimeterOverride := Some(0.0), Some(0.0), Some(0.0), Some(0.0);
      heightFt := Some(DefaultHeightFt);
      custName := [];
      scopeOn, fixtureQty, doorQty, addonOn := map[], map[], map[], map[];
      muMat, muLab := Some(DefaultMuMat), Some(DefaultMuLab);
      multHandy, multContract := Some(DefaultMultiplier), Some(DefaultMultiplier);
    }

    /** The snapshot `calcQuote` reads. */
    function Snapshot(): Inputs
      reads this
    {
      Inputs(serviceType,
             GeometryInputs(areaSF, lengthFt, widthFt, perimeterOverride, heightFt),
             scopeOn, fixtureQty, doorQty, addonOn,
             muMat, muLab, multHandy, multContract)
    }

    /** `initDefaultsFromData`: height, markups and multipliers from the catalog defaults
        (each with its fallback), every scope toggle on except "subpanel", every add-on on,
        every fixture and door quantity 0, and the default customer name. */
    method InitDefaultsFromData(d: QuoteData)
      modifies this`heightFt, this`muMat, this`muLab, this`multHandy, this`multContract
      modifies this`scopeOn, this`addonOn, this`fixtureQty, this`doorQty, this`custName
      ensures heightFt == Some(d.defaults.heightFt.GetOr(DefaultHeightFt))
      ensures muMat == Some(d.defaults.materialsMarkup.GetOr(DefaultMuMat))
      ensures muLab == Some(d.defaults.laborMarkup.GetOr(DefaultMuLab))
      ensures multHandy == Some(d.defaults.handymanMultiplier.GetOr(DefaultMultiplier))
      ensures multContract == Some(d.defaults.contractorMultiplier.GetOr(DefaultMultiplier))
      ensures scopeOn == WithKeys(old(scopeOn), d.scopeItems, ScopeDefault)
      ensures addonOn == WithKeys(old(addonOn), d.addons, AddonDefault)
      ensures fixtureQty == WithKeys(old(fixtureQty), d.fixtures, QtyDefault)
      ensures doorQty == WithKeys(old(doorQty), d.doors, QtyDefault)
      ensures custName == DefaultCustomer
    {
      InitNumbers(d);
      InitToggles(d);
      custName := DefaultCustomer;
    }

    /** The number fields of `initDefaultsFromData`: each catalog default, or its fallback. */
    method InitNumbers(d: QuoteData)
      modifies this`heightFt, this`muMat, this`muLab, this`multHandy, this`multContract
      ensures heightFt == Some(d.defaults.heightFt.GetOr(DefaultHeightFt))
      ensures muMat == Some(d.defaults.materialsMarkup.GetOr(DefaultMuMat))
      ensures muLab == Some(d.defaults.laborMarkup.GetOr(DefaultMuLab))
      ensures multHandy == Some(d.defaults.handymanMultiplier.GetOr(DefaultMultiplier))
      ensures multContract == Some(d.defaults.contractorMultiplier.GetOr(DefaultMultiplier))
    {
      heightFt, muMat, muLab, multHandy, multContract :=
        Some(d.defaults.heightFt.GetOr(DefaultHeightFt)),
        Some(d.defaults.materialsMarkup.GetOr(DefaultMuMat)),
        Some(d.defaults.laborMarkup.GetOr(DefaultMuLab)),
        Some(d.defaults.handymanMultiplier.GetOr(DefaultMultiplier)),
        Some(d.defaults.contractorMultiplier.GetOr(DefaultMultiplier));
    }

    /** The four `forEach` loops of `initDefaultsFromData`: every catalog key gets its default. */
    method InitToggles(d: QuoteData)
      modifies this`scopeOn, this`addonOn, this`fixtureQty, this`doorQty
      ensures scopeOn == WithKeys(old(scopeOn), d.scopeItems, ScopeDefault)
      ensures addonOn == WithKeys(old(addonOn), d.addons, AddonDefault)
      ensures fixtureQty == WithKeys(old(fixtureQty), d.fixtures, QtyDefault)
      ensures doorQty == WithKeys(old(doorQty), d.doors, QtyDefault)
    {
      scopeOn := SetEach(scopeOn, d.scopeItems, ScopeDefault);
      addonOn := SetEach(addonOn, d.addons, AddonDefault);
      fixtureQty := SetEach(fixtureQty, d.fixtures, QtyDefault);
      doorQty := SetEach(doorQty, d.doors, QtyDefault);
    }

    /** `calcQuote()` as the page calls it: on the fields of the current state. */
    method CurrentQuote(d: QuoteData, sqrt: real -> real) returns (q: Option<Quote>)
      ensures q == QuoteOf(d, Snapshot(), sqrt)
    {
      q := CalcQuote(d, Snapshot(), sqrt);
    }
  }

  /** Right after the defaults are applied, fixtures and doors contribute no line: every
      quantity of a catalog fixture or door is 0. */
  lemma NoQtyLinesAtDefaults(items: seq<Item>, qty0: map<string, real>, p: Pricing)
    ensures QtyLines(items, WithKeys(qty0, items, QtyDefault), p) == []
  {
    var qty := WithKeys(qty0, items, QtyDefault);
    WithKeysExactly(qty0, items, QtyDefault);
    if QtyLines(items, qty, p) != [] {
      var l := QtyLines(items, qty, p)[0];
      QtyLinesExactly(items, qty, p, l);
    }
  }
}
