/** The deck quote's mutable `state` (deck/app.js): its initial values, the boot-time default
    selections, `enforceExclusive`, and `render`, which reads the form into the state, forces
    the ledger and permit-only selections, and prices the quote. */
module DeckSession {
  import opened Common
  import opened DeckRules
  import opened DeckPricing

  const LedgerId: string := "ledger_attach"

  /** The items switched on at boot unless the saved state says otherwise, in the order of the
      boot code. */
  const DefaultOnIds: seq<string> :=
    ["deck_framing", "footings", "surface_pt", "rail_pt", "permit_allow", "engineering_allow",
     "job_consumables", "ledger_attach"]

  /** The raw text of the input fields `render` reads. */
  datatype Form = Form(
    lenFt: string,
    widFt: string,
    deckSF: string,
    heightFt: string,
    permitMode: string,
    attached: string,
    stairSteps: string,
    stairWidth: string,
    footings: string,
    railLF: string)

  /** JavaScript's `x || d` on a number that is not NaN: zero falls back to `d`. */
  function OrElse(x: real, d: real): (r: real)
    ensures x == 0.0 ==> r == d
    ensures x != 0.0 ==> r == x
  {
    if x == 0.0 then d else x
  }

  /** Every entry of `ids` switched off, every other entry as it was. */
  function Deselect(selected: map<string, bool>, ids: set<string>): (r: map<string, bool>)
    ensures forall id :: id in ids ==> id in r && !r[id]
    ensures forall id :: id !in ids ==> (id in r <==> id in selected) && (id in selected ==> r[id] == selected[id])
  {
    selected + map id | id in ids :: false
  }

  /** Whether `it` is another member of `item`'s group. */
  predicate Sibling(it: Item, item: Item)
  {
    it.id != item.id && it.group == item.group
  }

  /** The ids of the other items in `item`'s group. */
  function SiblingIds(items: seq<Item>, item: Item): set<string>
  {
    set it | it in items && Sibling(it, item) :: it.id
  }

  /** The loop of `enforceExclusive`: each other member of the group, in catalog order, is
      switched off; every other entry is untouched. */
  function DeselectSiblings(selected: map<string, bool>, items: seq<Item>, item: Item): (r: map<string, bool>)
    ensures forall it :: it in items && Sibling(it, item) ==> it.id in r && !r[it.id]
    ensures forall id :: id !in SiblingIds(items, item) ==>
              (id in r <==> id in selected) && (id in selected ==> r[id] == selected[id])
  {
    if items == [] then selected
    else
      var init, last := items[..|items| - 1], items[|items| - 1];
      assert items == init + [last];
      assert SiblingIds(items, item) == SiblingIds(init, item) + (if Sibling(last, item) then {last.id} else {});
      var r := DeselectSiblings(selected, init, item);
      if Sibling(last, item) then r[last.id := false] else r
  }

  /** Switching the siblings off one by one is switching off the set of their ids at once. */
  lemma DeselectSiblingsIsDeselect(selected: map<string, bool>, items: seq<Item>, item: Item)
    ensures DeselectSiblings(selected, items, item) == Deselect(selected, SiblingIds(items, item))
  {
    var r, e := DeselectSiblings(selected, items, item), Deselect(selected, SiblingIds(items, item));
    forall id | id in SiblingIds(items, item) ensures id in r && !r[id] {
      var it :| it in items && Sibling(it, item) && it.id == id;
    }
    assert r.Keys == e.Keys;
    forall id | id in r ensures r[id] == e[id] {
    }
  }

  /** The selection after `enforceExclusive(item)`: nothing changes for an item without a group;
      otherwise every other member of its group is switched off, and the item itself and every
      id outside the group keep their entries. */
  function Exclusive(selected: map<string, bool>, items: seq<Item>, item: Item): (r: map<string, bool>)
    ensures item.group == "" ==> r == selected
    ensures item.group != "" ==> forall it :: it in items && Sibling(it, item) ==> it.id in r && !r[it.id]
    ensures forall id :: id !in SiblingIds(items, item) ==>
              (id in r <==> id in selected) && (id in selected ==> r[id] == selected[id])
    ensures item.id !in SiblingIds(items, item)
  {
    if item.group == "" then selected else DeselectSiblings(selected, items, item)
  }

  /** `state.selected[k] ??= true` for each id of `ids` in turn. */
  function WithDefaults(selected: map<string, bool>, ids: seq<string>): (r: map<string, bool>)
    // the defaults add exactly the listed ids as keys
    ensures r.Keys == selected.Keys + set id | id in ids
  {
    if ids == [] then selected
    else
      var r := WithDefaults(selected, ids[..|ids| - 1]);
      var k := ids[|ids| - 1];
      assert ids == ids[..|ids| - 1] + [k];
      if k in r then r else r[k := true]
  }

  /** The defaults switch on exactly the listed ids that have no entry yet: every listed id ends
      up with an entry, a saved entry is never overwritten, and unlisted ids are untouched. */
  lemma {:induction false} WithDefaultsSwitchesUnset(selected: map<string, bool>, ids: seq<string>)
    ensures forall id :: id in ids ==> id in WithDefaults(selected, ids) && (id in selected ==> WithDefaults(selected, ids)[id] == selected[id]) && (id !in selected ==> WithDefaults(selected, ids)[id])
    ensures forall id :: id !in ids ==> (id in WithDefaults(selected, ids) <==> id in selected) && (id in selected ==> WithDefaults(selected, ids)[id] == selected[id])
  {
    if ids != [] {
      var init := ids[..|ids| - 1];
      WithDefaultsSwitchesUnset(selected, init);
      assert ids == init + [ids[|ids| - 1]];
    }
  }

  /** The ledger rule of `render`: an attached deck keeps its ledger choice (on when unset), a
      freestanding deck never has a ledger. */
  function WithLedger(selected: map<string, bool>, attached: string): (r: map<string, bool>)
    ensures Selected(r, LedgerId) <==> attached == "yes" && (LedgerId !in selected || selected[LedgerId])
    // the ledger always has an entry afterwards, so a later `?? true` keeps it
    ensures LedgerId in r
    ensures forall id :: id != LedgerId ==> (id in r <==> id in selected) && (id in selected ==> r[id] == selected[id])
  {
    selected[LedgerId := if attached == "yes" then (if LedgerId in selected then selected[LedgerId] else true) else false]
  }

  function PermitOnlyIds(items: seq<Item>): set<string>
  {
    set it | it in items && it.permitOnly :: it.id
  }

  /** The permit-only rule of `render`, item by item: outside permit mode every permit-only item
      is switched off. */
  function ForcePermitOnly(selected: map<string, bool>, items: seq<Item>, permitMode: string): (r: map<string, bool>)
    ensures forall id :: Selected(r, id) <==> Selected(selected, id) && !(permitMode != "permit" && id in PermitOnlyIds(items))
    // an entry exists afterwards exactly when it existed or was forced off
    ensures forall id :: id in r <==> id in selected || (permitMode != "permit" && id in PermitOnlyIds(items))
  {
    if items == [] then selected
    else
      var init, last := items[..|items| - 1], items[|items| - 1];
      assert items == init + [last];
      assert PermitOnlyIds(items) == PermitOnlyIds(init) + (if last.permitOnly then {last.id} else {});
      var r := ForcePermitOnly(selected, init, permitMode);
      if last.permitOnly && permitMode != "permit" then r[last.id := false] else r
  }

  /** The selection `render` prices with: an item is selected exactly when it was before (the
      ledger: when the deck is attached and the ledger was not switched off) and it is not a
      permit-only item outside permit mode. */
  function ForcedSelection(selected: map<string, bool>, items: seq<Item>, attached: string, permitMode: string): (r: map<string, bool>)
    ensures forall id :: Selected(r, id) <==>
              (if id == LedgerId then attached == "yes" && (LedgerId !in selected || selected[LedgerId])
               else Selected(selected, id)) &&
              !(permitMode != "permit" && id in PermitOnlyIds(items))
    ensures forall id :: id in r <==> id in selected || id == LedgerId || (permitMode != "permit" && id in PermitOnlyIds(items))
  {
    ForcePermitOnly(WithLedger(selected, attached), items, permitMode)
  }

  class DeckState {
    var lenFt: real
    var widFt: real
    var deckSFOverride: real
    var heightFt: real
    var permitMode: string
    var attached: string
    var stairSteps: real
    var stairWidth: real
    var footingsOverride: real
    var railLFOverride: real
    var selected: map<string, bool>
    var admin: Admin

    /** The initial `state`; the stored `null` override reads as `Number(null)`, which is 0,
        and the `null` discount value as `parseNum(null)`, which is 0. */
    constructor ()
      ensures lenFt == 0.0 && widFt == 0.0 && deckSFOverride == 0.0
      ensures heightFt == 3.0 && permitMode == "permit" && attached == "yes"
      ensures stairSteps == 0.0 && stairWidth == 36.0
      ensures footingsOverride == 0.0 && railLFOverride == 0.0
      ensures selected == map[]
      ensures admin == Admin(false, false, Some(0.0), false, "pct", 0.0)
    {
      lenFt, widFt, deckSFOverride := 0.0, 0.0, 0.0;
      heightFt, permitMode, attached := 3.0, "permit", "yes";
      stairSteps, stairWidth := 0.0, 36.0;
      footingsOverride, railLFOverride := 0.0, 0.0;
      selected := map[];
      admin := Admin(false, false, Some(0.0), false, "pct", 0.0);
    }

    /** The fields pricing reads. */
    function Inputs(): Snapshot
      reads this
    {
      Snapshot(lenFt, widFt, deckSFOverride, heightFt, permitMode, attached, stairSteps, stairWidth,
               footingsOverride, railLFOverride, selected, admin)
    }

    /** The boot-time defaults: each default item is switched on unless the saved state has an
        entry for it. */
    method ApplySelectionDefaults()
      modifies this`selected
      ensures selected == WithDefaults(old(selected), DefaultOnIds)
    {
      SwitchOnUnlessSaved(DefaultOnIds);
    }

    /** The loop of the boot-time defaults over the ids `ids`. */
    method SwitchOnUnlessSaved(ids: seq<string>)
      modifies this`selected
      ensures selected == WithDefaults(old(selected), ids)
    {
      var i := 0;
      while i < |ids|
        invariant 0 <= i <= |ids|
        invariant selected == WithDefaults(old(selected), ids[..i])
      {
        var k := ids[i];
        assert ids[..i + 1][..i] == ids[..i];
        if k !in selected {
          selected := selected[k := true];
        }
        i := i + 1;
      }
      assert ids[..|ids|] == ids;
    }

    /** `enforceExclusive(item)`. */
    method EnforceExclusive(items: seq<Item>, item: Item)
      modifies this`selected
      ensures selected == Exclusive(old(selected), items, item)
    {
      if item.group == "" {
        return;
      }
      var i := 0;
      while i < |items|
        invariant 0 <= i <= |items|
        invariant selected == DeselectSiblings(old(selected), items[..i], item)
      {
        var it := items[i];
        assert items[..i + 1][..i] == items[..i];
        if it.id != item.id && it.group == item.group {
          selected := selected[it.id := false];
        }
        i := i + 1;
      }
      assert items[..|items|] == items;
    }

    /** The permit-only loop of `render`. */
    method ForcePermitOnlySelections(items: seq<Item>)
      modifies this`selected
      ensures selected == ForcePermitOnly(old(selected), items, permitMode)
    {
      var i := 0;
      while i < |items|
        invariant 0 <= i <= |items|
        invariant selected == ForcePermitOnly(old(selected), items[..i], permitMode)
      {
        var it := items[i];
        assert items[..i + 1][..i] == items[..i];
        if it.permitOnly && permitMode != "permit" {
          selected := selected[it.id := false];
        }
        i := i + 1;
      }
      assert items[..|items|] == items;
    }

    /** The first lines of `render`: the form's text read into the state. */
    method ReadForm(form: Form, number: string -> Option<real>)
      modifies this`lenFt, this`widFt, this`deckSFOverride, this`heightFt, this`permitMode, this`attached
      modifies this`stairSteps, this`stairWidth, this`footingsOverride, this`railLFOverride
      ensures lenFt == ParseNum(form.lenFt, number) && widFt == ParseNum(form.widFt, number)
      ensures deckSFOverride == ParseNum(form.deckSF, number)
      // an empty or zero height reads as 3 ft; the height stays within [0, 20] and the steps within [0, 50]
      ensures heightFt == Clamp(OrElse(ParseNum(form.heightFt, number), 3.0), 0.0, 20.0)
      ensures 0.0 <= heightFt <= 20.0
      ensures permitMode == form.permitMode && attached == form.attached
      ensures stairSteps == Clamp(ParseNum(form.stairSteps, number), 0.0, 50.0) && 0.0 <= stairSteps <= 50.0
      // an empty or zero stair width reads as 36 in
      ensures stairWidth == OrElse(ParseNum(form.stairWidth, number), 36.0)
      ensures footingsOverride == ParseNum(form.footings, number) && railLFOverride == ParseNum(form.railLF, number)
    {
      ReadDimensions(form, number);
      ReadOptions(form, number);
    }

    /** The deck's length, width, area override and height. */
    method ReadDimensions(form: Form, number: string -> Option<real>)
      modifies this`lenFt, this`widFt, this`deckSFOverride, this`heightFt
      ensures lenFt == ParseNum(form.lenFt, number) && widFt == ParseNum(form.widFt, number)
      ensures deckSFOverride == ParseNum(form.deckSF, number)
      ensures heightFt == Clamp(OrElse(ParseNum(form.heightFt, number), 3.0), 0.0, 20.0)
    {
      lenFt := ParseNum(form.lenFt, number);
      widFt := ParseNum(form.widFt, number);
      deckSFOverride := ParseNum(form.deckSF, number);
      heightFt := Clamp(OrElse(ParseNum(form.heightFt, number), 3.0), 0.0, 20.0);
    }

    /** The permit and attachment choices, the stairs and the footing and railing overrides. */
    method ReadOptions(form: Form, number: string -> Option<real>)
      modifies this`permitMode, this`attached, this`stairSteps, this`stairWidth, this`footingsOverride, this`railLFOverride
      ensures permitMode == form.permitMode && attached == form.attached
      ensures stairSteps == Clamp(ParseNum(form.stairSteps, number), 0.0, 50.0)
      ensures stairWidth == OrElse(ParseNum(form.stairWidth, number), 36.0)
      ensures footingsOverride == ParseNum(form.footings, number) && railLFOverride == ParseNum(form.railLF, number)
    {
      permitMode := form.permitMode;
      attached := form.attached;
      stairSteps := Clamp(OrElse(ParseNum(form.stairSteps, number), 0.0), 0.0, 50.0);
      stairWidth := OrElse(ParseNum(form.stairWidth, number), 36.0);
      footingsOverride := ParseNum(form.footings, number);
      railLFOverride := ParseNum(form.railLF, number);
    }

    /** The non-display part of `render`: read the form, force the ledger and permit-only
        selections, and price the quote from the updated state. */
    method Render(c: Catalog, form: Form, number: string -> Option<real>, sqrt: real -> real) returns (q: DeckQuote)
      modifies this`lenFt, this`widFt, this`deckSFOverride, this`heightFt, this`permitMode, this`attached
      modifies this`stairSteps, this`stairWidth, this`footingsOverride, this`railLFOverride, this`selected
      ensures lenFt == ParseNum(form.lenFt, number) && widFt == ParseNum(form.widFt, number)
      ensures deckSFOverride == ParseNum(form.deckSF, number)
      ensures heightFt == Clamp(OrElse(ParseNum(form.heightFt, number), 3.0), 0.0, 20.0)
      ensures permitMode == form.permitMode && attached == form.attached
      ensures stairSteps == Clamp(ParseNum(form.stairSteps, number), 0.0, 50.0)
      ensures stairWidth == OrElse(ParseNum(form.stairWidth, number), 36.0)
      ensures footingsOverride == ParseNum(form.footings, number) && railLFOverride == ParseNum(form.railLF, number)
      ensures selected == ForcedSelection(old(selected), c.items, attached, permitMode)
      ensures q == QuoteOf(c, Inputs(), sqrt)
    {
      ReadForm(form, number);
      selected := WithLedger(selected, attached);
      ForcePermitOnlySelections(c.items);
      q := PriceQuote(c, Inputs(), sqrt);
    }
  }
}
