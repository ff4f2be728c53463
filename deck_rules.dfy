/** The small rules of the deck quote (deck/app.js): clamping, the character filter of
    `parseNum`, the markup percentage, the height multiplier, deck area and perimeter, the
    railing rule, footings and the billable quantity of each unit. */
module DeckRules {
  import opened Common
  import opened DeckTiers

  function Max(a: real, b: real): real { if a >= b then a else b }
  function Min(a: real, b: real): real { if a <= b then a else b }

  /** `clamp(n, min, max)`, which is `Math.min(max, Math.max(min, n))`. */
  function Clamp(n: real, lo: real, hi: real): (r: real)
    ensures lo <= hi ==> lo <= r <= hi
    ensures lo <= n <= hi ==> r == n
    ensures n < lo ==> r == Min(lo, hi)
    ensures n > hi ==> r == hi
  {
    Min(hi, Max(lo, n))
  }

  /** The characters `parseNum` keeps: digits, the decimal point and the minus sign. */
  predicate NumericChar(c: char)
  {
    '0' <= c <= '9' || c == '.' || c == '-'
  }

  /** `replace(/[^0-9.\-]/g, "")`: the numeric characters of `s`, in order. */
  function KeepNumeric(s: string): (r: string)
    ensures |r| <= |s|
  {
    if s == [] then []
    else (if NumericChar(s[0]) then [s[0]] else []) + KeepNumeric(s[1..])
  }

  /** The filter keeps nothing but digits, `.` and `-`. */
  lemma {:induction false} KeepNumericIsNumeric(s: string)
    ensures forall i :: 0 <= i < |KeepNumeric(s)| ==> NumericChar(KeepNumeric(s)[i])
  {
    if s != [] {
      KeepNumericIsNumeric(s[1..]);
      var h, t := if NumericChar(s[0]) then [s[0]] else [], KeepNumeric(s[1..]);
      forall i | 0 <= i < |h + t| ensures NumericChar((h + t)[i]) {
        if i >= |h| {
          assert (h + t)[i] == t[i - |h|];
        }
      }
    }
  }

  lemma {:induction false} KeepNumericAppend(a: string, b: string)
    ensures KeepNumeric(a + b) == KeepNumeric(a) + KeepNumeric(b)
  {
    if a != [] {
      assert (a + b)[1..] == a[1..] + b;
      KeepNumericAppend(a[1..], b);
    } else {
      assert a + b == b;
    }
  }

  /** Text made only of numeric characters passes the filter unchanged. */
  lemma {:induction false} KeepNumericOfNumeric(s: string)
    requires forall i :: 0 <= i < |s| ==> NumericChar(s[i])
    ensures KeepNumeric(s) == s
  {
    if s != [] {
      KeepNumericOfNumeric(s[1..]);
      assert s == [s[0]] + s[1..];
    }
  }

  /** Filtering twice is filtering once. */
  lemma KeepNumericIdempotent(s: string)
    ensures KeepNumeric(KeepNumeric(s)) == KeepNumeric(s)
  {
    KeepNumericIsNumeric(s);
    KeepNumericOfNumeric(KeepNumeric(s));
  }

  /** Characters other than digits, `.` and `-` never change what `parseNum` reads. */
  lemma KeepNumericIgnoresNoise(a: string, noise: string, b: string)
    requires forall i :: 0 <= i < |noise| ==> !NumericChar(noise[i])
    ensures KeepNumeric(a + noise + b) == KeepNumeric(a + b)
  {
    KeepNumericAppend(a + noise, b);
    KeepNumericAppend(a, noise);
    KeepNumericAppend(a, b);
    KeepNumericOfNoise(noise);
  }

  lemma {:induction false} KeepNumericOfNoise(noise: string)
    requires forall i :: 0 <= i < |noise| ==> !NumericChar(noise[i])
    ensures KeepNumeric(noise) == []
  {
    if noise != [] {
      KeepNumericOfNoise(noise[1..]);
    }
  }

  /** `parseNum(v)` on the text `v`: the filtered text read by `Number` (the parameter `number`,
      `None` for NaN or an infinity), with 0 when that is not a finite number. */
  function ParseNum(v: string, number: string -> Option<real>): (r: real)
    ensures number(KeepNumeric(v)).Some? ==> r == number(KeepNumeric(v)).value
    ensures number(KeepNumeric(v)).None? ==> r == 0.0
  {
    number(KeepNumeric(v)).GetOr(0.0)
  }

  /** A currency sign and a thousands separator are dropped before the number is read:
      "$1,250.50" reads as "1250.50". */
  lemma ParseNumIgnoresCurrency(a: string, b: string, number: string -> Option<real>)
    ensures ParseNum("$" + a + "," + b, number) == ParseNum(a + b, number)
  {
    KeepNumericDropsCurrency(a, b);
  }

  lemma KeepNumericDropsCurrency(a: string, b: string)
    ensures KeepNumeric("$" + a + "," + b) == KeepNumeric(a + b)
  {
    KeepNumericAppend("$" + a + ",", b);
    KeepNumericAppend("$" + a, ",");
    KeepNumericAppend("$", a);
    KeepNumericOfNoise("$");
    KeepNumericOfNoise(",");
    KeepNumericAppend(a, b);
  }


  /** The admin panel's settings as `render` reads them. `overridePct` is `Number(overridePct)`:
      `None` when it is not finite (a stored `null` reads as `Some(0.0)`). `discountType` is the
      stored text, empty when it is unset; `discountValue` is its `parseNum`. */
  datatype Admin = Admin(
    unlocked: bool,
    useOverride: bool,
    overridePct: Option<real>,
    useDiscount: bool,
    discountType: string,
    discountValue: real)

  /** The override is honoured only when unlocked, switched on, finite and within [0, 100]. */
  predicate OverrideActive(admin: Admin)
  {
    admin.unlocked && admin.useOverride && admin.overridePct.Some? &&
    0.0 <= admin.overridePct.value <= 100.0
  }

  /** `getMarkupPct(sf)`. */
  function MarkupPct(admin: Admin, tiers: seq<Tier>, sf: real): (r: real)
    ensures OverrideActive(admin) ==> r == admin.overridePct.value / 100.0 && 0.0 <= r <= 1.0
    ensures !OverrideActive(admin) ==> r == TierPctForSF(tiers, sf)
  {
    if OverrideActive(admin) then admin.overridePct.value / 100.0 else TierPctForSF(tiers, sf)
  }

  datatype HeightRule = HeightRule(maxHeightFt: real, mult: real)

  /** `heightMult(h)`: the first rule in list order (the list is not sorted) whose bound covers
      the height, or 1 when none does. */
  function HeightMult(rules: seq<HeightRule>, h: real): (r: real)
    ensures (forall i :: 0 <= i < |rules| ==> h > rules[i].maxHeightFt) ==> r == 1.0
    ensures forall i :: (0 <= i < |rules| && h <= rules[i].maxHeightFt &&
                         (forall j :: 0 <= j < i ==> h > rules[j].maxHeightFt)) ==> r == rules[i].mult
    ensures r == 1.0 || exists i :: 0 <= i < |rules| && r == rules[i].mult
  {
    if rules == [] then 1.0
    else if h <= rules[0].maxHeightFt then rules[0].mult
    else
      var r := HeightMult(rules[1..], h);
      assert r == 1.0 || exists i :: 0 <= i < |rules| && r == rules[i].mult by {
        if r != 1.0 {
          var i :| 0 <= i < |rules[1..]| && r == rules[1..][i].mult;
          assert rules[i + 1] == rules[1..][i];
        }
      }
      assert forall i :: 1 <= i < |rules| ==> rules[i] == rules[1..][i - 1];
      r
  }

  /** The rules block of the catalog; `None` marks an entry that is absent. */
  datatype Rules = Rules(
    heightMults: seq<HeightRule>,
    railingRequiredHeightFt: Option<real>,
    defaultFootingSFPerEach: Option<real>,
    minFootings: Option<real>)

  /** `deckSF()`: a positive area override wins; otherwise length times width, each floored at 0. */
  function DeckSF(lenFt: real, widFt: real, overrideSF: real): (r: real)
    ensures r >= 0.0
    ensures overrideSF > 0.0 ==> r == overrideSF
    ensures overrideSF <= 0.0 && lenFt > 0.0 && widFt > 0.0 ==> r == lenFt * widFt
    ensures overrideSF <= 0.0 && (lenFt <= 0.0 || widFt <= 0.0) ==> r == 0.0
  {
    if overrideSF > 0.0 then overrideSF
    else
      var l, w := Max(0.0, lenFt), Max(0.0, widFt);
      assert l * w >= 0.0 by {
        if l > 0.0 && w > 0.0 {
          assert l * w > 0.0;
        }
      }
      l * w
  }

  /** `perimLF()`: 2(L + W) when both dimensions are positive, otherwise the perimeter of a
      square of the deck's area; `sqrt` is the host's `Math.sqrt`. */
  function PerimLF(lenFt: real, widFt: real, overrideSF: real, sqrt: real -> real): (r: real)
    ensures lenFt > 0.0 && widFt > 0.0 ==> r == 2.0 * (lenFt + widFt)
    ensures !(lenFt > 0.0 && widFt > 0.0) ==> r == 4.0 * sqrt(DeckSF(lenFt, widFt, overrideSF))
  {
    var l, w := Max(0.0, lenFt), Max(0.0, widFt);
    if l > 0.0 && w > 0.0 then 2.0 * (l + w)
    else 4.0 * sqrt(Max(0.0, DeckSF(lenFt, widFt, overrideSF)))
  }

  /** The height from which a railing is required, 2.5 ft unless the catalog says otherwise. */
  function RailingHeight(rules: Rules): real
  {
    rules.railingRequiredHeightFt.GetOr(2.5)
  }

  /** `railingRequired()`. */
  function RailingRequired(rules: Rules, heightFt: real): (r: bool)
    ensures r <==> heightFt >= RailingHeight(rules)
    ensures rules.railingRequiredHeightFt.None? ==> (r <==> heightFt >= 2.5)
  {
    heightFt >= RailingHeight(rules)
  }

  /** A deck that needs a railing still needs one when it is higher. */
  lemma RailingMonotone(rules: Rules, h1: real, h2: real)
    requires h1 <= h2 && RailingRequired(rules, h1)
    ensures RailingRequired(rules, h2)
  {
  }

  /** `Math.ceil`. */
  function Ceil(x: real): (n: int)
    ensures n as real - 1.0 < x <= n as real
  {
    -((-x).Floor)
  }

  function FootingSFPerEach(rules: Rules): real { rules.defaultFootingSFPerEach.GetOr(36.0) }
  function MinFootings(rules: Rules): real { rules.minFootings.GetOr(6.0) }

  /** `autoFootings(sf)`: one footing per `per` square feet (at least 1), rounded up, and never
      fewer than the minimum. */
  function AutoFootings(rules: Rules, sf: real): (r: real)
    ensures r >= MinFootings(rules)
    ensures r >= Ceil(sf / Max(1.0, FootingSFPerEach(rules))) as real
    ensures r == MinFootings(rules) || r == Ceil(sf / Max(1.0, FootingSFPerEach(rules))) as real
  {
    Max(MinFootings(rules), Ceil(sf / Max(1.0, FootingSFPerEach(rules))) as real)
  }

  /** The automatic count carries the whole deck: each footing covers at most `per` square feet. */
  lemma FootingsCoverArea(rules: Rules, sf: real)
    ensures AutoFootings(rules, sf) * Max(1.0, FootingSFPerEach(rules)) >= sf
  {
    var m := Max(1.0, FootingSFPerEach(rules));
    var r := AutoFootings(rules, sf);
    assert r >= sf / m;
    assert r * m >= (sf / m) * m;
  }

  /** The footing count of `render`: a positive override rounded up, else the automatic count. */
  function Footings(rules: Rules, footingsOverride: real, sf: real): (r: real)
    ensures footingsOverride > 0.0 ==> r == Ceil(footingsOverride) as real && footingsOverride <= r < footingsOverride + 1.0
    ensures footingsOverride <= 0.0 ==> r == AutoFootings(rules, sf)
  {
    if footingsOverride > 0.0 then Ceil(footingsOverride) as real else AutoFootings(rules, sf)
  }

  /** The catalog's unit codes. */
  datatype DeckUnit = DeckSqFt | RailLinFt | FootingCount | StairStep | EachUnit | PctOfMat | UnknownUnit(code: string)

  /** The quantities `computeQty` reads. */
  datatype QtyContext = QtyContext(deckSF: real, railLF: real, footings: real, stairSteps: real, stairWidthMult: real)

  /** Stairs 48 inches wide or more cost a quarter more per step. */
  function StairWidthMult(stairWidth: real): (r: real)
    ensures stairWidth >= 48.0 ==> r == 1.25
    ensures stairWidth < 48.0 ==> r == 1.0
  {
    if stairWidth >= 48.0 then 1.25 else 1.0
  }

  /** `computeQty(item, ctx)`. */
  function ComputeQty(unit: DeckUnit, ctx: QtyContext): (r: real)
    ensures unit == DeckSqFt ==> r == ctx.deckSF
    ensures unit == RailLinFt ==> r == ctx.railLF
    ensures unit == FootingCount ==> r == ctx.footings
    ensures unit == StairStep ==> r == ctx.stairSteps * ctx.stairWidthMult
    ensures unit == EachUnit || unit == PctOfMat ==> r == 1.0
    ensures unit.UnknownUnit? ==> r == 0.0
  {
    match unit
    case DeckSqFt => ctx.deckSF
    case RailLinFt => ctx.railLF
    case FootingCount => ctx.footings
    case StairStep => ctx.stairSteps * ctx.stairWidthMult
    case EachUnit => 1.0
    case PctOfMat => 1.0
    case UnknownUnit(_) => 0.0
  }

  /** No unit bills a negative quantity when the context holds none. */
  lemma ComputeQtyNonNegative(unit: DeckUnit, ctx: QtyContext)
    requires ctx.deckSF >= 0.0 && ctx.railLF >= 0.0 && ctx.footings >= 0.0
    requires ctx.stairSteps >= 0.0 && ctx.stairWidthMult >= 0.0
    ensures ComputeQty(unit, ctx) >= 0.0
  {
    if unit == StairStep {
      assert ctx.stairSteps * ctx.stairWidthMult >= 0.0;
    }
  }
}
