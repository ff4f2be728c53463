/** Geometry of the interior quote (app.js `computeGeometry`): floor area, perimeter,
    wall area and paint area from whichever of area, length, width, perimeter override
    and ceiling height the user typed. */
module InteriorGeometry {
  import opened Common

  /** `toNum(v, fallback)`: the parsed number when it is finite, the fallback otherwise. */
  function ToNum(v: Option<real>, fallback: real): (r: real)
    ensures v.Some? ==> r == v.value
    ensures v.None? ==> r == fallback
  {
    match v
    case Some(x) => x
    case None => fallback
  }

  /** The five form fields as `Number(...)` sees them. An empty field parses as `Some(0.0)`. */
  datatype GeometryInputs = GeometryInputs(
    areaSF: Option<real>,
    lengthFt: Option<real>,
    widthFt: Option<real>,
    perimeterOverride: Option<real>,
    heightFt: Option<real>)

  datatype Geometry = Geometry(areaSF: real, perimeterLF: real, wallSF: real, paintSF: real, heightFt: real)

  const DefaultHeightFt: real := 8.0

  /** `computeGeometry`; `sqrt` is the host's `Math.sqrt`. */
  function ComputeGeometry(inp: GeometryInputs, sqrt: real -> real): (g: Geometry)
    // the ceiling height falls back to 8 only when it is not a finite number
    ensures g.heightFt == ToNum(inp.heightFt, DefaultHeightFt)
    // length and width, when both positive, win over a typed area
    ensures ToNum(inp.lengthFt, 0.0) > 0.0 && ToNum(inp.widthFt, 0.0) > 0.0 ==>
              g.areaSF == ToNum(inp.lengthFt, 0.0) * ToNum(inp.widthFt, 0.0)
    ensures !(ToNum(inp.lengthFt, 0.0) > 0.0 && ToNum(inp.widthFt, 0.0) > 0.0) ==>
              g.areaSF == ToNum(inp.areaSF, 0.0)
    // perimeter precedence: override, then 2(L+W), then 4*sqrt(area), then 0
    ensures ToNum(inp.perimeterOverride, 0.0) > 0.0 ==> g.perimeterLF == ToNum(inp.perimeterOverride, 0.0)
    ensures !(ToNum(inp.perimeterOverride, 0.0) > 0.0) && ToNum(inp.lengthFt, 0.0) > 0.0 && ToNum(inp.widthFt, 0.0) > 0.0 ==>
              g.perimeterLF == 2.0 * (ToNum(inp.lengthFt, 0.0) + ToNum(inp.widthFt, 0.0))
    ensures !(ToNum(inp.perimeterOverride, 0.0) > 0.0) && !(ToNum(inp.lengthFt, 0.0) > 0.0 && ToNum(inp.widthFt, 0.0) > 0.0) ==>
              g.perimeterLF == (if g.areaSF > 0.0 then 4.0 * sqrt(g.areaSF) else 0.0)
    // walls are perimeter times height; paint covers the walls and one ceiling the size of the floor
    ensures g.wallSF == g.perimeterLF * g.heightFt
    ensures g.paintSF == g.wallSF + g.areaSF
  {
    var h := ToNum(inp.heightFt, DefaultHeightFt);
    var len := ToNum(inp.lengthFt, 0.0);
    var wid := ToNum(inp.widthFt, 0.0);
    var area := if len > 0.0 && wid > 0.0 then len * wid else ToNum(inp.areaSF, 0.0);
    var perOverride := ToNum(inp.perimeterOverride, 0.0);
    var perimeter :=
      if perOverride > 0.0 then perOverride
      else if len > 0.0 && wid > 0.0 then 2.0 * (len + wid)
      else if area > 0.0 then 4.0 * sqrt(area)
      else 0.0;
    var wallSF := perimeter * h;
    Geometry(area, perimeter, wallSF, wallSF + area, h)
  }

  /** The floor area is resolved (positive) exactly when both dimensions are positive or
      the typed area is positive. */
  lemma AreaResolvedIff(inp: GeometryInputs, sqrt: real -> real)
    ensures ComputeGeometry(inp, sqrt).areaSF > 0.0 <==>
              (ToNum(inp.lengthFt, 0.0) > 0.0 && ToNum(inp.widthFt, 0.0) > 0.0) || ToNum(inp.areaSF, 0.0) > 0.0
  {
    var len, wid := ToNum(inp.lengthFt, 0.0), ToNum(inp.widthFt, 0.0);
    if len > 0.0 && wid > 0.0 {
      PositiveProduct(len, wid);
    }
  }

  /** With both dimensions positive, whatever was typed as the area changes nothing. */
  lemma TypedAreaIgnored(inp: GeometryInputs, typed: Option<real>, sqrt: real -> real)
    requires ToNum(inp.lengthFt, 0.0) > 0.0 && ToNum(inp.widthFt, 0.0) > 0.0
    ensures ComputeGeometry(inp.(areaSF := typed), sqrt) == ComputeGeometry(inp, sqrt)
  {
  }

  /** No resolved quantity is negative when the host square root is non-negative and the
      height is not negative. */
  lemma GeometryNonNegative(inp: GeometryInputs, sqrt: real -> real)
    requires forall x :: 0.0 <= x ==> 0.0 <= sqrt(x)
    requires ToNum(inp.heightFt, DefaultHeightFt) >= 0.0
    requires ToNum(inp.areaSF, 0.0) >= 0.0
    ensures var g := ComputeGeometry(inp, sqrt);
      g.areaSF >= 0.0 && g.perimeterLF >= 0.0 && g.wallSF >= 0.0 && g.paintSF >= 0.0
  {
    var g := ComputeGeometry(inp, sqrt);
    var len, wid := ToNum(inp.lengthFt, 0.0), ToNum(inp.widthFt, 0.0);
    if len > 0.0 && wid > 0.0 {
      PositiveProduct(len, wid);
    }
    assert g.perimeterLF >= 0.0;
    NonNegativeProduct(g.perimeterLF, g.heightFt);
  }

  /** Length 20, width 15 and a typed area of 999 give a floor area of 300 and a perimeter of 70. */
  lemma DimensionsExample(sqrt: real -> real)
    ensures var g := ComputeGeometry(GeometryInputs(Some(999.0), Some(20.0), Some(15.0), Some(0.0), Some(8.0)), sqrt);
      g.areaSF == 300.0 && g.perimeterLF == 70.0 && g.wallSF == 560.0 && g.paintSF == 860.0
  {
  }

  /** An area of 400 alone gives a perimeter of 4 * sqrt(400), which is 80 for the exact root. */
  lemma SquareFootprintExample(sqrt: real -> real)
    requires sqrt(400.0) == 20.0
    ensures ComputeGeometry(GeometryInputs(Some(400.0), Some(0.0), Some(0.0), Some(0.0), None), sqrt).perimeterLF == 80.0
  {
  }
}
