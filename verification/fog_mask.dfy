/** Fog of war: the point test, the bounding-box rasterizer and the redacted raster (src/campaigns/display.ts). */
module FogMask {

  datatype Mode = Reveal | Conceal

  /** One brush dab: a disc in normalized scene space. */
  datatype Run = Run(x: real, y: real, r: real)

  datatype FogOp = FogOp(mode: Mode, runs: seq<Run>)

  /** The distance test both the point test and the rasterizer apply. */
  predicate Covers(run: Run, x: real, y: real) {
    (x - run.x) * (x - run.x) + (y - run.y) * (y - run.y) <= run.r * run.r
  }

  ghost predicate Touches(op: FogOp, x: real, y: real) {
    exists i :: 0 <= i < |op.runs| && Covers(op.runs[i], x, y)
  }

  /** Reference meaning: the last op that touches the point decides; an untouched point stays concealed. */
  ghost predicate Revealed(fog: seq<FogOp>, x: real, y: real) {
    |fog| > 0 &&
    var last := fog[|fog| - 1];
    if Touches(last, x, y) then last.mode.Reveal? else Revealed(fog[..|fog| - 1], x, y)
  }

  method IsPointRevealed(x: real, y: real, fog: seq<FogOp>) returns (revealed: bool)
    ensures revealed == Revealed(fog, x, y)
    // one op: inside a disc of one of its dabs
    ensures |fog| == 1 ==>
      (revealed <==> fog[0].mode.Reveal? && OnADisc(fog[0].runs, x, y))
  {
    revealed := false;
    for o := 0 to |fog|
      invariant revealed == Revealed(fog[..o], x, y)
    {
      var op := fog[o];
      assert fog[..o + 1][..o] == fog[..o];
      ghost var before := revealed;
      var i, hit := 0, false;
      while i < |op.runs| && !hit
        invariant 0 <= i <= |op.runs|
        invariant hit ==> Touches(op, x, y) && revealed == op.mode.Reveal?
        invariant !hit ==> revealed == before && forall j :: 0 <= j < i ==> !Covers(op.runs[j], x, y)
      {
        if Covers(op.runs[i], x, y) {
          revealed := op.mode == Reveal;
          hit := true;
        }
        i := i + 1;
      }
    }
    assert fog[..|fog|] == fog;
    if |fog| == 1 {
      OneOpIsItsDiscs(fog[0], x, y);
      assert fog == [fog[0]];
    }
  }

  /** Geometry, not the code's test: no further from the centre of one of the runs than its radius. */
  ghost predicate OnADisc(runs: seq<Run>, x: real, y: real) {
    exists i :: 0 <= i < |runs| && Squared(x - runs[i].x, y - runs[i].y) <= runs[i].r * runs[i].r
  }

  /** Squared length of (dx, dy). */
  function Squared(dx: real, dy: real): real { dx * dx + dy * dy }

  /** Lit exactly if the op reveals and the middle of the pixel is on one of its discs. */
  ghost predicate ShowsDiscsAt(mask: seq<int>, width: nat, height: nat, op: FogOp, px: int, py: int)
    requires InRaster(width, height, px, py)
  {
    0 <= py * width + px < |mask| &&
    (mask[py * width + px] == 1 <==>
     op.mode.Reveal? && OnADisc(op.runs, (px as real + 0.5) / width as real, (py as real + 0.5) / height as real))
  }

  ghost predicate ShowsDiscs(mask: seq<int>, width: nat, height: nat, op: FogOp) {
    forall px, py :: InRaster(width, height, px, py) ==> ShowsDiscsAt(mask, width, height, op, px, py)
  }

  // ---------- the rasterizer ----------

  function Floor(a: real): int { a.Floor }

  function Ceil(a: real): int { -((-a).Floor) }

  function Max(a: int, b: int): int { if a < b then b else a }

  function Min(a: int, b: int): int { if a < b then a else b }

  /** First and last pixel index of a run along one axis of `size` pixels. */
  function Lo(c: real, r: real, size: nat): int { Max(0, Floor((c - r) * size as real)) }

  function Hi(c: real, r: real, size: nat): int { Min(size - 1, Ceil((c + r) * size as real)) }

  /** Normalized coordinate of a pixel centre. */
  function Centre(p: int, size: nat): real
    requires size > 0
  {
    (p as real + 0.5) / size as real
  }

  function At(width: nat, px: int, py: int): int { py * width + px }

  predicate InRaster(width: nat, height: nat, px: int, py: int) { 0 <= px < width && 0 <= py < height }

  ghost predicate InBox(run: Run, width: nat, height: nat, px: int, py: int) {
    Lo(run.x, run.r, width) <= px <= Hi(run.x, run.r, width) &&
      Lo(run.y, run.r, height) <= py <= Hi(run.y, run.r, height)
  }

  predicate CoversPixel(run: Run, width: nat, height: nat, px: int, py: int)
    requires InRaster(width, height, px, py)
  {
    Covers(run, Centre(px, width), Centre(py, height))
  }

  /** What the rasterizer really tests: the disc clipped to its pixel box. */
  ghost predicate Hits(run: Run, width: nat, height: nat, px: int, py: int)
    requires InRaster(width, height, px, py)
  {
    InBox(run, width, height, px, py) && CoversPixel(run, width, height, px, py)
  }

  ghost predicate AnyHits(runs: seq<Run>, width: nat, height: nat, px: int, py: int)
    requires InRaster(width, height, px, py)
  {
    exists i :: 0 <= i < |runs| && Hits(runs[i], width, height, px, py)
  }

  ghost function Painted(fog: seq<FogOp>, width: nat, height: nat, px: int, py: int): int
    requires InRaster(width, height, px, py)
  {
    if |fog| == 0 then 0 else
    var last := fog[|fog| - 1];
    if AnyHits(last.runs, width, height, px, py) then Value(last.mode)
    else Painted(fog[..|fog| - 1], width, height, px, py)
  }

  function Value(mode: Mode): int { if mode == Reveal then 1 else 0 }

  lemma {:induction false} RowsGrow(width: nat, a: int, b: int)
    requires a <= b
    ensures a * width <= b * width
    decreases b - a
  {
    if a < b {
      RowsGrow(width, a, b - 1);
      assert b * width == (b - 1) * width + width;
    }
  }

  lemma RowGap(width: nat, a: int, b: int)
    requires a < b
    ensures a * width + width <= b * width
  {
    RowsGrow(width, a + 1, b);
    assert (a + 1) * width == a * width + width;
  }

  lemma AtInRange(width: nat, height: nat, px: int, py: int)
    requires InRaster(width, height, px, py)
    ensures 0 <= At(width, px, py) < width * height
  {
    RowGap(width, py, height);
    assert py * width >= 0;
  }

  lemma AtInjective(width: nat, px: int, py: int, qx: int, qy: int)
    requires 0 <= px < width && 0 <= qx < width && At(width, px, py) == At(width, qx, qy)
    ensures px == qx && py == qy
  {
    if py < qy {
      RowGap(width, py, qy);
    } else if qy < py {
      RowGap(width, qy, py);
    }
  }

  /** Every pixel of the mask agrees with `f`. */
  ghost predicate Shows(mask: seq<int>, width: nat, height: nat, f: (int, int) -> int) {
    |mask| == width * height &&
    forall px, py {:trigger At(width, px, py)} :: InRaster(width, height, px, py) ==>
      0 <= At(width, px, py) < |mask| && mask[At(width, px, py)] == f(px, py)
  }

  /** Writing one pixel changes that pixel and no other. */
  lemma WriteOne(mask: seq<int>, width: nat, height: nat, f: (int, int) -> int, qx: int, qy: int, value: int)
    requires Shows(mask, width, height, f) && InRaster(width, height, qx, qy)
    ensures 0 <= At(width, qx, qy) < |mask|
    ensures Shows(mask[At(width, qx, qy) := value], width, height,
      (px, py) => if px == qx && py == qy then value else f(px, py))
  {
    AtInRange(width, height, qx, qy);
    forall px, py | InRaster(width, height, px, py) && At(width, px, py) == At(width, qx, qy)
      ensures px == qx && py == qy
    {
      AtInjective(width, px, py, qx, qy);
    }
  }

  /** What a picture shows once `run` has painted the pixels before (x, y) in row order. */
  ghost function Overlay(f: (int, int) -> int, run: Run, value: int, width: nat, height: nat,
      x: int, y: int): (int, int) -> int
  {
    (px, py) =>
      if InRaster(width, height, px, py) && (py < y || (py == y && px < x)) && Hits(run, width, height, px, py)
      then value else f(px, py)
  }

  /** One run: the two pixel loops over its bounding box. */
  method PaintRun(mask: array<int>, width: nat, height: nat, run: Run, value: int, ghost f: (int, int) -> int)
    requires Shows(mask[..], width, height, f)
    modifies mask
    ensures Shows(mask[..], width, height, Overlay(f, run, value, width, height, 0, height))
  {
    var minPx, maxPx := Lo(run.x, run.r, width), Hi(run.x, run.r, width);
    var minPy, maxPy := Lo(run.y, run.r, height), Hi(run.y, run.r, height);
    var py := minPy;
    while py <= maxPy
      invariant minPy <= py
      invariant Shows(mask[..], width, height, Overlay(f, run, value, width, height, 0, py))
    {
      var px := minPx;
      while px <= maxPx
        invariant minPx <= px
        invariant Shows(mask[..], width, height, Overlay(f, run, value, width, height, px, py))
      {
        ghost var g := Overlay(f, run, value, width, height, px, py);
        if Covers(run, Centre(px, width), Centre(py, height)) {
          WriteOne(mask[..], width, height, g, px, py, value);
          mask[At(width, px, py)] := value;
        }
        px := px + 1;
      }
      py := py + 1;
    }
  }

  ghost function Picture(fog: seq<FogOp>, width: nat, height: nat): (int, int) -> int {
    (px, py) => if InRaster(width, height, px, py) then Painted(fog, width, height, px, py) else 0
  }

  /** The picture after some runs of one op: painting order inside the op is invisible. */
  ghost function PartOp(fog: seq<FogOp>, runs: seq<Run>, value: int, width: nat, height: nat): (int, int) -> int {
    (px, py) =>
      if InRaster(width, height, px, py) && AnyHits(runs, width, height, px, py) then value
      else Picture(fog, width, height)(px, py)
  }

  lemma OneMoreRun(fog: seq<FogOp>, runs: seq<Run>, k: nat, value: int, width: nat, height: nat, mask: seq<int>)
    requires k < |runs|
    requires Shows(mask, width, height,
      Overlay(PartOp(fog, runs[..k], value, width, height), runs[k], value, width, height, 0, height))
    ensures Shows(mask, width, height, PartOp(fog, runs[..k + 1], value, width, height))
  {
    forall px, py | InRaster(width, height, px, py)
      ensures AnyHits(runs[..k + 1], width, height, px, py) <==>
              AnyHits(runs[..k], width, height, px, py) || Hits(runs[k], width, height, px, py)
    {
      if AnyHits(runs[..k], width, height, px, py) {
        var i :| 0 <= i < k && Hits(runs[..k][i], width, height, px, py);
        assert Hits(runs[..k + 1][i], width, height, px, py);
      }
      if Hits(runs[k], width, height, px, py) {
        assert Hits(runs[..k + 1][k], width, height, px, py);
      }
      if AnyHits(runs[..k + 1], width, height, px, py) {
        var i :| 0 <= i < k + 1 && Hits(runs[..k + 1][i], width, height, px, py);
        assert i < k ==> Hits(runs[..k][i], width, height, px, py);
      }
    }
  }

  method PaintOp(mask: array<int>, width: nat, height: nat, op: FogOp, ghost fog: seq<FogOp>)
    requires Shows(mask[..], width, height, Picture(fog, width, height))
    modifies mask
    ensures Shows(mask[..], width, height, PartOp(fog, op.runs, Value(op.mode), width, height))
  {
    var value := Value(op.mode);
    assert op.runs[..0] == [];
    for k := 0 to |op.runs|
      invariant Shows(mask[..], width, height, PartOp(fog, op.runs[..k], value, width, height))
    {
      PaintRun(mask, width, height, op.runs[k], value, PartOp(fog, op.runs[..k], value, width, height));
      OneMoreRun(fog, op.runs, k, value, width, height, mask[..]);
    }
    assert op.runs[..|op.runs|] == op.runs;
  }

  lemma OneMoreOp(mask: seq<int>, fog: seq<FogOp>, op: FogOp, width: nat, height: nat)
    requires Shows(mask, width, height, PartOp(fog, op.runs, Value(op.mode), width, height))
    ensures Shows(mask, width, height, Picture(fog + [op], width, height))
  {
    var all := fog + [op];
    assert all[|all| - 1] == op && all[..|all| - 1] == fog;
    forall px, py | InRaster(width, height, px, py)
      ensures Picture(all, width, height)(px, py) == PartOp(fog, op.runs, Value(op.mode), width, height)(px, py)
    {
      assert Picture(fog, width, height)(px, py) == Painted(fog, width, height, px, py);
      assert Picture(all, width, height)(px, py) ==
        if AnyHits(op.runs, width, height, px, py) then Value(op.mode) else Painted(fog, width, height, px, py);
    }
  }

  /** The reveal mask: for every fog list, radius sign included, each pixel is what the clipped discs say. */
  method BuildRevealMask(width: nat, height: nat, fog: seq<FogOp>) returns (mask: array<int>)
    ensures fresh(mask)
    ensures Shows(mask[..], width, height, Picture(fog, width, height))
    ensures |fog| == 1 && NoNegativeRadius(fog) ==> ShowsDiscs(mask[..], width, height, fog[0])
  {
    mask := new int[width * height](_ => 0);
    BlankMask(mask[..], width, height);
    for o := 0 to |fog|
      invariant Shows(mask[..], width, height, Picture(fog[..o], width, height))
    {
      PaintOp(mask, width, height, fog[o], fog[..o]);
      OneMoreOp(mask[..], fog[..o], fog[o], width, height);
      assert fog[..o] + [fog[o]] == fog[..o + 1];
    }
    assert fog[..|fog|] == fog;
    if |fog| == 1 && NoNegativeRadius(fog) {
      OneOpMaskIsItsDiscs(mask[..], width, height, fog);
    }
  }

  lemma BlankMask(mask: seq<int>, width: nat, height: nat)
    requires |mask| == width * height && forall k :: 0 <= k < |mask| ==> mask[k] == 0
    ensures Shows(mask, width, height, Picture([], width, height))
  {
    forall px, py | InRaster(width, height, px, py) ensures 0 <= At(width, px, py) < |mask| {
      AtInRange(width, height, px, py);
    }
  }

  // ---------- the box never clips a covered pixel, exactly for radii that are not negative ----------

  lemma CentreScales(p: int, size: nat)
    requires size > 0
    ensures Centre(p, size) * size as real == p as real + 0.5
  {
  }

  /** Rounding a bound outwards keeps the pixels whose centres it leaves in. */
  lemma RoundsOutwards(low: real, high: real, p: int)
    requires low <= p as real + 0.5 <= high
    ensures Floor(low) <= p <= Ceil(high)
  {
    assert Floor(low) as real <= low;
    assert (-high).Floor as real <= -high;
  }

  /** On one axis: a pixel centre within r of c lies between the floor and ceiling bounds. */
  lemma AxisBox(c: real, r: real, p: int, size: nat)
    requires r >= 0.0 && 0 <= p < size
    requires -r <= Centre(p, size) - c <= r
    ensures Lo(c, r, size) <= p <= Hi(c, r, size)
  {
    var n := size as real;
    var centre := Centre(p, size);
    CentreScales(p, size);
    ProductGrows(c - r, centre, n);
    ProductGrows(centre, c + r, n);
    RoundsOutwards((c - r) * n, (c + r) * n, p);
  }

  lemma ProductGrows(a: real, b: real, m: real)
    requires a <= b && m >= 0.0
    ensures a * m <= b * m
  {
  }

  lemma ProductGrowsStrictly(a: real, b: real, m: real)
    requires a < b && m > 0.0
    ensures a * m < b * m
  {
  }

  lemma CancelFactor(a: real, b: real, m: real)
    requires m > 0.0 && a * m < b * m
    ensures a < b
  {
  }

  lemma RootBound(d: real, r: real)
    requires r >= 0.0 && d * d <= r * r
    ensures d <= r
  {
    if d > r {
      ProductGrows(r, d, r);
      ProductGrowsStrictly(r, d, d);
      calc {
        d * d;
      <= r * r;
      <= d * r;
      == r * d;
      < d * d;
      }
    }
  }

  lemma SquareBound(d: real, r: real)
    requires r >= 0.0 && d * d <= r * r
    ensures -r <= d <= r
  {
    RootBound(d, r);
    assert (-d) * (-d) == d * d;
    RootBound(-d, r);
  }

  lemma BoxNeverMisses(run: Run, width: nat, height: nat, px: int, py: int)
    requires run.r >= 0.0 && InRaster(width, height, px, py)
    ensures Hits(run, width, height, px, py) <==> CoversPixel(run, width, height, px, py)
  {
    if CoversPixel(run, width, height, px, py) {
      var dx, dy := Centre(px, width) - run.x, Centre(py, height) - run.y;
      assert dx * dx >= 0.0 && dy * dy >= 0.0;
      SquareBound(dx, run.r);
      SquareBound(dy, run.r);
      AxisBox(run.x, run.r, px, width);
      AxisBox(run.y, run.r, py, height);
    }
  }

  ghost predicate NoNegativeRadius(fog: seq<FogOp>) {
    forall o, i :: 0 <= o < |fog| && 0 <= i < |fog[o].runs| ==> fog[o].runs[i].r >= 0.0
  }

  ghost predicate MaskAgrees(fog: seq<FogOp>, width: nat, height: nat) {
    forall px, py :: InRaster(width, height, px, py) ==>
      (Picture(fog, width, height)(px, py) == 1 <==> Revealed(fog, Centre(px, width), Centre(py, height)))
  }

  /** For any raster size and any fog list without a negative radius, the mask is the point test at the centre. */
  lemma {:induction false} RasterizerIsPointTest(fog: seq<FogOp>, width: nat, height: nat)
    requires NoNegativeRadius(fog)
    ensures MaskAgrees(fog, width, height)
  {
    if |fog| > 0 {
      var last, rest := fog[|fog| - 1], fog[..|fog| - 1];
      RasterizerIsPointTest(rest, width, height);
      forall px, py | InRaster(width, height, px, py)
        ensures AnyHits(last.runs, width, height, px, py) <==> Touches(last, Centre(px, width), Centre(py, height))
        ensures Picture(rest, width, height)(px, py) == 1 <==> Revealed(rest, Centre(px, width), Centre(py, height))
      {
        forall i | 0 <= i < |last.runs|
          ensures Hits(last.runs[i], width, height, px, py) <==>
            Covers(last.runs[i], Centre(px, width), Centre(py, height))
        {
          BoxNeverMisses(last.runs[i], width, height, px, py);
        }
      }
    }
  }

  ghost function OneReveal(run: Run): seq<FogOp> { [FogOp(Reveal, [run])] }

  // ---------- what a dab reveals: a disc, and nothing but ----------

  /** Points equally far from the centre share their fate. */
  lemma DabIsRound(run: Run, a: real, b: real, c: real, d: real)
    requires a * a + b * b == c * c + d * d
    ensures Revealed(OneReveal(run), run.x + a, run.y + b) <==> Revealed(OneReveal(run), run.x + c, run.y + d)
  {
    DabAt(run, a, b);
    DabAt(run, c, d);
  }

  /** Along the axis it reaches as far as its radius, sign aside, and no further. */
  lemma DabReachesItsRadius(run: Run, d: real)
    ensures Revealed(OneReveal(run), run.x + d, run.y) <==> -Size(run.r) <= d <= Size(run.r)
  {
    DabAt(run, d, 0.0);
    if d * d <= run.r * run.r {
      SameSquare(run.r, d);
      SquareBound(d, Size(run.r));
    }
    if -Size(run.r) <= d <= Size(run.r) {
      SquareGrows(Size(d), Size(run.r));
      SameSquare(run.r, d);
    }
  }

  function Size(a: real): real { if a < 0.0 then -a else a }

  lemma SameSquare(a: real, b: real)
    ensures Size(a) * Size(a) == a * a && Size(b) * Size(b) == b * b
  {
  }

  lemma DabAt(run: Run, a: real, b: real)
    ensures Revealed(OneReveal(run), run.x + a, run.y + b) <==> a * a + b * b <= run.r * run.r
  {
    var fog := OneReveal(run);
    var x, y := run.x + a, run.y + b;
    assert fog[..0] == [];
    assert (x - run.x) * (x - run.x) == a * a && (y - run.y) * (y - run.y) == b * b;
    if Covers(run, x, y) {
      assert Covers(fog[0].runs[0], x, y);
    }
    assert Revealed(fog, x, y) <==> Touches(fog[0], x, y);
  }

  /**
   * Any fog is made of dabs: without ops nothing is revealed, and the last op decides for every point that one of
   * its dabs alone would reveal, whatever came before.
   */
  lemma FogIsMadeOfDabs(fog: seq<FogOp>, op: FogOp, x: real, y: real)
    ensures !Revealed([], x, y)
    ensures Revealed(fog + [op], x, y) <==>
      if exists i :: 0 <= i < |op.runs| && Revealed(OneReveal(op.runs[i]), x, y) then op.mode.Reveal?
      else Revealed(fog, x, y)
  {
    var all := fog + [op];
    assert all[|all| - 1] == op && all[..|all| - 1] == fog;
    forall i | 0 <= i < |op.runs| ensures Revealed(OneReveal(op.runs[i]), x, y) <==> Covers(op.runs[i], x, y) {
      DabCovers(op.runs[i], x, y);
    }
  }

  /** So one op reveals exactly the discs of its dabs, or nothing. */
  lemma OneOpIsItsDiscs(op: FogOp, x: real, y: real)
    ensures Revealed([op], x, y) <==> op.mode.Reveal? && OnADisc(op.runs, x, y)
  {
    FogIsMadeOfDabs([], op, x, y);
    assert [] + [op] == [op];
    forall i | 0 <= i < |op.runs|
      ensures Revealed(OneReveal(op.runs[i]), x, y) <==>
        Squared(x - op.runs[i].x, y - op.runs[i].y) <= op.runs[i].r * op.runs[i].r
    {
      DabAt(op.runs[i], x - op.runs[i].x, y - op.runs[i].y);
    }
  }

  lemma OneOpMaskIsItsDiscs(mask: seq<int>, width: nat, height: nat, fog: seq<FogOp>)
    requires |fog| == 1 && NoNegativeRadius(fog) && Shows(mask, width, height, Picture(fog, width, height))
    ensures ShowsDiscs(mask, width, height, fog[0])
  {
    RasterizerIsPointTest(fog, width, height);
    assert fog == [fog[0]];
    forall px, py | InRaster(width, height, px, py) ensures ShowsDiscsAt(mask, width, height, fog[0], px, py) {
      AtInRange(width, height, px, py);
      assert mask[At(width, px, py)] == Picture(fog, width, height)(px, py);
      OneOpIsItsDiscs(fog[0], Centre(px, width), Centre(py, height));
    }
  }

  lemma DabCovers(run: Run, x: real, y: real)
    ensures Revealed(OneReveal(run), x, y) <==> Covers(run, x, y)
  {
    var fog := OneReveal(run);
    assert fog[..0] == [];
    if Covers(run, x, y) {
      assert Covers(fog[0].runs[0], x, y);
    }
    assert Revealed(fog, x, y) <==> Touches(fog[0], x, y);
  }

  /** The disc has a point strictly inside the scene. */
  ghost predicate MeetsScene(run: Run) {
    exists x: real, y: real :: Inside(x, y) && Covers(run, x, y)
  }

  lemma FineEnough(a: real, b: real) returns (n: nat)
    requires a > 0.0 && b > 0.0
    ensures n > 0 && n as real * b >= a
  {
    n := (a / b).Floor + 1;
    ProductGrows(a / b, n as real, b);
    assert (a / b) * b == a;
  }

  lemma CoveredOutsideBox(run: Run, n: nat, px: int, py: int)
    requires InRaster(n, n, px, py) && CoversPixel(run, n, n, px, py)
    requires !(Lo(run.x, run.r, n) <= px <= Hi(run.x, run.r, n))
    ensures !MaskAgrees(OneReveal(run), n, n)
  {
    var fog := OneReveal(run);
    var op := fog[0];
    assert fog[..0] == [];
    assert Covers(op.runs[0], Centre(px, n), Centre(py, n));
    assert Revealed(fog, Centre(px, n), Centre(py, n));
    assert !AnyHits(op.runs, n, n, px, py);
    assert Painted(fog[..0], n, n, px, py) == 0;
    assert Painted(fog, n, n, px, py) == 0;
    assert Picture(fog, n, n)(px, py) == Painted(fog, n, n, px, py);
  }

  // A covered point inside the scene, off the centre in both coordinates, leaves room for a pixel centre between.

  predicate Inside(x: real, y: real) { 0.0 < x < 1.0 && 0.0 < y < 1.0 }

  predicate Between(p: real, a: real, b: real) { a <= p <= b || b <= p <= a }

  lemma SquareGrows(d: real, e: real)
    requires 0.0 <= d <= e || e <= d <= 0.0
    ensures d * d <= e * e
  {
    var a, b := if d < 0.0 then -d else d, if e < 0.0 then -e else e;
    calc {
      d * d;
    == a * a;
    <= { ProductGrows(a, b, a); }
      b * a;
    == a * b;
    <= { ProductGrows(a, b, b); }
      b * b;
    == e * e;
    }
  }

  /** Closer to the centre in each coordinate is closer. */
  lemma CloserIsCovered(run: Run, x: real, y: real, px: real, py: real)
    requires Covers(run, x, y) && Between(px, x, run.x) && Between(py, y, run.y)
    ensures Covers(run, px, py)
  {
    SquareGrows(px - run.x, x - run.x);
    SquareGrows(py - run.y, y - run.y);
  }

  lemma HalfStepBetween(low: real, high: real, n: nat) returns (p: int)
    requires 0.0 <= low && high <= n as real && high - low >= 1.0
    ensures 0 <= p < n && low <= p as real + 0.5 <= high
  {
    p := Ceil(low - 0.5);
  }

  lemma ScaledStretch(a: real, b: real, n: nat, low: real, high: real)
    requires 0.0 <= a <= b <= 1.0 && low == a * n as real && high == b * n as real
    ensures 0.0 <= low && high <= n as real && high - low == n as real * (b - a)
  {
    ProductGrows(0.0, a, n as real);
    ProductGrows(b, 1.0, n as real);
  }

  /** Every stretch of the scene of a pixel's length contains a pixel centre. */
  lemma PixelBetween(a: real, b: real, n: nat) returns (p: int)
    requires n > 0 && 0.0 <= a <= b <= 1.0 && n as real * (b - a) >= 1.0
    ensures 0 <= p < n && a <= Centre(p, n) <= b
  {
    ScaledStretch(a, b, n, a * n as real, b * n as real);
    p := HalfStepBetween(a * n as real, b * n as real, n);
    CentreIsBetween(a, b, n, a * n as real, b * n as real, p);
  }

  lemma CentreIsBetween(a: real, b: real, n: nat, low: real, high: real, p: int)
    requires n > 0 && low == a * n as real && high == b * n as real && low <= p as real + 0.5 <= high
    ensures a <= Centre(p, n) <= b
  {
    CentreScales(p, n);
    CancelAtMost(a, Centre(p, n), n as real, low, p as real + 0.5);
    CancelAtMost(Centre(p, n), b, n as real, p as real + 0.5, high);
  }

  lemma CancelAtMost(a: real, b: real, m: real, am: real, bm: real)
    requires m > 0.0 && am == a * m && bm == b * m && am <= bm
    ensures a <= b
  {
    if b < a {
      ProductGrowsStrictly(b, a, m);
    }
  }

  /** A stretch between a coordinate inside the scene and the centre's, inside the scene as well. */
  function Start(x: real, c: real): real { if x < c then x else if c < 0.0 then x / 2.0 else c }

  function End(x: real, c: real): real { if c < x then x else if c > 1.0 then (x + 1.0) / 2.0 else c }

  lemma StretchIsBetween(x: real, c: real, p: real)
    requires 0.0 < x < 1.0 && c != x && Start(x, c) <= p <= End(x, c)
    ensures Between(p, x, c)
  {
  }

  lemma StretchPixel(x: real, c: real, gap: real, n: nat) returns (p: int)
    requires 0.0 < x < 1.0 && c != x && n > 0 && n as real * gap >= 1.0 && gap <= End(x, c) - Start(x, c)
    ensures 0 <= p < n && Between(Centre(p, n), x, c)
  {
    var a, b := Start(x, c), End(x, c);
    ProductGrows(gap, b - a, n as real);
    p := PixelBetween(a, b, n);
    StretchIsBetween(x, c, Centre(p, n));
  }

  lemma CoveredBetween(run: Run, x: real, y: real, gap: real, n: nat) returns (px: int, py: int)
    requires Inside(x, y) && Covers(run, x, y) && x != run.x && y != run.y && n > 0 && n as real * gap >= 1.0
    requires gap <= End(x, run.x) - Start(x, run.x) && gap <= End(y, run.y) - Start(y, run.y)
    ensures InRaster(n, n, px, py) && CoversPixel(run, n, n, px, py)
  {
    px := StretchPixel(x, run.x, gap, n);
    py := StretchPixel(y, run.y, gap, n);
    CloserIsCovered(run, x, y, Centre(px, n), Centre(py, n));
  }

  lemma WideApart(x: real, r: real, n: real, low: real, high: real, span: real)
    requires low == (x - r) * n && high == (x + r) * n && span == r * n
    ensures high - low == 2.0 * span
  {
  }

  lemma LongSpan(gap: real, r: real, n: real, span: real)
    requires n > 0.0 && n * gap >= 1.0 && r <= -gap && span == r * n
    ensures span <= -1.0
  {
    ProductGrows(r, -gap, n);
  }

  lemma RoundsPast(low: real, high: real)
    requires high - low <= -2.0
    ensures Floor(low) > Ceil(high)
  {
    assert Floor(low) as real > low - 1.0;
    assert (-high).Floor as real > -high - 1.0;
  }

  lemma BoundsCross(x: real, r: real, n: real, gap: real, low: real, high: real)
    requires n > 0.0 && n * gap >= 1.0 && r <= -gap && low == (x - r) * n && high == (x + r) * n
    ensures Floor(low) > Ceil(high)
  {
    WideApart(x, r, n, low, high, r * n);
    LongSpan(gap, r, n, r * n);
    RoundsPast(low, high);
  }

  /** With a negative radius the box ends before it begins, on any raster whose pixels are smaller than the radius. */
  lemma BoxIsEmpty(run: Run, n: nat, px: int, gap: real)
    requires n > 0 && n as real * gap >= 1.0 && run.r <= -gap
    ensures !(Lo(run.x, run.r, n) <= px <= Hi(run.x, run.r, n))
  {
    BoundsCross(run.x, run.r, n as real, gap, (run.x - run.r) * n as real, (run.x + run.r) * n as real);
  }

  function Smaller(a: real, b: real): real { if a < b then a else b }

  /** A size at which every box of a negative radius is empty and yet a pixel centre is covered. */
  lemma AskewMisses(run: Run, x: real, y: real) returns (n: nat)
    requires run.r < 0.0 && Inside(x, y) && Covers(run, x, y) && x != run.x && y != run.y
    ensures !MaskAgrees(OneReveal(run), n, n)
  {
    var gap := Smaller(-run.r, Smaller(End(x, run.x) - Start(x, run.x), End(y, run.y) - Start(y, run.y)));
    n := FineEnough(1.0, gap);
    var px, py := CoveredBetween(run, x, y, gap, n);
    BoxIsEmpty(run, n, px, gap);
    CoveredOutsideBox(run, n, px, py);
  }

  // Any covered point inside the scene leads to one off the centre in both coordinates.

  lemma PositiveProduct(a: real, b: real, product: real)
    requires a > 0.0 && b > 0.0 && product == a * b
    ensures product > 0.0
  {
  }

  lemma SquaresApart(d: real, e: real) returns (room: real)
    requires 0.0 < d < e || e < d < 0.0
    ensures room > 0.0 && d * d + room == e * e
  {
    room := e * e - d * d;
    var a, b := if d < 0.0 then -d else d, if e < 0.0 then -e else e;
    assert (b - a) * (b + a) == e * e - d * d;
    PositiveProduct(b - a, b + a, room);
  }

  lemma SmallSquare(s: real, room: real)
    requires 0.0 <= s <= 1.0 && s <= room
    ensures s * s <= room
  {
    calc {
      s * s;
    <= { ProductGrows(s, 1.0, s); }
      1.0 * s;
    == s;
    }
  }

  /** Level with the centre: nearer along the one coordinate, then off it along the other. */
  lemma OffTheLine(run: Run, x: real, y: real) returns (px: real, py: real)
    requires Inside(x, y) && Covers(run, x, y) && x == run.x && y != run.y
    ensures Inside(px, py) && Covers(run, px, py) && px != run.x && py != run.y
  {
    py := (Start(y, run.y) + End(y, run.y)) / 2.0;
    var room := SquaresApart(py - run.y, y - run.y);
    var s := if room < 1.0 - x then room / 2.0 else (1.0 - x) / 2.0;
    px := x + s;
    SmallSquare(s, room);
    assert (x - run.x) * (x - run.x) == 0.0;
    assert (px - run.x) * (px - run.x) == s * s;
  }

  /** A disc that is centred on the scene, border included, meets its inside. */
  lemma OffTheCentre(run: Run) returns (px: real, py: real)
    requires 0.0 <= run.x <= 1.0 && 0.0 <= run.y <= 1.0 && run.r != 0.0
    ensures Inside(px, py) && Covers(run, px, py) && px != run.x && py != run.y
  {
    var radius := if run.r < 0.0 then -run.r else run.r;
    var s := if radius < 0.5 then radius / 2.0 else 0.25;
    px := if run.x <= 0.5 then run.x + s else run.x - s;
    py := if run.y <= 0.5 then run.y + s else run.y - s;
    ProductGrows(s, radius / 2.0, s);
    ProductGrows(s, radius / 2.0, radius / 2.0);
    ProductGrows(0.0, radius, radius);
    assert (px - run.x) * (px - run.x) == s * s && (py - run.y) * (py - run.y) == s * s;
    assert s * s <= (radius / 2.0) * (radius / 2.0);
    assert radius * radius == run.r * run.r && (radius / 2.0) * (radius / 2.0) == radius * radius / 4.0;
  }

  lemma NegativeRadiusMisses(run: Run, x: real, y: real) returns (n: nat)
    requires run.r < 0.0 && Inside(x, y) && Covers(run, x, y)
    ensures !MaskAgrees(OneReveal(run), n, n)
  {
    var px, py := x, y;
    if x == run.x && y == run.y {
      px, py := OffTheCentre(run);
    } else if x == run.x {
      px, py := OffTheLine(run, x, y);
    } else if y == run.y {
      py, px := OffTheLine(Run(run.y, run.x, run.r), y, x);
    }
    n := AskewMisses(run, px, py);
  }

  lemma CentreIsInside(p: int, size: nat)
    requires 0 <= p < size
    ensures 0.0 < Centre(p, size) < 1.0
  {
    CentreScales(p, size);
    CancelFactor(0.0, Centre(p, size), size as real);
    CancelFactor(Centre(p, size), 1.0, size as real);
  }

  /** A disc that misses the inside of the scene covers no pixel centre. */
  lemma MissedSceneStaysDark(run: Run, width: nat, height: nat)
    requires !MeetsScene(run)
    ensures MaskAgrees(OneReveal(run), width, height)
  {
    var fog := OneReveal(run);
    forall px, py | InRaster(width, height, px, py)
      ensures Picture(fog, width, height)(px, py) == 1 <==> Revealed(fog, Centre(px, width), Centre(py, height))
    {
      CentreIsInside(px, width);
      CentreIsInside(py, height);
      assert !CoversPixel(run, width, height, px, py);
      assert fog[..0] == [];
      assert !AnyHits(fog[0].runs, width, height, px, py);
      assert Painted(fog[..0], width, height, px, py) == 0;
      assert Picture(fog, width, height)(px, py) == Painted(fog, width, height, px, py);
      assert !Touches(fog[0], Centre(px, width), Centre(py, height));
    }
  }

  /**
   * Exactness of the radius guard: the stored-fog check accepts any finite centre and radius. The rasterizer is
   * the point test of a run at every size if and only if the radius is not negative or the disc misses the inside
   * of the scene; for a run centred on the scene that leaves the sign of the radius.
   */
  lemma MaskAgreesIff(run: Run)
    ensures (forall width: nat, height: nat :: MaskAgrees(OneReveal(run), width, height)) <==>
      run.r >= 0.0 || !MeetsScene(run)
    ensures 0.0 <= run.x <= 1.0 && 0.0 <= run.y <= 1.0 && run.r < 0.0 ==> MeetsScene(run)
  {
    if run.r >= 0.0 {
      forall width: nat, height: nat ensures MaskAgrees(OneReveal(run), width, height) {
        RasterizerIsPointTest(OneReveal(run), width, height);
      }
    } else if MeetsScene(run) {
      var x: real, y: real :| Inside(x, y) && Covers(run, x, y);
      var n := NegativeRadiusMisses(run, x, y);
    } else {
      forall width: nat, height: nat ensures MaskAgrees(OneReveal(run), width, height) {
        MissedSceneStaysDark(run, width, height);
      }
    }
    if 0.0 <= run.x <= 1.0 && 0.0 <= run.y <= 1.0 && run.r < 0.0 {
      var x, y := OffTheCentre(run);
    }
  }

  /** A fog edit is admitted only in this shape. */
  predicate AdmittedOp(op: FogOp) {
    0 < |op.runs| <= 512 &&
    forall i :: 0 <= i < |op.runs| ==>
      0.0 <= op.runs[i].x <= 1.0 && 0.0 <= op.runs[i].y <= 1.0 && op.runs[i].r > 0.0
  }

  /** Fog written through the edit command therefore rasterizes to the point test at every size. */
  lemma AdmittedFogIsPointTest(fog: seq<FogOp>, width: nat, height: nat)
    requires forall o :: 0 <= o < |fog| ==> AdmittedOp(fog[o])
    ensures MaskAgrees(fog, width, height)
  {
    RasterizerIsPointTest(fog, width, height);
  }

  // ---------- the redacted raster: four bytes a pixel, row after row ----------

  const CHANNELS: nat := 4

  /** What becomes of byte k: black and opaque in a concealed pixel, unchanged otherwise. */
  ghost function RedactedByte(data: seq<int>, mask: seq<int>, k: nat): int
    requires k < |data|
  {
    if k / CHANNELS < |mask| && mask[k / CHANNELS] != 1 then (if k % CHANNELS == 3 then 255 else 0) else data[k]
  }

  ghost function Redacted(data: seq<int>, mask: seq<int>): (r: seq<int>)
    ensures |r| == |data|
    ensures forall k :: 0 <= k < |data| ==> r[k] == RedactedByte(data, mask, k)
  {
    seq(|data|, k requires 0 <= k < |data| => RedactedByte(data, mask, k))
  }

  lemma PixelOf(k: nat, index: nat)
    requires CHANNELS * index <= k < CHANNELS * index + CHANNELS
    ensures k / CHANNELS == index && k % CHANNELS == k - CHANNELS * index
  {
  }

  method Blacken(data: array<int>, offset: nat)
    requires offset + CHANNELS <= data.Length
    modifies data
    ensures data[offset] == data[offset + 1] == data[offset + 2] == 0 && data[offset + 3] == 255
    ensures forall k :: 0 <= k < data.Length && !(offset <= k < offset + CHANNELS) ==> data[k] == old(data[k])
  {
    data[offset] := 0;
    data[offset + 1] := 0;
    data[offset + 2] := 0;
    data[offset + 3] := 255;
  }

  /** Concealed pixels become opaque black in place; every other byte keeps its value. */
  method RedactInPlace(data: array<int>, mask: array<int>)
    requires data != mask && data.Length >= CHANNELS * mask.Length
    modifies data
    ensures data[..] == Redacted(old(data[..]), mask[..])
  {
    ghost var was := data[..];
    ghost var cells := mask[..];
    for index := 0 to mask.Length
      invariant mask[..] == cells
      invariant forall k :: CHANNELS * index <= k < data.Length ==> data[k] == was[k]
      invariant forall k :: 0 <= k < CHANNELS * index ==> data[k] == RedactedByte(was, cells, k)
    {
      if mask[index] != 1 {
        Blacken(data, index * CHANNELS);
      }
      forall k | CHANNELS * index <= k < CHANNELS * index + CHANNELS ensures data[k] == RedactedByte(was, cells, k) {
        PixelOf(k, index);
      }
    }
    forall k | CHANNELS * mask.Length <= k < data.Length ensures data[k] == RedactedByte(was, cells, k) {
      assert k / CHANNELS >= mask.Length;
    }
  }

  datatype Raster = Raster(data: seq<int>) | EmptyRaster

  ghost predicate IsDerivative(out: seq<int>, decoded: seq<int>, width: nat, height: nat, fog: seq<FogOp>) {
    exists mask: seq<int> :: Shows(mask, width, height, Picture(fog, width, height)) && out == Redacted(decoded, mask)
  }

  /** The derivative: an empty or short decode is an error, anything else is redacted by the fog's mask. */
  method CompositeDerivative(decoded: seq<int>, width: nat, height: nat, fog: seq<FogOp>) returns (out: Raster)
    ensures out.EmptyRaster? <==> width < 1 || height < 1 || |decoded| < width * height * CHANNELS
    ensures out.Raster? ==> IsDerivative(out.data, decoded, width, height, fog)
  {
    if width < 1 || height < 1 || |decoded| < width * height * CHANNELS {
      return EmptyRaster;
    }
    var mask := BuildRevealMask(width, height, fog);
    var data := new int[|decoded|](k requires 0 <= k < |decoded| => decoded[k]);
    assert data[..] == decoded;
    RedactInPlace(data, mask);
    out := Raster(data[..]);
    assert Shows(mask[..], width, height, Picture(fog, width, height));
  }

  function Pixel(data: seq<int>, width: nat, px: int, py: int): seq<int>
    requires 0 <= 4 * (py * width + px) && 4 * (py * width + px) + 4 <= |data|
  {
    data[4 * (py * width + px)..4 * (py * width + px) + 4]
  }

  lemma RedactedPixel(data: seq<int>, mask: seq<int>, i: nat)
    requires i < |mask| && 4 * i + 4 <= |data|
    ensures Redacted(data, mask)[4 * i..4 * i + 4] == if mask[i] == 1 then data[4 * i..4 * i + 4] else [0, 0, 0, 255]
  {
    forall k | 4 * i <= k < 4 * i + 4
      ensures Redacted(data, mask)[k] == if mask[i] == 1 then data[k] else if k == 4 * i + 3 then 255 else 0
    {
      PixelOf(k, i);
    }
  }

  /** Pixel by pixel, through fog geometry: a revealed centre keeps its four bytes, any other is opaque black. */
  lemma DerivativePixel(out: seq<int>, data: seq<int>, width: nat, height: nat, fog: seq<FogOp>, px: int, py: int)
    requires NoNegativeRadius(fog) && InRaster(width, height, px, py)
    requires |data| >= width * height * CHANNELS && IsDerivative(out, data, width, height, fog)
    ensures |out| == |data| && 0 <= CHANNELS * At(width, px, py) && CHANNELS * At(width, px, py) + CHANNELS <= |data|
    ensures Pixel(out, width, px, py) ==
      if Revealed(fog, (px as real + 0.5) / width as real, (py as real + 0.5) / height as real)
      then Pixel(data, width, px, py) else [0, 0, 0, 255]
  {
    var mask :| Shows(mask, width, height, Picture(fog, width, height)) && out == Redacted(data, mask);
    AtInRange(width, height, px, py);
    RasterizerIsPointTest(fog, width, height);
    var i := At(width, px, py);
    assert mask[i] == Picture(fog, width, height)(px, py);
    RedactedPixel(data, mask, i);
  }

  /** Every byte of the raster belongs to a pixel. */
  lemma PixelAt(k: nat, width: nat, height: nat) returns (px: int, py: int)
    requires k < width * height * CHANNELS
    ensures InRaster(width, height, px, py)
    ensures CHANNELS * At(width, px, py) <= k < CHANNELS * At(width, px, py) + CHANNELS
  {
    var index := k / CHANNELS;
    assert CHANNELS * index <= k < CHANNELS * index + CHANNELS;
    assert index < width * height;
    assert width > 0;
    px, py := index % width, index / width;
    assert index == py * width + px;
    RowOf(width, height, py, index);
  }

  lemma RowOf(width: nat, height: nat, py: int, index: nat)
    requires width > 0 && py * width <= index < width * height
    ensures py < height
  {
    if py >= height {
      RowsGrow(width, height, py);
      assert false;
    }
  }

  /** The bytes of a revealed pixel are alike in both. */
  ghost predicate AlikeAt(a: seq<int>, b: seq<int>, width: nat, height: nat, fog: seq<FogOp>, px: int, py: int)
    requires |a| == |b| >= width * height * CHANNELS && InRaster(width, height, px, py)
  {
    AtInRange(width, height, px, py);
    Revealed(fog, Centre(px, width), Centre(py, height)) ==> Pixel(a, width, px, py) == Pixel(b, width, px, py)
  }

  ghost predicate AlikeWhereRevealed(a: seq<int>, b: seq<int>, width: nat, height: nat, fog: seq<FogOp>)
    requires |a| == |b| >= width * height * CHANNELS
  {
    forall px, py :: InRaster(width, height, px, py) ==> AlikeAt(a, b, width, height, fog, px, py)
  }

  lemma EqualPixels(a: seq<int>, b: seq<int>, width: nat, height: nat)
    requires |a| == |b| >= width * height * CHANNELS
    requires a[width * height * CHANNELS..] == b[width * height * CHANNELS..]
    requires forall px, py :: InRaster(width, height, px, py) ==>
      0 <= CHANNELS * At(width, px, py) && CHANNELS * At(width, px, py) + CHANNELS <= |a| &&
      Pixel(a, width, px, py) == Pixel(b, width, px, py)
    ensures a == b
  {
    forall k | 0 <= k < |a| ensures a[k] == b[k] {
      if k < width * height * CHANNELS {
        var px, py := PixelAt(k, width, height);
        var o := CHANNELS * At(width, px, py);
        assert Pixel(a, width, px, py)[k - o] == a[k] && Pixel(b, width, px, py)[k - o] == b[k];
      } else {
        var m := width * height * CHANNELS;
        assert a[m..][k - m] == a[k] && b[m..][k - m] == b[k];
      }
    }
  }

  /** Bytes behind the last pixel are left alone. */
  lemma TailStays(out: seq<int>, data: seq<int>, width: nat, height: nat, fog: seq<FogOp>)
    requires |data| >= width * height * CHANNELS && IsDerivative(out, data, width, height, fog)
    ensures |out| == |data| && out[width * height * CHANNELS..] == data[width * height * CHANNELS..]
  {
    forall k | width * height * CHANNELS <= k < |data| ensures out[k] == data[k] {
      assert k / CHANNELS >= width * height;
    }
  }

  /**
   * Nothing concealed survives and nothing revealed is lost: the derivatives of two backgrounds under one fog are
   * equal exactly if the backgrounds agree on every pixel whose centre the fog reveals (and behind the last one).
   */
  lemma DerivativesAlikeIff(a: seq<int>, b: seq<int>, outA: seq<int>, outB: seq<int>, width: nat, height: nat,
      fog: seq<FogOp>)
    requires NoNegativeRadius(fog) && |a| == |b| >= width * height * CHANNELS
    requires IsDerivative(outA, a, width, height, fog) && IsDerivative(outB, b, width, height, fog)
    ensures outA == outB <==>
      AlikeWhereRevealed(a, b, width, height, fog) && a[width * height * CHANNELS..] == b[width * height * CHANNELS..]
  {
    TailStays(outA, a, width, height, fog);
    TailStays(outB, b, width, height, fog);
    if outA == outB {
      forall px, py | InRaster(width, height, px, py) ensures AlikeAt(a, b, width, height, fog, px, py) {
        DerivativePixel(outA, a, width, height, fog, px, py);
        DerivativePixel(outB, b, width, height, fog, px, py);
      }
    }
    var m := width * height * CHANNELS;
    if AlikeWhereRevealed(a, b, width, height, fog) && a[m..] == b[m..] {
      forall px, py | InRaster(width, height, px, py)
        ensures 0 <= CHANNELS * At(width, px, py) && CHANNELS * At(width, px, py) + CHANNELS <= |outA|
        ensures Pixel(outA, width, px, py) == Pixel(outB, width, px, py)
      {
        assert AlikeAt(a, b, width, height, fog, px, py);
        DerivativePixel(outA, a, width, height, fog, px, py);
        DerivativePixel(outB, b, width, height, fog, px, py);
      }
      EqualPixels(outA, outB, width, height);
    }
  }
}
