/** Supersampling: the grid, random and jittered generators of sub-pixel offsets,
    which fill an n-by-n table in place, and the adaptive 3x3 subdivision. */
module SuperSampling {
  import opened Vectors
  import opened SceneTypes
  import opened Settings
  import opened Scenes
  import opened Tracer

  /** The largest samples-per-axis the 5 x 5 offset table of `tracePixel` holds. */
  const MAX_SUB_PIXEL: nat := 5

  /** The gradient above which an adaptive step subdivides. */
  const GRADIENT_THRESHOLD: real := 0.2

  /** Slot `y * n + x` of an n-by-n table stored row after row. */
  function Slot(n: nat, x: nat, y: nat): (k: nat)
    requires x < n && y < n
    ensures k < n * n
  {
    SlotBound(n, x, y);
    RowStart(n, y) + x
  }

  /** The first slot of row y, y n, counted up one row at a time. */
  function RowStart(n: int, y: nat): int
  {
    if y == 0 then 0 else RowStart(n, y - 1) + n
  }

  lemma {:induction false} RowStartValue(n: int, y: nat)
    ensures RowStart(n, y) == y * n
  {
    if y > 0 {
      RowStartValue(n, y - 1);
    }
  }

  /** A later row starts at least one full row further on. */
  lemma {:induction false} RowStartOrder(n: int, y: nat, y': nat)
    requires 0 <= n && y < y'
    ensures RowStart(n, y) + n <= RowStart(n, y')
  {
    if y + 1 < y' {
      RowStartOrder(n, y, y' - 1);
    }
  }

  lemma SlotBound(n: nat, x: nat, y: nat)
    requires x < n && y < n
    ensures 0 <= RowStart(n, y) && RowStart(n, y) + x < n * n
  {
    if y > 0 {
      RowStartOrder(n, 0, y);
    }
    RowStartOrder(n, y, n);
    RowStartValue(n, n);
  }

  lemma SlotValue(n: nat, x: nat, y: nat)
    requires x < n && y < n
    ensures Slot(n, x, y) == RowStart(n, y) + x
  {
  }

  lemma IntMulMono(k: int, a: int, b: int)
    requires 0 <= k && a <= b
    ensures k * a <= k * b
  {
    assert k * b - k * a == k * (b - a);
  }

  /** A cell in an earlier row has a smaller slot. */
  lemma SlotOrder(n: nat, x: nat, y: nat, x': nat, y': nat)
    requires x < n && y < n && x' < n && y' < n
    ensures y < y' ==> Slot(n, x, y) < Slot(n, x', y')
  {
    if y < y' {
      RowStartOrder(n, y, y');
    }
  }

  /** Different cells of a table with n columns have different slots. */
  lemma SlotsDistinct(n: nat, x: nat, y: nat)
    requires x < n && y < n
    ensures forall x': nat, y': nat {:trigger Slot(n, x', y')} ::
              x' < n && y' < n && Slot(n, x', y') == Slot(n, x, y) ==> x' == x && y' == y
  {
    forall x': nat, y': nat | x' < n && y' < n && Slot(n, x', y') == Slot(n, x, y)
      ensures x' == x && y' == y
    {
      SlotOrder(n, x, y, x', y');
      SlotOrder(n, x', y', x, y);
    }
  }

  /** The number of `rand()` draws the random and jittered generators read. */
  function DrawsUsed(n: int): nat
  {
    if n >= 2 then n * n else 0
  }

  // ---------------------------------------------------------------------------
  // The three generators

  /** The spacing of n samples spread evenly over [-half, half]. */
  function Cell(half: real, n: int): real
    requires n != 1
  {
    half * 2.0 / ((n - 1) as real)
  }

  /** Grid cell (x, y): (-w + x cw, -h + y ch), or (0, 0) when n is 1. */
  function GridSample(region: Vec2, n: int, x: int, y: int): Vec2
  {
    if n == 1 then Vec2(0.0, 0.0)
    else Vec2(-region.x + (x as real) * Cell(region.x, n), -region.y + (y as real) * Cell(region.y, n))
  }

  /** A random sample for the draw d: the same d on both axes, scaled to the region. */
  function RandomSample(region: Vec2, n: int, d: real): Vec2
  {
    if n == 1 then Vec2(0.0, 0.0) else Vec2(Spread(region.x, d), Spread(region.y, d))
  }

  /** The draw d, in [-0.5, 0.5), stretched over [-half, half). */
  function Spread(half: real, d: real): real
  {
    half * d * 2.0
  }

  /** Jittered cell (x, y): the grid point moved by the same fraction d of a cell on both axes. */
  function JitteredSample(region: Vec2, n: int, x: int, y: int, d: real): Vec2
  {
    if n == 1 then Vec2(0.0, 0.0)
    else
      Vec2(-region.x + (x as real) * Cell(region.x, n) + Cell(region.x, n) * d,
           -region.y + (y as real) * Cell(region.y, n) + Cell(region.y, n) * d)
  }

  /** `RayTracing_SuperSampling_getSample_grid`: cell (x, y) goes to slot y n + x;
      nothing past the first n^2 slots changes. */
  method GetSampleGrid(dst: array<Vec2>, region: Vec2, n: int) returns (ok: bool)
    requires n >= 1 ==> n * n <= dst.Length
    modifies dst
    ensures ok
    ensures forall x: nat, y: nat :: x < n && y < n ==> dst[Slot(n, x, y)] == GridSample(region, n, x, y)
    ensures forall k :: 0 <= k < dst.Length && (n < 1 || n * n <= k) ==> dst[k] == old(dst[k])
  {
    if n == 1 {
      dst[0] := Vec2(0.0, 0.0);
      return true;
    }
    var wPixel := region.x * 2.0 / ((n - 1) as real);
    var hPixel := region.y * 2.0 / ((n - 1) as real);
    if n >= 2 {  // for n < 1 the loops run no pass
      FillGridColumns(dst, region, n, wPixel, hPixel);
    }
    return true;
  }

  /** The outer loop of the grid generator, over x = 0 .. n - 1. */
  method FillGridColumns(dst: array<Vec2>, region: Vec2, n: nat, wPixel: real, hPixel: real)
    requires 2 <= n && n * n <= dst.Length
    requires wPixel == Cell(region.x, n) && hPixel == Cell(region.y, n)
    modifies dst
    ensures forall x: nat, y: nat :: x < n && y < n ==> dst[Slot(n, x, y)] == GridSample(region, n, x, y)
    ensures forall k :: n * n <= k < dst.Length ==> dst[k] == old(dst[k])
  {
    hide Slot, GridSample, Cell;
    var x := 0;
    while x < n
      invariant 0 <= x <= n
      invariant forall x': nat, y': nat :: x' < x && y' < n ==> dst[Slot(n, x', y')] == GridSample(region, n, x', y')
      invariant forall k :: n * n <= k < dst.Length ==> dst[k] == old(dst[k])
    {
      FillGridColumn(dst, region, n, x, wPixel, hPixel);
      x := x + 1;
    }
  }

  /** One pass of the inner loop of the grid generator: cells (x, 0) .. (x, n - 1). */
  method FillGridColumn(dst: array<Vec2>, region: Vec2, n: nat, x: nat, wPixel: real, hPixel: real)
    requires 2 <= n && x < n && n * n <= dst.Length
    requires wPixel == Cell(region.x, n) && hPixel == Cell(region.y, n)
    modifies dst
    ensures forall y: nat :: y < n ==> dst[Slot(n, x, y)] == GridSample(region, n, x, y)
    ensures forall x': nat, y': nat :: x' < n && y' < n && x' != x ==> dst[Slot(n, x', y')] == old(dst[Slot(n, x', y')])
    ensures forall k :: n * n <= k < dst.Length ==> dst[k] == old(dst[k])
  {
    hide Slot, GridSample, Cell;
    var y := 0;
    while y < n
      invariant 0 <= y <= n
      invariant forall y': nat :: y' < y ==> dst[Slot(n, x, y')] == GridSample(region, n, x, y')
      invariant forall x': nat, y': nat :: x' < n && y' < n && (x' != x || y' >= y)
                  ==> dst[Slot(n, x', y')] == old(dst[Slot(n, x', y')])
      invariant forall k :: n * n <= k < dst.Length ==> dst[k] == old(dst[k])
    {
      SlotsDistinct(n, x, y);
      dst[Slot(n, x, y)] := Vec2(-region.x + (x as real) * wPixel, -region.y + (y as real) * hPixel);
      GridSampleValue(region, n, x, y, wPixel, hPixel);
      y := y + 1;
    }
  }

  /** `RayTracing_SuperSampling_getSample_random`: the k-th draw, counted with x
      outer and y inner, fills slot k = x n + y. */
  method GetSampleRandom(dst: array<Vec2>, region: Vec2, n: int, draws: Draws, pos: nat)
    returns (ok: bool, next: nat)
    requires n >= 1 ==> n * n <= dst.Length
    modifies dst
    ensures ok && next == pos + DrawsUsed(n)
    ensures forall x: nat, y: nat :: x < n && y < n
              ==> dst[Slot(n, y, x)] == RandomSample(region, n, RandD(draws, pos + Slot(n, y, x)))
    ensures forall k :: 0 <= k < dst.Length && (n < 1 || n * n <= k) ==> dst[k] == old(dst[k])
  {
    next := pos;
    if n == 1 {
      dst[0] := Vec2(0.0, 0.0);
      return true, next;
    }
    if n >= 2 {  // for n < 1 the loops run no pass
      next := FillRandomColumns(dst, region, n, draws, pos);
    }
    return true, next;
  }

  /** The outer loop of the random generator, over x = 0 .. n - 1. */
  method FillRandomColumns(dst: array<Vec2>, region: Vec2, n: nat, draws: Draws, pos: nat) returns (next: nat)
    requires 2 <= n && n * n <= dst.Length
    modifies dst
    ensures next == pos + DrawsUsed(n)
    ensures forall x: nat, y: nat :: x < n && y < n
              ==> dst[Slot(n, y, x)] == RandomSample(region, n, RandD(draws, pos + Slot(n, y, x)))
    ensures forall k :: n * n <= k < dst.Length ==> dst[k] == old(dst[k])
  {
    hide Slot, RandomSample, RandD;
    next := pos;
    var index := 0;
    var x := 0;
    RowStartFacts(n, 0);
    while x < n
      invariant 0 <= x <= n
      invariant index == RowStart(n, x) && next == pos + index
      invariant forall x': nat, y': nat :: x' < x && y' < n
                  ==> dst[Slot(n, y', x')] == RandomSample(region, n, RandD(draws, pos + Slot(n, y', x')))
      invariant forall k :: n * n <= k < dst.Length ==> dst[k] == old(dst[k])
    {
      RowStartFacts(n, x);
      next, index := FillRandomColumn(dst, region, n, x, draws, pos, next, index);
      x := x + 1;
    }
    RowStartFacts(n, x);
  }

  /** One pass of the inner loop of the random generator: slots x n .. x n + n - 1,
      each with the next draw. */
  method FillRandomColumn(dst: array<Vec2>, region: Vec2, n: nat, x: nat, draws: Draws, pos: nat,
                          start: nat, first: nat)
    returns (next: nat, index: nat)
    requires 2 <= n && x < n && n * n <= dst.Length
    requires first == Slot(n, 0, x) && start == pos + first
    modifies dst
    ensures index == first + n && next == pos + index
    ensures forall y: nat :: y < n ==> dst[Slot(n, y, x)] == RandomSample(region, n, RandD(draws, pos + Slot(n, y, x)))
    ensures forall x': nat, y': nat :: x' < n && y' < n && x' != x ==> dst[Slot(n, y', x')] == old(dst[Slot(n, y', x')])
    ensures forall k :: n * n <= k < dst.Length ==> dst[k] == old(dst[k])
  {
    hide Slot, RandD, RandomSample;
    next, index := start, first;
    SlotValue(n, 0, x);
    var y := 0;
    while y < n
      invariant 0 <= y <= n
      invariant index == first + y && next == pos + index
      invariant forall y': nat :: y' < y ==> dst[Slot(n, y', x)] == RandomSample(region, n, RandD(draws, pos + Slot(n, y', x)))
      invariant forall x': nat, y': nat :: x' < n && y' < n && (x' != x || y' >= y)
                  ==> dst[Slot(n, y', x')] == old(dst[Slot(n, y', x')])
      invariant forall k :: n * n <= k < dst.Length ==> dst[k] == old(dst[k])
    {
      SlotsDistinct(n, y, x);
      SlotValue(n, y, x);
      var randD := RandD(draws, next);
      next := next + 1;
      dst[index] := Vec2(region.x * randD * 2.0, region.y * randD * 2.0);
      RandomSampleValue(region, n, randD);
      index := index + 1;
      y := y + 1;
    }
  }

  /** `RayTracing_SuperSampling_getSample_jittered`: cell (x, y) goes to slot y n + x
      and reads the draw counted with x outer and y inner, x n + y. */
  method GetSampleJittered(dst: array<Vec2>, region: Vec2, n: int, draws: Draws, pos: nat)
    returns (ok: bool, next: nat)
    requires n >= 1 ==> n * n <= dst.Length
    modifies dst
    ensures ok && next == pos + DrawsUsed(n)
    ensures forall x: nat, y: nat :: x < n && y < n
              ==> dst[Slot(n, x, y)] == JitteredSample(region, n, x, y, RandD(draws, pos + JitterDraw(n, x, y)))
    ensures forall k :: 0 <= k < dst.Length && (n < 1 || n * n <= k) ==> dst[k] == old(dst[k])
  {
    next := pos;
    if n == 1 {
      dst[0] := Vec2(0.0, 0.0);
      return true, next;
    }
    var wPixel := region.x * 2.0 / ((n - 1) as real);
    var hPixel := region.y * 2.0 / ((n - 1) as real);
    if n >= 2 {  // for n < 1 the loops run no pass
      next := FillJitteredColumns(dst, region, n, wPixel, hPixel, draws, pos);
    }
    return true, next;
  }

  /** The outer loop of the jittered generator, over the columns x = 0 .. n - 1. */
  method FillJitteredColumns(dst: array<Vec2>, region: Vec2, n: nat, wPixel: real, hPixel: real,
                             draws: Draws, pos: nat)
    returns (next: nat)
    requires 2 <= n && n * n <= dst.Length
    requires wPixel == Cell(region.x, n) && hPixel == Cell(region.y, n)
    modifies dst
    ensures next == pos + DrawsUsed(n)
    ensures forall x: nat, y: nat :: x < n && y < n
              ==> dst[Slot(n, x, y)] == JitteredSample(region, n, x, y, RandD(draws, pos + JitterDraw(n, x, y)))
    ensures forall k :: n * n <= k < dst.Length ==> dst[k] == old(dst[k])
  {
    hide Slot, JitterDraw, JitteredSample, RandD, Cell;
    next := pos;
    var x := 0;
    RowStartFacts(n, 0);
    while x < n
      invariant 0 <= x <= n
      invariant next == pos + RowStart(n, x)
      invariant forall x': nat, y': nat :: x' < x && y' < n
                  ==> dst[Slot(n, x', y')] == JitteredSample(region, n, x', y', RandD(draws, pos + JitterDraw(n, x', y')))
      invariant forall k :: n * n <= k < dst.Length ==> dst[k] == old(dst[k])
    {
      RowStartFacts(n, x);
      next := FillJitteredColumn(dst, region, n, x, wPixel, hPixel, draws, pos, next);
      x := x + 1;
    }
    RowStartFacts(n, x);
  }

  /** The draw cell (x, y) of the jittered generator reads: x n + y, counted with
      x outer and y inner. */
  function JitterDraw(n: nat, x: nat, y: nat): nat
    requires x < n && y < n
  {
    Slot(n, y, x)
  }

  lemma JitterDrawValue(n: nat, x: nat, y: nat)
    requires x < n && y < n
    ensures JitterDraw(n, x, y) == Slot(n, 0, x) + y
  {
  }

  /** One pass of the inner loop of the jittered generator: cells (x, 0) .. (x, n - 1),
      each with the next draw. */
  method FillJitteredColumn(dst: array<Vec2>, region: Vec2, n: nat, x: nat, wPixel: real, hPixel: real,
                            draws: Draws, pos: nat, start: nat)
    returns (next: nat)
    requires 2 <= n && x < n && n * n <= dst.Length
    requires wPixel == Cell(region.x, n) && hPixel == Cell(region.y, n)
    requires start == pos + Slot(n, 0, x)
    modifies dst
    ensures next == start + n
    ensures forall y: nat :: y < n
              ==> dst[Slot(n, x, y)] == JitteredSample(region, n, x, y, RandD(draws, pos + JitterDraw(n, x, y)))
    ensures forall x': nat, y': nat :: x' < n && y' < n && x' != x ==> dst[Slot(n, x', y')] == old(dst[Slot(n, x', y')])
    ensures forall k :: n * n <= k < dst.Length ==> dst[k] == old(dst[k])
  {
    hide Slot, RandD, JitteredSample, Cell, JitterDraw;
    next := start;
    var y := 0;
    while y < n
      invariant 0 <= y <= n
      invariant next == start + y
      invariant forall y': nat :: y' < y
                  ==> dst[Slot(n, x, y')] == JitteredSample(region, n, x, y', RandD(draws, pos + JitterDraw(n, x, y')))
      invariant forall x': nat, y': nat :: x' < n && y' < n && (x' != x || y' >= y)
                  ==> dst[Slot(n, x', y')] == old(dst[Slot(n, x', y')])
      invariant forall k :: n * n <= k < dst.Length ==> dst[k] == old(dst[k])
    {
      SlotsDistinct(n, x, y);
      JitterDrawValue(n, x, y);
      var randD := RandD(draws, next);
      next := next + 1;
      dst[Slot(n, x, y)] := Vec2(-region.x + (x as real) * wPixel + wPixel * randD,
                                 -region.y + (y as real) * hPixel + hPixel * randD);
      JitteredSampleValue(region, n, x, y, randD, wPixel, hPixel);
      y := y + 1;
    }
  }

  lemma GridSampleValue(region: Vec2, n: int, x: int, y: int, wPixel: real, hPixel: real)
    requires n != 1 && wPixel == Cell(region.x, n) && hPixel == Cell(region.y, n)
    ensures GridSample(region, n, x, y) == Vec2(-region.x + (x as real) * wPixel, -region.y + (y as real) * hPixel)
  {
    var g := GridSample(region, n, x, y);
    assert g.x == -region.x + (x as real) * Cell(region.x, n);
    assert g.y == -region.y + (y as real) * Cell(region.y, n);
  }

  lemma RandomSampleValue(region: Vec2, n: int, d: real)
    requires n != 1
    ensures RandomSample(region, n, d) == Vec2(region.x * d * 2.0, region.y * d * 2.0)
  {
  }

  lemma JitteredSampleValue(region: Vec2, n: int, x: int, y: int, d: real, wPixel: real, hPixel: real)
    requires n != 1 && wPixel == Cell(region.x, n) && hPixel == Cell(region.y, n)
    ensures JitteredSample(region, n, x, y, d)
            == Vec2(-region.x + (x as real) * wPixel + wPixel * d, -region.y + (y as real) * hPixel + hPixel * d)
  {
    var j := JitteredSample(region, n, x, y, d);
    assert j.x == -region.x + (x as real) * Cell(region.x, n) + Cell(region.x, n) * d;
    assert j.y == -region.y + (y as real) * Cell(region.y, n) + Cell(region.y, n) * d;
  }

  // ---------------------------------------------------------------------------
  // What the generators promise

  /** With one sample per axis every generator gives the pixel centre. */
  lemma SingleSampleIsCentre(region: Vec2, d: real)
    ensures GridSample(region, 1, 0, 0) == RandomSample(region, 1, d) == JitteredSample(region, 1, 0, 0, d)
            == Vec2(0.0, 0.0)
  {
  }

  /** For n >= 2 the grid runs from corner (-w, -h) to corner (w, h) in equal steps. */
  lemma GridSpansRegion(region: Vec2, n: int, x: int, y: int)
    requires n >= 2
    ensures GridSample(region, n, 0, 0) == Vec2(-region.x, -region.y)
    ensures GridSample(region, n, n - 1, n - 1) == Vec2(region.x, region.y)
    ensures GridSample(region, n, x + 1, y).x - GridSample(region, n, x, y).x == Cell(region.x, n)
    ensures GridSample(region, n, x, y + 1).y - GridSample(region, n, x, y).y == Cell(region.y, n)
  {
    var m := (n - 1) as real;
    assert m * (region.x * 2.0 / m) == region.x * 2.0;
    assert m * (region.y * 2.0 / m) == region.y * 2.0;
  }

  /** The grid is centred on the pixel: cell (n - 1 - x, n - 1 - y) is cell (x, y)
      reflected through the centre. */
  lemma GridIsCentred(region: Vec2, n: int, x: int, y: int)
    requires n >= 2
    ensures GridSample(region, n, n - 1 - x, n - 1 - y)
            == Vec2(-GridSample(region, n, x, y).x, -GridSample(region, n, x, y).y)
  {
    var m := (n - 1) as real;
    var cw, ch := Cell(region.x, n), Cell(region.y, n);
    assert m * cw == region.x * 2.0;
    assert m * ch == region.y * 2.0;
    assert ((n - 1 - x) as real) * cw == m * cw - (x as real) * cw;
    assert ((n - 1 - y) as real) * ch == m * ch - (y as real) * ch;
    var g := GridSample(region, n, x, y);
    assert g == Vec2(-region.x + (x as real) * cw, -region.y + (y as real) * ch);
    assert GridSample(region, n, n - 1 - x, n - 1 - y)
        == Vec2(-region.x + ((n - 1 - x) as real) * cw, -region.y + ((n - 1 - y) as real) * ch);
  }

  /** A random sample moves both axes by the same fraction of the region: it lies on
      the region's diagonal. */
  lemma RandomSampleOnDiagonal(region: Vec2, n: int, d: real)
    ensures RandomSample(region, n, d).x * region.y == RandomSample(region, n, d).y * region.x
  {
    if n != 1 {
      assert region.x * d * 2.0 * region.y == (region.x * region.y) * (d * 2.0);
      assert region.y * d * 2.0 * region.x == (region.x * region.y) * (d * 2.0);
    }
  }

  /** A draw in [-0.5, 0.5] keeps a random sample inside the region. */
  lemma RandomSampleInRegion(region: Vec2, n: int, d: real)
    requires region.x >= 0.0 && region.y >= 0.0 && -0.5 <= d <= 0.5
    ensures InRegion(RandomSample(region, n, d), region)
  {
    hide Spread;
    if n != 1 {
      HalfScaled(region.x, d);
      HalfScaled(region.y, d);
    }
  }

  /** The offset lies in the rectangle [-w, w] x [-h, h] of the region (w, h). */
  predicate InRegion(o: Vec2, region: Vec2)
  {
    -region.x <= o.x <= region.x && -region.y <= o.y <= region.y
  }

  lemma HalfScaled(w: real, d: real)
    requires w >= 0.0 && -0.5 <= d <= 0.5
    ensures -w <= Spread(w, d) <= w
  {
    var e := 2.0 * d;
    assert Spread(w, d) == w * e;
    MulMono(w, e, 1.0);
    MulMono(w, -1.0, e);
    assert w * 1.0 == w && w * -1.0 == -w;
  }

  /** A jittered sample is its grid point moved by the same fraction d of a cell on both axes. */
  lemma JitterIsCommonFraction(region: Vec2, n: int, x: int, y: int, d: real)
    requires n != 1
    ensures JitteredSample(region, n, x, y, d).x - GridSample(region, n, x, y).x == Cell(region.x, n) * d
    ensures JitteredSample(region, n, x, y, d).y - GridSample(region, n, x, y).y == Cell(region.y, n) * d
  {
  }

  // ---------------------------------------------------------------------------
  // Adaptive supersampling

  /** Colours traced so far and the `rand()` position after them. */
  datatype Samples = Samples(colors: seq<Vec3>, next: nat)

  /** An adaptive result: the colour, the `rand()` position after it, and how many
      primary rays it traced. */
  datatype AdaptiveColor = AdaptiveColor(color: Vec3, next: nat, traces: nat)

  /** The point of the k-th adaptive sample: the 3 x 3 grid over the region read in slot order. */
  function AdaptivePoint(src: Vec2, region: Vec2, k: nat): Vec2
  {
    var o := GridSample(region, 3, k % 3, k / 3);
    Vec2(src.x + o.x, src.y + o.y)
  }

  /** The first k of the nine samples around `src`, each traced from where the previous one stopped. */
  function AdaptiveGrid(env: Env, s: Scene, src: Vec2, region: Vec2, k: nat, pos: nat): (g: Samples)
    ensures |g.colors| == k && g.next >= pos
  {
    if k == 0 then Samples([], pos)
    else
      var prev := AdaptiveGrid(env, s, src, region, k - 1, pos);
      var p := AdaptivePoint(src, region, k - 1);
      var t := PrimaryColor(env, s, p.x, p.y, prev.next);
      Samples(prev.colors + [t.color], t.next)
  }

  /** The colours added in order. */
  function SumColors(cs: seq<Vec3>): Vec3
  {
    if cs == [] then Zero else Add(SumColors(cs[..|cs| - 1]), cs[|cs| - 1])
  }

  /** The gradient test: some channel of t[1] - t[7] (vertical) or t[3] - t[5]
      (horizontal) exceeds the threshold in absolute value. */
  predicate Steep(t: seq<Vec3>)
    requires |t| == 9
  {
    var v, h := Sub(t[1], t[7]), Sub(t[3], t[5]);
    Abs(v.x) > GRADIENT_THRESHOLD || Abs(v.y) > GRADIENT_THRESHOLD || Abs(v.z) > GRADIENT_THRESHOLD
    || Abs(h.x) > GRADIENT_THRESHOLD || Abs(h.y) > GRADIENT_THRESHOLD || Abs(h.z) > GRADIENT_THRESHOLD
  }

  /** The most primary rays an adaptive step of the given depth can trace:
      T(d) = 9 for d <= 0, else 9 + 5 T(d - 1). */
  function TraceBound(depth: int): nat
  {
    if depth <= 0 then 9 else 9 + 5 * TraceBound(depth - 1)
  }

  /** `RayTracing_SuperSampling_adaptive`: the mean of the nine samples, or, when
      depth is left and the gradient is steep, the mean of five half-size steps.
      It never traces fewer than 9 or more than T(depth) primary rays. */
  function AdaptiveSample(env: Env, s: Scene, src: Vec2, region: Vec2, depth: int, pos: nat): (a: AdaptiveColor)
    ensures 9 <= a.traces <= TraceBound(depth)
    ensures a.next >= pos
    decreases Budget(depth), 1
  {
    var g := AdaptiveGrid(env, s, src, region, 9, pos);
    if depth <= 0 || !Steep(g.colors) then AdaptiveColor(Div(SumColors(g.colors), 9.0), g.next, 9)
    else
      var sub := Subdivided(env, s, src, region, depth, g.next);
      sub.(traces := 9 + sub.traces)
  }

  /** The five half-size steps of a steep adaptive step (top, left, right, bottom,
      centre), averaged; `traces` counts their primary rays. */
  function Subdivided(env: Env, s: Scene, src: Vec2, region: Vec2, depth: int, pos: nat): (a: AdaptiveColor)
    requires depth > 0
    ensures 45 <= a.traces <= 5 * TraceBound(depth - 1)
    ensures a.next >= pos
    decreases Budget(depth), 0
  {
    var half := Vec2(region.x / 2.0, region.y / 2.0);
    var top := AdaptiveSample(env, s, Vec2(src.x, src.y - half.y), half, depth - 1, pos);
    var left := AdaptiveSample(env, s, Vec2(src.x - half.x, src.y), half, depth - 1, top.next);
    var right := AdaptiveSample(env, s, Vec2(src.x + half.x, src.y), half, depth - 1, left.next);
    var bottom := AdaptiveSample(env, s, Vec2(src.x, src.y + half.y), half, depth - 1, right.next);
    var center := AdaptiveSample(env, s, src, half, depth - 1, bottom.next);
    AdaptiveColor(Div(Add(Add(Add(Add(top.color, left.color), right.color), bottom.color), center.color), 5.0),
                  center.next, top.traces + left.traces + right.traces + bottom.traces + center.traces)
  }

  /** Equal colours above and below the centre, and left and right of it, never
      trigger a subdivision. */
  lemma FlatGridIsNotSteep(t: seq<Vec3>)
    requires |t| == 9 && t[1] == t[7] && t[3] == t[5]
    ensures !Steep(t)
  {
  }

  /** Where all nine samples have the same colour the adaptive step traces only
      them and returns that colour. */
  lemma UniformGridGivesItsColour(env: Env, s: Scene, src: Vec2, region: Vec2, depth: int, pos: nat, c: Vec3)
    requires forall k :: 0 <= k < 9 ==> AdaptiveGrid(env, s, src, region, 9, pos).colors[k] == c
    ensures AdaptiveSample(env, s, src, region, depth, pos)
            == AdaptiveColor(c, AdaptiveGrid(env, s, src, region, 9, pos).next, 9)
  {
    hide Steep, SumColors, AdaptiveGrid, Subdivided;
    var g := AdaptiveGrid(env, s, src, region, 9, pos);
    FlatGridIsNotSteep(g.colors);
    SumOfCopies(g.colors, c);
    assert Div(Scale(c, 9.0), 9.0) == c;
  }

  /** The sum of k copies of c is k c. */
  lemma {:induction false} SumOfCopies(cs: seq<Vec3>, c: Vec3)
    requires forall k :: 0 <= k < |cs| ==> cs[k] == c
    ensures SumColors(cs) == Scale(c, |cs| as real)
  {
    if cs != [] {
      var n := |cs| as real;
      SumOfCopies(cs[..|cs| - 1], c);
      assert c.x * (n - 1.0) + c.x == c.x * n;
      assert c.y * (n - 1.0) + c.y == c.y * n;
      assert c.z * (n - 1.0) + c.z == c.z * n;
    }
  }

  /** Slot 3 i + j of the 3 x 3 table is cell (j, i). */
  lemma SlotOfThree(i: nat, j: nat)
    requires i < 3 && j < 3
    ensures Slot(3, j, i) == 3 * i + j && (3 * i + j) % 3 == j && (3 * i + j) / 3 == i
  {
    RowStartValue(3, i);
  }

  lemma AdaptiveGridEmpty(env: Env, s: Scene, src: Vec2, region: Vec2, pos: nat)
    ensures AdaptiveGrid(env, s, src, region, 0, pos) == Samples([], pos)
    ensures SumColors([]) == Zero
  {
  }

  /** The nine-sample loop of an adaptive step. */
  method TraceAdaptiveGrid(env: Env, s: Scene, src: Vec2, region: Vec2, pos: nat)
    returns (temp: array<Vec3>, result: Vec3, q: nat)
    ensures temp.Length == 9 && temp[..] == AdaptiveGrid(env, s, src, region, 9, pos).colors
    ensures result == SumColors(temp[..]) && q == AdaptiveGrid(env, s, src, region, 9, pos).next
  {
    hide *;
    AdaptiveGridEmpty(env, s, src, region, pos);
    result := Zero;
    temp := new Vec3[9];
    var sampleDis := new Vec2[9];
    var _ := GetSampleGrid(sampleDis, region, 3);
    var index := 0;
    q := pos;
    for i := 0 to 3
      invariant index == 3 * i
      invariant forall x: nat, y: nat :: x < 3 && y < 3 ==> sampleDis[Slot(3, x, y)] == GridSample(region, 3, x, y)
      invariant temp[..index] == AdaptiveGrid(env, s, src, region, index, pos).colors
      invariant q == AdaptiveGrid(env, s, src, region, index, pos).next
      invariant result == SumColors(temp[..index])
    {
      for j := 0 to 3
        invariant index == 3 * i + j
        invariant forall x: nat, y: nat :: x < 3 && y < 3 ==> sampleDis[Slot(3, x, y)] == GridSample(region, 3, x, y)
        invariant temp[..index] == AdaptiveGrid(env, s, src, region, index, pos).colors
        invariant q == AdaptiveGrid(env, s, src, region, index, pos).next
        invariant result == SumColors(temp[..index])
      {
        SlotOfThree(i, j);
        result, q := TraceAdaptivePoint(env, s, src, region, sampleDis[index], temp, index, pos, q, result);
        index := index + 1;
      }
    }
    assert temp[..] == temp[..9];
  }

  /** One pass of the nine-sample loop: sample `index` at `src` moved by its offset,
      stored, and added to the running sum. */
  method TraceAdaptivePoint(env: Env, s: Scene, src: Vec2, region: Vec2, offset: Vec2, temp: array<Vec3>,
                            index: nat, pos: nat, q0: nat, result0: Vec3)
    returns (result: Vec3, q: nat)
    requires index < 9 == temp.Length
    requires offset == GridSample(region, 3, index % 3, index / 3)
    requires temp[..index] == AdaptiveGrid(env, s, src, region, index, pos).colors
    requires q0 == AdaptiveGrid(env, s, src, region, index, pos).next
    requires result0 == SumColors(temp[..index])
    modifies temp
    ensures temp[..index + 1] == AdaptiveGrid(env, s, src, region, index + 1, pos).colors
    ensures q == AdaptiveGrid(env, s, src, region, index + 1, pos).next
    ensures result == SumColors(temp[..index + 1])
    ensures forall k :: index < k < 9 ==> temp[k] == old(temp[k])
  {
    hide PrimaryColor, GridSample;
    var c := Trace(env, s, src.x + offset.x, src.y + offset.y, q0);
    temp[index] := c.color;
    assert temp[..index + 1][..index] == temp[..index];
    result := Add(result0, temp[index]);
    q := c.next;
  }

  /** `RayTracing_SuperSampling_adaptive`. */
  method SuperSampleAdaptive(env: Env, s: Scene, src: Vec2, region: Vec2, depth: int, pos: nat) returns (t: Traced)
    ensures t.color == AdaptiveSample(env, s, src, region, depth, pos).color
    ensures t.next == AdaptiveSample(env, s, src, region, depth, pos).next
    decreases Budget(depth), 1
  {
    var temp, result, q := TraceAdaptiveGrid(env, s, src, region, pos);
    hide AdaptiveGrid, Subdivided;
    if depth <= 0 {
      result := Div(result, 9.0);
      return Traced(result, q);
    }
    var gradientV := Sub(temp[1], temp[7]);
    var gradientH := Sub(temp[3], temp[5]);
    if Abs(gradientV.x) > GRADIENT_THRESHOLD || Abs(gradientV.y) > GRADIENT_THRESHOLD
       || Abs(gradientV.z) > GRADIENT_THRESHOLD || Abs(gradientH.x) > GRADIENT_THRESHOLD
       || Abs(gradientH.y) > GRADIENT_THRESHOLD || Abs(gradientH.z) > GRADIENT_THRESHOLD {
      t := TraceSubdivided(env, s, src, region, depth, q);
    } else {
      result := Div(result, 9.0);
      t := Traced(result, q);
    }
  }

  /** The recursive branch of `RayTracing_SuperSampling_adaptive`. */
  method TraceSubdivided(env: Env, s: Scene, src: Vec2, region: Vec2, depth: int, pos: nat) returns (t: Traced)
    requires depth > 0
    ensures t.color == Subdivided(env, s, src, region, depth, pos).color
    ensures t.next == Subdivided(env, s, src, region, depth, pos).next
    decreases Budget(depth), 0
  {
    hide AdaptiveSample;
    var regionNext := Vec2(region.x / 2.0, region.y / 2.0);
    var result := Zero;
    var c := SuperSampleAdaptive(env, s, Vec2(src.x, src.y - regionNext.y), regionNext, depth - 1, pos);
    result := Add(result, c.color);
    c := SuperSampleAdaptive(env, s, Vec2(src.x - regionNext.x, src.y), regionNext, depth - 1, c.next);
    result := Add(result, c.color);
    c := SuperSampleAdaptive(env, s, Vec2(src.x + regionNext.x, src.y), regionNext, depth - 1, c.next);
    result := Add(result, c.color);
    c := SuperSampleAdaptive(env, s, Vec2(src.x, src.y + regionNext.y), regionNext, depth - 1, c.next);
    result := Add(result, c.color);
    c := SuperSampleAdaptive(env, s, src, regionNext, depth - 1, c.next);
    result := Add(result, c.color);
    result := Div(result, 5.0);
    t := Traced(result, c.next);
  }

  // ---------------------------------------------------------------------------
  // The dispatch table and the supersampling loop of `tracePixel`

  /** The methods the table `super_sampling_method` holds. */
  predicate Tabulated(m: SamplingMethod)
  {
    m.Grid? || m.Random? || m.Jittered?
  }

  /** The offset the supersampling loop reads for sample (i, j), slot i n + j,
      after the generator of `m` ran with its draws starting at `pos`. */
  function SampleOffset(m: SamplingMethod, draws: Draws, region: Vec2, n: nat, i: nat, j: nat, pos: nat): Vec2
    requires Tabulated(m) && i < n && j < n
  {
    match m
    case Grid => GridSample(region, n, j, i)
    case Random => RandomSample(region, n, RandD(draws, pos + Slot(n, j, i)))
    case Jittered => JitteredSample(region, n, j, i, RandD(draws, pos + JitterDraw(n, j, i)))
  }

  /** The draws the generator of `m` reads for n samples per axis. */
  function GeneratorDraws(m: SamplingMethod, n: int): nat
  {
    if m.Grid? then 0 else DrawsUsed(n)
  }

  /** `super_sampling_method[method](sample_dis, &region, n)`. */
  method GetSampleDisplacement(m: SamplingMethod, dst: array<Vec2>, region: Vec2, n: int, draws: Draws, pos: nat)
    returns (next: nat)
    requires Tabulated(m) && (n >= 1 ==> n * n <= dst.Length)
    modifies dst
    ensures next == pos + GeneratorDraws(m, n)
    ensures forall i: nat, j: nat :: i < n && j < n ==> dst[Slot(n, j, i)] == SampleOffset(m, draws, region, n, i, j, pos)
  {
    match m
    case Grid =>
      var _ := GetSampleGrid(dst, region, n);
      next := pos;
    case Random =>
      var _, q := GetSampleRandom(dst, region, n, draws, pos);
      next := q;
    case Jittered =>
      var _, q := GetSampleJittered(dst, region, n, draws, pos);
      next := q;
  }

  /** The sample offsets of one pixel: the method, the half-pixel region, the
      samples per axis and where the generator's draws start. */
  datatype Table = Table(sampling: SamplingMethod, region: Vec2, n: nat, drawsAt: nat)

  predicate ValidTable(t: Table)
  {
    Tabulated(t.sampling) && 1 <= t.n <= MAX_SUB_PIXEL
  }

  /** The running sum after the first k samples of row i, starting from `start`. */
  function RowSum(env: Env, s: Scene, x: real, y: real, t: Table, i: nat, k: nat, start: Traced): (r: Traced)
    requires ValidTable(t) && i < t.n && k <= t.n
    ensures r.next >= start.next
  {
    if k == 0 then start
    else
      var prev := RowSum(env, s, x, y, t, i, k - 1, start);
      var o := SampleOffset(t.sampling, env.draws, t.region, t.n, i, k - 1, t.drawsAt);
      var c := PrimaryColor(env, s, x + o.x, y + o.y, prev.next);
      Traced(Add(prev.color, c.color), c.next)
  }

  /** The running sum after the first k rows, starting from `start`. */
  function RowsSum(env: Env, s: Scene, x: real, y: real, t: Table, k: nat, start: Traced): (r: Traced)
    requires ValidTable(t) && k <= t.n
    ensures r.next >= start.next
  {
    if k == 0 then start
    else RowSum(env, s, x, y, t, k - 1, t.n, RowsSum(env, s, x, y, t, k - 1, start))
  }

  /** What `tracePixel` needs of the interface: the tabulated methods read at most
      5 x 5 offsets and divide by n^2. */
  predicate SamplingReady(ui: Config)
  {
    Tabulated(ui.sampling) ==> 1 <= ui.subPixel <= MAX_SUB_PIXEL
  }

  /** The colour of the pixel centred at (x, y) with half-size `region`: one
      primary ray, the adaptive subdivision to depth `subPixel`, or the mean of the
      n x n samples of the chosen generator. */
  function PixelColor(env: Env, s: Scene, x: real, y: real, region: Vec2, pos: nat): (t: Traced)
    requires SamplingReady(env.ui)
    ensures t.next >= pos
  {
    match env.ui.sampling
    case NoSampling => PrimaryColor(env, s, x, y, pos)
    case Adaptive =>
      var a := AdaptiveSample(env, s, Vec2(x, y), region, env.ui.subPixel, pos);
      Traced(a.color, a.next)
    case _ =>
      Mean(TabulatedSum(env, s, x, y, region, pos), env.ui.subPixel)
  }

  /** The running sum divided by n^2. */
  function Mean(sum: Traced, n: int): Traced
    requires n >= 1
  {
    Traced(Div(sum.color, (n as real) * (n as real)), sum.next)
  }

  /** The sum of the n x n samples of a tabulated method, traced in slot order
      after the generator's draws. */
  function TabulatedSum(env: Env, s: Scene, x: real, y: real, region: Vec2, pos: nat): (t: Traced)
    requires Tabulated(env.ui.sampling) && 1 <= env.ui.subPixel <= MAX_SUB_PIXEL
    ensures t.next >= pos
  {
    var n := env.ui.subPixel;
    RowsSum(env, s, x, y, Table(env.ui.sampling, region, n, pos), n, Traced(Zero, pos + GeneratorDraws(env.ui.sampling, n)))
  }

  lemma PixelColorTabulated(env: Env, s: Scene, x: real, y: real, region: Vec2, pos: nat)
    requires Tabulated(env.ui.sampling) && 1 <= env.ui.subPixel <= MAX_SUB_PIXEL
    ensures PixelColor(env, s, x, y, region, pos) == Mean(TabulatedSum(env, s, x, y, region, pos), env.ui.subPixel)
  {
  }

  predicate SampleStep(env: Env, s: Scene, x: real, y: real, t: Table, i: nat, j: nat, offset: Vec2, acc: Traced,
                      start: Traced)
  {
    ValidTable(t) && i < t.n && j < t.n
    && offset == SampleOffset(t.sampling, env.draws, t.region, t.n, i, j, t.drawsAt)
    && acc == RowSum(env, s, x, y, t, i, j, start)
  }

  lemma RowSumEmpty(env: Env, s: Scene, x: real, y: real, t: Table, i: nat, start: Traced)
    requires ValidTable(t) && i < t.n
    ensures RowSum(env, s, x, y, t, i, 0, start) == start
  {
  }

  lemma RowsSumZero(env: Env, s: Scene, x: real, y: real, t: Table, start: Traced)
    requires ValidTable(t)
    ensures RowsSum(env, s, x, y, t, 0, start) == start
  {
  }

  lemma RowsSumUnfold(env: Env, s: Scene, x: real, y: real, t: Table, i: nat, start: Traced)
    requires ValidTable(t) && i < t.n
    ensures RowsSum(env, s, x, y, t, i + 1, start) == RowSum(env, s, x, y, t, i, t.n, RowsSum(env, s, x, y, t, i, start))
  {
  }

  /** One pass of the inner supersampling loop: sample (i, j) added to the running sum. */
  method TraceSample(env: Env, s: Scene, x: real, y: real, t: Table, i: nat, j: nat, offset: Vec2, acc: Traced,
                     ghost start: Traced)
    returns (r: Traced)
    requires SampleStep(env, s, x, y, t, i, j, offset, acc, start)
    ensures r == RowSum(env, s, x, y, t, i, j + 1, start)
  {
    var c := Trace(env, s, x + offset.x, y + offset.y, acc.next);
    r := Traced(Add(acc.color, c.color), c.next);
  }

  /** The colour computation of `tracePixel` for the pixel centred at (x, y). */
  method SamplePixel(env: Env, s: Scene, x: real, y: real, region: Vec2, pos: nat) returns (t: Traced)
    requires SamplingReady(env.ui)
    ensures t == PixelColor(env, s, x, y, region, pos)
  {
    var m := env.ui.sampling;
    if m == NoSampling {
      t := Trace(env, s, x, y, pos);
    } else if m == Adaptive {
      var src := Vec2(x, y);
      t := SuperSampleAdaptive(env, s, src, region, env.ui.subPixel, pos);
    } else {
      t := SampleTabulated(env, s, x, y, region, pos);
    }
  }

  /** One pass of the outer supersampling loop: the n samples of row i, read from
      the n slots that start at `index0`. */
  method TraceSampleRow(env: Env, s: Scene, x: real, y: real, t: Table, sampleDis: array<Vec2>, i: nat,
                        index0: nat, acc0: Traced)
    returns (index: nat, acc: Traced)
    requires ValidTable(t) && i < t.n && index0 + t.n <= sampleDis.Length
    requires forall j: nat :: j < t.n
               ==> sampleDis[index0 + j] == SampleOffset(t.sampling, env.draws, t.region, t.n, i, j, t.drawsAt)
    ensures index == index0 + t.n
    ensures acc == RowSum(env, s, x, y, t, i, t.n, acc0)
  {
    hide RowSum, PrimaryColor;
    var n := t.n;
    RowSumEmpty(env, s, x, y, t, i, acc0);
    index, acc := index0, acc0;
    for j := 0 to n
      invariant index == index0 + j
      invariant acc == RowSum(env, s, x, y, t, i, j, acc0)
    {
      acc := TraceSample(env, s, x, y, t, i, j, sampleDis[index], acc, acc0);
      index := index + 1;
    }
  }

  /** The tabulated branch of `tracePixel`: fill the offset table, trace the n x n
      samples in slot order and divide by n^2. */
  method SampleTabulated(env: Env, s: Scene, x: real, y: real, region: Vec2, pos: nat) returns (t: Traced)
    requires Tabulated(env.ui.sampling) && 1 <= env.ui.subPixel <= MAX_SUB_PIXEL
    ensures t == PixelColor(env, s, x, y, region, pos)
  {
    hide PixelColor, RowsSum, RowSum, SampleOffset, PrimaryColor, AdaptiveSample, Slot, Mean;
    var n: nat := env.ui.subPixel;
    var sampleDis := new Vec2[MAX_SUB_PIXEL * MAX_SUB_PIXEL];
    assert n * n <= sampleDis.Length by {
      IntMulMono(n, n, 5);
      IntMulMono(5, n, 5);
    }
    var q := GetSampleDisplacement(env.ui.sampling, sampleDis, region, n, env.draws, pos);
    var table := Table(env.ui.sampling, region, n, pos);
    var result := TraceSampleRows(env, s, x, y, table, sampleDis, q);
    assert result == TabulatedSum(env, s, x, y, region, pos);
    PixelColorTabulated(env, s, x, y, region, pos);
    t := Mean(result, n);
  }

  /** The two nested supersampling loops over the filled offset table. */
  method TraceSampleRows(env: Env, s: Scene, x: real, y: real, t: Table, sampleDis: array<Vec2>, q: nat)
    returns (acc: Traced)
    requires ValidTable(t) && t.n * t.n <= sampleDis.Length
    requires forall i': nat, j': nat :: i' < t.n && j' < t.n
               ==> sampleDis[Slot(t.n, j', i')] == SampleOffset(t.sampling, env.draws, t.region, t.n, i', j', t.drawsAt)
    ensures acc == RowsSum(env, s, x, y, t, t.n, Traced(Zero, q))
  {
    hide RowsSum, RowSum, PrimaryColor, Slot, RowStart;
    var n := t.n;
    acc := Traced(Zero, q);
    ghost var start := acc;
    RowsSumZero(env, s, x, y, t, start);
    var index := 0;
    RowStartFacts(n, 0);
    for i := 0 to n
      invariant index == RowStart(n, i)
      invariant acc == RowsSum(env, s, x, y, t, i, start)
    {
      index, acc := TraceRowAt(env, s, x, y, t, sampleDis, i, index, acc, start);
    }
  }

  /** One pass of the outer loop, from the slot and the running sum that row i starts at. */
  method TraceRowAt(env: Env, s: Scene, x: real, y: real, t: Table, sampleDis: array<Vec2>, i: nat,
                    index0: nat, acc0: Traced, ghost start: Traced)
    returns (index: nat, acc: Traced)
    requires ValidTable(t) && t.n * t.n <= sampleDis.Length && i < t.n
    requires forall i': nat, j': nat :: i' < t.n && j' < t.n
               ==> sampleDis[Slot(t.n, j', i')] == SampleOffset(t.sampling, env.draws, t.region, t.n, i', j', t.drawsAt)
    requires index0 == RowStart(t.n, i) && acc0 == RowsSum(env, s, x, y, t, i, start)
    ensures index == RowStart(t.n, i + 1) && acc == RowsSum(env, s, x, y, t, i + 1, start)
  {
    hide RowsSum, RowSum, SampleOffset, PrimaryColor;
    RowsSumUnfold(env, s, x, y, t, i, start);
    RowOffsets(env, t, sampleDis, i);
    index, acc := TraceSampleRow(env, s, x, y, t, sampleDis, i, index0, acc0);
  }

  lemma RowStartFacts(n: int, i: nat)
    ensures RowStart(n, 0) == 0
    ensures RowStart(n, i) + n == RowStart(n, i + 1)
    ensures 1 <= n && i < n ==> RowStart(n, i) == Slot(n, 0, i)
    ensures 2 <= n && i == n ==> RowStart(n, i) == DrawsUsed(n)
  {
    RowStartValue(n, i);
  }

  /** Row i of the table occupies the n slots that start at i n. */
  lemma RowOffsets(env: Env, t: Table, sampleDis: array<Vec2>, i: nat)
    requires ValidTable(t) && t.n * t.n <= sampleDis.Length && i < t.n
    requires forall i': nat, j': nat :: i' < t.n && j' < t.n
               ==> sampleDis[Slot(t.n, j', i')] == SampleOffset(t.sampling, env.draws, t.region, t.n, i', j', t.drawsAt)
    ensures RowStart(t.n, i) + t.n == RowStart(t.n, i + 1)
    ensures 0 <= RowStart(t.n, i) && RowStart(t.n, i) + t.n <= sampleDis.Length
    ensures forall j: nat :: j < t.n
              ==> sampleDis[RowStart(t.n, i) + j] == SampleOffset(t.sampling, env.draws, t.region, t.n, i, j, t.drawsAt)
  {
    var n := t.n;
    SlotBound(n, 0, i);
    RowStartOrder(n, i, n);
    RowStartValue(n, n);
    forall j: nat | j < n
      ensures sampleDis[RowStart(n, i) + j] == SampleOffset(t.sampling, env.draws, t.region, n, i, j, t.drawsAt)
    {
      SlotValue(n, j, i);
    }
  }

  // ---------------------------------------------------------------------------
  // What the pixel colour promises

  /** Every channel of c lies in [0, m]. */
  predicate WithinCount(c: Vec3, m: real)
  {
    0.0 <= c.x <= m && 0.0 <= c.y <= m && 0.0 <= c.z <= m
  }

  lemma AddWithin(c: Vec3, m: real, e: Vec3)
    requires WithinCount(c, m) && InUnitCube(e)
    ensures WithinCount(Add(c, e), m + 1.0)
  {
  }

  lemma ChannelMean(a: real, m: real)
    requires 0.0 <= a <= m && 0.0 < m
    ensures 0.0 <= a / m <= 1.0
  {
    var r := 1.0 / m;
    assert a / m == r * a;
    assert r * m == 1.0;
    MulMono(r, 0.0, a);
    MulMono(r, a, m);
  }

  /** A sum of at most m unit-cube colours divided by m is in the unit cube. */
  lemma MeanInUnitCube(c: Vec3, m: real)
    requires WithinCount(c, m) && 0.0 < m
    ensures InUnitCube(Div(c, m))
  {
    ChannelMean(c.x, m);
    ChannelMean(c.y, m);
    ChannelMean(c.z, m);
  }

  lemma {:induction false} SumColorsWithin(cs: seq<Vec3>)
    requires forall k :: 0 <= k < |cs| ==> InUnitCube(cs[k])
    ensures WithinCount(SumColors(cs), |cs| as real)
  {
    if cs != [] {
      SumColorsWithin(cs[..|cs| - 1]);
      AddWithin(SumColors(cs[..|cs| - 1]), (|cs| - 1) as real, cs[|cs| - 1]);
    }
  }

  /** Each of the nine samples is a clamped colour. */
  lemma {:induction false} AdaptiveGridInUnitCube(env: Env, s: Scene, src: Vec2, region: Vec2, k: nat, pos: nat)
    ensures forall c :: 0 <= c < k ==> InUnitCube(AdaptiveGrid(env, s, src, region, k, pos).colors[c])
  {
    if k > 0 {
      AdaptiveGridInUnitCube(env, s, src, region, k - 1, pos);
    }
  }

  /** The adaptive colour is in the unit cube at every depth. */
  lemma {:induction false} AdaptiveInUnitCube(env: Env, s: Scene, src: Vec2, region: Vec2, depth: int, pos: nat)
    ensures InUnitCube(AdaptiveSample(env, s, src, region, depth, pos).color)
    decreases Budget(depth), 1
  {
    var g := AdaptiveGrid(env, s, src, region, 9, pos);
    if depth <= 0 || !Steep(g.colors) {
      AdaptiveGridInUnitCube(env, s, src, region, 9, pos);
      SumColorsWithin(g.colors);
      MeanInUnitCube(SumColors(g.colors), 9.0);
    } else {
      SubdividedInUnitCube(env, s, src, region, depth, g.next);
    }
  }

  lemma {:induction false} SubdividedInUnitCube(env: Env, s: Scene, src: Vec2, region: Vec2, depth: int, pos: nat)
    requires depth > 0
    ensures InUnitCube(Subdivided(env, s, src, region, depth, pos).color)
    decreases Budget(depth), 0
  {
    hide AdaptiveSample, AdaptiveGrid, PrimaryColor, Steep, SumColors;
    var half := Vec2(region.x / 2.0, region.y / 2.0);
    var top := AdaptiveSample(env, s, Vec2(src.x, src.y - half.y), half, depth - 1, pos);
    var left := AdaptiveSample(env, s, Vec2(src.x - half.x, src.y), half, depth - 1, top.next);
    var right := AdaptiveSample(env, s, Vec2(src.x + half.x, src.y), half, depth - 1, left.next);
    var bottom := AdaptiveSample(env, s, Vec2(src.x, src.y + half.y), half, depth - 1, right.next);
    var center := AdaptiveSample(env, s, src, half, depth - 1, bottom.next);
    AdaptiveInUnitCube(env, s, Vec2(src.x, src.y - half.y), half, depth - 1, pos);
    AdaptiveInUnitCube(env, s, Vec2(src.x - half.x, src.y), half, depth - 1, top.next);
    AdaptiveInUnitCube(env, s, Vec2(src.x + half.x, src.y), half, depth - 1, left.next);
    AdaptiveInUnitCube(env, s, Vec2(src.x, src.y + half.y), half, depth - 1, right.next);
    AdaptiveInUnitCube(env, s, src, half, depth - 1, bottom.next);
    AddWithin(top.color, 1.0, left.color);
    AddWithin(Add(top.color, left.color), 2.0, right.color);
    AddWithin(Add(Add(top.color, left.color), right.color), 3.0, bottom.color);
    AddWithin(Add(Add(Add(top.color, left.color), right.color), bottom.color), 4.0, center.color);
    MeanInUnitCube(Add(Add(Add(Add(top.color, left.color), right.color), bottom.color), center.color), 5.0);
  }

  /** 5^k. */
  function Pow5(k: nat): nat
  {
    if k == 0 then 1 else 5 * Pow5(k - 1)
  }

  /** The trace bound in closed form: T(d) = 9 (5^(d+1) - 1) / 4 for d >= 0. */
  lemma {:induction false} TraceBoundClosedForm(depth: nat)
    ensures 4 * TraceBound(depth) + 9 == 9 * Pow5(depth + 1)
  {
    if depth > 0 {
      TraceBoundClosedForm(depth - 1);
    }
  }

  lemma {:induction false} RowSumWithin(env: Env, s: Scene, x: real, y: real, t: Table, i: nat, k: nat,
                                        start: Traced, m: real)
    requires ValidTable(t) && i < t.n && k <= t.n && WithinCount(start.color, m)
    ensures WithinCount(RowSum(env, s, x, y, t, i, k, start).color, m + k as real)
  {
    if k > 0 {
      RowSumWithin(env, s, x, y, t, i, k - 1, start, m);
      var prev := RowSum(env, s, x, y, t, i, k - 1, start);
      var o := SampleOffset(t.sampling, env.draws, t.region, t.n, i, k - 1, t.drawsAt);
      AddWithin(prev.color, m + (k - 1) as real, PrimaryColor(env, s, x + o.x, y + o.y, prev.next).color);
    }
  }

  lemma {:induction false} RowsSumWithin(env: Env, s: Scene, x: real, y: real, t: Table, k: nat, start: Traced)
    requires ValidTable(t) && k <= t.n && start.color == Zero
    ensures WithinCount(RowsSum(env, s, x, y, t, k, start).color, (k * t.n) as real)
  {
    if k > 0 {
      RowsSumWithin(env, s, x, y, t, k - 1, start);
      RowSumWithin(env, s, x, y, t, k - 1, t.n, RowsSum(env, s, x, y, t, k - 1, start), ((k - 1) * t.n) as real);
      assert (k - 1) * t.n + t.n == k * t.n;
    }
  }

  /** Every pixel colour is in the unit cube, whichever sampling method is chosen. */
  lemma PixelColorInUnitCube(env: Env, s: Scene, x: real, y: real, region: Vec2, pos: nat)
    requires SamplingReady(env.ui)
    ensures InUnitCube(PixelColor(env, s, x, y, region, pos).color)
  {
    match env.ui.sampling
    case NoSampling =>
    case Adaptive =>
      AdaptiveInUnitCube(env, s, Vec2(x, y), region, env.ui.subPixel, pos);
    case _ =>
      TabulatedInUnitCube(env, s, x, y, region, pos);
  }

  lemma TabulatedInUnitCube(env: Env, s: Scene, x: real, y: real, region: Vec2, pos: nat)
    requires Tabulated(env.ui.sampling) && 1 <= env.ui.subPixel <= MAX_SUB_PIXEL
    ensures InUnitCube(PixelColor(env, s, x, y, region, pos).color)
  {
    hide PixelColor, RowsSum, RowSum, PrimaryColor, AdaptiveSample, Subdivided, AdaptiveGrid, SampleOffset,
         TabulatedSum, Mean, InUnitCube, WithinCount;
    PixelColorTabulated(env, s, x, y, region, pos);
    TabulatedSumWithin(env, s, x, y, region, pos);
    MeanOfSquare(TabulatedSum(env, s, x, y, region, pos), env.ui.subPixel);
  }

  lemma TabulatedSumWithin(env: Env, s: Scene, x: real, y: real, region: Vec2, pos: nat)
    requires Tabulated(env.ui.sampling) && 1 <= env.ui.subPixel <= MAX_SUB_PIXEL
    ensures WithinCount(TabulatedSum(env, s, x, y, region, pos).color, (env.ui.subPixel * env.ui.subPixel) as real)
  {
    var n: nat := env.ui.subPixel;
    hide RowSum, PrimaryColor, SampleOffset;
    RowsSumWithin(env, s, x, y, Table(env.ui.sampling, region, n, pos), n,
                  Traced(Zero, pos + GeneratorDraws(env.ui.sampling, n)));
  }

  lemma MeanOfSquare(sum: Traced, n: int)
    requires 1 <= n && WithinCount(sum.color, (n * n) as real)
    ensures InUnitCube(Mean(sum, n).color)
  {
    SquareCast(n);
    MeanInUnitCube(sum.color, (n * n) as real);
    hide Div, InUnitCube, WithinCount;
    assert Mean(sum, n).color == Div(sum.color, (n * n) as real);
  }

  lemma SquareCast(n: int)
    requires 1 <= n
    ensures (n as real) * (n as real) == (n * n) as real && 1 <= n * n
  {
    IntMulMono(n, 1, n);
  }

  /** With one sample per axis the grid, random and jittered methods all trace the
      single primary ray through the pixel centre, and read no draws. */
  lemma SingleSampleIsPrimaryRay(env: Env, s: Scene, x: real, y: real, region: Vec2, pos: nat)
    requires Tabulated(env.ui.sampling) && env.ui.subPixel == 1
    ensures PixelColor(env, s, x, y, region, pos) == PrimaryColor(env, s, x, y, pos)
  {
    hide PixelColor, PrimaryColor, AdaptiveSample, RowsSum, RowSum, SampleOffset;
    var table := Table(env.ui.sampling, region, 1, pos);
    var start := Traced(Zero, pos);
    assert GeneratorDraws(env.ui.sampling, 1) == 0;
    PixelColorTabulated(env, s, x, y, region, pos);
    assert TabulatedSum(env, s, x, y, region, pos) == RowsSum(env, s, x, y, table, 1, start);
    RowsSumUnfold(env, s, x, y, table, 0, start);
    RowsSumZero(env, s, x, y, table, start);
    SingleSampleRow(env, s, x, y, table, start);
    var c := PrimaryColor(env, s, x, y, pos);
    assert Mean(Traced(Add(Zero, c.color), c.next), 1) == c;
  }

  /** The one sample of a 1 x 1 table is the primary ray through the pixel centre. */
  lemma SingleSampleRow(env: Env, s: Scene, x: real, y: real, t: Table, start: Traced)
    requires ValidTable(t) && t.n == 1
    ensures var c := PrimaryColor(env, s, x, y, start.next);
            RowSum(env, s, x, y, t, 0, 1, start) == Traced(Add(start.color, c.color), c.next)
  {
    hide PrimaryColor;
    RowSumEmpty(env, s, x, y, t, 0, start);
    assert SampleOffset(t.sampling, env.draws, t.region, 1, 0, 0, t.drawsAt) == Vec2(0.0, 0.0);
    assert x + 0.0 == x && y + 0.0 == y;
  }
}
