/** The render state of `RayTracer`: the RGB byte buffer and its dimensions, the
    scene it traces, and the operations that size the buffer and fill it pixel by
    pixel. */
module Render {
  import opened Vectors
  import opened Wrappers
  import opened Settings
  import opened Scenes
  import opened Tracer
  import opened SuperSampling

  newtype byte = b: int | 0 <= b < 256

  /** The width `loadScene` gives a freshly loaded scene. */
  const LOADED_WIDTH: int := 256

  /** C++'s conversion of a `double` to `int`: truncation toward zero. */
  function Trunc(r: real): (v: int)
    ensures Abs(v as real) <= Abs(r) < Abs(v as real) + 1.0
    ensures 0.0 <= r ==> 0 <= v
    ensures r <= 0.0 ==> v <= 0
  {
    if 0.0 <= r then r.Floor else -((-r).Floor)
  }

  /** `(int)(255.0 * c)` stored into an `unsigned char`: truncated, then reduced
      modulo 256 as the conversion to an unsigned type does. */
  function ToByte(c: real): byte
  {
    (Trunc(255.0 * c) % 256) as byte
  }

  /** A channel in [0, 1] is stored as floor(255 c), which lies in 0..255; full
      intensity gives 255 and black gives 0. */
  lemma ToByteOfUnit(c: real)
    requires 0.0 <= c <= 1.0
    ensures ToByte(c) as int == (255.0 * c).Floor
    ensures ToByte(c) as real <= 255.0 * c < ToByte(c) as real + 1.0
    ensures c == 1.0 ==> ToByte(c) == 255
    ensures c == 0.0 ==> ToByte(c) == 0
  {
    var v := Trunc(255.0 * c);
    assert 0 <= v <= 255;
    assert v % 256 == v;
  }

  /** The first of the three bytes of pixel (i, j) in a buffer `w` pixels wide,
      stored row after row. */
  function PixelBase(i: int, j: nat, w: int): int
  {
    (RowStart(w, j) + i) * 3
  }

  lemma PixelBaseValue(i: int, j: nat, w: int)
    ensures PixelBase(i, j, w) == (i + j * w) * 3
  {
    RowStartValue(w, j);
  }

  /** The bytes of a pixel inside a w x h image lie inside the w * h * 3 bytes of
      its buffer, at or after the start of its row. */
  lemma PixelInImage(i: int, j: nat, w: int, h: int)
    requires 0 <= i < w && j < h
    ensures 0 <= RowStart(w, j) && RowStart(w, j) + w <= RowStart(w, h)
    ensures RowStart(w, h) == w * h
    ensures 0 <= PixelBase(i, j, w) && PixelBase(i, j, w) + 3 <= w * h * 3
  {
    if 0 < j {
      RowStartOrder(w, 0, j);
    }
    RowStartOrder(w, j, h);
    RowStartValue(w, h);
  }

  /** Two different pixels of a w x h image own disjoint byte triples. */
  lemma PixelsDisjoint(i: int, j: nat, i': int, j': nat, w: int, h: int)
    requires 0 <= i < w && j < h && 0 <= i' < w && j' < h
    requires i != i' || j != j'
    ensures PixelBase(i, j, w) + 3 <= PixelBase(i', j', w) || PixelBase(i', j', w) + 3 <= PixelBase(i, j, w)
  {
    if j < j' {
      RowStartOrder(w, j, j');
    } else if j' < j {
      RowStartOrder(w, j', j);
    }
  }

  /** The buffer with pixel `base` set to colour c and every other byte kept. */
  function PaintPixel(bytes: seq<byte>, base: int, c: Vec3): (r: seq<byte>)
    requires 0 <= base && base + 3 <= |bytes|
    ensures |r| == |bytes|
    ensures r[base] == ToByte(c.x) && r[base + 1] == ToByte(c.y) && r[base + 2] == ToByte(c.z)
    ensures forall k :: 0 <= k < |bytes| && (k < base || base + 3 <= k) ==> r[k] == bytes[k]
  {
    bytes[base := ToByte(c.x)][base + 1 := ToByte(c.y)][base + 2 := ToByte(c.z)]
  }

  /** The half-size of one pixel of a w x h image in normalised coordinates. */
  function PixelRegion(w: int, h: int): (r: Vec2)
    requires 0 < w && 0 < h
    ensures 0.0 < r.x && 0.0 < r.y
    ensures 2.0 * r.x * (w as real) == 1.0 && 2.0 * r.y * (h as real) == 1.0
  {
    Vec2(1.0 / (w as real) / 2.0, 1.0 / (h as real) / 2.0)
  }

  /** The bytes of a buffer together with the position reached in the `rand()`
      stream. */
  datatype Frame = Frame(bytes: seq<byte>, next: nat)

  /** The dimensions and settings under which a w x h image can be traced. */
  predicate Paintable(ui: Config, w: int, h: int)
  {
    SamplingReady(ui) && 0 < w && 0 < h
  }

  /** The colour `tracePixel` computes for pixel (i, j), with the sample position
      at `pos`. */
  function PixelTraced(env: Env, s: Scene, w: int, h: int, i: int, j: nat, pos: nat): (t: Traced)
    requires Paintable(env.ui, w, h)
    ensures t.next >= pos
    ensures InUnitCube(t.color)
  {
    PixelColorInUnitCube(env, s, (i as real) / (w as real), (j as real) / (h as real), PixelRegion(w, h), pos);
    PixelColor(env, s, (i as real) / (w as real), (j as real) / (h as real), PixelRegion(w, h), pos)
  }

  /** A frame that is the whole w * h * 3 byte buffer of a traceable image. */
  predicate Canvas(ui: Config, w: int, h: int, f: Frame)
  {
    Paintable(ui, w, h) && |f.bytes| == w * h * 3
  }

  /** `tracePixel(i, j)`: the frame after pixel (i, j) is traced and stored. */
  function PixelStep(env: Env, s: Scene, w: int, h: int, f: Frame, i: int, j: nat): (r: Frame)
    requires Canvas(env.ui, w, h, f) && 0 <= i < w && j < h
    ensures Canvas(env.ui, w, h, r) && r.next >= f.next
    ensures forall k :: 0 <= k < |f.bytes| && (k < PixelBase(i, j, w) || PixelBase(i, j, w) + 3 <= k) ==>
      r.bytes[k] == f.bytes[k]
  {
    PixelInImage(i, j, w, h);
    var c := PixelTraced(env, s, w, h, i, j, f.next);
    Frame(PaintPixel(f.bytes, PixelBase(i, j, w), c.color), c.next)
  }

  /** Pixels lo .. n - 1 of row j traced left to right. */
  function PaintRow(env: Env, s: Scene, w: int, h: int, f: Frame, j: nat, lo: nat, n: nat): (r: Frame)
    requires Canvas(env.ui, w, h, f) && n <= w && j < h
    ensures Canvas(env.ui, w, h, r) && r.next >= f.next
    decreases n
  {
    if n <= lo then f else PixelStep(env, s, w, h, PaintRow(env, s, w, h, f, j, lo, n - 1), n - 1, j)
  }

  /** Rows start .. stop - 1 traced top to bottom. */
  function PaintRows(env: Env, s: Scene, w: int, h: int, f: Frame, start: nat, stop: nat): (r: Frame)
    requires Canvas(env.ui, w, h, f) && stop <= h
    ensures Canvas(env.ui, w, h, r) && r.next >= f.next
    decreases stop
  {
    if stop <= start then f
    else PaintRow(env, s, w, h, PaintRows(env, s, w, h, f, start, stop - 1), stop - 1, 0, w)
  }

  /** Tracing pixels lo .. n - 1 of row j changes no byte outside them. */
  lemma {:induction false} PaintRowFrame(env: Env, s: Scene, w: int, h: int, f: Frame, j: nat, lo: nat, n: nat)
    requires Canvas(env.ui, w, h, f) && lo <= n <= w && j < h
    ensures forall k :: 0 <= k < |f.bytes| && (k < (RowStart(w, j) + lo) * 3 || (RowStart(w, j) + n) * 3 <= k) ==>
      PaintRow(env, s, w, h, f, j, lo, n).bytes[k] == f.bytes[k]
    decreases n
  {
    hide PixelStep, PixelTraced, PixelColor;
    if lo < n {
      PaintRowFrame(env, s, w, h, f, j, lo, n - 1);
    }
  }

  /** Tracing a row in two stretches is tracing it in one. */
  lemma {:induction false} PaintRowSplit(env: Env, s: Scene, w: int, h: int, f: Frame, j: nat, a: nat, b: nat, c: nat)
    requires Canvas(env.ui, w, h, f) && a <= b <= c <= w && j < h
    ensures PaintRow(env, s, w, h, f, j, a, c) == PaintRow(env, s, w, h, PaintRow(env, s, w, h, f, j, a, b), j, b, c)
    decreases c
  {
    hide PixelStep, PixelTraced, PixelColor;
    if b < c {
      PaintRowSplit(env, s, w, h, f, j, a, b, c - 1);
    }
  }

  /** Tracing rows start .. stop - 1 changes no byte outside those rows. */
  lemma {:induction false} PaintRowsFrame(env: Env, s: Scene, w: int, h: int, f: Frame, start: nat, stop: nat)
    requires Canvas(env.ui, w, h, f) && start <= stop <= h
    ensures forall k :: 0 <= k < |f.bytes| && (k < RowStart(w, start) * 3 || RowStart(w, stop) * 3 <= k) ==>
      PaintRows(env, s, w, h, f, start, stop).bytes[k] == f.bytes[k]
    decreases stop
  {
    hide PaintRow, PixelStep, PixelTraced, PixelColor;
    if start < stop {
      RowStartOrder(w, stop - 1, stop);
      if start < stop - 1 {
        RowStartOrder(w, start, stop - 1);
      }
      PaintRowsFrame(env, s, w, h, f, start, stop - 1);
      PaintRowFrame(env, s, w, h, PaintRows(env, s, w, h, f, start, stop - 1), stop - 1, 0, w);
    }
  }

  /** Tracing a band of rows in two bands is tracing it in one. */
  lemma {:induction false} PaintRowsSplit(env: Env, s: Scene, w: int, h: int, f: Frame, a: nat, b: nat, c: nat)
    requires Canvas(env.ui, w, h, f) && a <= b <= c <= h
    ensures PaintRows(env, s, w, h, f, a, c) == PaintRows(env, s, w, h, PaintRows(env, s, w, h, f, a, b), b, c)
    decreases c
  {
    hide PaintRow, PixelStep, PixelTraced, PixelColor;
    if b < c {
      PaintRowsSplit(env, s, w, h, f, a, b, c - 1);
    }
  }

  /** The frame just before pixel (i, j) is traced, when the rows from `start` on
      are traced. */
  function Before(env: Env, s: Scene, w: int, h: int, f: Frame, start: nat, i: nat, j: nat): (r: Frame)
    requires Canvas(env.ui, w, h, f) && start <= j < h && i < w
    ensures Canvas(env.ui, w, h, r) && r.next >= f.next
  {
    PaintRow(env, s, w, h, PaintRows(env, s, w, h, f, start, j), j, 0, i)
  }

  /** Once pixel i of row j is stored, the rest of the row leaves its bytes alone. */
  lemma RowKeepsPixel(env: Env, s: Scene, w: int, h: int, g: Frame, j: nat, i: nat)
    requires Canvas(env.ui, w, h, g) && j < h && i < w
    ensures 0 <= PixelBase(i, j, w) && PixelBase(i, j, w) + 3 <= |g.bytes|
    ensures forall k :: PixelBase(i, j, w) <= k < PixelBase(i, j, w) + 3 ==>
      PaintRow(env, s, w, h, g, j, 0, w).bytes[k] == PixelStep(env, s, w, h, PaintRow(env, s, w, h, g, j, 0, i), i, j).bytes[k]
  {
    PixelInImage(i, j, w, h);
    hide PixelStep, PixelTraced, PixelColor;
    var px := PixelStep(env, s, w, h, PaintRow(env, s, w, h, g, j, 0, i), i, j);
    assert PaintRow(env, s, w, h, g, j, 0, i + 1) == px;
    PaintRowSplit(env, s, w, h, g, j, 0, i + 1, w);
    PaintRowFrame(env, s, w, h, px, j, i + 1, w);
  }

  /** Once row j is traced, the rows below it leave its bytes alone. */
  lemma RowsKeepRow(env: Env, s: Scene, w: int, h: int, f: Frame, start: nat, j: nat, stop: nat)
    requires Canvas(env.ui, w, h, f) && start <= j < stop <= h
    ensures forall k :: 0 <= k < RowStart(w, j + 1) * 3 ==>
      k < |f.bytes| &&
      PaintRows(env, s, w, h, f, start, stop).bytes[k] == PaintRows(env, s, w, h, f, start, j + 1).bytes[k]
  {
    hide PaintRows, PaintRow, PixelStep, PixelTraced, PixelColor, RowStart;
    RowEndInImage(w, h, j);
    var g := PaintRows(env, s, w, h, f, start, j + 1);
    PaintRowsSplit(env, s, w, h, f, start, j + 1, stop);
    PaintRowsFrame(env, s, w, h, g, j + 1, stop);
  }

  /** Row j of a w x h image ends inside the image's w h 3 bytes. */
  lemma RowEndInImage(w: int, h: int, j: nat)
    requires 0 < w && j < h
    ensures 0 <= RowStart(w, j + 1) * 3 <= w * h * 3
  {
    PixelInImage(0, j, w, h);
  }

  /** Every pixel of the traced rows ends up holding floor(255 c) of the colour it
      was traced with, at the sample position reached just before it: each pixel is
      traced once and never overwritten. */
  lemma PaintedPixel(env: Env, s: Scene, w: int, h: int, f: Frame, start: nat, stop: nat, i: nat, j: nat)
    requires Canvas(env.ui, w, h, f) && start <= j < stop <= h && i < w
    ensures 0 <= PixelBase(i, j, w) && PixelBase(i, j, w) + 3 <= |f.bytes|
    ensures var c := PixelTraced(env, s, w, h, i, j, Before(env, s, w, h, f, start, i, j).next).color;
            var out := PaintRows(env, s, w, h, f, start, stop).bytes;
            out[PixelBase(i, j, w)] as int == (255.0 * c.x).Floor &&
            out[PixelBase(i, j, w) + 1] as int == (255.0 * c.y).Floor &&
            out[PixelBase(i, j, w) + 2] as int == (255.0 * c.z).Floor
  {
    PixelInImage(i, j, w, h);
    var c := PixelTraced(env, s, w, h, i, j, Before(env, s, w, h, f, start, i, j).next).color;
    var base := PixelBase(i, j, w);
    var rows := PaintRows(env, s, w, h, f, start, j);
    var px := PixelStep(env, s, w, h, PaintRow(env, s, w, h, rows, j, 0, i), i, j);
    assert px.bytes[base] == ToByte(c.x) && px.bytes[base + 1] == ToByte(c.y) && px.bytes[base + 2] == ToByte(c.z);
    hide PixelStep, PixelTraced, PixelColor, Before;
    RowKeepsPixel(env, s, w, h, rows, j, i);
    RowsKeepRow(env, s, w, h, f, start, j, stop);
    ToByteOfUnit(c.x);
    ToByteOfUnit(c.y);
    ToByteOfUnit(c.z);
  }

  /** For a positive aspect ratio the loaded height is 256 / aspect rounded to the
      nearest integer (halves rounded up). */
  lemma LoadedHeightRounds(aspect: real)
    requires 0.0 < aspect
    ensures var h := Trunc(LOADED_WIDTH as real / aspect + 0.5);
      0 <= h && h as real - 0.5 <= LOADED_WIDTH as real / aspect < h as real + 0.5
  {
  }

  /** What `readScene` yields: a parse error, no scene, or a scene. */
  datatype ParseOutcome = ParseError | NoScene | Parsed(scene: Scene)

  class RayTracer {
    var buffer: array?<byte>
    var bufferWidth: int
    var bufferHeight: int
    var bufferSize: int
    var scene: Option<Scene>
    var sceneLoaded: bool

    /** Once allocated, the buffer holds exactly width * height * 3 bytes, and a
        scene is only ever held together with a buffer. */
    predicate Valid()
      reads this
    {
      0 <= bufferWidth && 0 <= bufferHeight &&
      (buffer != null ==> buffer.Length == bufferSize == bufferWidth * bufferHeight * 3) &&
      (scene.Some? ==> buffer != null)
    }

    /** A 256 x 256 tracer with no buffer and no scene; `bufferSize` is left unset. */
    constructor()
      ensures Valid()
      ensures buffer == null && bufferWidth == 256 && bufferHeight == 256
      ensures scene == None && !sceneLoaded
    {
      buffer := null;
      bufferWidth, bufferHeight := 256, 256;
      scene := None;
      sceneLoaded := false;
    }

    /** `loadScene`: keep everything on a parse error, forget the scene when none is
        read, and otherwise size the buffer 256 wide and 256 / aspect high, rounded
        to the nearest integer. `aspect` is the loaded camera's aspect ratio. */
    method LoadScene(outcome: ParseOutcome, aspect: real) returns (ok: bool)
      requires Valid()
      requires outcome.Parsed? ==> aspect != 0.0 && 0 <= Trunc(LOADED_WIDTH as real / aspect + 0.5)
      modifies this
      ensures Valid()
      ensures ok <==> outcome.Parsed?
      ensures outcome.ParseError? ==>
        buffer == old(buffer) && bufferWidth == old(bufferWidth) && bufferHeight == old(bufferHeight) &&
        bufferSize == old(bufferSize) && scene == old(scene) && sceneLoaded == old(sceneLoaded)
      ensures outcome.NoScene? ==>
        buffer == old(buffer) && bufferWidth == old(bufferWidth) && bufferHeight == old(bufferHeight) &&
        bufferSize == old(bufferSize) && scene == None && sceneLoaded == old(sceneLoaded)
      ensures outcome.Parsed? ==>
        scene == Some(outcome.scene) && sceneLoaded &&
        bufferWidth == LOADED_WIDTH && bufferHeight == Trunc(LOADED_WIDTH as real / aspect + 0.5) &&
        bufferSize == bufferWidth * bufferHeight * 3 && buffer != null && fresh(buffer) &&
        buffer.Length == bufferSize
    {
      match outcome
      case ParseError =>
        return false;
      case NoScene =>
        scene := None;
        return false;
      case Parsed(s) =>
        scene := Some(s);
        bufferWidth := LOADED_WIDTH;
        bufferHeight := Trunc(bufferWidth as real / aspect + 0.5);
        bufferSize := bufferWidth * bufferHeight * 3;
        buffer := new byte[bufferSize];
        sceneLoaded := true;
        return true;
    }

    /** `traceSetup(w, h)`: reallocate the buffer only when the dimensions change,
        then clear all w * h * 3 bytes of it. */
    method TraceSetup(w: int, h: int)
      requires Valid()
      requires 0 <= w && 0 <= h
      requires bufferWidth == w && bufferHeight == h ==> buffer != null
      modifies this, buffer
      ensures Valid()
      ensures bufferWidth == w && bufferHeight == h
      ensures scene == old(scene) && sceneLoaded == old(sceneLoaded)
      ensures buffer != null && buffer.Length == w * h * 3
      ensures old(bufferWidth) != w || old(bufferHeight) != h ==> fresh(buffer) && bufferSize == w * h * 3
      ensures old(bufferWidth) == w && old(bufferHeight) == h ==>
        buffer == old(buffer) && bufferSize == old(bufferSize)
      ensures forall k :: 0 <= k < buffer.Length ==> buffer[k] == 0
    {
      if bufferWidth != w || bufferHeight != h {
        bufferWidth := w;
        bufferHeight := h;
        bufferSize := bufferWidth * bufferHeight * 3;
        buffer := new byte[bufferSize];
      }
      var size := w * h * 3;
      var b := buffer;
      forall k | 0 <= k < size {
        b[k] := 0;
      }
    }

    /** `tracePixel(i, j)`: with no scene nothing happens; otherwise pixel (i, j) is
        traced with the chosen sampling and its three bytes, and only those, are
        set. `pos` is the position in the `rand()` stream; the new one is returned. */
    method TracePixel(env: Env, i: int, j: int, pos: nat) returns (next: nat)
      requires Valid() && SamplingReady(env.ui)
      requires scene.Some? ==> 0 <= i < bufferWidth && 0 <= j < bufferHeight
      modifies buffer
      ensures scene.None? ==> buffer == null || buffer[..] == old(buffer[..])
      ensures scene.None? ==> next == pos
      ensures scene.Some? ==>
        (buffer != null && 0 <= j &&
         Frame(buffer[..], next) ==
         PixelStep(env, scene.value, bufferWidth, bufferHeight, Frame(old(buffer[..]), pos), i, j))
    {
      if scene.None? {
        return pos;
      }
      var w, h := bufferWidth, bufferHeight;
      PixelInImage(i, j, w, h);
      var x := (i as real) / (w as real);
      var y := (j as real) / (h as real);
      var region := Vec2(1.0 / (w as real) / 2.0, 1.0 / (h as real) / 2.0);
      var result := SamplePixel(env, scene.value, x, y, region, pos);
      var base := (i + j * w) * 3;
      PixelBaseValue(i, j, w);
      buffer[base] := ToByte(result.color.x);
      buffer[base + 1] := ToByte(result.color.y);
      buffer[base + 2] := ToByte(result.color.z);
      next := result.next;
    }

    /** The inner loop of `traceLines`: every pixel of row j, left to right. */
    method TraceRow(env: Env, j: nat, pos: nat) returns (next: nat)
      requires Valid() && SamplingReady(env.ui) && scene.Some? && j < bufferHeight && 0 < bufferWidth
      modifies buffer
      ensures Frame(buffer[..], next) ==
        PaintRow(env, scene.value, bufferWidth, bufferHeight, Frame(old(buffer[..]), pos), j, 0, bufferWidth)
    {
      hide PixelStep, PixelTraced, PixelColor;
      next := pos;
      var i := 0;
      while i < bufferWidth
        invariant 0 <= i <= bufferWidth
        invariant Frame(buffer[..], next) ==
          PaintRow(env, scene.value, bufferWidth, bufferHeight, Frame(old(buffer[..]), pos), j, 0, i)
      {
        next := TracePixel(env, i, j, next);
        i := i + 1;
      }
    }

    /** `traceLines(start, stop)`: with no scene nothing happens; otherwise `stop` is
        clamped to the height and rows start .. stop - 1 are traced. */
    method TraceLines(env: Env, start: int, stop: int, pos: nat) returns (next: nat)
      requires Valid() && SamplingReady(env.ui)
      requires scene.Some? && start < stop ==> 0 <= start
      modifies buffer
      ensures var last := if stop > bufferHeight then bufferHeight else stop;
        if scene.None? || last <= start || bufferWidth == 0 then
          (buffer == null || buffer[..] == old(buffer[..])) && next == pos
        else
          0 <= start <= last && buffer != null &&
          Frame(buffer[..], next) ==
          PaintRows(env, scene.value, bufferWidth, bufferHeight, Frame(old(buffer[..]), pos), start, last)
    {
      hide PaintRow, PixelStep, PixelTraced, PixelColor;
      next := pos;
      if scene.None? {
        return;
      }
      var last := stop;
      if last > bufferHeight {
        last := bufferHeight;
      }
      if last <= start || bufferWidth == 0 {
        return;
      }
      var j: nat := start;
      while j < last
        invariant start <= j <= last
        invariant Frame(buffer[..], next) ==
          PaintRows(env, scene.value, bufferWidth, bufferHeight, Frame(old(buffer[..]), pos), start, j)
      {
        next := TraceRow(env, j, next);
        j := j + 1;
      }
    }
  }
}
