/**
 * The ruins script: a seeded integer hash decides, chunk by chunk, whether a
 * ruin is attempted, which of the model loaders supplies it and where in the
 * chunk its footprint lies; the height scan of that footprint then decides
 * whether the ground is flat enough to place it.
 */
module Ruins {
  import opened PyInt

  const MODEL_PATH := "scripts/ruins/models/"
  const CHUNK_SIZE := 256
  const MIN_START := 100000

  /** `hash_32_shift`: a 32-bit integer hash, on Python's unbounded integers, reduced to [0, 128). */
  function Hash(key: int): (r: int)
    ensures 0 <= r < 128
  {
    var k := Not(key) + Shl(key, 15);
    var k := Xor(k, Shr(k, 12));
    var k := k + Shl(k, 2);
    var k := Xor(k, Shr(k, 4));
    var k := k * 2057;
    var k := Xor(k, Shr(k, 16));
    k % 128
  }

  /** `noise`: the seeded grid noise of a chunk coordinate pair. */
  function Noise(seed: int, x: int, y: int): (r: int)
    ensures 0 <= r < 128
  {
    var yHash := Hash(y);
    var xHash := Hash(x + yHash);
    Hash(seed + xHash)
  }

  /** Key 0 hashes to 0: all its shifts are 0 or the all-ones -1, whose XOR with itself is 0. */
  lemma HashOfZero()
    ensures Hash(0) == 0
  {
    var k1 := Not(0) + Shl(0, 15);
    assert k1 == -1;
    DivUnique(-1, Pow2(12), -1, Pow2(12) - 1);
    var k2 := Xor(k1, Shr(k1, 12));
    assert k2 == 0 by {
      assert Shr(k1, 12) == -1;
      assert Not(k1) == 0;
    }
    var k3 := k2 + Shl(k2, 2);
    assert k3 == 0;
    var k4 := Xor(k3, Shr(k3, 4));
    assert k4 == 0;
    var k5 := k4 * 2057;
    var k6 := Xor(k5, Shr(k5, 16));
    assert k6 == 0;
  }

  /** The post-processing a model loader applies to the model it loads. */
  datatype Transform = Identity | RotateLeft | RotateRight | Rotate180 | MirrorX | MirrorY

  /** The six loaders `on_load` creates for each file, in this order. */
  const TRANSFORMS: seq<Transform> := [Identity, RotateLeft, RotateRight, Rotate180, MirrorX, MirrorY]

  datatype ModelLoader = ModelLoader(path: string, transform: Transform)

  predicate EndsWith(s: string, suffix: string) {
    |suffix| <= |s| && s[|s| - |suffix|..] == suffix
  }

  /** A directory entry of the model directory: its name and whether it is a regular file. */
  datatype Entry = Entry(name: string, isFile: bool)

  predicate IsModel(e: Entry) {
    e.isFile && EndsWith(e.name, ".cub")
  }

  /** The paths of the `.cub` files among the directory's entries, in listing order. */
  function ModelFiles(entries: seq<Entry>): (files: seq<string>)
    ensures |files| <= |entries|
    ensures forall e :: e in entries && IsModel(e) ==> MODEL_PATH + e.name in files
    ensures forall f :: f in files ==> exists e :: e in entries && IsModel(e) && f == MODEL_PATH + e.name
  {
    if entries == [] then []
    else
      var init := ModelFiles(entries[..|entries| - 1]);
      var e := entries[|entries| - 1];
      assert forall d :: d in entries ==> d in entries[..|entries| - 1] || d == e;
      if IsModel(e) then init + [MODEL_PATH + e.name] else init
  }

  /** The listing order is kept: the files of two listings in a row are those of the first, then the second. */
  lemma {:induction false} ModelFilesAppend(a: seq<Entry>, b: seq<Entry>)
    ensures ModelFiles(a + b) == ModelFiles(a) + ModelFiles(b)
    decreases |b|
  {
    if b == [] {
      assert a + b == a;
    } else {
      var b' := b[..|b| - 1];
      assert (a + b)[..|a + b| - 1] == a + b';
      ModelFilesAppend(a, b');
    }
  }

  /** A single entry contributes its path exactly when it is a `.cub` file. */
  lemma ModelFilesSingle(e: Entry)
    ensures ModelFiles([e]) == if IsModel(e) then [MODEL_PATH + e.name] else []
  {
    assert [e][..0] == [];
  }

  /**
   * The loader list of `on_load`: six loaders per file, in file order, each
   * file's six in the order default, left, right, 180, mirror x, mirror y.
   */
  method BuildLoaders(files: seq<string>) returns (loaders: seq<ModelLoader>)
    ensures |loaders| == 6 * |files|
    ensures forall i, k :: 0 <= i < |files| && 0 <= k < 6 ==> loaders[6 * i + k] == ModelLoader(files[i], TRANSFORMS[k])
  {
    loaders := [];
    var i := 0;
    while i < |files|
      invariant 0 <= i <= |files|
      invariant |loaders| == 6 * i
      invariant forall j, k :: 0 <= j < i && 0 <= k < 6 ==> loaders[6 * j + k] == ModelLoader(files[j], TRANSFORMS[k])
    {
      var file := files[i];
      loaders := loaders + [ModelLoader(file, Identity)];
      loaders := loaders + [ModelLoader(file, RotateLeft)];
      loaders := loaders + [ModelLoader(file, RotateRight)];
      loaders := loaders + [ModelLoader(file, Rotate180)];
      loaders := loaders + [ModelLoader(file, MirrorX)];
      loaders := loaders + [ModelLoader(file, MirrorY)];
      i := i + 1;
    }
  }

  /** The size of a loaded model, in blocks. */
  datatype Size = Size(x: int, y: int, z: int)

  /**
   * The block data of a loaded chunk, at chunk coordinates `(x, y)`: the
   * height of each column, the block type at each level, and a level at or
   * below the surface whose block underneath is solid ground.
   */
  datatype Chunk = Chunk(x: int, y: int, height: (int, int) -> int, blockType: (int, int, int) -> int,
                         floor: (int, int) -> int)

  /**
   * Every column has ground under its surface: the descent of `get_heights`
   * through ignored block types stops at `floor` at the latest.
   */
  ghost predicate Grounded(c: Chunk, ignored: set<int>) {
    forall x, y :: c.floor(x, y) <= c.height(x, y) && c.blockType(x, y, c.floor(x, y) - 1) !in ignored
  }

  /**
   * The level the descent from `h` stops at: the first level at or below `h`
   * whose block underneath is not of an ignored type.
   */
  function SurfaceFrom(c: Chunk, ignored: set<int>, x: int, y: int, h: int): (r: int)
    requires Grounded(c, ignored) && c.floor(x, y) <= h
    ensures c.floor(x, y) <= r <= h
    ensures c.blockType(x, y, r - 1) !in ignored
    ensures forall k :: r <= k < h ==> c.blockType(x, y, k) in ignored
    decreases h - c.floor(x, y)
  {
    if c.blockType(x, y, h - 1) in ignored then SurfaceFrom(c, ignored, x, y, h - 1) else h
  }

  /** The height `get_heights` uses for a column; it never exceeds the column's height. */
  function ColumnHeight(c: Chunk, ignored: set<int>, x: int, y: int): (h: int)
    requires Grounded(c, ignored)
    ensures h <= c.height(x, y)
  {
    SurfaceFrom(c, ignored, x, y, c.height(x, y))
  }

  predicate InRect(x: int, y: int, lx: int, ly: int, ux: int, uy: int) {
    lx <= x <= ux && ly <= y <= uy
  }

  /**
   * `(lo, hi)` is what `get_heights` returns for the inclusive rectangle
   * `lx..ux` by `ly..uy`: the column heights lie in `[lo, hi]`, and `lo` is
   * the smallest of them unless they all exceed the start value 100000,
   * `hi` the largest unless they are all below the start value 0.
   */
  ghost predicate IsScan(c: Chunk, ignored: set<int>, lx: int, ly: int, ux: int, uy: int, lo: int, hi: int)
    requires Grounded(c, ignored)
  {
    && (forall x, y :: InRect(x, y, lx, ly, ux, uy) ==> lo <= ColumnHeight(c, ignored, x, y) <= hi)
    && lo <= MIN_START && 0 <= hi
    && (lo == MIN_START || exists x, y :: InRect(x, y, lx, ly, ux, uy) && ColumnHeight(c, ignored, x, y) == lo)
    && (hi == 0 || exists x, y :: InRect(x, y, lx, ly, ux, uy) && ColumnHeight(c, ignored, x, y) == hi)
  }

  /** A scan result is determined by the chunk and the rectangle. */
  lemma IsScanUnique(c: Chunk, ignored: set<int>, lx: int, ly: int, ux: int, uy: int,
                     lo1: int, hi1: int, lo2: int, hi2: int)
    requires Grounded(c, ignored)
    requires IsScan(c, ignored, lx, ly, ux, uy, lo1, hi1)
    requires IsScan(c, ignored, lx, ly, ux, uy, lo2, hi2)
    ensures lo1 == lo2 && hi1 == hi2
  {
    if lo1 != MIN_START {
      var x, y :| InRect(x, y, lx, ly, ux, uy) && ColumnHeight(c, ignored, x, y) == lo1;
      assert lo2 <= lo1;
    }
    if lo2 != MIN_START {
      var x, y :| InRect(x, y, lx, ly, ux, uy) && ColumnHeight(c, ignored, x, y) == lo2;
      assert lo1 <= lo2;
    }
    if hi1 != 0 {
      var x, y :| InRect(x, y, lx, ly, ux, uy) && ColumnHeight(c, ignored, x, y) == hi1;
      assert hi1 <= hi2;
    }
    if hi2 != 0 {
      var x, y :| InRect(x, y, lx, ly, ux, uy) && ColumnHeight(c, ignored, x, y) == hi2;
      assert hi2 <= hi1;
    }
  }

  /** On a non-empty rectangle the scan's minimum is at most its maximum. */
  lemma ScanOrdered(c: Chunk, ignored: set<int>, lx: int, ly: int, ux: int, uy: int, lo: int, hi: int)
    requires Grounded(c, ignored)
    requires IsScan(c, ignored, lx, ly, ux, uy, lo, hi)
    requires lx <= ux && ly <= uy
    ensures lo <= hi
  {
    assert InRect(lx, ly, lx, ly, ux, uy);
  }

  /**
   * The inner loop of `get_heights`: from the column's height, step down
   * while the block underneath is of an ignored type.
   */
  method DescendColumn(c: Chunk, ignored: set<int>, x: int, y: int) returns (h: int)
    requires Grounded(c, ignored)
    ensures h == ColumnHeight(c, ignored, x, y)
  {
    h := c.height(x, y);
    var t := c.blockType(x, y, h - 1);
    while t in ignored
      invariant c.floor(x, y) <= h
      invariant t == c.blockType(x, y, h - 1)
      invariant SurfaceFrom(c, ignored, x, y, h) == ColumnHeight(c, ignored, x, y)
      decreases h - c.floor(x, y)
    {
      h := h - 1;
      t := c.blockType(x, y, h - 1);
    }
  }

  /**
   * `get_heights`: scans every column of the inclusive rectangle, descends
   * from its height through ignored block types, and keeps the running
   * minimum (from 100000) and maximum (from 0).
   */
  method GetHeights(c: Chunk, ignored: set<int>, lx: int, ly: int, ux: int, uy: int) returns (lo: int, hi: int)
    requires Grounded(c, ignored)
    ensures IsScan(c, ignored, lx, ly, ux, uy, lo, hi)
  {
    lo, hi := MIN_START, 0;
    ghost var loX, loY, hiX, hiY := lx, ly, lx, ly;
    var x := lx;
    while x <= ux
      invariant lx <= x <= ux + 1 || x == lx
      invariant forall x', y' :: InRect(x', y', lx, ly, x - 1, uy) ==> lo <= ColumnHeight(c, ignored, x', y') <= hi
      invariant lo <= MIN_START && 0 <= hi
      invariant lo == MIN_START || (InRect(loX, loY, lx, ly, ux, uy) && ColumnHeight(c, ignored, loX, loY) == lo)
      invariant hi == 0 || (InRect(hiX, hiY, lx, ly, ux, uy) && ColumnHeight(c, ignored, hiX, hiY) == hi)
      decreases ux - x
    {
      var lo', hi', loY', hiY' := ScanColumn(c, ignored, x, ly, uy, lo, hi);
      if lo' != lo {
        loX, loY := x, loY';
      }
      if hi' != hi {
        hiX, hiY := x, hiY';
      }
      lo, hi := lo', hi';
      x := x + 1;
    }
  }

  /**
   * The inner loop of `get_heights` over one column range `ly..uy` at `x`:
   * the running minimum and maximum only move outward, cover every height
   * seen, and each move is to a height seen at `(x, loY)` or `(x, hiY)`.
   */
  method ScanColumn(c: Chunk, ignored: set<int>, x: int, ly: int, uy: int, lo0: int, hi0: int)
    returns (lo: int, hi: int, ghost loY: int, ghost hiY: int)
    requires Grounded(c, ignored)
    ensures lo <= lo0 && hi0 <= hi
    ensures forall y :: ly <= y <= uy ==> lo <= ColumnHeight(c, ignored, x, y) <= hi
    ensures lo == lo0 || (ly <= loY <= uy && ColumnHeight(c, ignored, x, loY) == lo)
    ensures hi == hi0 || (ly <= hiY <= uy && ColumnHeight(c, ignored, x, hiY) == hi)
  {
    lo, hi, loY, hiY := lo0, hi0, ly, ly;
    var y := ly;
    while y <= uy
      invariant ly <= y <= uy + 1 || y == ly
      invariant lo <= lo0 && hi0 <= hi
      invariant forall y' :: ly <= y' < y ==> lo <= ColumnHeight(c, ignored, x, y') <= hi
      invariant lo == lo0 || (ly <= loY <= uy && ColumnHeight(c, ignored, x, loY) == lo)
      invariant hi == hi0 || (ly <= hiY <= uy && ColumnHeight(c, ignored, x, hiY) == hi)
      decreases uy - y
    {
      var h := DescendColumn(c, ignored, x, y);
      if h < lo {
        lo := h;
        loY := y;
      }
      if h > hi {
        hi := h;
        hiY := y;
      }
      y := y + 1;
    }
  }

  /**
   * The footprint of a model of `size` in the chunk at `(cx, cy)`: a noise
   * corner, pulled back so that the model ends at the chunk edge at the
   * latest, and spanning exactly the model's size.
   */
  function Footprint(seed: int, cx: int, cy: int, size: Size): (r: (int, int, int, int))
    ensures r.2 == r.0 + size.x && r.3 == r.1 + size.y
    ensures r.2 <= CHUNK_SIZE && r.3 <= CHUNK_SIZE
    ensures r.0 <= Noise(seed, cx + 21, cy - 42) && r.1 <= Noise(seed, cx - 42, cy + 21)
    ensures r.0 == Noise(seed, cx + 21, cy - 42) || r.0 == CHUNK_SIZE - size.x
    ensures r.1 == Noise(seed, cx - 42, cy + 21) || r.1 == CHUNK_SIZE - size.y
    ensures size.x <= CHUNK_SIZE ==> 0 <= r.0
    ensures size.y <= CHUNK_SIZE ==> 0 <= r.1
  {
    var lowerX := Noise(seed, cx + 21, cy - 42);
    var lowerY := Noise(seed, cx - 42, cy + 21);
    var lowerX := if lowerX < CHUNK_SIZE - size.x then lowerX else CHUNK_SIZE - size.x;
    var lowerY := if lowerY < CHUNK_SIZE - size.y then lowerY else CHUNK_SIZE - size.y;
    (lowerX, lowerY, lowerX + size.x, lowerY + size.y)
  }

  /**
   * The placement test: the height span is below 0.4 of the model's height,
   * written without the fraction.
   */
  predicate FlatEnough(lowerZ: int, upperZ: int, size: Size) {
    10 * (upperZ - lowerZ) < 4 * size.z
  }

  /** A ruin attempt: the chosen loader, its footprint and the footprint's height scan. */
  datatype Attempt = Attempt(loader: ModelLoader, lowerX: int, lowerY: int, upperX: int, upperY: int,
                             lowerZ: int, upperZ: int)

  /** What `on_chunk_load` does with a chunk. */
  datatype ChunkOutcome =
    | BelowThreshold
    | NoLoaders                                           // `n % 0` raises ZeroDivisionError
    | Rejected(attempt: Attempt)
    | Placed(attempt: Attempt, x: int, y: int, z: int)   // world position handed to `place_in_world`

  /** The script: the world seed and the loader list built on load. */
  class RuinsScript {
    const seed: int
    var loaders: seq<ModelLoader>

    /**
     * `on_load` with the configuration read: keeps the seed and builds six
     * loaders for each `.cub` file of the model directory.
     */
    constructor (seed: int, entries: seq<Entry>)
      ensures this.seed == seed
      ensures var files := ModelFiles(entries);
        && |loaders| == 6 * |files|
        && forall i, k :: 0 <= i < |files| && 0 <= k < 6 ==> loaders[6 * i + k] == ModelLoader(files[i], TRANSFORMS[k])
    {
      this.seed := seed;
      var built := BuildLoaders(ModelFiles(entries));
      loaders := built;
    }

    /**
     * `on_chunk_load`: a chunk whose noise exceeds the threshold picks the
     * loader `noise % count`, lays the model's footprint out in the chunk,
     * scans its heights and places the model at the footprint's world
     * position when the ground is flat enough.
     */
    method OnChunkLoad(c: Chunk, ignored: set<int>, threshold: int, sizeOf: ModelLoader -> Size)
      returns (outcome: ChunkOutcome)
      requires Grounded(c, ignored)
      ensures var n := Noise(seed, c.x, c.y);
        && (outcome == BelowThreshold <==> n <= threshold)
        && (outcome == NoLoaders <==> n > threshold && loaders == [])
        && (outcome.Rejected? || outcome.Placed? ==>
              && loaders != []
              && var a := outcome.attempt;
              && a.loader == loaders[n % |loaders|]
              && (a.lowerX, a.lowerY, a.upperX, a.upperY) == Footprint(seed, c.x, c.y, sizeOf(a.loader))
              && IsScan(c, ignored, a.lowerX, a.lowerY, a.upperX, a.upperY, a.lowerZ, a.upperZ)
              && (outcome.Placed? <==> FlatEnough(a.lowerZ, a.upperZ, sizeOf(a.loader))))
      ensures outcome.Placed? ==>
        && outcome.x == outcome.attempt.lowerX + CHUNK_SIZE * c.x
        && outcome.y == outcome.attempt.lowerY + CHUNK_SIZE * c.y
        && outcome.z == outcome.attempt.lowerZ
    {
      var n := Noise(seed, c.x, c.y);
      if n <= threshold {
        return BelowThreshold;
      }
      if |loaders| == 0 {
        return NoLoaders;
      }
      var loader := loaders[n % |loaders|];
      var size := sizeOf(loader);
      var (lowerX, lowerY, upperX, upperY) := Footprint(seed, c.x, c.y, size);
      var lowerZ, upperZ := GetHeights(c, ignored, lowerX, lowerY, upperX, upperY);
      var a := Attempt(loader, lowerX, lowerY, upperX, upperY, lowerZ, upperZ);
      if FlatEnough(lowerZ, upperZ, size) {
        outcome := Placed(a, lowerX + CHUNK_SIZE * c.x, lowerY + CHUNK_SIZE * c.y, lowerZ);
      } else {
        outcome := Rejected(a);
      }
    }
  }
}
