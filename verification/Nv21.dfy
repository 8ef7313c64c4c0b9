/** Rotation of a camera picture in NV21: a luma plane followed by interleaved chroma pairs, one pair for each block of
    two by two pixels. */
module Nv21 {
  newtype byte = x: int | 0 <= x < 256

  datatype Geometry = Geometry(width: nat, height: nat, rotation: int, yStride: nat, uvStride: nat)

  predicate Supported(rotation: int) {
    rotation == 0 || rotation == 90 || rotation == 180 || rotation == 270
  }

  lemma SupportedIff(rotation: int)
    ensures Supported(rotation) <==> rotation % 90 == 0 && 0 <= rotation <= 270
  {
  }

  function Swapped(g: Geometry): bool { g.rotation % 180 != 0 }
  function FlippedX(g: Geometry): bool { g.rotation % 270 != 0 }
  function FlippedY(g: Geometry): bool { g.rotation >= 180 }

  function OutWidth(g: Geometry): nat { if Swapped(g) then g.height else g.width }
  function OutHeight(g: Geometry): nat { if Swapped(g) then g.width else g.height }

  predicate Pixel(g: Geometry, i: int, j: int) {
    0 <= i < g.width && 0 <= j < g.height
  }

  /** Where pixel (i, j) goes. */
  function OutI(g: Geometry, i: nat, j: nat): (x: nat)
    requires Pixel(g, i, j)
  {
    var swapped := if Swapped(g) then j else i;
    if FlippedX(g) then OutWidth(g) - swapped - 1 else swapped
  }

  function OutJ(g: Geometry, i: nat, j: nat): (y: nat)
    requires Pixel(g, i, j)
  {
    var swapped := if Swapped(g) then i else j;
    if FlippedY(g) then OutHeight(g) - swapped - 1 else swapped
  }

  /** A turn to the right takes the left column, read upwards, to the top row. In coordinates: */
  lemma Coordinates(g: Geometry, i: nat, j: nat)
    requires Pixel(g, i, j)
    ensures g.rotation == 90 ==> OutWidth(g) == g.height && OutI(g, i, j) == g.height - 1 - j && OutJ(g, i, j) == i
    ensures g.rotation == 180 ==>
              OutWidth(g) == g.width && OutI(g, i, j) == g.width - 1 - i && OutJ(g, i, j) == g.height - 1 - j
    ensures g.rotation == 270 ==> OutWidth(g) == g.height && OutI(g, i, j) == j && OutJ(g, i, j) == g.width - 1 - i
  {
  }

  /** In planes of the given strides, the byte of `from` at (i, j) is the byte of `to` at (x, y). */
  predicate ByteMoved(from: seq<byte>, stride: nat, i: nat, j: nat, to: seq<byte>, stride': nat, x: nat, y: nat) {
    j * stride + i < |from| && y * stride' + x < |to| && to[y * stride' + x] == from[j * stride + i]
  }

  /** The pair of the block of (i, j) in `from` is the pair of the block of (x, y) in `to`. */
  predicate PairMoved(from: seq<byte>, stride: nat, i: nat, j: nat, to: seq<byte>, stride': nat, x: nat, y: nat) {
    && ByteMoved(from, stride, i / 2 * 2, j / 2, to, stride', x / 2 * 2, y / 2)
    && ByteMoved(from, stride, i / 2 * 2 + 1, j / 2, to, stride', x / 2 * 2 + 1, y / 2)
  }

  ghost predicate Turned90(g: Geometry, y: seq<byte>, y': seq<byte>) {
    forall i: nat, j: nat :: Pixel(g, i, j) ==>
      ByteMoved(y, g.yStride, i, j, y', g.height, g.height - 1 - j, i)
  }

  ghost predicate Turned180(g: Geometry, y: seq<byte>, y': seq<byte>) {
    forall i: nat, j: nat :: Pixel(g, i, j) ==>
      ByteMoved(y, g.yStride, i, j, y', g.width, g.width - 1 - i, g.height - 1 - j)
  }

  ghost predicate Turned270(g: Geometry, y: seq<byte>, y': seq<byte>) {
    forall i: nat, j: nat :: Pixel(g, i, j) ==>
      ByteMoved(y, g.yStride, i, j, y', g.height, j, g.width - 1 - i)
  }

  ghost predicate ChromaTurned90(g: Geometry, uv: seq<byte>, uv': seq<byte>) {
    forall i: nat, j: nat :: Pixel(g, i, j) ==>
      PairMoved(uv, g.uvStride, i, j, uv', g.height, g.height - 1 - j, i)
  }

  ghost predicate ChromaTurned180(g: Geometry, uv: seq<byte>, uv': seq<byte>) {
    forall i: nat, j: nat :: Pixel(g, i, j) ==>
      PairMoved(uv, g.uvStride, i, j, uv', g.width, g.width - 1 - i, g.height - 1 - j)
  }

  ghost predicate ChromaTurned270(g: Geometry, uv: seq<byte>, uv': seq<byte>) {
    forall i: nat, j: nat :: Pixel(g, i, j) ==>
      PairMoved(uv, g.uvStride, i, j, uv', g.height, j, g.width - 1 - i)
  }

  // ---- Addresses -------------------------------------------------------------------------------

  /** The start of row j, which is j * stride. */
  function Row(stride: nat, j: nat): nat
    decreases j
  {
    if j == 0 then 0 else stride + Row(stride, j - 1)
  }

  function Even(i: nat): nat { i - i % 2 }

  function YIn(g: Geometry, i: nat, j: nat): nat { Row(g.yStride, j) + i }
  function UIn(g: Geometry, i: nat, j: nat): nat { Row(g.uvStride, j / 2) + Even(i) }

  function YOut(g: Geometry, i: nat, j: nat): nat
    requires Pixel(g, i, j)
  {
    Row(OutWidth(g), OutJ(g, i, j)) + OutI(g, i, j)
  }

  function UOut(g: Geometry, i: nat, j: nat): nat
    requires Pixel(g, i, j)
  {
    Row(OutWidth(g), OutJ(g, i, j) / 2) + Even(OutI(g, i, j))
  }

  lemma {:induction false} RowIsProduct(stride: nat, j: nat)
    ensures Row(stride, j) == j * stride
    decreases j
  {
    if j > 0 { RowIsProduct(stride, j - 1); }
  }

  lemma {:induction false} RowsAreApart(stride: nat, j: nat, k: nat)
    requires j < k
    ensures Row(stride, j) + stride <= Row(stride, k)
    decreases k
  {
    if j < k - 1 { RowsAreApart(stride, j, k - 1); }
  }

  lemma {:induction false} RowIsEven(stride: nat, j: nat)
    requires stride % 2 == 0
    ensures Row(stride, j) % 2 == 0
    decreases j
  {
    if j > 0 { RowIsEven(stride, j - 1); }
  }

  lemma OneCell(stride: nat, i: nat, j: nat, i': nat, j': nat)
    requires i < stride && i' < stride
    ensures Row(stride, j) + i == Row(stride, j') + i' <==> i == i' && j == j'
  {
    if j < j' { RowsAreApart(stride, j, j'); }
    if j' < j { RowsAreApart(stride, j', j); }
  }

  /** Every address of a plane is a cell of it. */
  lemma {:induction false} CellAt(stride: nat, rows: nat, k: nat) returns (i: nat, j: nat)
    requires k < Row(stride, rows)
    ensures i < stride && j < rows && k == Row(stride, j) + i
    decreases rows
  {
    if k >= Row(stride, rows - 1) {
      i, j := k - Row(stride, rows - 1), rows - 1;
    } else {
      i, j := CellAt(stride, rows - 1, k);
    }
  }

  // ---- Where pixels go ---------------------------------------------------------------------------

  lemma OutInside(g: Geometry, i: nat, j: nat)
    requires Supported(g.rotation) && Pixel(g, i, j)
    ensures OutI(g, i, j) < OutWidth(g) && OutJ(g, i, j) < OutHeight(g)
  {
  }

  lemma OutIsInjective(g: Geometry, i: nat, j: nat, i': nat, j': nat)
    requires Supported(g.rotation) && Pixel(g, i, j) && Pixel(g, i', j')
    ensures OutI(g, i, j) == OutI(g, i', j') && OutJ(g, i, j) == OutJ(g, i', j') <==> i == i' && j == j'
  {
  }

  /** The pixel that goes to (x, y). */
  lemma OutIsOnto(g: Geometry, x: nat, y: nat) returns (i: nat, j: nat)
    requires Supported(g.rotation) && x < OutWidth(g) && y < OutHeight(g)
    ensures Pixel(g, i, j) && OutI(g, i, j) == x && OutJ(g, i, j) == y
  {
    var a := if FlippedX(g) then OutWidth(g) - x - 1 else x;
    var b := if FlippedY(g) then OutHeight(g) - y - 1 else y;
    if Swapped(g) { i, j := b, a; } else { i, j := a, b; }
  }

  /** Different pixels have different luma cells. */
  lemma LumaIsInjective(g: Geometry, i: nat, j: nat, i': nat, j': nat)
    requires Supported(g.rotation) && Pixel(g, i, j) && Pixel(g, i', j')
    ensures YOut(g, i, j) == YOut(g, i', j') <==> i == i' && j == j'
  {
    OutInside(g, i, j);
    OutInside(g, i', j');
    OneCell(OutWidth(g), OutI(g, i, j), OutJ(g, i, j), OutI(g, i', j'), OutJ(g, i', j'));
    OutIsInjective(g, i, j, i', j');
  }

  lemma LumaInside(g: Geometry, i: nat, j: nat)
    requires Supported(g.rotation) && Pixel(g, i, j)
    ensures YOut(g, i, j) < Row(OutWidth(g), OutHeight(g))
  {
    OutInside(g, i, j);
    RowsAreApart(OutWidth(g), OutJ(g, i, j), OutHeight(g));
  }

  /** The loop writes every luma cell of the output, each exactly once, and nothing else. */
  lemma EveryLumaCellOnce(g: Geometry, k: nat)
    requires Supported(g.rotation)
    ensures k < OutHeight(g) * OutWidth(g) <==> exists i, j :: Pixel(g, i, j) && YOut(g, i, j) == k
    ensures forall i, j, i', j' ::
              Pixel(g, i, j) && Pixel(g, i', j') && YOut(g, i, j) == k == YOut(g, i', j') ==> i == i' && j == j'
  {
    RowIsProduct(OutWidth(g), OutHeight(g));
    if k < Row(OutWidth(g), OutHeight(g)) {
      var x, y := CellAt(OutWidth(g), OutHeight(g), k);
      var i, j := OutIsOnto(g, x, y);
      assert YOut(g, i, j) == k;
    }
    if i: nat, j: nat :| Pixel(g, i, j) && YOut(g, i, j) == k { LumaInside(g, i, j); }
    forall i, j, i', j' | Pixel(g, i, j) && Pixel(g, i', j') && YOut(g, i, j) == k == YOut(g, i', j')
      ensures i == i' && j == j'
    {
      LumaIsInjective(g, i, j, i', j');
    }
  }

  predicate EvenSized(g: Geometry) {
    g.width % 2 == 0 && g.height % 2 == 0
  }

  predicate SameBlock(i: nat, j: nat, i': nat, j': nat) {
    i / 2 == i' / 2 && j / 2 == j' / 2
  }

  lemma FlippedHalf(size: nat, k: nat)
    requires size % 2 == 0 && k < size
    ensures (size - k - 1) / 2 == size / 2 - 1 - k / 2
  {
  }

  lemma OutBlock(g: Geometry, i: nat, j: nat)
    requires Supported(g.rotation) && EvenSized(g) && Pixel(g, i, j)
    ensures var a, b := if Swapped(g) then j else i, if Swapped(g) then i else j;
            && OutI(g, i, j) / 2 == (if FlippedX(g) then OutWidth(g) / 2 - 1 - a / 2 else a / 2)
            && OutJ(g, i, j) / 2 == (if FlippedY(g) then OutHeight(g) / 2 - 1 - b / 2 else b / 2)
  {
    FlippedHalf(g.width, i);
    FlippedHalf(g.height, j);
  }

  lemma BlocksMoveTogether(g: Geometry, i: nat, j: nat, i': nat, j': nat)
    requires Supported(g.rotation) && EvenSized(g) && Pixel(g, i, j) && Pixel(g, i', j')
    ensures SameBlock(OutI(g, i, j), OutJ(g, i, j), OutI(g, i', j'), OutJ(g, i', j')) <==> SameBlock(i, j, i', j')
  {
    OutBlock(g, i, j);
    OutBlock(g, i', j');
  }

  lemma ChromaInside(g: Geometry, i: nat, j: nat)
    requires Supported(g.rotation) && EvenSized(g) && Pixel(g, i, j)
    ensures UOut(g, i, j) % 2 == 0 && UOut(g, i, j) + 1 < Row(OutWidth(g), OutHeight(g) / 2)
  {
    OutInside(g, i, j);
    EvenBelow(OutI(g, i, j), OutWidth(g));
    RowIsEven(OutWidth(g), OutJ(g, i, j) / 2);
    RowsAreApart(OutWidth(g), OutJ(g, i, j) / 2, OutHeight(g) / 2);
  }

  /** Two pixels are written to the same chroma pair exactly when they lie in one block, and then both writes carry the
      same values, so that the order of the loop does not matter. */
  lemma ChromaWritesAgree(g: Geometry, i: nat, j: nat, i': nat, j': nat)
    requires Supported(g.rotation) && EvenSized(g) && Pixel(g, i, j) && Pixel(g, i', j')
    ensures UOut(g, i, j) == UOut(g, i', j') <==> SameBlock(i, j, i', j')
    ensures UOut(g, i, j) == UOut(g, i', j') ==> UIn(g, i, j) == UIn(g, i', j')
  {
    var x, y, x', y' := OutI(g, i, j), OutJ(g, i, j), OutI(g, i', j'), OutJ(g, i', j');
    OutInside(g, i, j);
    OutInside(g, i', j');
    OneCell(OutWidth(g), Even(x), y / 2, Even(x'), y' / 2);
    BlocksMoveTogether(g, i, j, i', j');
  }

  /** With an odd output width the last pair of a row reaches into the next row, and on the last row past the plane. */
  lemma ChromaFitsIff(g: Geometry)
    requires Supported(g.rotation) && g.width > 0 && g.height > 0
    ensures (forall i, j :: Pixel(g, i, j) ==> UOut(g, i, j) + 1 < (OutHeight(g) + 1) / 2 * OutWidth(g))
       <==> OutWidth(g) % 2 == 0
  {
    var w, rows := OutWidth(g), (OutHeight(g) + 1) / 2;
    RowIsProduct(w, rows);
    if w % 2 == 0 {
      forall i: nat, j: nat | Pixel(g, i, j) ensures UOut(g, i, j) + 1 < rows * w { PairFits(g, i, j); }
    } else {
      var i, j := LastPairOverruns(g);
      assert Pixel(g, i, j) && UOut(g, i, j) + 1 >= rows * w;
    }
  }

  lemma PairFits(g: Geometry, i: nat, j: nat)
    requires Supported(g.rotation) && Pixel(g, i, j) && OutWidth(g) % 2 == 0
    ensures UOut(g, i, j) + 1 < Row(OutWidth(g), (OutHeight(g) + 1) / 2)
  {
    OutInside(g, i, j);
    EvenBelow(OutI(g, i, j), OutWidth(g));
    RowsAreApart(OutWidth(g), OutJ(g, i, j) / 2, (OutHeight(g) + 1) / 2);
  }

  lemma EvenBelow(i: nat, w: nat)
    requires i < w && w % 2 == 0
    ensures Even(i) + 1 < w && Even(i) % 2 == 0
  {
  }

  lemma LastPairOverruns(g: Geometry) returns (i: nat, j: nat)
    requires Supported(g.rotation) && g.width > 0 && g.height > 0 && OutWidth(g) % 2 == 1
    ensures Pixel(g, i, j) && UOut(g, i, j) + 1 == Row(OutWidth(g), (OutHeight(g) + 1) / 2)
  {
    i, j := OutIsOnto(g, OutWidth(g) - 1, OutHeight(g) - 1);
    assert (OutHeight(g) - 1) / 2 == (OutHeight(g) + 1) / 2 - 1;
    assert Even(OutWidth(g) - 1) == OutWidth(g) - 1;
  }

  // ---- Rotations compose ---------------------------------------------------------------------------

  /** What the loop establishes: each output byte comes from the pixel that goes there. */
  ghost predicate LumaRotated(g: Geometry, from: seq<byte>, to: seq<byte>)
    requires Supported(g.rotation)
  {
    forall i, j :: Pixel(g, i, j) ==>
      YIn(g, i, j) < |from| && YOut(g, i, j) < |to| && to[YOut(g, i, j)] == from[YIn(g, i, j)]
  }

  ghost predicate ChromaRotated(g: Geometry, from: seq<byte>, to: seq<byte>)
    requires Supported(g.rotation)
  {
    forall i, j :: Pixel(g, i, j) ==>
      && UIn(g, i, j) + 1 < |from| && UOut(g, i, j) + 1 < |to|
      && to[UOut(g, i, j)] == from[UIn(g, i, j)] && to[UOut(g, i, j) + 1] == from[UIn(g, i, j) + 1]
  }

  lemma LumaByte(g: Geometry, from: seq<byte>, to: seq<byte>, i: nat, j: nat)
    requires Supported(g.rotation) && LumaRotated(g, from, to) && Pixel(g, i, j)
    ensures ByteMoved(from, g.yStride, i, j, to, OutWidth(g), OutI(g, i, j), OutJ(g, i, j))
  {
    RowIsProduct(g.yStride, j);
    RowIsProduct(OutWidth(g), OutJ(g, i, j));
    assert YIn(g, i, j) < |from| && to[YOut(g, i, j)] == from[YIn(g, i, j)];
  }

  lemma ChromaPair(g: Geometry, from: seq<byte>, to: seq<byte>, i: nat, j: nat)
    requires Supported(g.rotation) && ChromaRotated(g, from, to) && Pixel(g, i, j)
    ensures PairMoved(from, g.uvStride, i, j, to, OutWidth(g), OutI(g, i, j), OutJ(g, i, j))
  {
    RowIsProduct(g.uvStride, j / 2);
    RowIsProduct(OutWidth(g), OutJ(g, i, j) / 2);
    assert Even(i) == i / 2 * 2 && Even(OutI(g, i, j)) == OutI(g, i, j) / 2 * 2;
    assert UIn(g, i, j) + 1 < |from| && to[UOut(g, i, j)] == from[UIn(g, i, j)];
  }

  /** The rotated picture in coordinates. */
  lemma RotatedIsTurned(g: Geometry, y: seq<byte>, y': seq<byte>)
    requires Supported(g.rotation) && LumaRotated(g, y, y')
    ensures g.rotation == 90 ==> Turned90(g, y, y')
    ensures g.rotation == 180 ==> Turned180(g, y, y')
    ensures g.rotation == 270 ==> Turned270(g, y, y')
  {
    forall i: nat, j: nat | Pixel(g, i, j)
      ensures ByteMoved(y, g.yStride, i, j, y', OutWidth(g), OutI(g, i, j), OutJ(g, i, j))
      ensures g.rotation == 90 ==> ByteMoved(y, g.yStride, i, j, y', g.height, g.height - 1 - j, i)
      ensures g.rotation == 180 ==> ByteMoved(y, g.yStride, i, j, y', g.width, g.width - 1 - i, g.height - 1 - j)
      ensures g.rotation == 270 ==> ByteMoved(y, g.yStride, i, j, y', g.height, j, g.width - 1 - i)
    {
      LumaByte(g, y, y', i, j);
      Coordinates(g, i, j);
    }
  }

  lemma RotatedIsTurnedChroma(g: Geometry, uv: seq<byte>, uv': seq<byte>)
    requires Supported(g.rotation) && ChromaRotated(g, uv, uv')
    ensures g.rotation == 90 ==> ChromaTurned90(g, uv, uv')
    ensures g.rotation == 180 ==> ChromaTurned180(g, uv, uv')
    ensures g.rotation == 270 ==> ChromaTurned270(g, uv, uv')
  {
    forall i: nat, j: nat | Pixel(g, i, j)
      ensures g.rotation == 90 ==> PairMoved(uv, g.uvStride, i, j, uv', g.height, g.height - 1 - j, i)
      ensures g.rotation == 180 ==> PairMoved(uv, g.uvStride, i, j, uv', g.width, g.width - 1 - i, g.height - 1 - j)
      ensures g.rotation == 270 ==> PairMoved(uv, g.uvStride, i, j, uv', g.height, j, g.width - 1 - i)
    {
      ChromaPair(g, uv, uv', i, j);
      Coordinates(g, i, j);
    }
  }

  /** Rotating the tightly packed result of g by another angle. */
  function Next(g: Geometry, rotation: int): Geometry {
    Geometry(OutWidth(g), OutHeight(g), rotation, OutWidth(g), OutWidth(g))
  }

  lemma TurnsAdd(g: Geometry, rotation: int, i: nat, j: nat)
    requires Supported(g.rotation) && Supported(rotation) && Pixel(g, i, j)
    ensures var both := g.(rotation := (g.rotation + rotation) % 360);
            && OutWidth(Next(g, rotation)) == OutWidth(both)
            && Pixel(Next(g, rotation), OutI(g, i, j), OutJ(g, i, j))
            && OutI(Next(g, rotation), OutI(g, i, j), OutJ(g, i, j)) == OutI(both, i, j)
            && OutJ(Next(g, rotation), OutI(g, i, j), OutJ(g, i, j)) == OutJ(both, i, j)
  {
    var next, both := Next(g, rotation), g.(rotation := (g.rotation + rotation) % 360);
    assert Swapped(both) <==> Swapped(g) != Swapped(next);
    assert FlippedX(both) <==> FlippedX(next) != (if Swapped(next) then FlippedY(g) else FlippedX(g));
    assert FlippedY(both) <==> FlippedY(next) != (if Swapped(next) then FlippedX(g) else FlippedY(g));
  }

  /** Rotating the luma twice is rotating it once by the sum of the angles, whatever the input stride. */
  lemma LumaComposes(g: Geometry, rotation: int, a: seq<byte>, b: seq<byte>, c: seq<byte>)
    requires Supported(g.rotation) && Supported(rotation)
    requires LumaRotated(g, a, b) && LumaRotated(Next(g, rotation), b, c)
    ensures LumaRotated(g.(rotation := (g.rotation + rotation) % 360), a, c)
  {
    var both := g.(rotation := (g.rotation + rotation) % 360);
    forall i: nat, j: nat | Pixel(g, i, j)
      ensures YIn(both, i, j) < |a| && YOut(both, i, j) < |c| && c[YOut(both, i, j)] == a[YIn(both, i, j)]
    {
      LumaFollows(g, rotation, a, b, c, i, j);
    }
  }

  /** The same for the chroma pairs. */
  lemma ChromaComposes(g: Geometry, rotation: int, a: seq<byte>, b: seq<byte>, c: seq<byte>)
    requires Supported(g.rotation) && Supported(rotation)
    requires ChromaRotated(g, a, b) && ChromaRotated(Next(g, rotation), b, c)
    ensures ChromaRotated(g.(rotation := (g.rotation + rotation) % 360), a, c)
  {
    var both := g.(rotation := (g.rotation + rotation) % 360);
    forall i: nat, j: nat | Pixel(g, i, j)
      ensures UIn(both, i, j) + 1 < |a| && UOut(both, i, j) + 1 < |c|
      ensures c[UOut(both, i, j)] == a[UIn(both, i, j)] && c[UOut(both, i, j) + 1] == a[UIn(both, i, j) + 1]
    {
      ChromaFollows(g, rotation, a, b, c, i, j);
    }
  }

  lemma LumaFollows(g: Geometry, rotation: int, a: seq<byte>, b: seq<byte>, c: seq<byte>, i: nat, j: nat)
    requires Supported(g.rotation) && Supported(rotation) && Pixel(g, i, j)
    requires LumaRotated(g, a, b) && LumaRotated(Next(g, rotation), b, c)
    ensures var both := g.(rotation := (g.rotation + rotation) % 360);
            YIn(both, i, j) < |a| && YOut(both, i, j) < |c| && c[YOut(both, i, j)] == a[YIn(both, i, j)]
  {
    var x, y, next := OutI(g, i, j), OutJ(g, i, j), Next(g, rotation);
    TurnsAdd(g, rotation, i, j);
    assert YIn(next, x, y) == YOut(g, i, j);
    assert c[YOut(next, x, y)] == b[YIn(next, x, y)];
  }

  lemma ChromaFollows(g: Geometry, rotation: int, a: seq<byte>, b: seq<byte>, c: seq<byte>, i: nat, j: nat)
    requires Supported(g.rotation) && Supported(rotation) && Pixel(g, i, j)
    requires ChromaRotated(g, a, b) && ChromaRotated(Next(g, rotation), b, c)
    ensures var both := g.(rotation := (g.rotation + rotation) % 360);
            && UIn(both, i, j) + 1 < |a| && UOut(both, i, j) + 1 < |c|
            && c[UOut(both, i, j)] == a[UIn(both, i, j)] && c[UOut(both, i, j) + 1] == a[UIn(both, i, j) + 1]
  {
    var x, y, next := OutI(g, i, j), OutJ(g, i, j), Next(g, rotation);
    TurnsAdd(g, rotation, i, j);
    assert UIn(next, x, y) == UOut(g, i, j);
    assert c[UOut(next, x, y)] == b[UIn(next, x, y)];
  }

  /** A full turn in two steps restores a tightly packed luma plane of any size, byte for byte. */
  lemma FullTurnRestoresLuma(g: Geometry, a: seq<byte>, b: seq<byte>, c: seq<byte>)
    requires g.rotation == 90 || g.rotation == 180 || g.rotation == 270
    requires g.yStride == g.width && |a| == |c| == g.height * g.width
    requires LumaRotated(g, a, b) && LumaRotated(Next(g, 360 - g.rotation), b, c)
    ensures c == a
  {
    LumaComposes(g, 360 - g.rotation, a, b, c);
    RowIsProduct(g.width, g.height);
    StillLuma(g.(rotation := 0), a, c);
  }

  /** And the chroma plane of a picture of even size. */
  lemma FullTurnRestoresChroma(g: Geometry, a: seq<byte>, b: seq<byte>, c: seq<byte>)
    requires g.rotation == 90 || g.rotation == 180 || g.rotation == 270
    requires g.uvStride == g.width && EvenSized(g) && |a| == |c| == g.height / 2 * g.width
    requires ChromaRotated(g, a, b) && ChromaRotated(Next(g, 360 - g.rotation), b, c)
    ensures c == a
  {
    ChromaComposes(g, 360 - g.rotation, a, b, c);
    RowIsProduct(g.width, g.height / 2);
    StillChroma(g.(rotation := 0), a, c);
  }

  lemma StillLuma(g: Geometry, from: seq<byte>, to: seq<byte>)
    requires g.rotation == 0 && g.yStride == g.width && |from| == |to| == Row(g.width, g.height)
    requires LumaRotated(g, from, to)
    ensures from == to
  {
    forall k | 0 <= k < |from| ensures to[k] == from[k] {
      var i, j := CellAt(g.width, g.height, k);
      assert Pixel(g, i, j) && YOut(g, i, j) == YIn(g, i, j) == k;
    }
  }

  lemma StillChroma(g: Geometry, from: seq<byte>, to: seq<byte>)
    requires g.rotation == 0 && g.uvStride == g.width && EvenSized(g) && |from| == |to| == Row(g.width, g.height / 2)
    requires ChromaRotated(g, from, to)
    ensures from == to
  {
    forall k | 0 <= k < |from| ensures to[k] == from[k] {
      var i, j := CellAt(g.width, g.height / 2, k);
      StillPair(g, i, j);
      assert k == UIn(g, i, 2 * j) || k == UIn(g, i, 2 * j) + 1;
    }
  }

  lemma StillPair(g: Geometry, i: nat, j: nat)
    requires g.rotation == 0 && g.uvStride == g.width && i < g.width && j < g.height / 2
    ensures Pixel(g, i, 2 * j) && UOut(g, i, 2 * j) == UIn(g, i, 2 * j) == Row(g.width, j) + Even(i)
  {
    assert 2 * j / 2 == j;
  }

  // ---- The loop --------------------------------------------------------------------------------------

  /** The buffers hold every address the loop touches. */
  ghost predicate Roomy(g: Geometry, y: nat, uv: nat, yTo: nat, uvTo: nat)
    requires Supported(g.rotation)
  {
    forall i, j :: Pixel(g, i, j) ==>
      YIn(g, i, j) < y && UIn(g, i, j) + 1 < uv && YOut(g, i, j) < yTo && UOut(g, i, j) + 1 < uvTo
  }

  /** Buffers of the usual sizes are roomy for a picture of even size, at the angles for which the loop runs. */
  lemma UsualSizesAreRoomy(g: Geometry, y: nat, uv: nat, yTo: nat, uvTo: nat)
    requires Supported(g.rotation) && g.rotation != 0
    requires EvenSized(g) && g.width <= g.yStride && g.width <= g.uvStride
    requires y >= g.height * g.yStride && uv >= g.height / 2 * g.uvStride
    requires yTo >= g.height * g.width && uvTo >= g.height * g.width / 2
    ensures Roomy(g, y, uv, yTo, uvTo)
  {
    RowIsProduct(g.yStride, g.height);
    RowIsProduct(g.uvStride, g.height / 2);
    OutArea(g);
    forall i: nat, j: nat | Pixel(g, i, j)
      ensures YIn(g, i, j) < y && UIn(g, i, j) + 1 < uv && YOut(g, i, j) < yTo && UOut(g, i, j) + 1 < uvTo
    {
      InputInside(g, i, j);
      LumaInside(g, i, j);
      ChromaInside(g, i, j);
    }
  }

  lemma InputInside(g: Geometry, i: nat, j: nat)
    requires EvenSized(g) && g.width <= g.yStride && g.width <= g.uvStride && Pixel(g, i, j)
    ensures YIn(g, i, j) < Row(g.yStride, g.height) && UIn(g, i, j) + 1 < Row(g.uvStride, g.height / 2)
  {
    RowsAreApart(g.yStride, j, g.height);
    RowsAreApart(g.uvStride, j / 2, g.height / 2);
  }

  lemma OutArea(g: Geometry)
    requires EvenSized(g)
    ensures Row(OutWidth(g), OutHeight(g)) == g.height * g.width
    ensures Row(OutWidth(g), OutHeight(g) / 2) == g.height * g.width / 2
  {
    RowIsProduct(OutWidth(g), OutHeight(g));
    RowIsProduct(OutWidth(g), OutHeight(g) / 2);
    HalfPlane(g.width, g.height);
    HalfPlane(g.height, g.width);
    assert g.height * g.width == g.width * g.height;
  }

  lemma HalfPlane(w: nat, h: nat)
    requires h % 2 == 0
    ensures h / 2 * w == h * w / 2
  {
    var k := h / 2;
    assert h * w == 2 * (k * w);
  }

  /** Without a rotation as many chroma rows are copied as there are luma rows. They fit the usual plane, of half as
      many rows, exactly when they are empty or there is at most one. */
  lemma PlainCopyFitsIff(g: Geometry)
    ensures g.uvStride * g.height <= (g.height + 1) / 2 * g.uvStride <==> g.uvStride == 0 || g.height <= 1
  {
    var rows := (g.height + 1) / 2;
    RowIsProduct(g.uvStride, rows);
    RowIsProduct(g.uvStride, g.height);
    assert g.uvStride * g.height == g.height * g.uvStride;
    if g.height > 1 {
      RowsAreApart(g.uvStride, rows, g.height);
    } else {
      assert rows == g.height;
    }
  }

  predicate Before(i: nat, j: nat, i': nat, j': nat) {
    j < j' || (j == j' && i < i')
  }

  /** The luma of the pixels before (i, j) is in place. */
  ghost predicate LumaDone(g: Geometry, from: seq<byte>, to: seq<byte>, i: nat, j: nat)
    requires Supported(g.rotation)
  {
    forall a, b :: Pixel(g, a, b) && Before(a, b, i, j) ==>
      YIn(g, a, b) < |from| && YOut(g, a, b) < |to| && to[YOut(g, a, b)] == from[YIn(g, a, b)]
  }

  ghost predicate ChromaDone(g: Geometry, from: seq<byte>, to: seq<byte>, i: nat, j: nat)
    requires Supported(g.rotation)
  {
    forall a, b :: Pixel(g, a, b) && Before(a, b, i, j) ==>
      && UIn(g, a, b) + 1 < |from| && UOut(g, a, b) + 1 < |to|
      && to[UOut(g, a, b)] == from[UIn(g, a, b)] && to[UOut(g, a, b) + 1] == from[UIn(g, a, b) + 1]
  }

  /** Pixel (a, b) writes chroma byte k. */
  predicate Writes(g: Geometry, a: nat, b: nat, k: nat)
    requires Supported(g.rotation) && Pixel(g, a, b)
  {
    k == UOut(g, a, b) || k == UOut(g, a, b) + 1
  }

  /** It is the last to do so before the loop reaches (i, j). */
  ghost predicate WritesLast(g: Geometry, a: nat, b: nat, k: nat, i: nat, j: nat)
    requires Supported(g.rotation) && Pixel(g, a, b)
  {
    && Writes(g, a, b, k) && Before(a, b, i, j)
    && forall c: nat, d: nat :: Pixel(g, c, d) && Before(a, b, c, d) && Before(c, d, i, j) ==> !Writes(g, c, d, k)
  }

  ghost predicate Unwritten(g: Geometry, k: nat, i: nat, j: nat)
    requires Supported(g.rotation)
  {
    forall a: nat, b: nat :: Pixel(g, a, b) && Before(a, b, i, j) ==> !Writes(g, a, b, k)
  }

  /** Byte k is what pixel (a, b) carries for it. */
  ghost predicate Carries(g: Geometry, from: seq<byte>, to: seq<byte>, a: nat, b: nat, k: nat)
    requires Supported(g.rotation) && Pixel(g, a, b) && Writes(g, a, b, k) && k < |to|
  {
    UIn(g, a, b) + 1 < |from| && to[k] == from[UIn(g, a, b) + (k - UOut(g, a, b))]
  }

  /** For every size, each chroma byte is what the last pixel that writes it carries, and a byte that none writes is
      what it was. */
  ghost predicate LastWriteWins(g: Geometry, from: seq<byte>, was: seq<byte>, to: seq<byte>, i: nat, j: nat)
    requires Supported(g.rotation)
  {
    && |to| == |was|
    && (forall a: nat, b: nat, k: nat ::
          k < |to| && Pixel(g, a, b) && WritesLast(g, a, b, k, i, j) ==> Carries(g, from, to, a, b, k))
    && (forall k: nat :: k < |to| && Unwritten(g, k, i, j) ==> to[k] == was[k])
  }

  lemma LastWriteStep(g: Geometry, from: seq<byte>, was: seq<byte>, to: seq<byte>, i: nat, j: nat, after: seq<byte>)
    requires Supported(g.rotation) && Pixel(g, i, j) && LastWriteWins(g, from, was, to, i, j)
    requires UIn(g, i, j) + 1 < |from| && UOut(g, i, j) + 1 < |to|
    requires after == to[UOut(g, i, j) := from[UIn(g, i, j)]][UOut(g, i, j) + 1 := from[UIn(g, i, j) + 1]]
    ensures LastWriteWins(g, from, was, after, i + 1, j)
  {
    forall a: nat, b: nat, k: nat | k < |after| && Pixel(g, a, b) && WritesLast(g, a, b, k, i + 1, j)
      ensures Carries(g, from, after, a, b, k)
    {
      if !(a == i && b == j) { LastStaysLast(g, a, b, k, i, j); }
    }
    forall k: nat | k < |after| && Unwritten(g, k, i + 1, j) ensures after[k] == was[k] {
      assert Before(i, j, i + 1, j);
      assert !Writes(g, i, j, k);
      StaysUnwritten(g, k, i, j);
    }
  }

  lemma LastStaysLast(g: Geometry, a: nat, b: nat, k: nat, i: nat, j: nat)
    requires Supported(g.rotation) && Pixel(g, a, b) && Pixel(g, i, j) && !(a == i && b == j)
    requires WritesLast(g, a, b, k, i + 1, j)
    ensures WritesLast(g, a, b, k, i, j) && !Writes(g, i, j, k)
  {
    assert Before(a, b, i, j) && Before(i, j, i + 1, j);
  }

  lemma StaysUnwritten(g: Geometry, k: nat, i: nat, j: nat)
    requires Supported(g.rotation) && Unwritten(g, k, i + 1, j)
    ensures Unwritten(g, k, i, j)
  {
  }

  lemma LastWriteNextRow(g: Geometry, from: seq<byte>, was: seq<byte>, to: seq<byte>, j: nat)
    requires Supported(g.rotation) && LastWriteWins(g, from, was, to, g.width, j)
    ensures LastWriteWins(g, from, was, to, 0, j + 1)
  {
    forall a: nat, b: nat, k: nat | k < |to| && Pixel(g, a, b) && WritesLast(g, a, b, k, 0, j + 1)
      ensures Carries(g, from, to, a, b, k)
    {
      assert WritesLast(g, a, b, k, g.width, j);
    }
    forall k: nat | k < |to| && Unwritten(g, k, 0, j + 1) ensures to[k] == was[k] {
      assert Unwritten(g, k, g.width, j);
    }
  }

  /** Bytes from `end` on are left alone. */
  predicate TailKept(end: nat, before: seq<byte>, after: seq<byte>) {
    && |before| == |after|
    && forall k :: end <= k < |before| ==> after[k] == before[k]
  }

  function LumaEnd(g: Geometry): nat { Row(OutWidth(g), OutHeight(g)) }
  function ChromaEnd(g: Geometry): nat { Row(OutWidth(g), OutHeight(g) / 2) }

  lemma LumaStep(g: Geometry, from: seq<byte>, to: seq<byte>, i: nat, j: nat)
    requires Supported(g.rotation) && Pixel(g, i, j) && LumaDone(g, from, to, i, j)
    requires YIn(g, i, j) < |from| && YOut(g, i, j) < |to|
    ensures LumaDone(g, from, to[YOut(g, i, j) := from[YIn(g, i, j)]], i + 1, j)
  {
    var after := to[YOut(g, i, j) := from[YIn(g, i, j)]];
    forall a: nat, b: nat | Pixel(g, a, b) && Before(a, b, i + 1, j)
      ensures YIn(g, a, b) < |from| && YOut(g, a, b) < |after| && after[YOut(g, a, b)] == from[YIn(g, a, b)]
    {
      LumaIsInjective(g, a, b, i, j);
    }
  }

  lemma ChromaStep(g: Geometry, from: seq<byte>, to: seq<byte>, i: nat, j: nat)
    requires Supported(g.rotation) && EvenSized(g) && Pixel(g, i, j) && ChromaDone(g, from, to, i, j)
    requires UIn(g, i, j) + 1 < |from| && UOut(g, i, j) + 1 < |to|
    ensures var u, v := UOut(g, i, j), UIn(g, i, j);
            ChromaDone(g, from, to[u := from[v]][u + 1 := from[v + 1]], i + 1, j)
  {
    var u, v := UOut(g, i, j), UIn(g, i, j);
    var after := to[u := from[v]][u + 1 := from[v + 1]];
    forall a: nat, b: nat | Pixel(g, a, b) && Before(a, b, i + 1, j)
      ensures UIn(g, a, b) + 1 < |from| && UOut(g, a, b) + 1 < |after|
      ensures after[UOut(g, a, b)] == from[UIn(g, a, b)] && after[UOut(g, a, b) + 1] == from[UIn(g, a, b) + 1]
    {
      ChromaPixelStep(g, from, to, i, j, a, b);
    }
  }

  /** Writing one pair leaves every other pair that is in place alone, or writes the same again. */
  lemma ChromaPixelStep(g: Geometry, from: seq<byte>, to: seq<byte>, i: nat, j: nat, a: nat, b: nat)
    requires Supported(g.rotation) && EvenSized(g) && Pixel(g, i, j) && ChromaDone(g, from, to, i, j)
    requires UIn(g, i, j) + 1 < |from| && UOut(g, i, j) + 1 < |to|
    requires Pixel(g, a, b) && Before(a, b, i + 1, j)
    ensures var u, v := UOut(g, i, j), UIn(g, i, j);
            var after := to[u := from[v]][u + 1 := from[v + 1]];
            && UIn(g, a, b) + 1 < |from| && UOut(g, a, b) + 1 < |after|
            && after[UOut(g, a, b)] == from[UIn(g, a, b)] && after[UOut(g, a, b) + 1] == from[UIn(g, a, b) + 1]
  {
    if a == i && b == j {
      PairWritten(to, UOut(g, i, j), from, UIn(g, i, j), UOut(g, i, j), UIn(g, i, j));
    } else {
      assert Before(a, b, i, j);
      PairsAreDisjoint(g, a, b, i, j);
      PairWritten(to, UOut(g, i, j), from, UIn(g, i, j), UOut(g, a, b), UIn(g, a, b));
    }
  }

  lemma PairWritten(to: seq<byte>, u: nat, from: seq<byte>, v: nat, x: nat, y: nat)
    requires u + 1 < |to| && v + 1 < |from| && x + 1 < |to| && y + 1 < |from|
    requires x != u + 1 && x + 1 != u
    requires if x == u then y == v else to[x] == from[y] && to[x + 1] == from[y + 1]
    ensures var after := to[u := from[v]][u + 1 := from[v + 1]]; after[x] == from[y] && after[x + 1] == from[y + 1]
  {
  }

  lemma PairsAreDisjoint(g: Geometry, a: nat, b: nat, i: nat, j: nat)
    requires Supported(g.rotation) && EvenSized(g) && Pixel(g, a, b) && Pixel(g, i, j)
    ensures UOut(g, a, b) != UOut(g, i, j) + 1 && UOut(g, a, b) + 1 != UOut(g, i, j)
    ensures UOut(g, a, b) == UOut(g, i, j) ==> UIn(g, a, b) == UIn(g, i, j)
  {
    ChromaWritesAgree(g, a, b, i, j);
    ChromaInside(g, a, b);
    ChromaInside(g, i, j);
    EvensAreApart(UOut(g, a, b), UOut(g, i, j));
  }

  lemma EvensAreApart(a: nat, b: nat)
    requires a % 2 == 0 && b % 2 == 0
    ensures a != b + 1 && a + 1 != b
  {
  }

  method Address(yStride: nat, uvStride: nat, i: nat, j: nat) returns (y: nat, u: nat)
    ensures y == Row(yStride, j) + i && u == Row(uvStride, j / 2) + Even(i)
  {
    RowIsProduct(yStride, j);
    RowIsProduct(uvStride, j / 2);
    y := j * yStride + i;
    u := j / 2 * uvStride + (i - i % 2);
  }

  /** The addresses the loop computes for a pixel. */
  method Addresses(g: Geometry, i: nat, j: nat) returns (yIn: nat, uIn: nat, yOut: nat, uOut: nat)
    requires Supported(g.rotation) && Pixel(g, i, j)
    ensures yIn == YIn(g, i, j) && uIn == UIn(g, i, j) && yOut == YOut(g, i, j) && uOut == UOut(g, i, j)
  {
    var swap, xflip, yflip := Swapped(g), FlippedX(g), FlippedY(g);
    var wOut := if swap then g.height else g.width;
    var hOut := if swap then g.width else g.height;
    var iSwapped := if swap then j else i;
    var jSwapped := if swap then i else j;
    var iOut := if xflip then wOut - iSwapped - 1 else iSwapped;
    var jOut := if yflip then hOut - jSwapped - 1 else jSwapped;
    assert iOut == OutI(g, i, j) && jOut == OutJ(g, i, j) && wOut == OutWidth(g);
    yIn, uIn := Address(g.yStride, g.uvStride, i, j);
    yOut, uOut := Address(wOut, wOut, iOut, jOut);
  }

  /** The body of the loop. */
  method PutPixel(g: Geometry, yIn: array<byte>, uvIn: array<byte>, yOut: array<byte>, uvOut: array<byte>,
                  i: nat, j: nat)
    requires Supported(g.rotation) && Pixel(g, i, j) && Roomy(g, yIn.Length, uvIn.Length, yOut.Length, uvOut.Length)
    requires yIn != yOut && yIn != uvOut && uvIn != yOut && uvIn != uvOut && yOut != uvOut
    modifies yOut, uvOut
    ensures yOut[..] == old(yOut[..])[YOut(g, i, j) := yIn[YIn(g, i, j)]]
    ensures var u, v := UOut(g, i, j), UIn(g, i, j);
            uvOut[..] == old(uvOut[..])[u := uvIn[v]][u + 1 := uvIn[v + 1]]
  {
    var from, u, to, uTo := Addresses(g, i, j);
    yOut[to] := yIn[from];
    uvOut[uTo] := uvIn[u];
    uvOut[uTo + 1] := uvIn[u + 1];
  }

  /** rotateNV21: a plain copy for no rotation, nothing for an unsupported one, otherwise the rotated picture. For odd
      sizes neighbouring chroma pairs overlap, and the last write wins. */
  method RotateNV21(g: Geometry, yIn: array<byte>, uvIn: array<byte>, yOut: array<byte>, uvOut: array<byte>)
    requires yIn != yOut && yIn != uvOut && uvIn != yOut && uvIn != uvOut && yOut != uvOut
    requires g.rotation == 0 ==>
               && g.yStride * g.height <= yIn.Length && g.yStride * g.height <= yOut.Length
               && g.uvStride * g.height <= uvIn.Length && g.uvStride * g.height <= uvOut.Length
    requires Supported(g.rotation) && g.rotation != 0 ==>
               Roomy(g, yIn.Length, uvIn.Length, yOut.Length, uvOut.Length)
    modifies yOut, uvOut
    ensures g.rotation == 0 ==>
              && yOut[..] == yIn[..g.yStride * g.height] + old(yOut[g.yStride * g.height..])
              && uvOut[..] == uvIn[..g.uvStride * g.height] + old(uvOut[g.uvStride * g.height..])
    ensures g.rotation != 0 && g.rotation != 90 && g.rotation != 180 && g.rotation != 270 ==>
              yOut[..] == old(yOut[..]) && uvOut[..] == old(uvOut[..])
    ensures g.rotation == 90 ==>
              Turned90(g, yIn[..], yOut[..]) && (EvenSized(g) ==> ChromaTurned90(g, uvIn[..], uvOut[..]))
    ensures g.rotation == 180 ==>
              Turned180(g, yIn[..], yOut[..]) && (EvenSized(g) ==> ChromaTurned180(g, uvIn[..], uvOut[..]))
    ensures g.rotation == 270 ==>
              Turned270(g, yIn[..], yOut[..]) && (EvenSized(g) ==> ChromaTurned270(g, uvIn[..], uvOut[..]))
    ensures Supported(g.rotation) && g.rotation != 0 ==>
              && LumaRotated(g, yIn[..], yOut[..]) && TailKept(LumaEnd(g), old(yOut[..]), yOut[..])
              && LastWriteWins(g, uvIn[..], old(uvOut[..]), uvOut[..], 0, g.height)
              && (EvenSized(g) ==>
                    ChromaRotated(g, uvIn[..], uvOut[..]) && TailKept(ChromaEnd(g), old(uvOut[..]), uvOut[..]))
  {
    SupportedIff(g.rotation);
    if g.rotation == 0 {
      CopyPlanes(yIn, g.yStride * g.height, yOut, uvIn, g.uvStride * g.height, uvOut);
      return;
    }
    if g.rotation % 90 != 0 || g.rotation < 0 || g.rotation > 270 {
      return;
    }
    RotateRows(g, yIn, uvIn, yOut, uvOut);
    RotatedIsTurned(g, yIn[..], yOut[..]);
    if EvenSized(g) { RotatedIsTurnedChroma(g, uvIn[..], uvOut[..]); }
  }

  /** The outer loop. */
  method RotateRows(g: Geometry, yIn: array<byte>, uvIn: array<byte>, yOut: array<byte>, uvOut: array<byte>)
    requires Supported(g.rotation) && Roomy(g, yIn.Length, uvIn.Length, yOut.Length, uvOut.Length)
    requires yIn != yOut && yIn != uvOut && uvIn != yOut && uvIn != uvOut && yOut != uvOut
    modifies yOut, uvOut
    ensures LumaRotated(g, yIn[..], yOut[..]) && TailKept(LumaEnd(g), old(yOut[..]), yOut[..])
    ensures LastWriteWins(g, uvIn[..], old(uvOut[..]), uvOut[..], 0, g.height)
    ensures EvenSized(g) ==>
              ChromaRotated(g, uvIn[..], uvOut[..]) && TailKept(ChromaEnd(g), old(uvOut[..]), uvOut[..])
  {
    ghost var y, uv := yOut[..], uvOut[..];
    for j := 0 to g.height
      invariant LumaDone(g, yIn[..], yOut[..], 0, j) && TailKept(LumaEnd(g), y, yOut[..])
      invariant LastWriteWins(g, uvIn[..], uv, uvOut[..], 0, j)
      invariant EvenSized(g) ==> ChromaDone(g, uvIn[..], uvOut[..], 0, j) && TailKept(ChromaEnd(g), uv, uvOut[..])
    {
      RotateRow(g, yIn, uvIn, yOut, uvOut, j, y, uv);
    }
    AllDone(g, yIn[..], yOut[..], uvIn[..], uvOut[..]);
  }

  lemma AllDone(g: Geometry, y: seq<byte>, yTo: seq<byte>, uv: seq<byte>, uvTo: seq<byte>)
    requires Supported(g.rotation) && LumaDone(g, y, yTo, 0, g.height)
    ensures LumaRotated(g, y, yTo)
    ensures ChromaDone(g, uv, uvTo, 0, g.height) ==> ChromaRotated(g, uv, uvTo)
  {
    assert forall i: nat, j: nat :: Pixel(g, i, j) ==> Before(i, j, 0, g.height);
  }

  lemma NextRow(g: Geometry, y: seq<byte>, yTo: seq<byte>, uv: seq<byte>, uvTo: seq<byte>, j: nat)
    requires Supported(g.rotation) && LumaDone(g, y, yTo, g.width, j)
    ensures LumaDone(g, y, yTo, 0, j + 1)
    ensures ChromaDone(g, uv, uvTo, g.width, j) ==> ChromaDone(g, uv, uvTo, 0, j + 1)
  {
    assert forall a: nat, b: nat :: Pixel(g, a, b) && Before(a, b, 0, j + 1) ==> Before(a, b, g.width, j);
  }

  lemma LumaTail(g: Geometry, was: seq<byte>, to: seq<byte>, i: nat, j: nat, x: byte)
    requires Supported(g.rotation) && Pixel(g, i, j) && YOut(g, i, j) < |to| && TailKept(LumaEnd(g), was, to)
    ensures TailKept(LumaEnd(g), was, to[YOut(g, i, j) := x])
  {
    LumaInside(g, i, j);
  }

  lemma ChromaTail(g: Geometry, was: seq<byte>, to: seq<byte>, i: nat, j: nat, x: byte, y: byte)
    requires Supported(g.rotation) && EvenSized(g) && Pixel(g, i, j) && UOut(g, i, j) + 1 < |to|
    requires TailKept(ChromaEnd(g), was, to)
    ensures TailKept(ChromaEnd(g), was, to[UOut(g, i, j) := x][UOut(g, i, j) + 1 := y])
  {
    ChromaInside(g, i, j);
  }

  /** The inner loop. */
  method RotateRow(g: Geometry, yIn: array<byte>, uvIn: array<byte>, yOut: array<byte>, uvOut: array<byte>, j: nat,
                   ghost y: seq<byte>, ghost uv: seq<byte>)
    requires Supported(g.rotation) && j < g.height && Roomy(g, yIn.Length, uvIn.Length, yOut.Length, uvOut.Length)
    requires yIn != yOut && yIn != uvOut && uvIn != yOut && uvIn != uvOut && yOut != uvOut
    requires LumaDone(g, yIn[..], yOut[..], 0, j) && TailKept(LumaEnd(g), y, yOut[..])
    requires LastWriteWins(g, uvIn[..], uv, uvOut[..], 0, j)
    requires EvenSized(g) ==> ChromaDone(g, uvIn[..], uvOut[..], 0, j) && TailKept(ChromaEnd(g), uv, uvOut[..])
    modifies yOut, uvOut
    ensures LumaDone(g, yIn[..], yOut[..], 0, j + 1) && TailKept(LumaEnd(g), y, yOut[..])
    ensures LastWriteWins(g, uvIn[..], uv, uvOut[..], 0, j + 1)
    ensures EvenSized(g) ==> ChromaDone(g, uvIn[..], uvOut[..], 0, j + 1) && TailKept(ChromaEnd(g), uv, uvOut[..])
  {
    for i := 0 to g.width
      invariant LumaDone(g, yIn[..], yOut[..], i, j) && TailKept(LumaEnd(g), y, yOut[..])
      invariant LastWriteWins(g, uvIn[..], uv, uvOut[..], i, j)
      invariant EvenSized(g) ==> ChromaDone(g, uvIn[..], uvOut[..], i, j) && TailKept(ChromaEnd(g), uv, uvOut[..])
    {
      LumaStep(g, yIn[..], yOut[..], i, j);
      LumaTail(g, y, yOut[..], i, j, yIn[YIn(g, i, j)]);
      if EvenSized(g) {
        ChromaStep(g, uvIn[..], uvOut[..], i, j);
        ChromaTail(g, uv, uvOut[..], i, j, uvIn[UIn(g, i, j)], uvIn[UIn(g, i, j) + 1]);
      }
      ghost var before := uvOut[..];
      PutPixel(g, yIn, uvIn, yOut, uvOut, i, j);
      LastWriteStep(g, uvIn[..], uv, before, i, j, uvOut[..]);
    }
    NextRow(g, yIn[..], yOut[..], uvIn[..], uvOut[..], j);
    LastWriteNextRow(g, uvIn[..], uv, uvOut[..], j);
  }

  method CopyPlanes(yIn: array<byte>, n: nat, yOut: array<byte>, uvIn: array<byte>, m: nat, uvOut: array<byte>)
    requires yIn != yOut && uvIn != yOut && uvIn != uvOut && yOut != uvOut
    requires n <= yIn.Length && n <= yOut.Length && m <= uvIn.Length && m <= uvOut.Length
    modifies yOut, uvOut
    ensures yOut[..] == old(yIn[..n]) + old(yOut[n..]) && uvOut[..] == old(uvIn[..m]) + old(uvOut[m..])
  {
    CopyN(yIn, n, yOut);
    CopyN(uvIn, m, uvOut);
  }

  method CopyN(from: array<byte>, n: nat, to: array<byte>)
    requires from != to && n <= from.Length && n <= to.Length
    modifies to
    ensures to[..] == from[..n] + old(to[n..])
  {
    for k := 0 to n
      invariant to[..k] == from[..k] && to[k..] == old(to[k..])
    {
      to[k] := from[k];
    }
  }
}
