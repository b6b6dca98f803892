/** The grid of worlds: tiles, halos, sections, and the rectangles that neighbours exchange. */
module WorldGeometry {
  import opened Common

  datatype Point2D = Point2D(x: int, y: int) {
    function Plus(p: Point2D): Point2D { Point2D(x + p.x, y + p.y) }
    function Minus(p: Point2D): Point2D { Point2D(x - p.x, y - p.y) }
  }

  datatype Rectangle = Rectangle(origin: Point2D, size: Point2D) {
    predicate IsInside(p: Point2D) {
      && origin.x <= p.x < origin.x + size.x
      && origin.y <= p.y < origin.y + size.y
    }

    function Shift(p: Point2D): Rectangle { Rectangle(origin.Plus(p), size) }

    // The rectangle with a border of the given width around it.
    function Grow(border: int): Rectangle {
      Rectangle(Point2D(origin.x - border, origin.y - border), Point2D(size.x + 2 * border, size.y + 2 * border))
    }
  }

  /** A square grid of row * row worlds, each owning a tile of local * local cells. */
  datatype Grid = Grid(row: nat, local: nat, overlap: nat) {
    function Worlds(): nat { row * row }
    function Size(): nat { row * local }
  }

  // ----- arithmetic

  lemma MulLe(n: nat, a: int, b: int)
    requires a <= b
    ensures a * n <= b * n
  {
  }

  lemma MulNext(n: nat, a: int)
    ensures (a + 1) * n == a * n + n
    ensures n * a == a * n
  {
  }

  // ----- set-up checks

  datatype SetupError = OddLocalSize | OverlapTooWide | NotDivisible

  /** The checks of set-up, in the order in which they are made: the local size is even, the
      overlap fits twice into half a tile, and the tiles cover the whole raster. */
  function Setup(size: nat, row: nat, overlap: nat): Outcome<Grid, SetupError>
    requires row > 0
  {
    var local := size / row;
    if local % 2 != 0 then Failed(OddLocalSize)
    else if overlap * 2 > local / 2 then Failed(OverlapTooWide)
    else if size % row != 0 then Failed(NotDivisible)
    else Done(Grid(row, local, overlap))
  }

  ghost predicate GoodGrid(g: Grid) {
    g.row > 0 && g.local > 0 && g.local % 2 == 0 && 2 * g.overlap <= g.local / 2
  }

  /** Set-up accepts exactly the good grids. */
  lemma SetupIsGood(size: nat, row: nat, overlap: nat, g: Grid)
    requires row > 0 && size >= row
    ensures Setup(size, row, overlap) == Done(g) <==> GoodGrid(g) && g.Size() == size && g.row == row && g.overlap == overlap
  {
    var local := size / row;
    assert size == row * local + size % row;
    if GoodGrid(g) && g.Size() == size && g.row == row { OneQuotient(row, local, size % row, g.local); }
  }

  /** The error tells the first check that fails. */
  lemma SetupErrors(size: nat, row: nat, overlap: nat)
    requires row > 0
    ensures Setup(size, row, overlap) == Failed(OddLocalSize) <==> size / row % 2 == 1
    ensures Setup(size, row, overlap) == Failed(OverlapTooWide) <==> size / row % 2 == 0 && 4 * overlap > size / row
    ensures Setup(size, row, overlap) == Failed(NotDivisible) <==>
              size / row % 2 == 0 && 4 * overlap <= size / row && size % row != 0
  {
    var local := size / row;
    assert local % 2 == 0 ==> local == 2 * (local / 2);
  }

  lemma OneQuotient(row: nat, q: nat, r: nat, l: nat)
    requires row > 0 && r < row && row * q + r == row * l
    ensures q == l && r == 0
  {
    MulNext(row, q);
    MulNext(row, l);
    if q < l { MulLe(row, q + 1, l); }
    if l < q { MulLe(row, l + 1, q); }
  }

  // ----- ids and positions

  function PositionFromId(g: Grid, id: nat): Point2D
    requires g.row > 0
  {
    Point2D(id % g.row, id / g.row)
  }

  function IdFromTile(g: Grid, p: Point2D): int { p.y * g.row + p.x }

  /** The world whose tile contains a position. */
  function IdFromPosition(g: Grid, p: Point2D): int
    requires g.local > 0
  {
    IdFromTile(g, Point2D(p.x / g.local, p.y / g.local))
  }

  predicate IsTile(g: Grid, p: Point2D) { 0 <= p.x < g.row && 0 <= p.y < g.row }

  lemma DivideTile(row: int, x: int, y: int)
    requires 0 <= x < row
    ensures (y * row + x) / row == y && (y * row + x) % row == x
  {
    var id := y * row + x;
    var q := id / row;
    assert id == row * q + id % row;
    MulNext(row, q);
    if q >= y + 1 {
      MulLe(row, y + 1, q);
      MulNext(row, y);
    } else if y >= q + 1 {
      MulLe(row, q + 1, y);
    }
  }

  /** Ids and tile positions determine each other. */
  lemma IdsAndTiles(g: Grid, id: nat)
    requires g.row > 0
    ensures IdFromTile(g, PositionFromId(g, id)) == id
    ensures id < g.Worlds() <==> IsTile(g, PositionFromId(g, id))
  {
    var y := id / g.row;
    assert id == g.row * y + id % g.row;
    MulNext(g.row, y);
    if y < g.row {
      MulLe(g.row, y + 1, g.row);
    } else {
      MulLe(g.row, g.row, y);
    }
  }

  lemma TilesAndIds(g: Grid, p: Point2D)
    requires g.row > 0 && IsTile(g, p)
    ensures 0 <= IdFromTile(g, p) < g.Worlds() && PositionFromId(g, IdFromTile(g, p)) == p
  {
    assert p.y * g.row >= 0;
    DivideTile(g.row, p.x, p.y);
    IdsAndTiles(g, IdFromTile(g, p));
  }

  // ----- tiles, halos and sections

  function GlobalBoundaries(g: Grid): Rectangle {
    Rectangle(Point2D(0, 0), Point2D(g.Size(), g.Size()))
  }

  function Boundaries(g: Grid, id: nat): Rectangle
    requires g.row > 0
  {
    var pos := PositionFromId(g, id);
    Rectangle(Point2D(pos.x * g.local, pos.y * g.local), Point2D(g.local, g.local))
  }

  /** One axis of a tile: its origin within the raster, the sizes of tile and raster, the overlap. */
  datatype Axis = Axis(origin: int, local: nat, size: nat, overlap: nat) {
    // The overlap on the side of the origin, and on the far side.
    function Near(): nat { if origin != 0 then overlap else 0 }
    function Far(): nat { if origin != size - local then overlap else 0 }
  }

  function AxisX(g: Grid, id: nat): Axis
    requires g.row > 0
  {
    Axis(Boundaries(g, id).origin.x, g.local, g.Size(), g.overlap)
  }

  function AxisY(g: Grid, id: nat): Axis
    requires g.row > 0
  {
    Axis(Boundaries(g, id).origin.y, g.local, g.Size(), g.overlap)
  }

  /** The tile with an overlap added on every side that is not a border of the global raster. */
  function OverlapBoundaries(g: Grid, id: nat): Rectangle
    requires g.row > 0
  {
    Halo(AxisX(g, id), AxisY(g, id))
  }

  function Halo(x: Axis, y: Axis): Rectangle {
    Rectangle(Point2D(x.origin - x.Near(), y.origin - y.Near()),
              Point2D(x.local + x.Near() + x.Far(), y.local + y.Near() + y.Far()))
  }

  /** The quarter of a tile that is executed as section s. */
  function Section(g: Grid, id: nat, s: nat): Rectangle
    requires g.row > 0 && s < 4
  {
    var b := Boundaries(g, id);
    var dx := if s == 1 || s == 3 then b.size.x / 2 else 0;
    var dy := if s == 2 || s == 3 then b.size.y / 2 else 0;
    Rectangle(Point2D(b.origin.x + dx, b.origin.y + dy), Point2D(b.size.x / 2, b.size.y / 2))
  }

  /** The four sections cover the tile. */
  lemma SectionsPartition(g: Grid, id: nat, p: Point2D)
    requires GoodGrid(g)
    ensures forall s :: 0 <= s < 4 && Section(g, id, s).IsInside(p) ==> Boundaries(g, id).IsInside(p)
    ensures Boundaries(g, id).IsInside(p) ==> exists s :: 0 <= s < 4 && Section(g, id, s).IsInside(p)
    ensures forall s, t :: 0 <= s < t < 4 ==> !(Section(g, id, s).IsInside(p) && Section(g, id, t).IsInside(p))
  {
    var b := Boundaries(g, id);
    if b.IsInside(p) {
      var s := (if p.x < b.origin.x + g.local / 2 then 0 else 1) + (if p.y < b.origin.y + g.local / 2 then 0 else 2);
      assert Section(g, id, s).IsInside(p);
    }
  }

  // Tiles apart by d rows or columns are at least d tile sizes apart.
  lemma TileDistance(local: nat, a: int, b: int)
    ensures a < b ==> a * local + local <= b * local
    ensures a + 1 == b ==> a * local + local == b * local
    ensures a + 2 <= b ==> a * local + 2 * local <= b * local
  {
    MulNext(local, a);
    MulNext(local, a + 1);
    if a + 1 <= b { MulLe(local, a + 1, b); }
    if a + 2 <= b { MulLe(local, a + 2, b); }
  }

  /** A position lies in the tile of the world that its id is computed to be, and in no other. */
  lemma OwnerOfPosition(g: Grid, id: nat, p: Point2D)
    requires GoodGrid(g)
    ensures Boundaries(g, id).IsInside(p) ==> IdFromPosition(g, p) == id
    ensures GlobalBoundaries(g).IsInside(p) ==>
              0 <= IdFromPosition(g, p) < g.Worlds() && Boundaries(g, IdFromPosition(g, p)).IsInside(p)
  {
    var pos := PositionFromId(g, id);
    IdsAndTiles(g, id);
    if Boundaries(g, id).IsInside(p) {
      DivideTile(g.local, p.x - pos.x * g.local, pos.x);
      DivideTile(g.local, p.y - pos.y * g.local, pos.y);
    }
    if GlobalBoundaries(g).IsInside(p) {
      var t := Point2D(p.x / g.local, p.y / g.local);
      TileInGrid(g.row, g.local, p.x);
      TileInGrid(g.row, g.local, p.y);
      TilesAndIds(g, t);
    }
  }

  lemma TileInGrid(row: nat, local: nat, x: int)
    requires local > 0 && 0 <= x < row * local
    ensures 0 <= x / local < row && (x / local) * local <= x < (x / local) * local + local
  {
    var q := x / local;
    assert x == local * q + x % local;
    if q >= row { TileDistance(local, row, q + 1); }
  }

  /** An inner border of the grid is a border of the global raster exactly at its rim. */
  lemma AtRim(g: Grid, k: nat)
    requires GoodGrid(g) && k < g.row
    ensures k * g.local == 0 <==> k == 0
    ensures k * g.local == g.Size() - g.local <==> k == g.row - 1
    ensures 0 <= k * g.local && k * g.local + g.local <= g.Size()
  {
    TileDistance(g.local, 0, k);
    TileDistance(g.local, k, g.row);
    TileDistance(g.local, k + 1, g.row);
    TileDistance(g.local, g.row - 1, g.row);
  }

  // ----- neighbours

  predicate AreNeighbors(g: Grid, a: nat, b: nat)
    requires g.row > 0
  {
    var d := Offset(g, a, b);
    a < g.Worlds() && b < g.Worlds() && a != b && -1 <= d.x <= 1 && -1 <= d.y <= 1
  }

  // The neighbour at a relative tile, if the grid has one.
  function NeighborAt(g: Grid, id: nat, dx: int, dy: int): (r: seq<nat>)
    requires g.row > 0
  {
    var p := PositionFromId(g, id).Plus(Point2D(dx, dy));
    if IsTile(g, p) && (dx != 0 || dy != 0) then
      TilesAndIds(g, p);
      [IdFromTile(g, p)]
    else []
  }

  // The neighbours of one column of tiles, top to bottom.
  function NeighborColumn(g: Grid, id: nat, dx: int): seq<nat>
    requires g.row > 0
  {
    NeighborAt(g, id, dx, -1) + NeighborAt(g, id, dx, 0) + NeighborAt(g, id, dx, 1)
  }

  /** All neighbours of a world, in the order in which they are served. */
  function Neighbors(g: Grid, id: nat): seq<nat>
    requires g.row > 0
  {
    NeighborColumn(g, id, -1) + NeighborColumn(g, id, 0) + NeighborColumn(g, id, 1)
  }

  function Offset(g: Grid, a: nat, b: nat): Point2D
    requires g.row > 0
  {
    PositionFromId(g, b).Minus(PositionFromId(g, a))
  }

  lemma NeighborAtIs(g: Grid, id: nat, dx: int, dy: int)
    requires g.row > 0 && id < g.Worlds() && -1 <= dx <= 1 && -1 <= dy <= 1
    ensures forall n :: n in NeighborAt(g, id, dx, dy) <==> AreNeighbors(g, id, n) && Offset(g, id, n) == Point2D(dx, dy)
    ensures NoDuplicates(NeighborAt(g, id, dx, dy))
  {
    var p := PositionFromId(g, id).Plus(Point2D(dx, dy));
    IdsAndTiles(g, id);
    if IsTile(g, p) { TilesAndIds(g, p); }
    forall n: nat ensures n in NeighborAt(g, id, dx, dy) <==> AreNeighbors(g, id, n) && Offset(g, id, n) == Point2D(dx, dy) {
      IdsAndTiles(g, n);
    }
  }

  lemma NoDuplicatesConcat(a: seq<nat>, b: seq<nat>)
    requires NoDuplicates(a) && NoDuplicates(b) && forall n :: n in a ==> n !in b
    ensures NoDuplicates(a + b)
  {
    var s := a + b;
    forall i, j | 0 <= i < j < |s| ensures s[i] != s[j] {
      if i < |a| <= j { assert s[i] in a && s[j] in b; }
    }
  }

  lemma NeighborColumnIs(g: Grid, id: nat, dx: int)
    requires g.row > 0 && id < g.Worlds() && -1 <= dx <= 1
    ensures forall n :: n in NeighborColumn(g, id, dx) <==> AreNeighbors(g, id, n) && Offset(g, id, n).x == dx
    ensures NoDuplicates(NeighborColumn(g, id, dx))
  {
    NeighborAtIs(g, id, dx, -1);
    NeighborAtIs(g, id, dx, 0);
    NeighborAtIs(g, id, dx, 1);
    NoDuplicatesConcat(NeighborAt(g, id, dx, -1), NeighborAt(g, id, dx, 0));
    NoDuplicatesConcat(NeighborAt(g, id, dx, -1) + NeighborAt(g, id, dx, 0), NeighborAt(g, id, dx, 1));
  }

  /** The list holds exactly the neighbours, each once. */
  lemma NeighborsAre(g: Grid, id: nat)
    requires g.row > 0 && id < g.Worlds()
    ensures forall n :: n in Neighbors(g, id) <==> AreNeighbors(g, id, n)
    ensures NoDuplicates(Neighbors(g, id))
  {
    NeighborColumnIs(g, id, -1);
    NeighborColumnIs(g, id, 0);
    NeighborColumnIs(g, id, 1);
    NoDuplicatesConcat(NeighborColumn(g, id, -1), NeighborColumn(g, id, 0));
    NoDuplicatesConcat(NeighborColumn(g, id, -1) + NeighborColumn(g, id, 0), NeighborColumn(g, id, 1));
  }

  lemma NeighborsSymmetric(g: Grid, a: nat, b: nat)
    requires g.row > 0
    ensures AreNeighbors(g, a, b) <==> AreNeighbors(g, b, a)
  {
  }
}
