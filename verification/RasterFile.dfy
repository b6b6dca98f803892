/** Rasters in the result file: every world writes its tile into one dataset per step, and loading
    reads the whole raster back. */
module RasterFile {
  import opened Common
  import opened WorldGeometry
  import opened Rasters
  import opened StartUp

  // ----- writing tiles

  /** A dataset, line by line. */
  type Dataset = seq<seq<int>>

  ghost predicate IsDataset(ds: Dataset, size: nat) { |ds| == size && forall y :: 0 <= y < size ==> |ds[y]| == size }

  // The own tile, in the local coordinates of a world.
  function LocalTile(g: Grid, w: nat): Rectangle
    requires g.row > 0
  {
    var b := Boundaries(g, w);
    Rectangle(b.origin.Minus(OverlapBoundaries(g, w).origin), b.size)
  }

  // Entry j of the line that starts at entry n.
  ghost predicate EntryIs(tile: Rectangle, n: nat, i: int, j: int) {
    0 <= n + j < |CellsOf(tile)| && CellsOf(tile)[n + j] == Point2D(j + tile.origin.x, i + tile.origin.y)
  }

  // Line i of a tile, which starts at entry n.
  method TileLine(raster: Raster, tile: Rectangle, i: nat, local: nat, before: seq<int>, ghost n: nat) returns (data: Outcome<seq<int>, RasterError>)
    requires n + local <= |CellsOf(tile)| && PackUpTo(raster.values, CellsOf(tile), n) == Done(before)
    requires forall j :: 0 <= j < local ==> EntryIs(tile, n, i, j)
    ensures data.Done? ==> PackUpTo(raster.values, CellsOf(tile), n + local) == data
    ensures data.Failed? ==> PackUpTo(raster.values, CellsOf(tile), |CellsOf(tile)|) == data
  {
    var values := before;
    for j := 0 to local
      invariant PackUpTo(raster.values, CellsOf(tile), n + j) == Done(values)
    {
      assert EntryIs(tile, n, i, j);
      var v := raster.GetValue(Point2D(j + tile.origin.x, i + tile.origin.y));
      if v.Failed? {
        PackFails(raster.values, CellsOf(tile), n + j, v.error);
        return Failed(v.error);
      }
      values := values + [v.value];
    }
    data := Done(values);
  }

  /** The values of the own tile, line by line, as they go to the file. */
  method TileData(raster: Raster, g: Grid, w: nat) returns (data: Outcome<seq<int>, RasterError>)
    requires g.row > 0
    ensures data == PackUpTo(raster.values, CellsOf(LocalTile(g, w)), |CellsOf(LocalTile(g, w))|)
  {
    var tile := LocalTile(g, w);
    var values: seq<int> := [];
    ghost var n := 0;
    for i := 0 to g.local
      invariant n == i * g.local && n <= |CellsOf(tile)| && PackUpTo(raster.values, CellsOf(tile), n) == Done(values)
    {
      LineOfTile(tile, i, g.local, n);
      data := TileLine(raster, tile, i, g.local, values, n);
      if data.Failed? { return; }
      values := data.value;
      n := n + g.local;
      MulNext(g.local, i);
    }
    assert |CellsOf(tile)| == g.local * g.local;
    data := Done(values);
  }

  lemma LineOfTile(tile: Rectangle, i: nat, local: nat, n: nat)
    requires tile.size == Point2D(local, local) && i < local && n == i * local
    ensures n + local <= |CellsOf(tile)|
    ensures forall j :: 0 <= j < local ==> EntryIs(tile, n, i, j)
  {
    forall j | 0 <= j < local ensures EntryIs(tile, n, i, j) {
      CellOfTile(tile, i, j, local, n);
    }
    assert EntryIs(tile, n, i, local - 1);
  }

  lemma CellOfTile(tile: Rectangle, i: nat, j: nat, local: nat, n: nat)
    requires tile.size == Point2D(local, local) && i < local && j < local && n == i * local
    ensures EntryIs(tile, n, i, j)
  {
    DivideTile(local, j, i);
    MulLe(local, i + 1, local);
    MulNext(local, i);
    assert CellsOf(tile)[n + j] == CellOf(tile, n + j);
  }

  /** The dataset after a world has written its tile at its place in it. */
  function Written(ds: Dataset, g: Grid, w: nat, data: seq<int>): (ds': Dataset)
    requires g.row > 0 && |data| == |CellsOf(Boundaries(g, w))|
    ensures |ds'| == |ds| && forall y :: 0 <= y < |ds| ==> |ds'[y]| == |ds[y]|
  {
    seq(|ds|, y requires 0 <= y < |ds| => seq(|ds[y]|, x requires 0 <= x < |ds[y]| =>
      var p := Point2D(x, y);
      if Boundaries(g, w).IsInside(p) then (CellOfEntry(Boundaries(g, w), p); data[EntryOf(Boundaries(g, w), p)]) else ds[y][x]))
  }

  // The tile of world w is in the dataset.
  ghost predicate TileWritten(ds: Dataset, g: Grid, w: nat, t: Truth)
    requires g.row > 0
  {
    forall x, y :: 0 <= y < |ds| && 0 <= x < |ds[y]| && Boundaries(g, w).IsInside(Point2D(x, y)) ==> ds[y][x] == t.value(Point2D(x, y))
  }

  // What a world whose own tile is right sends to the file.
  lemma TileDataRight(c: Cells, g: Grid, w: nat, t: Truth)
    requires GoodGrid(g) && w < g.Worlds() && Fitting(g, w, c, t) && OwnTileRight(g, w, c, t)
    ensures |CellsOf(LocalTile(g, w))| == |CellsOf(Boundaries(g, w))|
    ensures var r := PackUpTo(c.values, CellsOf(LocalTile(g, w)), |CellsOf(LocalTile(g, w))|);
      r.Done? && |r.value| == |CellsOf(Boundaries(g, w))|
      && forall k :: 0 <= k < |r.value| ==> r.value[k] == t.value(CellsOf(Boundaries(g, w))[k])
  {
    var cells, global := CellsOf(LocalTile(g, w)), CellsOf(Boundaries(g, w));
    CellsOfRectangle(Boundaries(g, w));
    forall k | 0 <= k < |cells| ensures InField(c.values, cells[k]) && At(c.values, cells[k]) == t.value(global[k]) {
      assert global[k] in global;
      assert cells[k] == global[k].Minus(OverlapBoundaries(g, w).origin);
      assert CellRight(g, w, Choose(c, false), Wanted(t, false), global[k]);
    }
    PackHolds(c.values, cells, |cells|);
  }

  lemma WrittenRight(ds: Dataset, g: Grid, w: nat, data: seq<int>, t: Truth)
    requires g.row > 0 && |data| == |CellsOf(Boundaries(g, w))|
    requires forall k :: 0 <= k < |data| ==> data[k] == t.value(CellsOf(Boundaries(g, w))[k])
    ensures TileWritten(Written(ds, g, w, data), g, w, t)
  {
    var b := Boundaries(g, w);
    forall x, y | 0 <= y < |ds| && 0 <= x < |ds[y]| && b.IsInside(Point2D(x, y))
      ensures Written(ds, g, w, data)[y][x] == t.value(Point2D(x, y))
    {
      CellOfEntry(b, Point2D(x, y));
    }
  }

  // Tiles do not overlap, so a tile that was written stays.
  lemma WrittenStays(ds: Dataset, g: Grid, w: nat, data: seq<int>, u: nat, t: Truth)
    requires GoodGrid(g) && u != w && |data| == |CellsOf(Boundaries(g, w))| && TileWritten(ds, g, u, t)
    ensures TileWritten(Written(ds, g, w, data), g, u, t)
  {
    forall x, y | 0 <= y < |ds| && 0 <= x < |ds[y]| && Boundaries(g, u).IsInside(Point2D(x, y))
      ensures Written(ds, g, w, data)[y][x] == t.value(Point2D(x, y))
    {
      OwnerOfPosition(g, u, Point2D(x, y));
      OwnerOfPosition(g, w, Point2D(x, y));
    }
  }

  // ----- all worlds, in any order

  // What the worlds of a list leave in the file, one after the other.
  ghost function AllWritten(ds: Dataset, g: Grid, order: seq<nat>, data: nat -> seq<int>): (ds': Dataset)
    requires g.row > 0 && forall w :: w in order ==> |data(w)| == |CellsOf(Boundaries(g, w))|
    ensures |ds'| == |ds| && forall y :: 0 <= y < |ds| ==> |ds'[y]| == |ds[y]|
  {
    if order == [] then ds
    else Written(AllWritten(ds, g, order[..|order| - 1], data), g, order[|order| - 1], data(order[|order| - 1]))
  }

  ghost predicate TilesRight(g: Grid, data: nat -> seq<int>, t: Truth)
    requires g.row > 0
  {
    forall w :: 0 <= w < g.Worlds() ==>
      |data(w)| == |CellsOf(Boundaries(g, w))| && forall k :: 0 <= k < |data(w)| ==> data(w)[k] == t.value(CellsOf(Boundaries(g, w))[k])
  }

  lemma {:induction false} TilesStayWritten(ds: Dataset, g: Grid, order: seq<nat>, data: nat -> seq<int>, t: Truth, u: nat)
    requires GoodGrid(g) && TilesRight(g, data, t) && (forall w :: w in order ==> w < g.Worlds()) && u in order
    ensures TileWritten(AllWritten(ds, g, order, data), g, u, t)
  {
    var n := |order| - 1;
    assert forall w :: w in order[..n] ==> w in order;
    assert order[n] in order;
    if order[n] == u {
      WrittenRight(AllWritten(ds, g, order[..n], data), g, u, data(u), t);
    } else {
      assert u in order[..n];
      TilesStayWritten(ds, g, order[..n], data, t, u);
      WrittenStays(AllWritten(ds, g, order[..n], data), g, order[n], data(order[n]), u, t);
    }
  }

  /** Every cell belongs to the tile of exactly one world. */
  lemma OneWriterPerCell(g: Grid, p: Point2D)
    requires GoodGrid(g) && GlobalBoundaries(g).IsInside(p)
    ensures exists w :: 0 <= w < g.Worlds() && Boundaries(g, w).IsInside(p)
    ensures forall v: nat, w: nat :: Boundaries(g, v).IsInside(p) && Boundaries(g, w).IsInside(p) ==> v == w
  {
    OwnerOfPosition(g, 0, p);
    forall v: nat | Boundaries(g, v).IsInside(p) ensures v == IdFromPosition(g, p) { OwnerOfPosition(g, v, p); }
  }

  /** Once all worlds have written their tiles, in whatever order, the dataset is the global raster. */
  lemma FileHoldsRaster(ds: Dataset, g: Grid, order: seq<nat>, data: nat -> seq<int>, t: Truth, x: nat, y: nat)
    requires GoodGrid(g) && IsDataset(ds, g.Size()) && TilesRight(g, data, t)
    requires forall w :: 0 <= w < g.Worlds() <==> w in order
    requires x < g.Size() && y < g.Size()
    ensures AllWritten(ds, g, order, data)[y][x] == t.value(Point2D(x, y))
  {
    OneWriterPerCell(g, Point2D(x, y));
    var w :| 0 <= w < g.Worlds() && Boundaries(g, w).IsInside(Point2D(x, y));
    TilesStayWritten(ds, g, order, data, t, w);
  }

  // ----- reading

  const INT_MAX := 0x7FFF_FFFF
  const INT_MIN := -0x8000_0000

  predicate IsInt(v: int) { INT_MIN <= v <= INT_MAX }

  // Entry (x, y) of a dataset that was read line by line.
  function DataAt(data: seq<int>, size: nat, x: int, y: int): int {
    var k := x + y * size;
    if 0 <= k < |data| then data[k] else 0
  }

  /** A dataset that is read line by line: its lines follow each other. */
  ghost predicate LineByLine(data: seq<int>, size: nat, ds: Dataset) {
    |data| == size * size && |ds| == size && forall y :: 0 <= y < size ==> LineIs(data, size, y, ds[y])
  }

  ghost predicate LineIs(data: seq<int>, size: nat, y: int, line: seq<int>) {
    |line| == size && 0 <= y * size <= (y + 1) * size <= |data| && data[y * size..(y + 1) * size] == line
  }

  /** A raster holds a dataset: column x of line y is cell (x, y). */
  ghost predicate Holds(f: Field, ds: Dataset, size: nat) {
    && |f| == |ds| == size
    && forall x, y :: 0 <= x < size && 0 <= y < size ==> |f[x]| == |ds[y]| == size && f[x][y] == ds[y][x]
  }

  lemma ReadLineByLine(values: Field, data: seq<int>, size: nat, ds: Dataset)
    requires ReadSoFar(values, data, size, size, 0) && LineByLine(data, size, ds)
    ensures Holds(values, ds, size)
  {
    forall x, y | 0 <= x < size && 0 <= y < size ensures |values[x]| == |ds[y]| == size && values[x][y] == ds[y][x] {
      Index(x, y, size);
      MulNext(size, y);
      assert LineIs(data, size, y, ds[y]);
      assert ds[y][x] == data[y * size..(y + 1) * size][x] == data[y * size + x];
    }
  }

  // Every value of a dataset is that of some cell.
  lemma CellWithValue(data: seq<int>, size: nat, v: int) returns (x: int, y: int)
    requires size > 0 && |data| == size * size && v in data
    ensures 0 <= x < size && 0 <= y < size && DataAt(data, size, x, y) == v
  {
    var n :| 0 <= n < |data| && data[n] == v;
    x, y := n % size, n / size;
    assert n == size * y + x;
    MulNext(size, y);
    if y >= size { MulLe(size, size, y); }
    if y < 0 { MulLe(size, y + 1, 0); }
  }

  /** What a raster of the history is to the dataset that it is read from: it holds its lines, and all
      values lie between the extremes. */
  ghost predicate AsRead(f: Field, data: seq<int>, size: nat, lo: int, hi: int) {
    && (forall ds :: LineByLine(data, size, ds) ==> Holds(f, ds, size))
    && (forall v :: v in data ==> lo <= v <= hi)
  }

  // Raster k of the history is read from its step.
  ghost predicate StepAsRead(history: seq<Field>, file: seq<seq<int>>, size: nat, resolution: nat, k: int, lo: int, hi: int) {
    0 <= k < |history| && 0 <= StepOf(k, resolution) < |file| && AsRead(history[k], file[StepOf(k, resolution)], size, lo, hi)
  }

  lemma RasterIsRead(f: Field, data: seq<int>, size: nat, lo: int, hi: int)
    requires |data| == size * size && ReadSoFar(f, data, size, size, 0)
    requires forall x, y :: 0 <= x < size && 0 <= y < size ==> lo <= DataAt(data, size, x, y) <= hi
    ensures AsRead(f, data, size, lo, hi)
  {
    forall ds | LineByLine(data, size, ds) ensures Holds(f, ds, size) { ReadLineByLine(f, data, size, ds); }
    forall v | v in data ensures lo <= v <= hi {
      if size > 0 { var x, y := CellWithValue(data, size, v); }
    }
  }

  lemma HistoryIsRead(history: seq<Field>, file: seq<seq<int>>, size: nat, resolution: nat, lo: int, hi: int)
    requires forall s :: 0 <= s < |file| ==> |file[s]| == size * size
    requires forall k :: 0 <= k < |history| ==> HistoryAt(history, file, size, resolution, k, lo, hi)
    ensures forall k :: 0 <= k < |history| ==> StepAsRead(history, file, size, resolution, k, lo, hi)
  {
    forall k | 0 <= k < |history| ensures StepAsRead(history, file, size, resolution, k, lo, hi) {
      assert HistoryAt(history, file, size, resolution, k, lo, hi);
      RasterIsRead(history[k], file[StepOf(k, resolution)], size, lo, hi);
    }
  }

  // A field with as many columns as lines, all zero.
  function Blank(size: nat, v: int): (f: Field)
    ensures |f| == size && forall x :: 0 <= x < size ==> |f[x]| == size && forall y :: 0 <= y < size ==> f[x][y] == v
  {
    seq(size, _ => seq(size, _ => v))
  }

  // Cell (x, y) comes before cell (i, j) when cells are read column by column.
  predicate Earlier(x: int, y: int, i: int, j: int) { x < i || (x == i && y < j) }

  ghost predicate ReadSoFar(values: Field, data: seq<int>, size: nat, i: int, j: int) {
    && Sized(values, Point2D(size, size))
    && forall x, y :: 0 <= x < size && 0 <= y < size && Earlier(x, y, i, j) ==> values[x][y] == DataAt(data, size, x, y)
  }

  // The smallest and the largest value so far.
  ghost predicate Extremes(data: seq<int>, size: nat, i: int, j: int, lo0: int, hi0: int, lo: int, hi: int) {
    && lo <= lo0 && hi >= hi0
    && (forall x, y :: 0 <= x < size && 0 <= y < size && Earlier(x, y, i, j) ==> lo <= DataAt(data, size, x, y) <= hi)
    && (lo == lo0 || lo in data) && (hi == hi0 || hi in data)
  }

  lemma Index(x: int, y: int, size: nat)
    requires 0 <= x < size && 0 <= y < size
    ensures 0 <= x + y * size < size * size
  {
    MulLe(size, 0, y);
    MulLe(size, y + 1, size);
    MulNext(size, y);
  }

  // A raster whose guards let every integer pass.
  ghost predicate Open(raster: Raster, size: nat)
    reads raster
  {
    Sized(raster.values, Point2D(size, size)) && Sized(raster.maxValues, Point2D(size, size)) && raster.maxValue == INT_MAX
  }

  method StoreCell(raster: Raster, p: Point2D, value: int, size: nat)
    requires Open(raster, size) && 0 <= p.x < size && 0 <= p.y < size && value <= INT_MAX
    modifies raster
    ensures Open(raster, size) && raster.values == Put(old(raster.values), p, value)
  {
    PutMeans(raster.values, p, value, Point2D(size, size));
    PutMeans(raster.maxValues, p, value, Point2D(size, size));
    var r := raster.SetMaxValueAt(p, value);
    r := raster.SetValueAt(p, value);
    assert r.Done?;
  }

  method LoadCell(raster: Raster, data: seq<int>, size: nat, i: nat, j: nat, min0: int, max0: int, ghost lo: int, ghost hi: int)
    returns (minValue: int, maxValue: int)
    requires Open(raster, size) && i < size && j < size && |data| == size * size && forall k :: 0 <= k < |data| ==> IsInt(data[k])
    requires ReadSoFar(raster.values, data, size, i, j) && Extremes(data, size, i, j, lo, hi, min0, max0)
    modifies raster
    ensures Open(raster, size)
    ensures ReadSoFar(raster.values, data, size, i, j + 1) && Extremes(data, size, i, j + 1, lo, hi, minValue, maxValue)
  {
    Index(i, j, size);
    var value := data[i + j * size];
    assert value == DataAt(data, size, i, j) && value in data;
    minValue, maxValue := min0, max0;
    if value > maxValue { maxValue := value; }
    if value < minValue { minValue := value; }
    StoreCell(raster, Point2D(i, j), value, size);
  }

  /** Reads one raster; no guard of the raster fires.  The smallest and the largest value of all
      rasters are updated. */
  method LoadRaster(data: seq<int>, size: nat, min0: int, max0: int) returns (values: Field, minValue: int, maxValue: int)
    requires |data| == size * size && forall k :: 0 <= k < |data| ==> IsInt(data[k])
    ensures ReadSoFar(values, data, size, size, 0) && Extremes(data, size, size, 0, min0, max0, minValue, maxValue)
  {
    var raster := new Raster(Cells(Blank(size, 0), Blank(size, INT_MAX), INT_MAX));
    minValue, maxValue := min0, max0;
    for i := 0 to size
      invariant Open(raster, size) && ReadSoFar(raster.values, data, size, i, 0)
      invariant Extremes(data, size, i, 0, min0, max0, minValue, maxValue)
    {
      for j := 0 to size
        invariant Open(raster, size) && ReadSoFar(raster.values, data, size, i, j)
        invariant Extremes(data, size, i, j, min0, max0, minValue, maxValue)
      {
        minValue, maxValue := LoadCell(raster, data, size, i, j, minValue, maxValue, min0, max0);
      }
    }
    values := raster.values;
  }

  function StepOf(k: int, resolution: nat): int { k * resolution }

  // Raster k of the history is that of its step, within the extremes.
  ghost predicate HistoryAt(history: seq<Field>, file: seq<seq<int>>, size: nat, resolution: nat, k: int, lo: int, hi: int) {
    && 0 <= k < |history| && 0 <= StepOf(k, resolution) < |file|
    && ReadSoFar(history[k], file[StepOf(k, resolution)], size, size, 0)
    && forall x, y :: 0 <= x < size && 0 <= y < size ==> lo <= DataAt(file[StepOf(k, resolution)], size, x, y) <= hi
  }

  // A value of one of the first n rasters that are loaded.
  ghost predicate Occurs(file: seq<seq<int>>, resolution: nat, n: nat, v: int) {
    exists k :: 0 <= k < n && 0 <= StepOf(k, resolution) < |file| && v in file[StepOf(k, resolution)]
  }

  // The extremes are values that occur.
  lemma ExtremesOccur(file: seq<seq<int>>, size: nat, resolution: nat, n: nat, lo0: int, hi0: int, lo: int, hi: int)
    requires 0 <= StepOf(n, resolution) < |file| && size > 0
    requires |file[StepOf(n, resolution)]| == size * size && forall k :: 0 <= k < |file[StepOf(n, resolution)]| ==> IsInt(file[StepOf(n, resolution)][k])
    requires Extremes(file[StepOf(n, resolution)], size, size, 0, lo0, hi0, lo, hi)
    requires if n == 0 then lo0 == INT_MAX && hi0 == INT_MIN else Occurs(file, resolution, n, lo0) && Occurs(file, resolution, n, hi0)
    ensures Occurs(file, resolution, n + 1, lo) && Occurs(file, resolution, n + 1, hi)
  {
    var data := file[StepOf(n, resolution)];
    Index(0, 0, size);
    assert DataAt(data, size, 0, 0) == data[0] && data[0] in data && Earlier(0, 0, size, 0);
    if n > 0 {
      var k :| 0 <= k < n && 0 <= StepOf(k, resolution) < |file| && lo0 in file[StepOf(k, resolution)];
      var l :| 0 <= l < n && 0 <= StepOf(l, resolution) < |file| && hi0 in file[StepOf(l, resolution)];
      assert lo in data || lo in file[StepOf(k, resolution)];
      assert hi in data || hi in file[StepOf(l, resolution)];
    } else {
      assert lo in data && hi in data;
    }
  }

  lemma HistoryGrows(history: seq<Field>, values: Field, file: seq<seq<int>>, size: nat, resolution: nat, lo0: int, hi0: int, lo: int, hi: int)
    requires forall k :: 0 <= k < |history| ==> HistoryAt(history, file, size, resolution, k, lo0, hi0)
    requires 0 <= StepOf(|history|, resolution) < |file| && ReadSoFar(values, file[StepOf(|history|, resolution)], size, size, 0)
    requires Extremes(file[StepOf(|history|, resolution)], size, size, 0, lo0, hi0, lo, hi)
    ensures forall k :: 0 <= k < |history + [values]| ==> HistoryAt(history + [values], file, size, resolution, k, lo, hi)
  {
    forall k | 0 <= k < |history + [values]| ensures HistoryAt(history + [values], file, size, resolution, k, lo, hi) {
      if k < |history| { assert HistoryAt(history, file, size, resolution, k, lo0, hi0); }
    }
  }

  lemma StepsToLoad(k: nat, numSteps: nat, resolution: nat)
    requires resolution > 0 && k > 0 && StepOf(k - 1, resolution) <= numSteps < StepOf(k, resolution)
    ensures k == 1 + numSteps / resolution
  {
    var q := numSteps / resolution;
    assert numSteps == resolution * q + numSteps % resolution;
    MulNext(resolution, q);
    MulNext(resolution, k - 1);
    if q < k - 1 { MulLe(resolution, q + 1, k - 1); }
    if q > k - 1 { MulLe(resolution, k, q); }
  }

  /** Reads every resolution-th step.  Raster k of the history is that of step k * resolution, and
      the extremes that are recorded for every raster are the smallest and the largest value. */
  method LoadHistory(file: seq<seq<int>>, size: nat, numSteps: nat, resolution: nat)
    returns (history: seq<Field>, minValue: int, maxValue: int)
    requires resolution > 0 && |file| == numSteps + 1
    requires forall s :: 0 <= s <= numSteps ==> |file[s]| == size * size && forall k :: 0 <= k < |file[s]| ==> IsInt(file[s][k])
    ensures |history| == 1 + numSteps / resolution
    ensures forall k :: 0 <= k < |history| ==> HistoryAt(history, file, size, resolution, k, minValue, maxValue)
    ensures size > 0 ==> Occurs(file, resolution, |history|, minValue) && Occurs(file, resolution, |history|, maxValue)
    ensures forall k :: 0 <= k < |history| ==> StepAsRead(history, file, size, resolution, k, minValue, maxValue)
  {
    history, minValue, maxValue := LoadSteps(file, size, numSteps, resolution);
    HistoryIsRead(history, file, size, resolution, minValue, maxValue);
  }

  // The loop over the steps.
  method LoadSteps(file: seq<seq<int>>, size: nat, numSteps: nat, resolution: nat)
    returns (history: seq<Field>, minValue: int, maxValue: int)
    requires resolution > 0 && |file| == numSteps + 1
    requires forall s :: 0 <= s <= numSteps ==> |file[s]| == size * size && forall k :: 0 <= k < |file[s]| ==> IsInt(file[s][k])
    ensures |history| == 1 + numSteps / resolution
    ensures forall k :: 0 <= k < |history| ==> HistoryAt(history, file, size, resolution, k, minValue, maxValue)
    ensures size > 0 ==> Occurs(file, resolution, |history|, minValue) && Occurs(file, resolution, |history|, maxValue)
  {
    history := [];
    minValue, maxValue := INT_MAX, INT_MIN;
    var i := 0;
    while i <= numSteps
      invariant i == StepOf(|history|, resolution) && (i > 0 ==> |history| > 0 && i - resolution <= numSteps) && i >= 0
      invariant forall k :: 0 <= k < |history| ==> HistoryAt(history, file, size, resolution, k, minValue, maxValue)
      invariant if |history| == 0 then minValue == INT_MAX && maxValue == INT_MIN
                else size > 0 ==> Occurs(file, resolution, |history|, minValue) && Occurs(file, resolution, |history|, maxValue)
      decreases numSteps + resolution - i
    {
      ghost var lo, hi := minValue, maxValue;
      var values;
      values, minValue, maxValue := LoadRaster(file[i], size, minValue, maxValue);
      HistoryGrows(history, values, file, size, resolution, lo, hi, minValue, maxValue);
      if size > 0 { ExtremesOccur(file, size, resolution, |history|, lo, hi, minValue, maxValue); }
      MulNext(resolution, |history|);
      history := history + [values];
      i := i + resolution;
    }
    MulNext(resolution, |history| - 1);
    StepsToLoad(|history|, numSteps, resolution);
  }

  /** What the worlds have written for a step is what is read back for it, cell by cell. */
  lemma RoundTrip(ds: Dataset, g: Grid, order: seq<nat>, data: nat -> seq<int>, t: Truth,
                  history: seq<Field>, file: seq<seq<int>>, resolution: nat, k: nat, lo: int, hi: int, x: nat, y: nat)
    requires GoodGrid(g) && IsDataset(ds, g.Size()) && TilesRight(g, data, t)
    requires forall w :: 0 <= w < g.Worlds() <==> w in order
    requires StepAsRead(history, file, g.Size(), resolution, k, lo, hi)
    requires LineByLine(file[StepOf(k, resolution)], g.Size(), AllWritten(ds, g, order, data))
    requires x < g.Size() && y < g.Size()
    ensures |history[k]| == g.Size() && |history[k][x]| == g.Size() && history[k][x][y] == t.value(Point2D(x, y))
  {
    FileHoldsRaster(ds, g, order, data, t, x, y);
    assert Holds(history[k], AllWritten(ds, g, order, data), g.Size());
  }
}
