/** Rasters with a maximum per cell, and how rectangles of them are packed into messages. */
module Rasters {
  import opened Common
  import opened WorldGeometry

  datatype RasterError = XOutOfBounds | YOutOfBounds | AboveMaximum | AboveCellMaximum

  // A column for every x.
  type Field = seq<seq<int>>

  datatype Cells = Cells(values: Field, maxValues: Field, maxValue: int)

  // ----- cells of a field

  ghost predicate Sized(f: Field, size: Point2D) {
    |f| == size.x && forall x :: 0 <= x < |f| ==> |f[x]| == size.y
  }

  predicate InField(f: Field, p: Point2D) { 0 <= p.x < |f| && 0 <= p.y < |f[p.x]| }

  function At(f: Field, p: Point2D): int
    requires InField(f, p)
  {
    f[p.x][p.y]
  }

  function Put(f: Field, p: Point2D, v: int): Field
    requires InField(f, p)
  {
    f[p.x := f[p.x][p.y := v]]
  }

  lemma PutMeans(f: Field, p: Point2D, v: int, size: Point2D)
    requires Sized(f, size) && InField(f, p)
    ensures Sized(Put(f, p, v), size)
    ensures forall q :: InField(f, q) <==> InField(Put(f, p, v), q)
    ensures forall q :: InField(f, q) ==> At(Put(f, p, v), q) == if q == p then v else At(f, q)
  {
  }

  // ----- guarded access

  function BoundsError(f: Field, p: Point2D): RasterError {
    if p.x < 0 || p.x >= |f| then XOutOfBounds else YOutOfBounds
  }

  function Get(f: Field, p: Point2D): Outcome<int, RasterError> {
    if InField(f, p) then Done(At(f, p)) else Failed(BoundsError(f, p))
  }

  /** A value is accepted when it respects the maximum of the raster and that of the cell. */
  function SetValue(c: Cells, p: Point2D, v: int): Outcome<Cells, RasterError> {
    if v > c.maxValue then Failed(AboveMaximum)
    else if !InField(c.values, p) then Failed(BoundsError(c.values, p))
    else if InField(c.maxValues, p) && v > At(c.maxValues, p) then Failed(AboveCellMaximum)
    else Done(c.(values := Put(c.values, p, v)))
  }

  function SetMaxValue(c: Cells, p: Point2D, v: int): Outcome<Cells, RasterError> {
    if v > c.maxValue then Failed(AboveMaximum)
    else if !InField(c.maxValues, p) then Failed(BoundsError(c.maxValues, p))
    else Done(c.(maxValues := Put(c.maxValues, p, v)))
  }

  // The maxima or the values.
  function Choose(c: Cells, maxima: bool): Field { if maxima then c.maxValues else c.values }

  function Set(c: Cells, maxima: bool, p: Point2D, v: int): Outcome<Cells, RasterError> {
    if maxima then SetMaxValue(c, p, v) else SetValue(c, p, v)
  }

  // ----- rectangles

  function Area(r: Rectangle): int { r.size.x * r.size.y }

  /** The cell that entry n of a message about a rectangle is about: row by row. */
  function CellOf(r: Rectangle, n: nat): Point2D
    requires r.size.x > 0
  {
    Point2D(r.origin.x + n % r.size.x, r.origin.y + n / r.size.x)
  }

  /** The cells of a rectangle in the order in which a message lists them. */
  function CellsOf(r: Rectangle): seq<Point2D> {
    if r.size.x <= 0 || r.size.y <= 0 then [] else seq(Area(r), n requires 0 <= n < Area(r) => CellOf(r, n))
  }

  lemma PositiveArea(r: Rectangle)
    requires r.size.x >= 0 && r.size.y >= 0 && Area(r) > 0
    ensures r.size.x > 0 && r.size.y > 0
  {
  }

  // The entry that is about a cell.
  function EntryOf(r: Rectangle, p: Point2D): int { (p.y - r.origin.y) * r.size.x + (p.x - r.origin.x) }

  // Entries and cells of a rectangle determine each other.
  lemma EntryOfCell(r: Rectangle, n: nat)
    requires r.size.x > 0 && r.size.y >= 0 && n < Area(r)
    ensures r.IsInside(CellOf(r, n)) && EntryOf(r, CellOf(r, n)) == n
  {
    var y := n / r.size.x;
    assert n == r.size.x * y + n % r.size.x;
    MulNext(r.size.x, y);
    MulNext(r.size.x, r.size.y);
    if y >= r.size.y { MulLe(r.size.x, r.size.y, y); }
  }

  lemma CellOfEntry(r: Rectangle, p: Point2D)
    requires r.IsInside(p)
    ensures r.size.x > 0 && 0 <= EntryOf(r, p) < Area(r) && CellOf(r, EntryOf(r, p)) == p
  {
    DivideTile(r.size.x, p.x - r.origin.x, p.y - r.origin.y);
    MulLe(r.size.x, 0, p.y - r.origin.y);
    MulLe(r.size.x, p.y - r.origin.y + 1, r.size.y);
    MulNext(r.size.x, p.y - r.origin.y);
  }

  /** A message about a rectangle lists each of its cells once, and no other cell. */
  lemma CellsOfRectangle(r: Rectangle)
    ensures forall p :: p in CellsOf(r) <==> r.IsInside(p)
    ensures NoDuplicates(CellsOf(r))
  {
    var cells := CellsOf(r);
    forall p ensures p in cells <==> r.IsInside(p) {
      if n: nat :| n < |cells| && cells[n] == p { EntryOfCell(r, n); }
      if r.IsInside(p) { CellOfEntry(r, p); assert cells[EntryOf(r, p)] == p; }
    }
    forall i, j | 0 <= i < j < |cells| ensures cells[i] != cells[j] {
      EntryOfCell(r, i);
      EntryOfCell(r, j);
    }
  }

  // ----- packing and unpacking a list of cells

  /** The first n entries of a message; it fails on the first cell that is not in the field. */
  function PackUpTo(f: Field, cells: seq<Point2D>, n: nat): Outcome<seq<int>, RasterError>
    requires n <= |cells|
  {
    if n == 0 then Done([])
    else match PackUpTo(f, cells, n - 1)
         case Failed(e) => Failed(e)
         case Done(data) =>
           match Get(f, cells[n - 1])
           case Failed(e) => Failed(e)
           case Done(v) => Done(data + [v])
  }

  /** The cells after the first n entries of a message have been applied. */
  function UnpackUpTo(c: Cells, cells: seq<Point2D>, data: seq<int>, maxima: bool, n: nat): Outcome<Cells, RasterError>
    requires n <= |data| == |cells|
  {
    if n == 0 then Done(c)
    else match UnpackUpTo(c, cells, data, maxima, n - 1)
         case Failed(e) => Failed(e)
         case Done(c') => Set(c', maxima, cells[n - 1], data[n - 1])
  }

  ghost predicate AllInField(f: Field, cells: seq<Point2D>) {
    forall k :: 0 <= k < |cells| ==> InField(f, cells[k])
  }

  /** A message about cells of the field holds their values, and packing it does not fail. */
  lemma {:induction false} PackHolds(f: Field, cells: seq<Point2D>, n: nat)
    requires AllInField(f, cells) && n <= |cells|
    ensures PackUpTo(f, cells, n).Done? && |PackUpTo(f, cells, n).value| == n
    ensures forall k :: 0 <= k < n ==> PackUpTo(f, cells, n).value[k] == At(f, cells[k])
  {
    if n > 0 { PackHolds(f, cells, n - 1); }
  }

  // What the guards ask of the entries of a message.
  ghost predicate Acceptable(c: Cells, cells: seq<Point2D>, data: seq<int>, maxima: bool)
    requires |data| == |cells|
  {
    && AllInField(c.values, cells) && AllInField(c.maxValues, cells)
    && (forall k :: 0 <= k < |data| ==> data[k] <= c.maxValue)
    && (!maxima ==> forall k :: 0 <= k < |data| ==> data[k] <= At(c.maxValues, cells[k]))
  }

  // One field is that of before with the first n entries of a message put in.
  ghost predicate Overwritten(was: Field, f: Field, cells: seq<Point2D>, data: seq<int>, n: nat)
    requires n <= |data| == |cells|
  {
    && (forall q :: InField(was, q) <==> InField(f, q))
    && (forall k :: 0 <= k < n && InField(f, cells[k]) ==> At(f, cells[k]) == data[k])
    && (forall q :: InField(was, q) && InField(f, q) && q !in cells[..n] ==> At(f, q) == At(was, q))
  }

  lemma PutOverwrites(was: Field, f: Field, cells: seq<Point2D>, data: seq<int>, n: nat, size: Point2D)
    requires n < |data| == |cells| && Sized(f, size) && InField(f, cells[n]) && NoDuplicates(cells)
    requires Overwritten(was, f, cells, data, n)
    ensures Sized(Put(f, cells[n], data[n]), size)
    ensures Overwritten(was, Put(f, cells[n], data[n]), cells, data, n + 1)
  {
    PutMeans(f, cells[n], data[n], size);
    assert cells[..n + 1] == cells[..n] + [cells[n]];
  }

  // The cells c with the first n entries of a message put in, and nothing else changed.
  ghost predicate Unpacked(c: Cells, c': Cells, cells: seq<Point2D>, data: seq<int>, maxima: bool, n: nat, size: Point2D)
    requires n <= |data| == |cells|
  {
    && c'.maxValue == c.maxValue && Choose(c', !maxima) == Choose(c, !maxima)
    && Sized(Choose(c', maxima), size) && Overwritten(Choose(c, maxima), Choose(c', maxima), cells, data, n)
  }

  lemma SetUnpacks(c: Cells, c': Cells, cells: seq<Point2D>, data: seq<int>, maxima: bool, n: nat, size: Point2D)
    requires n < |data| == |cells| && NoDuplicates(cells) && Acceptable(c, cells, data, maxima)
    requires Unpacked(c, c', cells, data, maxima, n, size)
    ensures Set(c', maxima, cells[n], data[n]).Done?
    ensures Unpacked(c, Set(c', maxima, cells[n], data[n]).value, cells, data, maxima, n + 1, size)
  {
    assert InField(Choose(c, maxima), cells[n]);
    PutOverwrites(Choose(c, maxima), Choose(c', maxima), cells, data, n, size);
  }

  lemma NothingUnpacked(c: Cells, cells: seq<Point2D>, data: seq<int>, maxima: bool, size: Point2D)
    requires |data| == |cells| && Sized(c.values, size) && Sized(c.maxValues, size)
    ensures Unpacked(c, c, cells, data, maxima, 0, size)
  {
  }

  /** Applying a message never trips a guard when all its cells are in the raster and its entries
      respect the maxima.  It overwrites its cells with its entries and leaves everything else. */
  lemma {:induction false} UnpackHolds(c: Cells, cells: seq<Point2D>, data: seq<int>, maxima: bool, n: nat, size: Point2D)
    requires n <= |data| == |cells| && NoDuplicates(cells) && Acceptable(c, cells, data, maxima)
    requires Sized(c.values, size) && Sized(c.maxValues, size)
    ensures UnpackUpTo(c, cells, data, maxima, n).Done?
    ensures Unpacked(c, UnpackUpTo(c, cells, data, maxima, n).value, cells, data, maxima, n, size)
  {
    if n == 0 {
      NothingUnpacked(c, cells, data, maxima, size);
    } else {
      UnpackHolds(c, cells, data, maxima, n - 1, size);
      SetUnpacks(c, UnpackUpTo(c, cells, data, maxima, n - 1).value, cells, data, maxima, n - 1, size);
    }
  }

  // ----- the raster of a world

  /** The raster object, with the loops that pack and unpack messages. */
  class Raster {
    var values: Field
    var maxValues: Field
    var maxValue: int

    function Contents(): Cells reads this { Cells(values, maxValues, maxValue) }

    constructor (c: Cells)
      ensures Contents() == c
    {
      values, maxValues, maxValue := c.values, c.maxValues, c.maxValue;
    }

    method GetValue(p: Point2D) returns (r: Outcome<int, RasterError>)
      ensures r == Get(values, p)
    {
      if p.x < 0 || p.x >= |values| { return Failed(XOutOfBounds); }
      if p.y < 0 || p.y >= |values[p.x]| { return Failed(YOutOfBounds); }
      r := Done(values[p.x][p.y]);
    }

    method GetMaxValueAt(p: Point2D) returns (r: Outcome<int, RasterError>)
      ensures r == Get(maxValues, p)
    {
      if p.x < 0 || p.x >= |maxValues| { return Failed(XOutOfBounds); }
      if p.y < 0 || p.y >= |maxValues[p.x]| { return Failed(YOutOfBounds); }
      r := Done(maxValues[p.x][p.y]);
    }

    /** Stores v, or says why not and changes nothing. */
    method SetValueAt(p: Point2D, v: int) returns (r: Outcome<(), RasterError>)
      requires InField(values, p) ==> InField(maxValues, p)
      modifies this
      ensures r.Done? <==> v <= maxValue && InField(old(values), p) && v <= At(old(maxValues), p)
      ensures match SetValue(old(Contents()), p, v)
              case Done(c) => r.Done? && Contents() == c
              case Failed(e) => r == Failed(e) && Contents() == old(Contents())
    {
      if v > maxValue { return Failed(AboveMaximum); }
      if p.x < 0 || p.x >= |values| { return Failed(XOutOfBounds); }
      if p.y < 0 || p.y >= |values[p.x]| { return Failed(YOutOfBounds); }
      if v > maxValues[p.x][p.y] { return Failed(AboveCellMaximum); }
      values := values[p.x := values[p.x][p.y := v]];
      r := Done(());
    }

    method SetMaxValueAt(p: Point2D, v: int) returns (r: Outcome<(), RasterError>)
      modifies this
      ensures r.Done? <==> v <= maxValue && InField(old(maxValues), p)
      ensures match SetMaxValue(old(Contents()), p, v)
              case Done(c) => r.Done? && Contents() == c
              case Failed(e) => r == Failed(e) && Contents() == old(Contents())
    {
      if v > maxValue { return Failed(AboveMaximum); }
      if p.x < 0 || p.x >= |maxValues| { return Failed(XOutOfBounds); }
      if p.y < 0 || p.y >= |maxValues[p.x]| { return Failed(YOutOfBounds); }
      maxValues := maxValues[p.x := maxValues[p.x][p.y := v]];
      r := Done(());
    }

    /** The message about a rectangle: its cells row by row. */
    method Pack(zone: Rectangle, maxima: bool) returns (r: Outcome<seq<int>, RasterError>)
      requires zone.size.x >= 0 && zone.size.y >= 0
      ensures r == PackUpTo(Choose(Contents(), maxima), CellsOf(zone), Area(zone))
    {
      var data := [];
      ghost var cells := CellsOf(zone);
      for n := 0 to Area(zone)
        invariant PackUpTo(Choose(Contents(), maxima), cells, n) == Done(data)
      {
        PositiveArea(zone);
        var cell := CellOf(zone, n);
        var v;
        if maxima { v := GetMaxValueAt(cell); } else { v := GetValue(cell); }
        if v.Failed? {
          PackFails(Choose(Contents(), maxima), cells, n, v.error);
          return Failed(v.error);
        }
        data := data + [v.value];
      }
      r := Done(data);
    }

    /** Applies a message about a rectangle; a guard that fires stops it half-way. */
    method Unpack(zone: Rectangle, data: seq<int>, maxima: bool) returns (r: Outcome<(), RasterError>)
      requires zone.size.x >= 0 && zone.size.y >= 0 && |data| == Area(zone)
      requires forall p :: InField(values, p) <==> InField(maxValues, p)
      modifies this
      ensures match UnpackUpTo(old(Contents()), CellsOf(zone), data, maxima, |data|)
              case Done(c) => r.Done? && Contents() == c
              case Failed(e) => r == Failed(e)
    {
      ghost var cells := CellsOf(zone);
      for n := 0 to |data|
        invariant UnpackUpTo(old(Contents()), cells, data, maxima, n) == Done(Contents())
        invariant forall p :: InField(values, p) <==> InField(maxValues, p)
      {
        PositiveArea(zone);
        var cell := CellOf(zone, n);
        if maxima { r := SetMaxValueAt(cell, data[n]); } else { r := SetValueAt(cell, data[n]); }
        if r.Failed? {
          UnpackFails(old(Contents()), cells, data, maxima, n, r.error);
          return;
        }
      }
      r := Done(());
    }
  }

  // A failure stays.
  lemma {:induction false} PackFails(f: Field, cells: seq<Point2D>, n: nat, e: RasterError)
    requires n < |cells| && PackUpTo(f, cells, n).Done? && Get(f, cells[n]) == Failed(e)
    ensures PackUpTo(f, cells, |cells|) == Failed(e)
  {
    for m := n + 1 to |cells|
      invariant PackUpTo(f, cells, m) == Failed(e)
    {
    }
  }

  lemma {:induction false} UnpackFails(c: Cells, cells: seq<Point2D>, data: seq<int>, maxima: bool, n: nat, e: RasterError)
    requires n < |data| == |cells| && UnpackUpTo(c, cells, data, maxima, n).Done?
    requires Set(UnpackUpTo(c, cells, data, maxima, n).value, maxima, cells[n], data[n]) == Failed(e)
    ensures UnpackUpTo(c, cells, data, maxima, |cells|) == Failed(e)
  {
    for m := n + 1 to |cells|
      invariant UnpackUpTo(c, cells, data, maxima, m) == Failed(e)
    {
    }
  }
}
