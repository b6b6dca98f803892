/** How the exchanged zones lie to the sections of all worlds: what a world sends after a section
    stays clear of that section of every other world, and what it receives covers all of that
    section which its halo shows. */
module WorldZones {
  import opened WorldGeometry
  import opened WorldExchange

  // Coordinate p, seen from the tile at x, lies in the zone shared with a neighbour at offset d.
  predicate AlongZone(x: Axis, d: int, high: bool, p: int) {
    var start := x.origin - x.Near() + ZoneStart(x, d, high);
    start <= p < start + ZoneSize(x, d, high)
  }

  // Coordinate p lies in the half of the tile at x that is executed.
  predicate InHalf(x: Axis, high: bool, p: int) {
    var start := x.origin + if high then x.local / 2 else 0;
    start <= p < start + x.local / 2
  }

  predicate InHalo(x: Axis, p: int) { x.origin - x.Near() <= p < x.origin + x.local + x.Far() }

  predicate High(d: int, high: bool) { (d == -1 ==> !high) && (d == 1 ==> high) }

  lemma ZoneNearHalf(x: Axis, x': Axis, d: int, high: bool, p: int)
    requires NextTo(x, x', d) && High(d, high) && AlongZone(x, d, high, p)
    ensures x.origin + (if high then x.local / 2 else 0) - 2 * x.overlap <= p
    ensures p < x.origin + (if high then x.local else x.local / 2) + 2 * x.overlap
    ensures InHalo(x, p)
  {
  }

  lemma HalfInZone(x: Axis, x': Axis, d: int, high: bool, p: int)
    requires NextTo(x, x', d) && InHalo(x, p) && InHalf(x', high, p)
    ensures High(-d, high) && AlongZone(x, d, high, p)
  {
  }

  lemma AxesOfZone(g: Grid, a: nat, b: nat, s: nat, p: Point2D)
    requires g.row > 0 && s < 4
    ensures ToGlobal(g, a, OverlapZone(g, a, b, s)).IsInside(p)
       <==> (AlongZone(AxisX(g, a), Offset(g, a, b).x, s == 1 || s == 3, p.x)
             && AlongZone(AxisY(g, a), Offset(g, a, b).y, s == 2 || s == 3, p.y))
    ensures Section(g, a, s).IsInside(p)
       <==> InHalf(AxisX(g, a), s == 1 || s == 3, p.x) && InHalf(AxisY(g, a), s == 2 || s == 3, p.y)
    ensures OverlapBoundaries(g, a).IsInside(p) <==> InHalo(AxisX(g, a), p.x) && InHalo(AxisY(g, a), p.y)
  {
  }

  // The same half of another tile is half a tile away at least.
  lemma HalvesApart(local: nat, i: nat, j: nat, high: bool, p: int)
    requires local % 2 == 0 && i != j
    requires var start := j * local + if high then local / 2 else 0; start <= p < start + local / 2
    ensures p < i * local + (if high then local / 2 else 0) - local / 2 || i * local + (if high then local else local / 2) + local / 2 <= p
  {
    TileDistance(local, i, j);
    TileDistance(local, j, i);
  }

  lemma SectionsApart(g: Grid, a: nat, x: nat, s: nat, p: Point2D)
    requires GoodGrid(g) && a < g.Worlds() && x < g.Worlds() && a != x && s < 4 && Section(g, x, s).IsInside(p)
    ensures !Section(g, a, s).Grow(g.local / 2).IsInside(p)
  {
    IdsAndTiles(g, a);
    IdsAndTiles(g, x);
    var t, q := PositionFromId(g, a), PositionFromId(g, x);
    if t.x != q.x {
      HalvesApart(g.local, t.x, q.x, s == 1 || s == 3, p.x);
    } else {
      HalvesApart(g.local, t.y, q.y, s == 2 || s == 3, p.y);
    }
  }

  lemma SentZoneIsNear(g: Grid, a: nat, b: nat, s: nat, p: Point2D)
    requires GoodGrid(g) && AreNeighbors(g, a, b) && s < 4 && NeedsToBeUpdated(g, a, b, s)
    requires ToGlobal(g, a, OverlapZone(g, a, b, s)).IsInside(p)
    ensures OverlapBoundaries(g, a).IsInside(p) && Section(g, a, s).Grow(g.local / 2).IsInside(p)
  {
    NeighborAxes(g, a, b);
    AxesOfZone(g, a, b, s, p);
    ZoneNearHalf(AxisX(g, a), AxisX(g, b), Offset(g, a, b).x, s == 1 || s == 3, p.x);
    ZoneNearHalf(AxisY(g, a), AxisY(g, b), Offset(g, a, b).y, s == 2 || s == 3, p.y);
  }

  /** What a world sends after a section lies in its halo, and in that section of no other world. */
  lemma SentZoneIsClear(g: Grid, a: nat, b: nat, s: nat, p: Point2D, x: nat)
    requires GoodGrid(g) && AreNeighbors(g, a, b) && s < 4 && NeedsToBeUpdated(g, a, b, s)
    requires ToGlobal(g, a, OverlapZone(g, a, b, s)).IsInside(p) && x < g.Worlds()
    ensures OverlapBoundaries(g, a).IsInside(p)
    ensures x != a ==> !Section(g, x, s).IsInside(p)
  {
    SentZoneIsNear(g, a, b, s, p);
    if x != a && Section(g, x, s).IsInside(p) { SectionsApart(g, a, x, s, p); }
  }

  /** What the halo of a world shows of a section of another world, it receives after that section. */
  lemma SectionInHaloIsReceived(g: Grid, u: nat, x: nat, s: nat, p: Point2D)
    requires GoodGrid(g) && u < g.Worlds() && x < g.Worlds() && u != x && s < 4
    requires OverlapBoundaries(g, u).IsInside(p) && Section(g, x, s).IsInside(p)
    ensures AreNeighbors(g, u, x) && NeedsToReceiveData(g, u, x, s)
    ensures ToGlobal(g, u, OverlapZone(g, u, x, s)).IsInside(p)
  {
    SectionsPartition(g, x, p);
    SectionsPartition(g, u, p);
    OwnerOfPosition(g, x, p);
    OwnerOfPosition(g, u, p);
    HaloIsCovered(g, u, p);
    NeighborAxes(g, u, x);
    AxesOfZone(g, u, x, s, p);
    AxesOfZone(g, x, u, s, p);
    HalfInZone(AxisX(g, u), AxisX(g, x), Offset(g, u, x).x, s == 1 || s == 3, p.x);
    HalfInZone(AxisY(g, u), AxisY(g, x), Offset(g, u, x).y, s == 2 || s == 3, p.y);
  }
}
