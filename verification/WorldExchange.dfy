/** Who exchanges what with whom: the tables of partners per section, the exchanged rectangles,
    and why both sides of an exchange agree on them. */
module WorldExchange {
  import opened WorldGeometry

  // ----- partners

  /** Whether world me sends its overlap to neighbour id after section s. */
  predicate NeedsToBeUpdated(g: Grid, me: nat, id: nat, s: nat)
    requires g.row > 0 && s < 4
  {
    var d := Offset(g, me, id);
    match s
    case 0 => d == Point2D(-1, -1) || d == Point2D(-1, 0) || d == Point2D(0, -1)
    case 1 => d == Point2D(0, -1) || d == Point2D(1, -1) || d == Point2D(1, 0)
    case 2 => d == Point2D(0, 1) || d == Point2D(-1, 1) || d == Point2D(-1, 0)
    case _ => d == Point2D(1, 0) || d == Point2D(1, 1) || d == Point2D(0, 1)
  }

  /** Whether world me expects data from neighbour id after section s. */
  predicate NeedsToReceiveData(g: Grid, me: nat, id: nat, s: nat)
    requires g.row > 0 && s < 4
  {
    var d := Offset(g, me, id);
    match s
    case 0 => d == Point2D(0, 1) || d == Point2D(1, 0) || d == Point2D(1, 1)
    case 1 => d == Point2D(-1, 0) || d == Point2D(-1, 1) || d == Point2D(0, 1)
    case 2 => d == Point2D(0, -1) || d == Point2D(1, -1) || d == Point2D(1, 0)
    case _ => d == Point2D(-1, -1) || d == Point2D(-1, 0) || d == Point2D(0, -1)
  }

  /** A world sends after a section exactly when its partner expects to receive. */
  lemma SendingMatchesReceiving(g: Grid, a: nat, b: nat, s: nat)
    requires g.row > 0 && s < 4
    ensures NeedsToBeUpdated(g, a, b, s) <==> NeedsToReceiveData(g, b, a, s)
  {
    var d, e := Offset(g, a, b), Offset(g, b, a);
    assert e == Point2D(-d.x, -d.y);
  }

  /** Over the four sections every neighbour is served at least once. */
  lemma EveryNeighborIsServed(g: Grid, a: nat, b: nat)
    requires g.row > 0 && AreNeighbors(g, a, b)
    ensures exists s :: 0 <= s < 4 && NeedsToBeUpdated(g, a, b, s)
  {
    var d := Offset(g, a, b);
    IdsAndTiles(g, a);
    IdsAndTiles(g, b);
    var s := if d.x + d.y < 0 || d == Point2D(-1, -1) then 0
             else if d == Point2D(1, -1) then 1
             else if d == Point2D(-1, 1) then 2 else 3;
    assert NeedsToBeUpdated(g, a, b, s);
  }

  // ----- rectangles, in the local coordinates of a world, axis by axis

  // The strip of the own tile along the border with a neighbour at offset d.
  function InternalStart(x: Axis, d: int): int {
    if d == 1 then (if x.origin == 0 then x.local - x.overlap else x.local)
    else if x.origin == 0 then 0 else x.overlap
  }

  function ExternalStart(x: Axis, d: int): int {
    if d == -1 then 0
    else if d == 0 then (if x.origin == 0 then 0 else x.overlap)
    else if x.origin == 0 then x.local else x.local + x.overlap
  }

  function StripSize(x: Axis, d: int): int { if d != 0 then x.overlap else x.local }

  /** The part of the own tile that neighbour id keeps a copy of. */
  function InternalOverlap(g: Grid, me: nat, id: nat): Rectangle
    requires g.row > 0
  {
    InternalOf(AxisX(g, me), AxisY(g, me), Offset(g, me, id))
  }

  function InternalOf(x: Axis, y: Axis, d: Point2D): Rectangle {
    Rectangle(Point2D(InternalStart(x, d.x), InternalStart(y, d.y)), Point2D(StripSize(x, d.x), StripSize(y, d.y)))
  }

  /** The part of the halo that is owned by neighbour id. */
  function ExternalOverlap(g: Grid, me: nat, id: nat): Rectangle
    requires g.row > 0
  {
    ExternalOf(AxisX(g, me), AxisY(g, me), Offset(g, me, id))
  }

  function ExternalOf(x: Axis, y: Axis, d: Point2D): Rectangle {
    Rectangle(Point2D(ExternalStart(x, d.x), ExternalStart(y, d.y)), Point2D(StripSize(x, d.x), StripSize(y, d.y)))
  }

  // The zone exchanged after a section; high tells whether the section is the one at the far
  // end of the axis.
  function ZoneStart(x: Axis, d: int, high: bool): int {
    if d == -1 then 0
    else if d == 0 then
      (if !high then 0 else x.local / 2 - (if x.origin + x.local != x.size then x.overlap else 0))
    else if x.origin == 0 then x.local - x.overlap else x.local
  }

  function ZoneSize(x: Axis, d: int, high: bool): int {
    if d != 0 then x.overlap * 2
    else x.local / 2
         + (if x.origin != 0 || high then x.overlap else 0)
         + (if x.origin + x.local != x.size || !high then x.overlap else 0)
  }

  /** The zone on both sides of the border with neighbour id that is exchanged after section s. */
  function OverlapZone(g: Grid, me: nat, id: nat, s: nat): Rectangle
    requires g.row > 0 && s < 4
  {
    ZoneOf(AxisX(g, me), AxisY(g, me), Offset(g, me, id), s)
  }

  function ZoneOf(x: Axis, y: Axis, d: Point2D, s: nat): Rectangle {
    var east, south := s == 1 || s == 3, s == 2 || s == 3;
    Rectangle(Point2D(ZoneStart(x, d.x, east), ZoneStart(y, d.y, south)),
              Point2D(ZoneSize(x, d.x, east), ZoneSize(y, d.y, south)))
  }

  // ----- both sides agree

  function ToGlobal(g: Grid, me: nat, r: Rectangle): Rectangle
    requires g.row > 0
  {
    r.Shift(OverlapBoundaries(g, me).origin)
  }

  predicate Inside(r: Rectangle, size: Point2D) {
    && 0 <= r.origin.x && 0 <= r.size.x && r.origin.x + r.size.x <= size.x
    && 0 <= r.origin.y && 0 <= r.size.y && r.origin.y + r.size.y <= size.y
  }

  // Tiles that lie in the raster, at offset d of each other.
  predicate NextTo(x: Axis, x': Axis, d: int) {
    && x' == x.(origin := x'.origin) && -1 <= d <= 1
    && x'.origin == x.origin + (if d == 1 then x.local else if d == -1 then 0 - x.local else 0)
    && x.local > 0 && x.local % 2 == 0 && 2 * x.overlap <= x.local / 2 && 2 * x.local <= x.size
    && 0 <= x.origin && x.origin + x.local <= x.size && 0 <= x'.origin && x'.origin + x.local <= x.size
  }

  lemma NeighborAxis(g: Grid, p: nat, q: nat)
    requires GoodGrid(g) && p < g.row && q < g.row && -1 <= q - p <= 1 && g.row > 1
    ensures NextTo(Axis(p * g.local, g.local, g.Size(), g.overlap), Axis(q * g.local, g.local, g.Size(), g.overlap), q - p)
  {
    TileDistance(g.local, 0, g.row);
    TileDistance(g.local, 1, g.row);
    AtRim(g, p);
    AtRim(g, q);
    TileDistance(g.local, p, q);
    TileDistance(g.local, q, p);
  }

  lemma NeighborAxes(g: Grid, a: nat, b: nat)
    requires GoodGrid(g) && AreNeighbors(g, a, b)
    ensures NextTo(AxisX(g, a), AxisX(g, b), Offset(g, a, b).x)
    ensures NextTo(AxisY(g, a), AxisY(g, b), Offset(g, a, b).y)
  {
    IdsAndTiles(g, a);
    IdsAndTiles(g, b);
    var p, q := PositionFromId(g, a), PositionFromId(g, b);
    NeighborAxis(g, p.x, q.x);
    NeighborAxis(g, p.y, q.y);
  }

  lemma StripsMeet(x: Axis, x': Axis, d: int)
    requires NextTo(x, x', d)
    ensures x.origin - x.Near() + InternalStart(x, d) == x'.origin - x'.Near() + ExternalStart(x', -d)
    ensures 0 <= InternalStart(x, d) && InternalStart(x, d) + StripSize(x, d) <= x.local + x.Near() + x.Far()
    ensures 0 <= ExternalStart(x', -d) && ExternalStart(x', -d) + StripSize(x', -d) <= x'.local + x'.Near() + x'.Far()
    ensures x.Near() <= InternalStart(x, d) && InternalStart(x, d) + StripSize(x, d) <= x.Near() + x.local
  {
  }

  lemma ZonesMeet(x: Axis, x': Axis, d: int, high: bool)
    requires NextTo(x, x', d) && (d == -1 ==> !high) && (d == 1 ==> high)
    ensures x.origin - x.Near() + ZoneStart(x, d, high) == x'.origin - x'.Near() + ZoneStart(x', -d, high)
    ensures ZoneSize(x, d, high) == ZoneSize(x', -d, high) >= 0
    ensures 0 <= ZoneStart(x, d, high) && ZoneStart(x, d, high) + ZoneSize(x, d, high) <= x.local + x.Near() + x.Far()
    ensures 0 <= ZoneStart(x', -d, high) && ZoneStart(x', -d, high) + ZoneSize(x', -d, high) <= x'.local + x'.Near() + x'.Far()
  {
  }

  lemma InternalAxes(x: Axis, x': Axis, y: Axis, y': Axis, d: Point2D)
    requires NextTo(x, x', d.x) && NextTo(y, y', d.y)
    ensures InternalOf(x, y, d).Shift(Halo(x, y).origin) == ExternalOf(x', y', Point2D(-d.x, -d.y)).Shift(Halo(x', y').origin)
    ensures Inside(InternalOf(x, y, d), Halo(x, y).size) && Inside(ExternalOf(x', y', Point2D(-d.x, -d.y)), Halo(x', y').size)
    ensures forall p :: InternalOf(x, y, d).Shift(Halo(x, y).origin).IsInside(p) ==>
              Rectangle(Point2D(x.origin, y.origin), Point2D(x.local, y.local)).IsInside(p)
  {
    StripsMeet(x, x', d.x);
    StripsMeet(y, y', d.y);
  }

  lemma ZoneAxes(x: Axis, x': Axis, y: Axis, y': Axis, d: Point2D, s: nat)
    requires NextTo(x, x', d.x) && NextTo(y, y', d.y)
    requires (d.x == -1 ==> s == 0 || s == 2) && (d.x == 1 ==> s == 1 || s == 3)
    requires (d.y == -1 ==> s == 0 || s == 1) && (d.y == 1 ==> s == 2 || s == 3)
    ensures ZoneOf(x, y, d, s).Shift(Halo(x, y).origin) == ZoneOf(x', y', Point2D(-d.x, -d.y), s).Shift(Halo(x', y').origin)
    ensures Inside(ZoneOf(x, y, d, s), Halo(x, y).size) && Inside(ZoneOf(x', y', Point2D(-d.x, -d.y), s), Halo(x', y').size)
  {
    ZonesMeet(x, x', d.x, s == 1 || s == 3);
    ZonesMeet(y, y', d.y, s == 2 || s == 3);
  }

  /** What one world cuts out of its tile is what the other one keeps in its halo: the same global
      cells, inside both rasters, owned by the sender. */
  lemma InternalMeetsExternal(g: Grid, a: nat, b: nat)
    requires GoodGrid(g) && AreNeighbors(g, a, b)
    ensures ToGlobal(g, a, InternalOverlap(g, a, b)) == ToGlobal(g, b, ExternalOverlap(g, b, a))
    ensures Inside(InternalOverlap(g, a, b), OverlapBoundaries(g, a).size)
    ensures Inside(ExternalOverlap(g, b, a), OverlapBoundaries(g, b).size)
    ensures forall p :: ToGlobal(g, a, InternalOverlap(g, a, b)).IsInside(p) ==> Boundaries(g, a).IsInside(p)
  {
    NeighborAxes(g, a, b);
    var d := Offset(g, a, b);
    assert Offset(g, b, a) == Point2D(-d.x, -d.y);
    InternalAxes(AxisX(g, a), AxisX(g, b), AxisY(g, a), AxisY(g, b), d);
  }

  /** After a section, sender and receiver compute the same zone, and it lies inside both rasters. */
  lemma OverlapZonesAgree(g: Grid, a: nat, b: nat, s: nat)
    requires GoodGrid(g) && AreNeighbors(g, a, b) && s < 4 && NeedsToBeUpdated(g, a, b, s)
    ensures ToGlobal(g, a, OverlapZone(g, a, b, s)) == ToGlobal(g, b, OverlapZone(g, b, a, s))
    ensures Inside(OverlapZone(g, a, b, s), OverlapBoundaries(g, a).size)
    ensures Inside(OverlapZone(g, b, a, s), OverlapBoundaries(g, b).size)
  {
    NeighborAxes(g, a, b);
    var d := Offset(g, a, b);
    assert Offset(g, b, a) == Point2D(-d.x, -d.y);
    ZoneAxes(AxisX(g, a), AxisX(g, b), AxisY(g, a), AxisY(g, b), d, s);
  }

  // On one axis, a halo coordinate lies in the strip of the tile that contains it.
  lemma StripHolds(x: Axis, x': Axis, d: int, p: int)
    requires NextTo(x, x', d) && x'.origin <= p < x'.origin + x'.local
    requires x.origin - x.Near() <= p < x.origin + x.local + x.Far()
    ensures var start := x.origin - x.Near() + ExternalStart(x, d); start <= p < start + StripSize(x, d)
  {
  }

  /** Every halo cell lies in the strip kept for the neighbour that owns it. */
  lemma HaloIsCovered(g: Grid, me: nat, p: Point2D)
    requires GoodGrid(g) && me < g.Worlds()
    requires OverlapBoundaries(g, me).IsInside(p) && !Boundaries(g, me).IsInside(p)
    ensures IdFromPosition(g, p) >= 0 && AreNeighbors(g, me, IdFromPosition(g, p))
    ensures ToGlobal(g, me, ExternalOverlap(g, me, IdFromPosition(g, p))).IsInside(p)
    ensures Boundaries(g, IdFromPosition(g, p)).IsInside(p)
  {
    HaloInRaster(g, me, p);
    OwnerOfPosition(g, me, p);
    var o := IdFromPosition(g, p);
    IdsAndTiles(g, me);
    IdsAndTiles(g, o);
    var t, q := PositionFromId(g, me), PositionFromId(g, o);
    NearTile(g, t.x, q.x, p.x);
    NearTile(g, t.y, q.y, p.y);
    assert o != me;
    NeighborAxes(g, me, o);
    StripHolds(AxisX(g, me), AxisX(g, o), Offset(g, me, o).x, p.x);
    StripHolds(AxisY(g, me), AxisY(g, o), Offset(g, me, o).y, p.y);
  }

  // The halo does not leave the global raster.
  lemma HaloInRaster(g: Grid, me: nat, p: Point2D)
    requires GoodGrid(g) && me < g.Worlds() && OverlapBoundaries(g, me).IsInside(p)
    ensures GlobalBoundaries(g).IsInside(p)
  {
    IdsAndTiles(g, me);
    var t := PositionFromId(g, me);
    RimGap(g, t.x);
    RimGap(g, t.y);
  }

  // A tile that is not at the rim is a whole tile away from it.
  lemma RimGap(g: Grid, k: nat)
    requires GoodGrid(g) && k < g.row
    ensures 0 <= k * g.local <= g.Size() - g.local
    ensures k * g.local != 0 ==> k * g.local >= g.local
    ensures k * g.local != g.Size() - g.local ==> k * g.local + 2 * g.local <= g.Size()
  {
    AtRim(g, k);
    TileDistance(g.local, 0, k);
    TileDistance(g.local, k, g.row - 1);
    TileDistance(g.local, g.row - 1, g.row);
  }

  // A coordinate within an overlap of a tile lies in that tile or in the next one.
  lemma NearTile(g: Grid, t: nat, q: nat, x: int)
    requires GoodGrid(g) && t < g.row && q < g.row
    requires t * g.local - g.overlap <= x < t * g.local + g.local + g.overlap
    requires q * g.local <= x < q * g.local + g.local
    ensures -1 <= q - t <= 1
  {
    TileDistance(g.local, t, q);
    TileDistance(g.local, q, t);
  }

  // Half of a tile, grown by the overlap and cut off at the border of the halo: the first and the
  // last local coordinate of it along a border shared with a neighbour.
  function GrownStart(x: Axis, high: bool): int {
    var start := x.Near() + (if high then x.local / 2 else 0) - x.overlap;
    if start < 0 then 0 else start
  }

  function GrownEnd(x: Axis, high: bool): int {
    var end := x.Near() + (if high then x.local else x.local / 2) + x.overlap;
    if end > x.local + x.Near() + x.Far() then x.local + x.Near() + x.Far() else end
  }

  /** Along a shared border the exchanged zone is the executed half grown by the overlap, except for
      the far half of a tile with neighbours on both sides, where it is shifted by one overlap. */
  lemma ZoneIsGrownSection(x: Axis, high: bool)
    requires NextTo(x, x, 0)
    ensures ZoneStart(x, 0, high) == GrownStart(x, high) && ZoneStart(x, 0, high) + ZoneSize(x, 0, high) == GrownEnd(x, high)
       <==> (!high || x.Near() == 0 || x.Far() == 0)
  {
  }

  /** The middle tile of a grid of three by three: after the section at its lower left, the zone that it
      shares with its left neighbour is two cells too high.  A cell that both keep copies of, within
      reach of the section, is not exchanged, and one out of reach is. */
  lemma MiddleZoneIsShifted()
    ensures var g := Grid(3, 8, 2);
      && GoodGrid(g) && AreNeighbors(g, 4, 3) && NeedsToBeUpdated(g, 4, 3, 2)
      && ToGlobal(g, 4, OverlapZone(g, 4, 3, 2)) == Rectangle(Point2D(6, 8), Point2D(4, 8))
      && Reach(g, 4, 2) == Rectangle(Point2D(6, 10), Point2D(8, 8))
      && (var missed := Point2D(8, 17);
          OverlapBoundaries(g, 4).IsInside(missed) && OverlapBoundaries(g, 3).IsInside(missed)
          && Reach(g, 4, 2).IsInside(missed) && !ToGlobal(g, 4, OverlapZone(g, 4, 3, 2)).IsInside(missed))
      && (var sent := Point2D(8, 9);
          ToGlobal(g, 4, OverlapZone(g, 4, 3, 2)).IsInside(sent) && !Reach(g, 4, 2).IsInside(sent))
  {
    var g := Grid(3, 8, 2);
    assert PositionFromId(g, 4) == Point2D(1, 1) && PositionFromId(g, 3) == Point2D(0, 1);
  }

  // ----- concurrent sections

  predicate Disjoint(a: Rectangle, b: Rectangle) {
    || a.origin.x + a.size.x <= b.origin.x || b.origin.x + b.size.x <= a.origin.x
    || a.origin.y + a.size.y <= b.origin.y || b.origin.y + b.size.y <= a.origin.y
  }

  /** The cells that agents of a section can reach. */
  function Reach(g: Grid, id: nat, s: nat): Rectangle
    requires g.row > 0 && s < 4
  {
    Section(g, id, s).Grow(g.overlap)
  }

  /** Worlds that execute the same section never reach a common cell; worlds that are no
      neighbours never do, whatever sections they execute. */
  lemma ReachesAreDisjoint(g: Grid, a: nat, b: nat, s: nat, t: nat)
    requires GoodGrid(g) && a < g.Worlds() && b < g.Worlds() && a != b && s < 4 && t < 4
    requires s == t || !AreNeighbors(g, a, b)
    ensures Disjoint(Reach(g, a, s), Reach(g, b, t))
  {
    IdsAndTiles(g, a);
    IdsAndTiles(g, b);
    var p, q := PositionFromId(g, a), PositionFromId(g, b);
    TileDistance(g.local, p.x, q.x);
    TileDistance(g.local, q.x, p.x);
    TileDistance(g.local, p.y, q.y);
    TileDistance(g.local, q.y, p.y);
  }

  /** The check of the overlap is exact: with a wider overlap, two worlds side by side reach a
      common cell in the same section. */
  lemma WiderOverlapConflicts(g: Grid, s: nat)
    requires g.row > 1 && g.local > 0 && g.local % 2 == 0 && s < 4
    ensures 2 * g.overlap <= g.local / 2 <==> Disjoint(Reach(g, 0, s), Reach(g, 1, s))
  {
    DivideTile(g.row, 1, 0);
    DivideTile(g.row, 0, 0);
  }
}
