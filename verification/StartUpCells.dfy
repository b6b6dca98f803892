/** What one message of the start-up exchange does to the cells of the receiver. */
module StartUpCells {
  import opened Common
  import opened WorldGeometry
  import opened WorldExchange
  import opened WorldProtocol
  import opened WorldSetUp
  import opened Rasters
  import opened StartUp

  // ----- partners

  lemma PartnersOf(x: Plan, v: nat, w: nat, round: nat)
    requires GoodPlan(x) && v < x.grid.Worlds() && w < x.grid.Worlds()
    ensures PartnersMeet(x, v, w, round)
  {
  }

  lemma PartnersListedOnce(x: Plan, v: nat, round: nat)
    requires GoodPlan(x) && v < x.grid.Worlds()
    ensures ListedOnce(x, v, round)
  {
  }

  lemma ServedOnce(x: Plan, v: nat, w: nat) returns (round: nat)
    requires GoodPlan(x) && v < x.grid.Worlds() && w < x.grid.Worlds() && AreNeighbors(x.grid, v, w)
    ensures 1 <= round < ROUNDS && w in SendsTo(x, v, round)
  {
    assert ServedInSomeRound(x, v, w);
    round :| 1 <= round < ROUNDS && w in SendsTo(x, v, round);
  }

  function RoundKind(round: nat): Kind { if round == 0 then Agents else Ghosts }

  function RoundSection(round: nat): nat { if round == 0 then 0 else (round - 1) % 4 }

  /** The plan of the program: in round 0 all neighbours, in later rounds those of the section. */
  function StartUpPlan(g: Grid): Plan
    requires g.row > 0
  {
    Plan(g, (w, round) => Targets(g, w, RoundKind(round), RoundSection(round)),
            (w, round) => Sources(g, w, RoundKind(round), RoundSection(round)))
  }

  lemma PlanInRound(g: Grid, v: nat, s: nat)
    requires g.row > 0 && s < 4
    ensures SendsTo(StartUpPlan(g), v, s + 1) == SelectTargets(g, v, s, Neighbors(g, v))
  {
  }

  lemma NeighborSelected(g: Grid, v: nat, w: nat, s: nat)
    requires GoodGrid(g) && v < g.Worlds() && w < g.Worlds() && AreNeighbors(g, v, w) && s < 4 && NeedsToBeUpdated(g, v, w, s)
    ensures w in SelectTargets(g, v, s, Neighbors(g, v))
  {
    NeighborsAre(g, v);
    SelectTargetsAre(g, v, s, Neighbors(g, v));
  }

  lemma PlanServes(g: Grid, v: nat, w: nat)
    requires GoodGrid(g) && v < g.Worlds() && w < g.Worlds() && AreNeighbors(g, v, w)
    ensures ServedInSomeRound(StartUpPlan(g), v, w)
  {
    EveryNeighborIsServed(g, v, w);
    var s: nat :| s < 4 && NeedsToBeUpdated(g, v, w, s);
    PlanInRound(g, v, s);
    NeighborSelected(g, v, w, s);
  }

  lemma PlanPartners(g: Grid, v: nat, w: nat, round: nat)
    requires GoodGrid(g) && v < g.Worlds() && w < g.Worlds()
    ensures PartnersMeet(StartUpPlan(g), v, w, round) && ListedOnce(StartUpPlan(g), v, round)
  {
    var c, s := SetUp(g, 1, 1), RoundSection(round);
    SetUpIsGood(g, 1, 1);
    assert PartnersAgree(c, v, w, RoundKind(round), s) && PartnersListed(c, v, RoundKind(round), s);
  }

  /** The partner lists of the program make a good plan. */
  lemma StartUpPlanIsGood(g: Grid)
    requires GoodGrid(g)
    ensures GoodPlan(StartUpPlan(g))
  {
    var x := StartUpPlan(g);
    forall v: nat, w: nat, round: nat | v < g.Worlds() && w < g.Worlds() ensures PartnersMeet(x, v, w, round) {
      PlanPartners(g, v, w, round);
    }
    forall v: nat, round: nat | v < g.Worlds() ensures ListedOnce(x, v, round) {
      PlanPartners(g, v, v, round);
    }
    forall v: nat, w: nat | v < g.Worlds() && w < g.Worlds() && AreNeighbors(g, v, w) ensures ServedInSomeRound(x, v, w) {
      PlanServes(g, v, w);
    }
  }

  // ----- cells

  lemma ShiftedCells(r: Rectangle, o: Point2D)
    ensures |CellsOf(r.Shift(o))| == |CellsOf(r)|
    ensures forall k :: 0 <= k < |CellsOf(r)| ==> CellsOf(r.Shift(o))[k] == CellsOf(r)[k].Plus(o)
  {
  }

  /** The global cells that a link is about, in the order of its messages. */
  function Crossing(g: Grid, l: Link): seq<Point2D>
    requires g.row > 0
  {
    CellsOf(ToGlobal(g, l.src, CutOut(g, l)))
  }

  ghost predicate GoodLink(g: Grid, l: Link)
    requires g.row > 0
  {
    l.src < g.Worlds() && l.dst < g.Worlds() && AreNeighbors(g, l.src, l.dst)
  }

  function Local(g: Grid, w: nat, p: Point2D): Point2D
    requires g.row > 0
  {
    p.Minus(OverlapBoundaries(g, w).origin)
  }

  // Both ends list the same cells in the same order.
  lemma BothEndsListCrossing(g: Grid, l: Link)
    requires GoodGrid(g) && GoodLink(g, l)
    ensures |CellsOf(CutOut(g, l))| == |Crossing(g, l)| == |CellsOf(PutInto(g, l))|
    ensures forall k :: 0 <= k < |Crossing(g, l)| ==> CellsOf(CutOut(g, l))[k] == Local(g, l.src, Crossing(g, l)[k])
    ensures forall k :: 0 <= k < |Crossing(g, l)| ==> CellsOf(PutInto(g, l))[k] == Local(g, l.dst, Crossing(g, l)[k])
  {
    InternalMeetsExternal(g, l.src, l.dst);
    ShiftedCells(CutOut(g, l), OverlapBoundaries(g, l.src).origin);
    ShiftedCells(PutInto(g, l), OverlapBoundaries(g, l.dst).origin);
  }

  // The cells that cross a link lie in the rasters of both ends.
  lemma CrossingInFields(g: Grid, l: Link, k: nat)
    requires GoodGrid(g) && GoodLink(g, l) && k < |Crossing(g, l)|
    ensures forall f :: Sized(f, OverlapBoundaries(g, l.src).size) ==> InField(f, Local(g, l.src, Crossing(g, l)[k]))
    ensures forall f :: Sized(f, OverlapBoundaries(g, l.dst).size) ==> InField(f, Local(g, l.dst, Crossing(g, l)[k]))
  {
    InternalMeetsExternal(g, l.src, l.dst);
    BothEndsListCrossing(g, l);
    CellsOfRectangle(CutOut(g, l));
    CellsOfRectangle(PutInto(g, l));
    assert CellsOf(CutOut(g, l))[k] in CellsOf(CutOut(g, l));
    assert CellsOf(PutInto(g, l))[k] in CellsOf(PutInto(g, l));
  }

  // They are cells of the sender.
  lemma CrossingIsOwned(g: Grid, l: Link, k: nat)
    requires GoodGrid(g) && GoodLink(g, l) && k < |Crossing(g, l)|
    ensures Boundaries(g, l.src).IsInside(Crossing(g, l)[k]) && GlobalBoundaries(g).IsInside(Crossing(g, l)[k])
  {
    InternalMeetsExternal(g, l.src, l.dst);
    CellsOfRectangle(ToGlobal(g, l.src, CutOut(g, l)));
    var p := Crossing(g, l)[k];
    assert p in Crossing(g, l);
    OwnCellInRaster(g, l.src, p);
  }

  lemma OwnCellInRaster(g: Grid, w: nat, p: Point2D)
    requires GoodGrid(g) && w < g.Worlds() && Boundaries(g, w).IsInside(p)
    ensures GlobalBoundaries(g).IsInside(p)
  {
    IdsAndTiles(g, w);
    AtRim(g, PositionFromId(g, w).x);
    AtRim(g, PositionFromId(g, w).y);
  }

  // ----- sending

  /** A message that holds the global raster, at the cells of its link. */
  ghost predicate Faithful(g: Grid, l: Link, t: Truth, data: seq<int>)
    requires g.row > 0
  {
    && |data| == |Crossing(g, l)|
    && forall k :: 0 <= k < |data| ==> data[k] == Wanted(t, l.maxima)(Crossing(g, l)[k])
  }

  lemma PackedFaithfully(g: Grid, l: Link, t: Truth, c: Cells)
    requires GoodGrid(g) && GoodLink(g, l) && Fitting(g, l.src, c, t) && OwnTileRight(g, l.src, c, t)
    ensures var data := PackUpTo(Choose(c, l.maxima), CellsOf(CutOut(g, l)), |CellsOf(CutOut(g, l))|);
            data.Done? && Faithful(g, l, t, data.value)
  {
    var f, cells := Choose(c, l.maxima), CellsOf(CutOut(g, l));
    BothEndsListCrossing(g, l);
    forall k | 0 <= k < |cells| ensures InField(f, cells[k]) && At(f, cells[k]) == Wanted(t, l.maxima)(Crossing(g, l)[k]) {
      CrossingIsOwned(g, l, k);
      CrossingInFields(g, l, k);
      assert CellRight(g, l.src, f, Wanted(t, l.maxima), Crossing(g, l)[k]);
    }
    PackHolds(f, cells, |cells|);
  }

  // ----- receiving

  /** The strip of a link is right at the receiver. */
  ghost predicate StripRight(g: Grid, l: Link, c: Cells, t: Truth)
    requires g.row > 0
  {
    forall k :: 0 <= k < |Crossing(g, l)| ==> CellRight(g, l.dst, Choose(c, l.maxima), Wanted(t, l.maxima), Crossing(g, l)[k])
  }

  // What is right stays right.
  ghost predicate KeepsRight(g: Grid, w: nat, c: Cells, c': Cells, t: Truth)
    requires g.row > 0
  {
    forall p, maxima :: CellRight(g, w, Choose(c, maxima), Wanted(t, maxima), p) ==> CellRight(g, w, Choose(c', maxima), Wanted(t, maxima), p)
  }

  lemma FaithfulIsAcceptable(g: Grid, l: Link, t: Truth, c: Cells, data: seq<int>)
    requires GoodGrid(g) && GoodLink(g, l) && GoodTruth(g, t) && Fitting(g, l.dst, c, t) && Faithful(g, l, t, data)
    requires !l.maxima ==> StripRight(g, l.(maxima := true), c, t)
    ensures |data| == |CellsOf(PutInto(g, l))| && Acceptable(c, CellsOf(PutInto(g, l)), data, l.maxima)
  {
    var cells := CellsOf(PutInto(g, l));
    BothEndsListCrossing(g, l);
    forall k | 0 <= k < |data|
      ensures InField(c.values, cells[k]) && InField(c.maxValues, cells[k]) && data[k] <= c.maxValue
      ensures !l.maxima ==> data[k] <= At(c.maxValues, cells[k])
    {
      CrossingIsOwned(g, l, k);
      CrossingInFields(g, l, k);
      assert t.value(Crossing(g, l)[k]) <= t.maximum(Crossing(g, l)[k]) <= t.limit;
      if !l.maxima { assert CellRight(g, l.dst, Choose(c, true), Wanted(t, true), Crossing(g, l.(maxima := true))[k]); }
    }
  }

  lemma OverwrittenRight(g: Grid, l: Link, t: Truth, c: Cells, c': Cells, data: seq<int>)
    requires GoodGrid(g) && GoodLink(g, l) && Faithful(g, l, t, data) && |data| == |CellsOf(PutInto(g, l))|
    requires Fitting(g, l.dst, c, t)
    requires Unpacked(c, c', CellsOf(PutInto(g, l)), data, l.maxima, |data|, OverlapBoundaries(g, l.dst).size)
    ensures Fitting(g, l.dst, c', t) && StripRight(g, l, c', t)
  {
    var cells := CellsOf(PutInto(g, l));
    BothEndsListCrossing(g, l);
    forall k | 0 <= k < |Crossing(g, l)|
      ensures CellRight(g, l.dst, Choose(c', l.maxima), Wanted(t, l.maxima), Crossing(g, l)[k])
    {
      CrossingIsOwned(g, l, k);
      CrossingInFields(g, l, k);
      assert InField(Choose(c', l.maxima), cells[k]);
    }
  }

  lemma OverwrittenKeepsRight(g: Grid, l: Link, t: Truth, c: Cells, c': Cells, data: seq<int>)
    requires GoodGrid(g) && GoodLink(g, l) && |data| == |CellsOf(PutInto(g, l))| && StripRight(g, l, c', t)
    requires Unpacked(c, c', CellsOf(PutInto(g, l)), data, l.maxima, |data|, OverlapBoundaries(g, l.dst).size)
    ensures KeepsRight(g, l.dst, c, c', t)
  {
    var cells := CellsOf(PutInto(g, l));
    BothEndsListCrossing(g, l);
    forall p, maxima | CellRight(g, l.dst, Choose(c, maxima), Wanted(t, maxima), p)
      ensures CellRight(g, l.dst, Choose(c', maxima), Wanted(t, maxima), p)
    {
      var q := Local(g, l.dst, p);
      if maxima == l.maxima && q in cells[..|data|] {
        var k :| 0 <= k < |cells| && cells[k] == q;
        assert Crossing(g, l)[k] == p;
      }
    }
  }

  /** Applying a faithful message never trips a guard; its strip is right afterwards, and whatever
      was right before. */
  lemma AppliedFaithfully(g: Grid, l: Link, t: Truth, c: Cells, data: seq<int>)
    requires GoodGrid(g) && GoodLink(g, l) && GoodTruth(g, t) && Fitting(g, l.dst, c, t) && Faithful(g, l, t, data)
    requires !l.maxima ==> StripRight(g, l.(maxima := true), c, t)
    ensures |data| == |CellsOf(PutInto(g, l))|
    ensures var r := UnpackUpTo(c, CellsOf(PutInto(g, l)), data, l.maxima, |data|);
            r.Done? && Fitting(g, l.dst, r.value, t) && StripRight(g, l, r.value, t) && KeepsRight(g, l.dst, c, r.value, t)
  {
    var cells := CellsOf(PutInto(g, l));
    FaithfulIsAcceptable(g, l, t, c, data);
    CellsOfRectangle(PutInto(g, l));
    UnpackHolds(c, cells, data, l.maxima, |data|, OverlapBoundaries(g, l.dst).size);
    var c' := UnpackUpTo(c, cells, data, l.maxima, |data|).value;
    OverwrittenRight(g, l, t, c, c', data);
    OverwrittenKeepsRight(g, l, t, c, c', data);
  }
}
