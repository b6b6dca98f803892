/** The exchange of rasters at start-up as a state machine.

    In round 0 every world sends the maxima of its border cells to all neighbours; rounds 1 to 4
    send their values to the neighbours of one section each.  In a round a world first sends, then
    posts its receives, then applies what arrives, in any order; a barrier ends the round.  Sends and
    posted receives of one channel are matched in order. */
module StartUp {
  import opened Common
  import opened WorldGeometry
  import opened WorldExchange
  import opened Rasters

  const ROUNDS := 5

  /** A raster of the whole grid, tile by tile the raster of its owner, and its maximum. */
  datatype Truth = Truth(value: Point2D -> int, maximum: Point2D -> int, limit: int)

  // Owners respect the maxima of their cells, and these the maximum that all worlds share.
  ghost predicate GoodTruth(g: Grid, t: Truth) {
    forall p :: GlobalBoundaries(g).IsInside(p) ==> t.value(p) <= t.maximum(p) <= t.limit
  }

  // ----- partners

  /** The grid, and for every world and round the worlds that it sends to and receives from. */
  datatype Plan = Plan(grid: Grid, sends: (nat, nat) -> seq<nat>, receives: (nat, nat) -> seq<nat>)

  function SendsTo(x: Plan, w: nat, round: nat): seq<nat> { x.sends(w, round) }

  function ReceivesFrom(x: Plan, w: nat, round: nat): seq<nat> { x.receives(w, round) }

  ghost predicate PartnersMeet(x: Plan, v: nat, w: nat, round: nat)
    requires x.grid.row > 0
  {
    && (w in SendsTo(x, v, round) <==> v in ReceivesFrom(x, w, round))
    && (w in SendsTo(x, v, round) ==> AreNeighbors(x.grid, v, w))
    && (round == 0 ==> (w in SendsTo(x, v, round) <==> AreNeighbors(x.grid, v, w)))
  }

  ghost predicate ListedOnce(x: Plan, v: nat, round: nat) {
    && NoDuplicates(SendsTo(x, v, round)) && NoDuplicates(ReceivesFrom(x, v, round))
    && (forall w :: w in SendsTo(x, v, round) || w in ReceivesFrom(x, v, round) ==> w < x.grid.Worlds())
  }

  // The values of a border reach the neighbour behind it in one of the rounds.
  ghost predicate ServedInSomeRound(x: Plan, v: nat, w: nat) {
    exists round: nat :: 1 <= round < ROUNDS && w in SendsTo(x, v, round)
  }

  /** Senders and receivers expect each other, all neighbours exchange maxima in round 0, and all
      of them values in a later round.  StartUpCells.StartUpPlan gives the lists of the program. */
  ghost predicate GoodPlan(x: Plan) {
    && GoodGrid(x.grid)
    && (forall v: nat, w: nat, round: nat :: v < x.grid.Worlds() && w < x.grid.Worlds() ==> PartnersMeet(x, v, w, round))
    && (forall v: nat, round: nat :: v < x.grid.Worlds() ==> ListedOnce(x, v, round))
    && (forall v: nat, w: nat :: v < x.grid.Worlds() && w < x.grid.Worlds() && AreNeighbors(x.grid, v, w) ==> ServedInSomeRound(x, v, w))
  }

  // ----- states

  /** Maxima and values travel with different tags. */
  datatype Link = Link(src: nat, dst: nat, maxima: bool)

  // A message also carries the round and the raster that it is sent for; no world looks at them.
  datatype Parcel = Parcel(data: seq<int>, round: nat, raster: nat)

  // A posted receive: it takes parcel number index of the link.
  datatype Request = Request(src: nat, raster: nat, index: nat)

  /** Rasters are the outer loop, partners the inner one. */
  datatype Activity =
    | Sending(r: nat, i: nat)
    | Posting(r: nat, i: nat)
    | Draining
    | Waiting

  datatype Node = Node(activity: Activity, rasters: seq<Cells>, requests: set<Request>, posted: map<Link, nat>)

  // applied records the exchanges that are complete, as round, sender, receiver and raster; it is
  // never looked at.
  datatype Start = Start(round: nat, nodes: seq<Node>, links: map<Link, seq<Parcel>>, applied: set<(nat, nat, nat, nat)>,
                         failed: bool)

  // ----- steps

  datatype Event =
    | SendParcel
    | EndSending
    | PostReceive
    | EndPosting
    | ApplyParcel(request: Request)
    | EndDraining
    | PassBarrier

  // The next round of the two loops.
  function Advance(r: nat, i: nat, partners: nat): (nat, nat) {
    if i + 1 < partners then (r, i + 1) else (r + 1, 0)
  }

  predicate LoopsDone(r: nat, i: nat, partners: nat, rasters: nat) { partners == 0 || r >= rasters || i >= partners }

  function OutLink(x: Plan, w: nat, round: nat, i: nat): Link
    requires x.grid.row > 0 && i < |SendsTo(x, w, round)|
  {
    Link(w, SendsTo(x, w, round)[i], round == 0)
  }

  function InLink(x: Plan, w: nat, round: nat, i: nat): Link
    requires x.grid.row > 0 && i < |ReceivesFrom(x, w, round)|
  {
    Link(ReceivesFrom(x, w, round)[i], w, round == 0)
  }

  // What the two ends of a link cut out of their rasters.
  function CutOut(g: Grid, l: Link): Rectangle
    requires g.row > 0
  {
    InternalOverlap(g, l.src, l.dst)
  }

  function PutInto(g: Grid, l: Link): Rectangle
    requires g.row > 0
  {
    ExternalOverlap(g, l.dst, l.src)
  }

  ghost predicate CanTake(x: Plan, s: Start, w: nat, e: Event)
    requires x.grid.row > 0
  {
    && s.round < ROUNDS && w < |s.nodes| && !s.failed
    && var node := s.nodes[w];
       match e
       case SendParcel =>
         && node.activity.Sending? && !LoopsDone(node.activity.r, node.activity.i, |SendsTo(x, w, s.round)|, |node.rasters|)
         && OutLink(x, w, s.round, node.activity.i) in s.links
       case EndSending =>
         node.activity.Sending? && LoopsDone(node.activity.r, node.activity.i, |SendsTo(x, w, s.round)|, |node.rasters|)
       case PostReceive =>
         && node.activity.Posting? && !LoopsDone(node.activity.r, node.activity.i, |ReceivesFrom(x, w, s.round)|, |node.rasters|)
         && InLink(x, w, s.round, node.activity.i) in node.posted
       case EndPosting =>
         node.activity.Posting? && LoopsDone(node.activity.r, node.activity.i, |ReceivesFrom(x, w, s.round)|, |node.rasters|)
       case ApplyParcel(request) =>
         && node.activity.Draining? && request in node.requests && request.raster < |node.rasters|
         && var l := Link(request.src, w, s.round == 0); l in s.links && request.index < |s.links[l]|
       case EndDraining => node.activity.Draining? && node.requests == {}
       case PassBarrier => forall u :: 0 <= u < |s.nodes| ==> s.nodes[u].activity == Waiting
  }

  // The parcel that is sent next, or the failure of packing it.
  ghost function NextParcel(x: Plan, s: Start, w: nat): Outcome<seq<int>, RasterError>
    requires x.grid.row > 0 && CanTake(x, s, w, SendParcel)
  {
    var a := s.nodes[w].activity;
    var cells := CellsOf(CutOut(x.grid, OutLink(x, w, s.round, a.i)));
    PackUpTo(Choose(s.nodes[w].rasters[a.r], s.round == 0), cells, |cells|)
  }

  // The raster after a parcel has been applied to it.  Parcels of another size than that of the
  // posted receive are an error.
  ghost function Updated(x: Plan, s: Start, w: nat, request: Request): Outcome<Cells, RasterError>
    requires x.grid.row > 0 && CanTake(x, s, w, ApplyParcel(request))
  {
    var l := Link(request.src, w, s.round == 0);
    var cells := CellsOf(PutInto(x.grid, l));
    var data := s.links[l][request.index].data;
    if |data| != |cells| then Failed(XOutOfBounds)
    else UnpackUpTo(s.nodes[w].rasters[request.raster], cells, data, s.round == 0, |data|)
  }

  // A guard of the rasters fires.
  ghost predicate Fails(x: Plan, s: Start, w: nat, e: Event)
    requires x.grid.row > 0 && CanTake(x, s, w, e)
  {
    match e
    case SendParcel => NextParcel(x, s, w).Failed?
    case ApplyParcel(request) => Updated(x, s, w, request).Failed?
    case _ => false
  }

  ghost function NextNode(x: Plan, s: Start, w: nat, e: Event): Node
    requires x.grid.row > 0 && CanTake(x, s, w, e) && !Fails(x, s, w, e)
  {
    var node := s.nodes[w];
    match e
    case SendParcel =>
      var (r, i) := Advance(node.activity.r, node.activity.i, |SendsTo(x, w, s.round)|);
      node.(activity := Sending(r, i))
    case EndSending => node.(activity := Posting(0, 0))
    case PostReceive =>
      var l := InLink(x, w, s.round, node.activity.i);
      var (r, i) := Advance(node.activity.r, node.activity.i, |ReceivesFrom(x, w, s.round)|);
      node.(activity := Posting(r, i), requests := node.requests + {Request(l.src, node.activity.r, node.posted[l])},
            posted := node.posted[l := node.posted[l] + 1])
    case EndPosting => node.(activity := Draining)
    case ApplyParcel(request) =>
      node.(rasters := node.rasters[request.raster := Updated(x, s, w, request).value], requests := node.requests - {request})
    case EndDraining => node.(activity := Waiting)
    case PassBarrier => node.(activity := Sending(0, 0))
  }

  ghost function NextLinks(x: Plan, s: Start, w: nat, e: Event): map<Link, seq<Parcel>>
    requires x.grid.row > 0 && CanTake(x, s, w, e) && !Fails(x, s, w, e)
  {
    if e.SendParcel? then
      var a := s.nodes[w].activity;
      var l := OutLink(x, w, s.round, a.i);
      s.links[l := s.links[l] + [Parcel(NextParcel(x, s, w).value, s.round, a.r)]]
    else s.links
  }

  ghost function NextApplied(x: Plan, s: Start, w: nat, e: Event): set<(nat, nat, nat, nat)>
    requires x.grid.row > 0 && CanTake(x, s, w, e)
  {
    match e
    case ApplyParcel(request) => s.applied + {(s.round, request.src, w, request.raster)}
    case _ => s.applied
  }

  /** World w takes step e; a guard of the rasters that fires is recorded as a failure.  The barrier
      lets all worlds pass. */
  ghost function After(x: Plan, s: Start, w: nat, e: Event): Start
    requires x.grid.row > 0 && CanTake(x, s, w, e)
  {
    if Fails(x, s, w, e) then s.(failed := true)
    else if e.PassBarrier? then
      s.(round := s.round + 1, nodes := seq(|s.nodes|, u requires 0 <= u < |s.nodes| => s.nodes[u].(activity := Sending(0, 0))))
    else s.(nodes := s.nodes[w := NextNode(x, s, w, e)], links := NextLinks(x, s, w, e), applied := NextApplied(x, s, w, e))
  }

  // ----- runs

  // Cell p of the global raster, in the field of world w.
  ghost predicate CellRight(g: Grid, w: nat, f: Field, truth: Point2D -> int, p: Point2D)
    requires g.row > 0
  {
    var local := p.Minus(OverlapBoundaries(g, w).origin);
    InField(f, local) && At(f, local) == truth(p)
  }

  function Wanted(t: Truth, maxima: bool): Point2D -> int { if maxima then t.maximum else t.value }

  ghost predicate Fitting(g: Grid, w: nat, c: Cells, t: Truth)
    requires g.row > 0
  {
    && Sized(c.values, OverlapBoundaries(g, w).size) && Sized(c.maxValues, OverlapBoundaries(g, w).size)
    && c.maxValue == t.limit
  }

  ghost predicate OwnTileRight(g: Grid, w: nat, c: Cells, t: Truth)
    requires g.row > 0
  {
    forall p, maxima :: Boundaries(g, w).IsInside(p) ==> CellRight(g, w, Choose(c, maxima), Wanted(t, maxima), p)
  }

  // The rasters of one world, the own tile filled in.
  ghost predicate GoodRasters(g: Grid, w: nat, rasters: seq<Cells>, truths: seq<Truth>)
    requires g.row > 0
  {
    && |rasters| == |truths|
    && forall r :: 0 <= r < |rasters| ==> Fitting(g, w, rasters[r], truths[r]) && OwnTileRight(g, w, rasters[r], truths[r])
  }

  ghost predicate GoodStart(x: Plan, truths: seq<Truth>) {
    && GoodPlan(x)
    && forall r :: 0 <= r < |truths| ==> GoodTruth(x.grid, truths[r])
  }

  /** Every world has filled in its own tile; the halo may hold anything. */
  ghost predicate StartsWith(x: Plan, truths: seq<Truth>, s: Start)
    requires GoodStart(x, truths)
  {
    && s.round == 0 && !s.failed && |s.nodes| == x.grid.Worlds() && s.applied == {}
    && (forall l :: l in s.links <==> l.src < |s.nodes| && l.dst < |s.nodes| && l.src != l.dst)
    && (forall l :: l in s.links ==> s.links[l] == [])
    && forall w :: 0 <= w < |s.nodes| ==>
         && GoodRasters(x.grid, w, s.nodes[w].rasters, truths)
         && s.nodes[w].activity == Sending(0, 0) && s.nodes[w].requests == {}
         && (forall l :: l in s.nodes[w].posted <==> l in s.links && l.dst == w)
         && (forall l :: l in s.nodes[w].posted ==> s.nodes[w].posted[l] == 0)
  }

  ghost predicate Goes(x: Plan, s: Start, s': Start, w: nat, e: Event)
    requires x.grid.row > 0
  {
    CanTake(x, s, w, e) && s' == After(x, s, w, e)
  }

  ghost predicate IsStartUp(x: Plan, truths: seq<Truth>, run: seq<Start>, events: seq<(nat, Event)>)
    requires GoodStart(x, truths)
  {
    && |run| == |events| + 1 && StartsWith(x, truths, run[0])
    && forall k :: 0 <= k < |events| ==> Goes(x, run[k], run[k + 1], events[k].0, events[k].1)
  }
}
