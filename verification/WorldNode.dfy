/** One world of the simulation as the program keeps it: its place in the grid, found at set-up, and
    the execution of a section, agent by agent. */
module WorldNode {
  import opened WorldGeometry
  import opened WorldProtocol

  // Where an agent goes when it is executed.
  type Behaviour = (Id, Body) -> Point2D

  /** The proviso on behaviours: agents stay in the raster and do not skip a tile. */
  ghost predicate Bounded(c: Config, w: nat, move: Behaviour)
    requires GoodConfig(c)
  {
    forall id, body :: BoundedMove(c, w, move(id, body))
  }

  predicate ToBeExecuted(c: Config, w: nat, wd: World, id: Id)
    requires c.grid.row > 0
  {
    id in wd.owned && id !in wd.executed && Section(c.grid, w, wd.pc.Section()).IsInside(wd.owned[id].pos)
  }

  // The agents of the section, in the order in which they will be executed.
  function Chosen(c: Config, w: nat, wd: World, order: seq<Id>): seq<Id>
    requires c.grid.row > 0
  {
    if order == [] then []
    else Chosen(c, w, wd, order[..|order| - 1]) + if ToBeExecuted(c, w, wd, order[|order| - 1]) then [order[|order| - 1]] else []
  }

  /** The world after the first n of these agents have been executed. */
  ghost function Computed(c: Config, w: nat, wd: World, chosen: seq<Id>, move: Behaviour, n: nat): World
    requires GoodConfig(c) && n <= |chosen| && Bounded(c, w, move)
  {
    if n == 0 then wd
    else
      var before := Computed(c, w, wd, chosen, move, n - 1);
      var id := chosen[n - 1];
      if ToBeExecuted(c, w, before, id) then ExecuteAgent(c, w, before, id, move) else before
  }

  ghost function ExecuteAgent(c: Config, w: nat, wd: World, id: Id, move: Behaviour): World
    requires GoodConfig(c) && Bounded(c, w, move) && id in wd.owned
  {
    assert BoundedMove(c, w, move(id, wd.owned[id]));
    Executed(c, w, wd, id, move(id, wd.owned[id]))
  }

  class Node {
    const config: Config
    const id: nat
    var worldPos: Point2D
    var neighbors: seq<nat>
    var boundaries: Rectangle
    var overlapBoundaries: Rectangle
    var sections: seq<Rectangle>
    var agents: map<Id, Body>
    var overlapAgents: set<Copy>
    var executedAgents: set<Id>

    constructor (config: Config, id: nat)
      ensures this.config == config && this.id == id && agents == map[] && overlapAgents == {} && executedAgents == {}
    {
      this.config, this.id := config, id;
      worldPos, neighbors := Point2D(0, 0), [];
      boundaries, overlapBoundaries := Rectangle(Point2D(0, 0), Point2D(0, 0)), Rectangle(Point2D(0, 0), Point2D(0, 0));
      sections, agents, overlapAgents, executedAgents := [], map[], {}, {};
    }

    // The place in the grid has been established.
    ghost predicate Placed()
      reads this
    {
      var g := config.grid;
      && g.row > 0 && worldPos == PositionFromId(g, id) && neighbors == Neighbors(g, id)
      && boundaries == Boundaries(g, id) && overlapBoundaries == OverlapBoundaries(g, id)
      && |sections| == 4 && forall s :: 0 <= s < 4 ==> sections[s] == Section(g, id, s)
    }

    /** Finds tile, neighbours, halo and sections. */
    method StablishPosition(size: nat) returns (ok: bool)
      requires GoodGrid(config.grid) && config.grid.local == size / config.grid.row
      modifies this`worldPos, this`neighbors, this`boundaries, this`overlapBoundaries, this`sections
      ensures ok <==> size % config.grid.row == 0
      ensures ok ==> Placed()
    {
      var row, local, overlap := config.grid.row, config.grid.local, config.grid.overlap;
      if size % row != 0 { return false; }
      worldPos := Point2D(id % row, id / row);
      FindNeighbors();
      boundaries := Rectangle(Point2D(worldPos.x * local, worldPos.y * local), Point2D(local, local));
      WholeRaster(size, row);
      FindOverlap(size);
      var half := Point2D(local / 2, local / 2);
      var o := boundaries.origin;
      sections := [Rectangle(o, half), Rectangle(Point2D(o.x + half.x, o.y), half),
                   Rectangle(Point2D(o.x, o.y + half.y), half), Rectangle(Point2D(o.x + half.x, o.y + half.y), half)];
      ok := true;
    }

    method FindNeighbors()
      requires GoodGrid(config.grid) && worldPos == PositionFromId(config.grid, id)
      modifies this`neighbors
      ensures neighbors == Neighbors(config.grid, id)
    {
      neighbors := [];
      for x := worldPos.x - 1 to worldPos.x + 2
        invariant neighbors == NeighborsBefore(config.grid, id, x - worldPos.x)
      {
        ColumnAdded(config.grid, id, x - worldPos.x);
        FindColumn(x);
      }
    }

    // The neighbours of one column, from the row above to the row below.
    method FindColumn(x: int)
      requires GoodGrid(config.grid) && worldPos == PositionFromId(config.grid, id) && -1 <= x - worldPos.x <= 1
      modifies this`neighbors
      ensures neighbors == old(neighbors) + NeighborColumn(config.grid, id, x - worldPos.x)
    {
      for y := worldPos.y - 1 to worldPos.y + 2
        invariant neighbors == old(neighbors) + ColumnBefore(config.grid, id, x - worldPos.x, y - worldPos.y)
      {
        TileAdded(config.grid, id, x - worldPos.x, y - worldPos.y);
        ghost var before := neighbors;
        FindTile(x, y);
        assert before + NeighborAt(config.grid, id, x - worldPos.x, y - worldPos.y)
            == old(neighbors) + (ColumnBefore(config.grid, id, x - worldPos.x, y - worldPos.y) + NeighborAt(config.grid, id, x - worldPos.x, y - worldPos.y));
      }
    }

    // The tile at column x and row y, if it is one of the grid and not the own one.
    method FindTile(x: int, y: int)
      requires GoodGrid(config.grid) && worldPos == PositionFromId(config.grid, id)
      modifies this`neighbors
      ensures neighbors == old(neighbors) + NeighborAt(config.grid, id, x - worldPos.x, y - worldPos.y)
    {
      var row := config.grid.row;
      if x > -1 && x < row && y > -1 && y < row {
        if x != worldPos.x || y != worldPos.y {
          TilesAndIds(config.grid, Point2D(x, y));
          neighbors := neighbors + [y * row + x];
        }
      }
    }

    method FindOverlap(size: nat)
      requires GoodGrid(config.grid) && size == config.grid.Size()
      requires boundaries == Boundaries(config.grid, id)
      modifies this`overlapBoundaries
      ensures overlapBoundaries == OverlapBoundaries(config.grid, id)
    {
      var overlap := config.grid.overlap;
      var o, s := boundaries.origin, boundaries.size;
      if boundaries.origin.x != 0 { o, s := Point2D(o.x - overlap, o.y), Point2D(s.x + overlap, s.y); }
      if boundaries.origin.x != size - boundaries.size.x { s := Point2D(s.x + overlap, s.y); }
      if boundaries.origin.y != 0 { o, s := Point2D(o.x, o.y - overlap), Point2D(s.x, s.y + overlap); }
      if boundaries.origin.y != size - boundaries.size.y { s := Point2D(s.x, s.y + overlap); }
      overlapBoundaries := Rectangle(o, s);
    }

    // The world of the protocol, at a program counter and with agents waiting to be sent.
    ghost function State(pc: Counter, outbox: set<Item>): World
      reads this
    {
      World(pc, agents, overlapAgents, executedAgents, outbox, {})
    }

    /** Executes the agents of a section, in a given order, and tells which of them are to be sent. */
    method StepSection(ghost pc: Counter, sectionIndex: nat, order: seq<Id>, move: Behaviour) returns (toSend: set<Item>)
      requires GoodConfig(config) && Placed() && Bounded(config, id, move) && sectionIndex == pc.Section() < 4
      modifies this`agents, this`overlapAgents, this`executedAgents
      ensures var before := old(State(pc, {})); var chosen := Chosen(config, id, before, order);
              State(pc, toSend) == Computed(config, id, before, chosen, move, |chosen|)
    {
      ghost var before := State(pc, {});
      var chosen := SelectAgents(pc, sectionIndex, order);
      toSend := {};
      for i := 0 to |chosen|
        invariant State(pc, toSend) == Computed(config, id, before, chosen, move, i)
      {
        toSend := ExecuteOne(pc, sectionIndex, chosen[i], move, toSend);
      }
    }

    method SelectAgents(ghost pc: Counter, sectionIndex: nat, order: seq<Id>) returns (chosen: seq<Id>)
      requires Placed() && sectionIndex == pc.Section() < 4
      ensures chosen == Chosen(config, id, State(pc, {}), order)
    {
      chosen := [];
      for i := 0 to |order|
        invariant chosen == Chosen(config, id, State(pc, {}), order[..i])
      {
        assert order[..i + 1][..i] == order[..i];
        if order[i] in agents && sections[sectionIndex].IsInside(agents[order[i]].pos) && order[i] !in executedAgents {
          chosen := chosen + [order[i]];
        }
      }
      assert order[..|order|] == order;
    }

    method ExecuteOne(ghost pc: Counter, sectionIndex: nat, agent: Id, move: Behaviour, toSend: set<Item>) returns (toSend': set<Item>)
      requires GoodConfig(config) && Placed() && Bounded(config, id, move) && sectionIndex == pc.Section() < 4
      modifies this`agents, this`overlapAgents, this`executedAgents
      ensures var before := old(State(pc, toSend));
              State(pc, toSend') == if ToBeExecuted(config, id, before, agent) then ExecuteAgent(config, id, before, agent, move) else before
    {
      toSend' := toSend;
      if agent in agents && sections[sectionIndex].IsInside(agents[agent].pos) && agent !in executedAgents {
        var body := agents[agent].(pos := move(agent, agents[agent]));
        assert BoundedMove(config, id, body.pos);
        if !boundaries.IsInside(body.pos) {
          toSend' := toSend + {Item(IdFromPosition(config.grid, body.pos), agent, body)};
          agents := agents - {agent};
          overlapAgents := overlapAgents + {Copy(agent, body)};
        } else {
          agents := agents[agent := body];
        }
        executedAgents := executedAgents + {agent};
      }
    }
  }

  lemma WholeRaster(size: nat, row: nat)
    requires row > 0 && size % row == 0
    ensures size == row * (size / row)
  {
  }

  // The neighbours of the first columns, and of the upper part of a column.
  function NeighborsBefore(g: Grid, id: nat, dx: int): seq<nat>
    requires g.row > 0
  {
    (if dx > -1 then NeighborColumn(g, id, -1) else []) + (if dx > 0 then NeighborColumn(g, id, 0) else [])
    + (if dx > 1 then NeighborColumn(g, id, 1) else [])
  }

  function ColumnBefore(g: Grid, id: nat, dx: int, dy: int): seq<nat>
    requires g.row > 0
  {
    (if dy > -1 then NeighborAt(g, id, dx, -1) else []) + (if dy > 0 then NeighborAt(g, id, dx, 0) else [])
    + (if dy > 1 then NeighborAt(g, id, dx, 1) else [])
  }

  lemma TileAdded(g: Grid, id: nat, dx: int, dy: int)
    requires g.row > 0 && -1 <= dy <= 1
    ensures ColumnBefore(g, id, dx, dy + 1) == ColumnBefore(g, id, dx, dy) + NeighborAt(g, id, dx, dy)
  {
  }

  lemma ColumnAdded(g: Grid, id: nat, dx: int)
    requires g.row > 0 && -1 <= dx <= 1
    ensures NeighborsBefore(g, id, dx + 1) == NeighborsBefore(g, id, dx) + NeighborColumn(g, id, dx)
  {
  }

  // ----- a section is a run of the protocol

  /** World w goes from one state to another by executing some of its agents. */
  ghost predicate Reaches(c: Config, s: State, s': State, w: nat, moves: seq<Action>)
    requires GoodConfig(c)
    decreases |moves|
  {
    if moves == [] then s' == s
    else
      && Enabled(c, s, w, moves[0]) && moves[0].Execute?
      && Reaches(c, Apply(c, s, w, moves[0]), s', w, moves[1..])
  }

  lemma {:induction false} ReachesOneMore(c: Config, s: State, s': State, w: nat, moves: seq<Action>, a: Action)
    requires GoodConfig(c) && Reaches(c, s, s', w, moves) && Enabled(c, s', w, a) && a.Execute?
    ensures Reaches(c, s, Apply(c, s', w, a), w, moves + [a])
    decreases |moves|
  {
    if moves == [] {
      assert ([] + [a])[1..] == [];
    } else {
      ReachesOneMore(c, Apply(c, s, w, moves[0]), s', w, moves[1..], a);
      assert (moves + [a])[1..] == moves[1..] + [a];
    }
  }

  lemma {:induction false} ComputedReached(c: Config, s: State, w: nat, chosen: seq<Id>, move: Behaviour, n: nat)
    returns (s': State, moves: seq<Action>)
    requires GoodConfig(c) && Bounded(c, w, move) && n <= |chosen| && w < |s.worlds|
    requires s.worlds[w].pc.stage.Compute? && s.worlds[w].pc.phase < c.Phases()
    ensures Reaches(c, s, s', w, moves) && |s'.worlds| == |s.worlds|
    ensures s'.worlds[w] == Computed(c, w, s.worlds[w], chosen, move, n) && s'.worlds[w].pc == s.worlds[w].pc
  {
    if n == 0 {
      s', moves := s, [];
    } else {
      var before, done := ComputedReached(c, s, w, chosen, move, n - 1);
      s', moves := before, done;
      var id, wd := chosen[n - 1], before.worlds[w];
      if ToBeExecuted(c, w, wd, id) {
        var a := Execute(id, move(id, wd.owned[id]));
        assert BoundedMove(c, w, a.pos);
        assert Enabled(c, before, w, a);
        ReachesOneMore(c, s, before, w, done, a);
        s', moves := Apply(c, before, w, a), done + [a];
      }
    }
  }

  // An agent that can still be executed could be from the start, and has not been tried.
  lemma {:induction false} NotTriedYet(c: Config, w: nat, wd: World, chosen: seq<Id>, move: Behaviour, n: nat, id: Id)
    requires GoodConfig(c) && Bounded(c, w, move) && n <= |chosen|
    requires ToBeExecuted(c, w, Computed(c, w, wd, chosen, move, n), id)
    ensures ToBeExecuted(c, w, wd, id) && id !in chosen[..n]
  {
    if n > 0 {
      var before := Computed(c, w, wd, chosen, move, n - 1);
      var last := chosen[n - 1];
      if ToBeExecuted(c, w, before, last) { assert last in ExecuteAgent(c, w, before, last, move).executed; }
      assert ToBeExecuted(c, w, before, id) && id != last;
      NotTriedYet(c, w, wd, chosen, move, n - 1, id);
      assert chosen[..n] == chosen[..n - 1] + [last];
    }
  }

  lemma {:induction false} ChosenAre(c: Config, w: nat, wd: World, order: seq<Id>, id: Id)
    requires c.grid.row > 0
    ensures id in Chosen(c, w, wd, order) <==> id in order && ToBeExecuted(c, w, wd, id)
  {
    if order != [] {
      ChosenAre(c, w, wd, order[..|order| - 1], id);
      assert order == order[..|order| - 1] + [order[|order| - 1]];
    }
  }

  /** What a world does in a section is a run of the protocol: it executes agents one after the other
      until none is left that could be executed, so that the section can be finished. */
  lemma SectionIsRun(c: Config, s: State, w: nat, order: seq<Id>, move: Behaviour) returns (s': State, moves: seq<Action>)
    requires GoodConfig(c) && Bounded(c, w, move) && w < |s.worlds|
    requires s.worlds[w].pc.stage.Compute? && s.worlds[w].pc.phase < c.Phases()
    requires forall id :: id in s.worlds[w].owned ==> id in order
    ensures Reaches(c, s, s', w, moves) && Enabled(c, s', w, FinishCompute)
    ensures var chosen := Chosen(c, w, s.worlds[w], order);
            s'.worlds[w] == Computed(c, w, s.worlds[w], chosen, move, |chosen|)
  {
    var wd := s.worlds[w];
    var chosen := Chosen(c, w, wd, order);
    s', moves := ComputedReached(c, s, w, chosen, move, |chosen|);
    assert chosen[..|chosen|] == chosen;
    forall id | id in s'.worlds[w].owned ensures !Eligible(c, w, s'.worlds[w], id) {
      if ToBeExecuted(c, w, s'.worlds[w], id) {
        NotTriedYet(c, w, wd, chosen, move, |chosen|, id);
        ChosenAre(c, w, wd, order, id);
      }
    }
  }
}
