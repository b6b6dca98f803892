/** Two results about every interleaving of the worlds: worlds that compute at the same time never
    reach a common cell, and no reachable state is deadlocked. */
module WorldSafety {
  import opened Common
  import opened WorldGeometry
  import opened WorldExchange
  import opened WorldProtocol
  import opened WorldPartners
  import opened WorldTraffic

  // ----- neighbours keep pace

  // A world cannot have received more headers than its neighbour has sent.
  lemma NoMoreThanSent(c: Config, s: State, v: nat, w: nat, kind: Kind)
    requires GoodConfig(c) && Traffic(c, s) && v < |s.worlds| && w < |s.worlds| && v != w
    ensures Received(c, w, s.worlds[w].pc, v, kind) <= Sent(c, v, s.worlds[v].pc, w, kind)
  {
    assert GoodChannel(c, s, Key(v, w, kind));
  }

  // A computing world has received the headers of all earlier phases, and no header of this one.
  lemma ComputingNotAhead(c: Config, s: State, v: nat, w: nat)
    requires GoodConfig(c) && Traffic(c, s) && v < |s.worlds| && w < |s.worlds| && AreNeighbors(c.grid, v, w)
    requires s.worlds[v].pc.stage.Compute? && s.worlds[w].pc.stage.Compute?
    ensures s.worlds[w].pc.phase <= s.worlds[v].pc.phase
  {
    var p, q := s.worlds[v].pc, s.worlds[w].pc;
    NoMoreThanSent(c, s, v, w, Agents);
    if p.phase < q.phase {
      PartnersMatch(c, v, w, Agents, p.phase % 4);
      HeadersMonotone(c, v, w, Agents, p.phase, q.phase);
    }
  }

  /** Neighbouring worlds that compute at the same time are in the same phase: the same section of
      the same step. */
  lemma ComputingNeighborsAgree(c: Config, s: State, v: nat, w: nat)
    requires GoodConfig(c) && Traffic(c, s) && v < |s.worlds| && w < |s.worlds| && AreNeighbors(c.grid, v, w)
    requires s.worlds[v].pc.stage.Compute? && s.worlds[w].pc.stage.Compute?
    ensures s.worlds[v].pc.phase == s.worlds[w].pc.phase
  {
    NeighborsSymmetric(c.grid, v, w);
    ComputingNotAhead(c, s, v, w);
    ComputingNotAhead(c, s, w, v);
  }

  /** Whatever neighbouring worlds are doing, they are at most one section apart. */
  lemma NeighborsKeepPace(c: Config, s: State, v: nat, w: nat)
    requires GoodConfig(c) && Traffic(c, s) && v < |s.worlds| && w < |s.worlds| && AreNeighbors(c.grid, v, w)
    ensures s.worlds[w].pc.phase <= s.worlds[v].pc.phase + 1
  {
    var p, q := s.worlds[v].pc, s.worlds[w].pc;
    NoMoreThanSent(c, s, v, w, Agents);
    assert GoodWorld(c, v, s.worlds[v]);
    if p.phase + 1 < q.phase {
      PartnersMatch(c, v, w, Agents, p.phase % 4);
      PartnersMatch(c, v, w, Agents, (p.phase + 1) % 4);
      HeadersMonotone(c, v, w, Agents, p.phase, p.phase + 1);
      HeadersMonotone(c, v, w, Agents, p.phase + 1, q.phase);
    }
  }

  /** In every state of every run, two worlds that compute at the same time reach disjoint cells. */
  lemma ComputingWorldsReachDisjointCells(c: Config, run: seq<State>, moves: seq<(nat, Action)>, k: nat, v: nat, w: nat)
    requires GoodConfig(c) && IsRun(c, run, moves) && k < |run|
    requires v < c.grid.Worlds() && w < c.grid.Worlds() && v != w && |run[k].worlds| == c.grid.Worlds()
    requires run[k].worlds[v].pc.stage.Compute? && run[k].worlds[w].pc.stage.Compute?
    ensures Disjoint(Reach(c.grid, v, run[k].worlds[v].pc.Section()), Reach(c.grid, w, run[k].worlds[w].pc.Section()))
  {
    TrafficAlways(c, run, moves, k);
    if AreNeighbors(c.grid, v, w) { ComputingNeighborsAgree(c, run[k], v, w); }
    ReachesAreDisjoint(c.grid, v, w, run[k].worlds[v].pc.Section(), run[k].worlds[w].pc.Section());
  }

  // ----- no deadlock

  // A world that is not ahead of any other.
  lemma {:induction false} LastWorld(s: State, n: nat) returns (w: nat)
    requires 0 < n <= |s.worlds|
    ensures w < n && forall u :: 0 <= u < n ==> Position(s.worlds[w].pc) <= Position(s.worlds[u].pc)
  {
    if n == 1 {
      w := 0;
    } else {
      w := LastWorld(s, n - 1);
      if Position(s.worlds[n - 1].pc) < Position(s.worlds[w].pc) { w := n - 1; }
    }
  }

  // A world that is not behind the receiver has sent the header that is to be received next.
  lemma HeaderWasSent(c: Config, s: State, key: Key)
    requires GoodConfig(c) && Traffic(c, s) && key in s.channels && key.src < |s.worlds| && key.dst < |s.worlds|
    requires AtSender(c, key.dst, s.worlds[key.dst].pc) && s.worlds[key.dst].pc.stage.left == None
    requires InKey(c, key.dst, s.worlds[key.dst].pc) == key
    requires Position(s.worlds[key.dst].pc) <= Position(s.worlds[key.src].pc)
    ensures s.channels[key].headersRead < |s.channels[key].headers|
  {
    var w, pc := key.dst, s.worlds[key.dst].pc;
    assert GoodChannel(c, s, key) && GoodWorld(c, w, s.worlds[w]) && GoodWorld(c, key.src, s.worlds[key.src]);
    ServedSender(c, w, pc);
    SentPast(c, key.src, w, pc, s.worlds[key.src].pc);
  }

  lemma HeaderIsThere(c: Config, s: State, w: nat)
    requires GoodConfig(c) && Traffic(c, s) && w < |s.worlds|
    requires AtAction(c, w, s.worlds[w].pc, ReceiveHeader)
    requires forall u :: 0 <= u < |s.worlds| ==> Position(s.worlds[w].pc) <= Position(s.worlds[u].pc)
    ensures Enabled(c, s, w, ReceiveHeader)
  {
    ServedSender(c, w, s.worlds[w].pc);
    HeaderWasSent(c, s, InKey(c, w, s.worlds[w].pc));
  }

  // On a channel whose sender is past the headers read so far, an announced agent is there.
  lemma AnnouncedIsThere(ch: Channel, sent: nat, missing: nat, read: nat, left: nat)
    requires SentSoFar(ch.headers, ch.items, sent, missing) && ReadSoFar(ch, read, left) && left > 0
    requires read <= sent && (missing > 0 ==> read < sent)
    ensures ch.itemsRead < |ch.items|
  {
    AnnouncedMonotone(ch.headers, read, if missing > 0 then sent - 1 else sent);
  }

  lemma ItemIsThere(c: Config, s: State, w: nat) returns (a: Action)
    requires GoodConfig(c) && Traffic(c, s) && w < |s.worlds|
    requires AtAction(c, w, s.worlds[w].pc, ReceiveItem({}))
    requires forall u :: 0 <= u < |s.worlds| ==> Position(s.worlds[w].pc) <= Position(s.worlds[u].pc)
    ensures Enabled(c, s, w, a)
  {
    var pc := s.worlds[w].pc;
    var key := InKey(c, w, pc);
    ServedSender(c, w, pc);
    assert GoodChannel(c, s, key) && GoodWorld(c, w, s.worlds[w]) && GoodWorld(c, key.src, s.worlds[key.src]);
    SentPast(c, key.src, w, pc, s.worlds[key.src].pc);
    var ch := s.channels[key];
    AnnouncedIsThere(ch, |ch.headers|, Outstanding(c, key, s.worlds[key.src]), ch.headersRead, Pending(c, key, pc));
    var dropped := AnyDrop(s.worlds[w].ghosts, ch.items[ch.itemsRead].id);
    a := ReceiveItem(dropped);
  }

  lemma AnyDrop(ghosts: set<Copy>, id: Id) returns (dropped: set<Copy>)
    ensures DropsOne(ghosts, id, dropped)
  {
    if copy :| copy in ghosts && copy.id == id { dropped := {copy}; } else { dropped := {}; }
  }

  // Sending and computing never wait.
  lemma SenderMoves(c: Config, s: State, w: nat) returns (a: Action)
    requires GoodConfig(c) && Traffic(c, s) && w < |s.worlds| && s.worlds[w].pc.stage.Send?
    ensures Enabled(c, s, w, a)
  {
    var wd := s.worlds[w];
    assert GoodWorld(c, w, wd);
    var Send(t, i, open) := wd.pc.stage;
    if t == c.types {
      a := EndSend;
    } else if i == |Receivers(c, w, wd.pc)| {
      a := NextSendType;
    } else {
      var key := OutKey(c, w, wd.pc);
      ServedReceiver(c, w, wd.pc);
      assert key in s.channels;
      if !open {
        a := SendHeader;
      } else if item :| item in Batch(wd, t, key.dst) {
        a := SendItem(item);
      } else {
        a := CloseSend;
      }
    }
  }

  lemma ComputerMoves(c: Config, s: State, w: nat) returns (a: Action)
    requires GoodConfig(c) && Traffic(c, s) && w < |s.worlds|
    requires s.worlds[w].pc.stage.Compute? && s.worlds[w].pc.phase < c.Phases()
    ensures Enabled(c, s, w, a)
  {
    var wd := s.worlds[w];
    if id :| id in wd.owned && Eligible(c, w, wd, id) {
      var pos := wd.owned[id].pos;
      SectionsPartition(c.grid, w, pos);
      TileInRaster(c.grid, w, pos);
      a := Execute(id, pos);
    } else {
      a := FinishCompute;
    }
  }

  lemma TileInRaster(g: Grid, w: nat, pos: Point2D)
    requires GoodGrid(g) && w < g.Worlds() && Boundaries(g, w).IsInside(pos)
    ensures GlobalBoundaries(g).IsInside(pos)
  {
    IdsAndTiles(g, w);
    AtRim(g, PositionFromId(g, w).x);
    AtRim(g, PositionFromId(g, w).y);
  }

  lemma LastMoves(c: Config, s: State, w: nat) returns (a: Action)
    requires GoodConfig(c) && Traffic(c, s) && w < |s.worlds| && s.worlds[w].pc.phase < c.Phases()
    requires forall u :: 0 <= u < |s.worlds| ==> Position(s.worlds[w].pc) <= Position(s.worlds[u].pc)
    ensures Enabled(c, s, w, a)
  {
    var pc := s.worlds[w].pc;
    assert GoodWorld(c, w, s.worlds[w]);
    match pc.stage
    case Compute => a := ComputerMoves(c, s, w);
    case Send(_, _, _) => a := SenderMoves(c, s, w);
    case Receive(t, i, left) =>
      if t == c.types {
        a := EndReceive;
      } else if left == None && i == |Senders(c, w, pc)| {
        a := NextReceiveType;
      } else if left == None {
        HeaderIsThere(c, s, w);
        a := ReceiveHeader;
      } else if left == Some(0) {
        a := CloseReceive;
      } else {
        a := ItemIsThere(c, s, w);
      }
  }

  /** In every state of every run, either all worlds have finished or some world can go on. */
  lemma NoDeadlock(c: Config, run: seq<State>, moves: seq<(nat, Action)>, k: nat)
    requires GoodConfig(c) && IsRun(c, run, moves) && k < |run|
    ensures Finished(c, run[k]) || exists w, a :: Enabled(c, run[k], w, a)
  {
    TrafficAlways(c, run, moves, k);
    var s := run[k];
    assert c.grid.row * c.grid.row > 0;
    var w := LastWorld(s, |s.worlds|);
    if s.worlds[w].pc.phase < c.Phases() {
      var a := LastMoves(c, s, w);
    } else {
      forall u | 0 <= u < |s.worlds| ensures s.worlds[u].pc == Counter(c.Phases(), Agents, Compute) {
        assert GoodWorld(c, u, s.worlds[u]) && GoodWorld(c, w, s.worlds[w]);
      }
    }
  }

  lemma FinishedIsDrained(c: Config, s: State, key: Key)
    requires GoodConfig(c) && Traffic(c, s) && Finished(c, s) && key in s.channels
    ensures var ch := s.channels[key]; ch.headersRead == |ch.headers| && ch.itemsRead == |ch.items|
  {
    assert GoodChannel(c, s, key);
  }

  /** Once all worlds have finished, everything that was sent has been received. */
  lemma FinishedMeansDrained(c: Config, run: seq<State>, moves: seq<(nat, Action)>, k: nat, key: Key)
    requires GoodConfig(c) && IsRun(c, run, moves) && k < |run| && Finished(c, run[k]) && key in run[k].channels
    ensures var ch := run[k].channels[key]; ch.headersRead == |ch.headers| && ch.itemsRead == |ch.items|
  {
    TrafficAlways(c, run, moves, k);
    FinishedIsDrained(c, run[k], key);
  }
}
