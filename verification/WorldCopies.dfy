/** The copies of agents that worlds send each other after every section.  When the copies at the
    start are right, every copy that arrives for an owned agent shows it as it is: owners alone move
    their agents, however the worlds are interleaved. */
module WorldCopies {
  import opened Common
  import opened WorldGeometry
  import opened WorldExchange
  import opened WorldZones
  import opened WorldProtocol
  import opened WorldPartners
  import opened WorldTraffic
  import opened WorldAgents
  import opened WorldExecution
  import opened WorldHistory
  import opened WorldSetUp

  // ----- a world that exchanges copies has all agents sent to it

  lemma HeaderOf(headers: seq<Header>, from: nat, j: nat) returns (r: nat)
    requires from <= |headers| && Announced(headers, from) <= j < Announced(headers, |headers|)
    ensures from <= r < |headers| && Announced(headers, r) <= j < Announced(headers, r + 1)
    decreases |headers| - from
  {
    if j < Announced(headers, from + 1) { r := from; } else { r := HeaderOf(headers, from + 1, j); }
  }

  // An agent that is not received after the headers of phase k was sent in a later phase.
  lemma UnreadIsLater(c: Config, key: Key, ch: Channel, k: nat, j: nat)
    requires c.grid.row > 0 && HeadersStamped(c, key, ch.headers) && ItemsStamped(c, key, ch.headers, ch.items)
    requires ReadSoFar(ch, Headers(c, key.src, key.dst, key.kind, k + 1), 0)
    requires ch.itemsRead <= j < |ch.items| <= Announced(ch.headers, |ch.headers|)
    ensures ch.items[j].phase > k
  {
    var r := HeaderOf(ch.headers, ch.headersRead, j);
    assert ItemStamp(c, key, ch.headers, ch.items, r) && HeaderStamp(c, key, ch.headers, r);
    var p := ch.headers[r].phase;
    HeadersOfPhase(c, key.src, key.dst, key.kind, p);
    if p <= k { HeadersMonotone(c, key.src, key.dst, key.kind, p + 1, k + 1); }
  }

  lemma ReceivedWhenExchanging(c: Config, u: nat, pc: Counter, y: nat)
    requires GoodConfig(c) && u < c.grid.Worlds() && y < c.grid.Worlds() && pc.kind == Ghosts && !pc.stage.Compute?
    ensures Received(c, u, pc, y, Agents) == Headers(c, y, u, Agents, pc.phase + 1)
  {
    PartnersMatch(c, y, u, Agents, pc.Section());
    HeadersOfPhase(c, y, u, Agents, pc.phase);
  }

  lemma FlightIsLater(c: Config, s: State, key: Key, j: nat)
    requires GoodConfig(c) && Traffic(c, s) && key in s.channels && key.kind == Agents
    requires s.worlds[key.dst].pc.kind == Ghosts && !s.worlds[key.dst].pc.stage.Compute?
    requires s.channels[key].itemsRead <= j < |s.channels[key].items|
    ensures s.channels[key].items[j].phase > s.worlds[key.dst].pc.phase
  {
    assert GoodChannel(c, s, key);
    ReceivedWhenExchanging(c, key.dst, s.worlds[key.dst].pc, key.src);
    UnreadIsLater(c, key, s.channels[key], s.worlds[key.dst].pc.phase, j);
  }

  // A world that has still agents to send has not announced them, or not sent all that it announced.
  lemma NotAllSent(c: Config, y: nat, wd: World, item: Item)
    requires GoodConfig(c) && y < c.grid.Worlds() && GoodWorld(c, y, wd) && wd.pc.kind == Agents && item in wd.outbox
    requires AreNeighbors(c.grid, y, item.dest)
    ensures var sent := Sent(c, y, wd.pc, item.dest, Agents);
      && sent <= Headers(c, y, item.dest, Agents, wd.pc.phase + 1)
      && (sent == Headers(c, y, item.dest, Agents, wd.pc.phase + 1) ==> Outstanding(c, Key(y, item.dest, Agents), wd) > 0)
  {
    PartnersMatch(c, y, item.dest, Agents, wd.pc.Section());
    HeadersOfPhase(c, y, item.dest, Agents, wd.pc.phase);
    if wd.pc.stage.Send? {
      assert StillToSend(c, y, wd.pc, item);
      assert item.body.type_ == wd.pc.stage.t ==> item in Batch(wd, wd.pc.stage.t, item.dest);
    }
  }

  lemma NeighborToBe(c: Config, y: nat, wd: World, item: Item)
    requires GoodConfig(c) && y < c.grid.Worlds() && GoodWorld(c, y, wd) && item in wd.outbox
    ensures AreNeighbors(c.grid, y, item.dest)
  {
    if wd.pc.stage.Send? {
      PartnersInGrid(c, y, wd.pc.kind, wd.pc.Section());
      PartnersMatch(c, y, item.dest, wd.pc.kind, wd.pc.Section());
    }
  }

  lemma ReadToTheEnd(ch: Channel, sent: nat, missing: nat, read: nat)
    requires SentSoFar(ch.headers, ch.items, sent, missing) && ReadSoFar(ch, read, 0)
    ensures read <= sent && (read == sent ==> missing == 0)
  {
  }

  lemma LaterPhase(c: Config, y: nat, u: nat, p: nat, k: nat)
    requires GoodConfig(c) && AreNeighbors(c.grid, y, u)
    requires Headers(c, y, u, Agents, k + 1) < Headers(c, y, u, Agents, p + 1)
    ensures k < p
  {
    if p <= k { HeadersMonotone(c, y, u, Agents, p + 1, k + 1); }
  }

  lemma ChannelNotRead(c: Config, s: State, key: Key)
    requires GoodConfig(c) && Traffic(c, s) && key in s.channels && key.kind == Agents
    requires s.worlds[key.dst].pc.kind == Ghosts && !s.worlds[key.dst].pc.stage.Compute?
    ensures var sent, wanted := Sent(c, key.src, s.worlds[key.src].pc, key.dst, Agents),
                                Headers(c, key.src, key.dst, Agents, s.worlds[key.dst].pc.phase + 1);
      wanted <= sent && (wanted == sent ==> Outstanding(c, key, s.worlds[key.src]) == 0)
  {
    var wd, pc := s.worlds[key.src], s.worlds[key.dst].pc;
    assert GoodChannel(c, s, key);
    ReceivedWhenExchanging(c, key.dst, pc, key.src);
    ReadToTheEnd(s.channels[key], Sent(c, key.src, wd.pc, key.dst, Agents), Outstanding(c, key, wd),
                 Received(c, key.dst, pc, key.src, Agents));
  }

  lemma WaitingIsLater(c: Config, s: State, y: nat, item: Item)
    requires GoodConfig(c) && Traffic(c, s) && y < |s.worlds| && item in s.worlds[y].outbox && item.dest < |s.worlds|
    requires s.worlds[y].pc.kind == Agents
    requires s.worlds[item.dest].pc.kind == Ghosts && !s.worlds[item.dest].pc.stage.Compute?
    ensures s.worlds[y].pc.phase > s.worlds[item.dest].pc.phase
  {
    assert GoodWorld(c, y, s.worlds[y]);
    NeighborToBe(c, y, s.worlds[y], item);
    NotAllSent(c, y, s.worlds[y], item);
    ChannelNotRead(c, s, Key(y, item.dest, Agents));
    LaterPhase(c, y, item.dest, s.worlds[y].pc.phase, s.worlds[item.dest].pc.phase);
  }

  // ----- the owner of a tile has the agents that are in it

  lemma {:induction false} StaysPut(c: Config, s: State, was: Past, u: nat, id: Id, m: nat, n: nat)
    requires GoodConfig(c) && AllTurned(c, s, was) && u < |s.worlds| && s.worlds[u].pc.phase < m <= n
    requires Boundaries(c.grid, u).IsInside(was(id, m).pos)
    ensures was(id, n) == was(id, m)
    decreases n - m
  {
    if m < n {
      var k := n - 1;
      StaysPut(c, s, was, u, id, m, k);
      assert Turned(c, s, was, id, k);
      var pos := was(id, k).pos;
      if x: nat :| TurnOf(c, s, pos, x, k) {
        SectionsPartition(c.grid, x, pos);
        OneTile(c.grid, u, x, pos);
      }
    }
  }

  lemma OneTile(g: Grid, u: nat, x: nat, pos: Point2D)
    requires GoodGrid(g) && Boundaries(g, u).IsInside(pos) && Boundaries(g, x).IsInside(pos)
    ensures u == x
  {
    OwnerOfPosition(g, u, pos);
    OwnerOfPosition(g, x, pos);
  }

  // An agent that was in tile u before phase m and was not executed by world u since is as it was.
  lemma LastsInTile(c: Config, s: State, was: Past, u: nat, id: Id, m: nat, p: nat, body: Body)
    requires GoodConfig(c) && AllTurned(c, s, was) && u < |s.worlds| && s.worlds[u].pc.phase < m
    requires Boundaries(c.grid, u).IsInside(was(id, m).pos) && Lasts(was, id, p, body)
    ensures body == was(id, m)
  {
    var n := if p < m then m else p;
    StaysPut(c, s, was, u, id, m, n);
    assert was(id, n) == body;
  }

  // An agent that left world y in phase p was not in another tile then.
  lemma LeftEarlier(c: Config, s: State, was: Past, u: nat, id: Id, m: nat, y: nat, body: Body, p: nat)
    requires GoodConfig(c) && AllTurned(c, s, was) && u < |s.worlds| && s.worlds[u].pc.phase < m && y != u
    requires Boundaries(c.grid, u).IsInside(was(id, m).pos) && LeftFrom(c, was, y, id, body, p)
    ensures body == was(id, m) && p < m
  {
    LastsInTile(c, s, was, u, id, m, p + 1, body);
    if m <= p {
      StaysPut(c, s, was, u, id, m, p);
      OneTile(c.grid, u, y, was(id, p).pos);
    }
  }

  lemma NotWaiting(c: Config, s: State, was: Past, u: nat, id: Id, y: nat)
    requires GoodConfig(c) && Traffic(c, s) && Hosted(s) && WellPlaced(c, s) && Recorded(c, s, was)
    requires u < |s.worlds| && s.worlds[u].pc.kind == Ghosts && !s.worlds[u].pc.stage.Compute?
    requires Boundaries(c.grid, u).IsInside(was(id, s.worlds[u].pc.phase + 1).pos)
    ensures !(id in s.place && s.place[id] == Outbox(y))
  {
    if id in s.place && s.place[id] == Outbox(y) {
      assert IsThere(s, id);
      var item :| item in s.worlds[y].outbox && item.id == id;
      assert OutboxRight(c, was, y, s.worlds[y]);
      LeftEarlier(c, s, was, u, id, s.worlds[u].pc.phase + 1, y, item.body, s.worlds[y].pc.phase);
      assert WorldPlaced(c, y, s.worlds[y]);
      OneTile(c.grid, u, item.dest, item.body.pos);
      WaitingIsLater(c, s, y, item);
    }
  }

  lemma NotFlying(c: Config, s: State, was: Past, u: nat, id: Id, src: nat, dst: nat, j: nat)
    requires GoodConfig(c) && Traffic(c, s) && Hosted(s) && WellPlaced(c, s) && Recorded(c, s, was)
    requires u < |s.worlds| && s.worlds[u].pc.kind == Ghosts && !s.worlds[u].pc.stage.Compute?
    requires Boundaries(c.grid, u).IsInside(was(id, s.worlds[u].pc.phase + 1).pos)
    ensures !(id in s.place && s.place[id] == Flight(src, dst, j))
  {
    if id in s.place && s.place[id] == Flight(src, dst, j) {
      assert IsThere(s, id);
      var key := Key(src, dst, Agents);
      var ch := s.channels[key];
      assert FlightRight(c, was, key, ch) && ItemsAddressed(c, key, ch);
      assert FlightRightAt(c, was, key, ch, j);
      var m := s.worlds[u].pc.phase + 1;
      LastsInTile(c, s, was, u, id, m, ch.items[j].phase + 1, ch.items[j].body);
      OneTile(c.grid, u, dst, ch.items[j].body.pos);
      LeftEarlier(c, s, was, u, id, m, src, ch.items[j].body, ch.items[j].phase);
      FlightIsLater(c, s, key, j);
    }
  }

  lemma OwnedByOne(c: Config, s: State, was: Past, u: nat, id: Id, y: nat)
    requires GoodConfig(c) && WellPlaced(c, s) && Recorded(c, s, was)
    requires u < |s.worlds| && y < |s.worlds| && id in s.worlds[y].owned
    requires Boundaries(c.grid, u).IsInside(was(id, s.worlds[u].pc.phase + 1).pos)
    ensures y == u
  {
    var wd := s.worlds[y];
    assert OwnedRight(was, wd) && WorldPlaced(c, y, wd);
    LastsInTile(c, s, was, u, id, s.worlds[u].pc.phase + 1, DueAt(wd, id), wd.owned[id]);
    assert InTile(c, y, wd, id);
    OneTile(c.grid, u, y, wd.owned[id].pos);
  }

  /** While a world exchanges copies after a section, it owns every agent that was in its tile at
      the end of the section. */
  lemma OwnerHasIt(c: Config, s: State, was: Past, u: nat, id: Id, body: Body)
    requires GoodConfig(c) && Traffic(c, s) && Hosted(s) && WellPlaced(c, s) && Recorded(c, s, was)
    requires u < |s.worlds| && s.worlds[u].pc.kind == Ghosts && !s.worlds[u].pc.stage.Compute? && id in s.place
    requires body == was(id, s.worlds[u].pc.phase + 1) && Boundaries(c.grid, u).IsInside(body.pos)
    ensures id in s.worlds[u].owned
  {
    assert IsThere(s, id);
    match s.place[id]
    case Owned(y) => OwnedByOne(c, s, was, u, id, y);
    case Outbox(y) => NotWaiting(c, s, was, u, id, y);
    case Flight(src, dst, j) => NotFlying(c, s, was, u, id, src, dst, j);
  }

  // ----- copies are right

  ghost predicate GhostPartners(c: Config, v: nat, w: nat, s: nat)
    requires c.grid.row > 0 && s < 4
  {
    && (w in c.targets(v, Ghosts, s) <==> AreNeighbors(c.grid, v, w) && NeedsToBeUpdated(c.grid, v, w, s))
    && (w in c.sources(v, Ghosts, s) <==> AreNeighbors(c.grid, v, w) && NeedsToReceiveData(c.grid, v, w, s))
  }

  /** Copies are exchanged with the neighbours that the tables tell. */
  ghost predicate ByTheTables(c: Config) {
    c.grid.row > 0 && forall v: nat, w: nat, s: nat ::
      v < c.grid.Worlds() && w < c.grid.Worlds() && s < 4 ==> GhostPartners(c, v, w, s)
  }

  // A copy is not in a zone that has been exchanged already, for its type.
  predicate Cleared(c: Config, u: nat, pc: Counter, body: Body)
    requires c.grid.row > 0
  {
    pc.kind == Ghosts && pc.stage.Receive? ==>
      forall i :: 0 <= i < |Senders(c, u, pc)| && Served(pc, body.type_, i) ==>
                    !InZone(c, u, Senders(c, u, pc)[i], pc.Section(), body)
  }

  predicate Served(pc: Counter, t: nat, i: nat)
    requires pc.stage.Receive?
  {
    t < pc.stage.t || (t == pc.stage.t && i < pc.stage.i)
  }

  /** A copy within the halo shows an agent of another tile, as of the end of the current section, or
      as of its beginning when the exchange has yet to come to it. */
  ghost predicate CopyRight(c: Config, r: Record, u: nat, pc: Counter, copy: Copy)
    requires c.grid.row > 0
  {
    OverlapBoundaries(c.grid, u).IsInside(copy.body.pos) ==>
      && !Boundaries(c.grid, u).IsInside(copy.body.pos)
      && (|| Known(c, r, copy.id, copy.body, pc.phase + 1)
          || (Known(c, r, copy.id, copy.body, pc.phase) && Cleared(c, u, pc, copy.body)))
  }

  ghost predicate GhostsRight(c: Config, r: Record, u: nat, pc: Counter, ghosts: set<Copy>)
    requires c.grid.row > 0
  {
    forall copy :: copy in ghosts ==> CopyRight(c, r, u, pc, copy)
  }

  // Copies to be sent, and copies just received, are right as of the end of the section.
  ghost predicate PostedRight(c: Config, r: Record, pc: Counter, outbox: set<Item>)
    requires c.grid.row > 0
  {
    pc.kind == Ghosts ==> forall item :: item in outbox ==> ItemRight(c, r, pc.phase, item)
  }

  ghost predicate ItemRight(c: Config, r: Record, p: nat, item: Item)
    requires c.grid.row > 0
  {
    Known(c, r, item.id, item.body, p + 1)
  }

  ghost predicate IncomingRight(c: Config, r: Record, u: nat, pc: Counter, incoming: set<Copy>)
    requires c.grid.row > 0
  {
    pc.kind == Ghosts && pc.stage.Receive? && pc.stage.left.Some? ==>
      forall copy :: copy in incoming ==> ArrivedRight(c, r, u, pc.phase, copy)
  }

  ghost predicate ArrivedRight(c: Config, r: Record, u: nat, p: nat, copy: Copy)
    requires c.grid.row > 0
  {
    !Boundaries(c.grid, u).IsInside(copy.body.pos) && Known(c, r, copy.id, copy.body, p + 1)
  }

  ghost predicate MessageRight(c: Config, r: Record, m: Message)
    requires c.grid.row > 0
  {
    Known(c, r, m.id, m.body, m.phase + 1)
  }

  ghost predicate ChannelRight(c: Config, r: Record, key: Key, ch: Channel)
    requires c.grid.row > 0
  {
    key.kind == Ghosts ==> forall j :: 0 <= j < |ch.items| ==> MessageRight(c, r, ch.items[j])
  }

  ghost predicate WorldRight(c: Config, r: Record, u: nat, wd: World)
    requires c.grid.row > 0
  {
    && GhostsRight(c, r, u, wd.pc, wd.ghosts) && PostedRight(c, r, wd.pc, wd.outbox)
    && IncomingRight(c, r, u, wd.pc, wd.incoming)
  }

  /** All copies in all worlds and on all channels are right. */
  ghost predicate CopiesRight(c: Config, s: State, r: Record)
    requires c.grid.row > 0
  {
    && (forall u :: 0 <= u < |s.worlds| ==> WorldRight(c, r, u, s.worlds[u]))
    && (forall key :: key in s.channels ==> ChannelRight(c, r, key, s.channels[key]))
  }

  // ----- what is right stays right when the record advances

  lemma WorldRightLater(c: Config, r: Record, r': Record, w: nat, u: nat, wd: World)
    requires c.grid.row > 0 && Advances(c, r, r', w) && WorldRight(c, r, u, wd)
    ensures WorldRight(c, r', u, wd)
  {
    forall copy | copy in wd.ghosts ensures CopyRight(c, r', u, wd.pc, copy) {
      CopyRightLater(c, r, r', w, u, wd.pc, copy);
    }
    if wd.pc.kind == Ghosts {
      forall item | item in wd.outbox ensures ItemRight(c, r', wd.pc.phase, item) {
        assert ItemRight(c, r, wd.pc.phase, item);
        KnownKept(c, r, r', w, item.id, item.body, wd.pc.phase + 1);
      }
      if wd.pc.stage.Receive? && wd.pc.stage.left.Some? {
        forall copy | copy in wd.incoming ensures ArrivedRight(c, r', u, wd.pc.phase, copy) {
          assert ArrivedRight(c, r, u, wd.pc.phase, copy);
          KnownKept(c, r, r', w, copy.id, copy.body, wd.pc.phase + 1);
        }
      }
    }
  }

  lemma CopyRightLater(c: Config, r: Record, r': Record, w: nat, u: nat, pc: Counter, copy: Copy)
    requires c.grid.row > 0 && Advances(c, r, r', w) && CopyRight(c, r, u, pc, copy)
    ensures CopyRight(c, r', u, pc, copy)
  {
    if Known(c, r, copy.id, copy.body, pc.phase + 1) { KnownKept(c, r, r', w, copy.id, copy.body, pc.phase + 1); }
    if Known(c, r, copy.id, copy.body, pc.phase) { KnownKept(c, r, r', w, copy.id, copy.body, pc.phase); }
  }

  lemma ChannelRightLater(c: Config, r: Record, r': Record, w: nat, key: Key, ch: Channel)
    requires c.grid.row > 0 && Advances(c, r, r', w) && ChannelRight(c, r, key, ch)
    ensures ChannelRight(c, r', key, ch)
  {
    if key.kind == Ghosts {
      forall j | 0 <= j < |ch.items| ensures MessageRight(c, r', ch.items[j]) {
        assert MessageRight(c, r, ch.items[j]);
        KnownKept(c, r, r', w, ch.items[j].id, ch.items[j].body, ch.items[j].phase + 1);
      }
    }
  }

  // ----- what a world sends is right

  lemma OwnedIsKnown(c: Config, s: State, was: Past, w: nat, id: Id)
    requires c.grid.row > 0 && Hosted(s) && w < |s.worlds| && OwnedRight(was, s.worlds[w]) && id in s.worlds[w].owned
    requires !s.worlds[w].pc.stage.Compute?
    ensures Known(c, RecordOf(s, was), id, s.worlds[w].owned[id], s.worlds[w].pc.phase + 1)
  {
    assert OwnedPlaced(s.place, w, s.worlds[w]);
    assert Lasts(was, id, DueAt(s.worlds[w], id), s.worlds[w].owned[id]);
  }

  lemma QuietOutside(c: Config, u: nat, p: nat, pos: Point2D)
    requires GoodConfig(c) && !Boundaries(c.grid, u).IsInside(pos)
    requires forall x: nat :: x < c.grid.Worlds() && x != u ==> !Section(c.grid, x, p % 4).IsInside(pos)
    ensures Quiet(c, p, pos)
  {
    SectionsPartition(c.grid, u, pos);
  }

  lemma ZoneIsQuiet(c: Config, w: nat, d: nat, p: nat, pos: Point2D)
    requires GoodConfig(c) && ByTheTables(c) && w < c.grid.Worlds() && d in c.targets(w, Ghosts, p % 4)
    requires ToGlobal(c.grid, w, OverlapZone(c.grid, w, d, p % 4)).IsInside(pos)
    ensures OverlapBoundaries(c.grid, w).IsInside(pos)
    ensures !Boundaries(c.grid, w).IsInside(pos) ==> Quiet(c, p, pos)
  {
    PartnersInGrid(c, w, Ghosts, p % 4);
    assert GhostPartners(c, w, d, p % 4);
    SentZoneIsClear(c.grid, w, d, p % 4, pos, w);
    forall x: nat | x < c.grid.Worlds() && x != w ensures !Section(c.grid, x, p % 4).IsInside(pos) {
      SentZoneIsClear(c.grid, w, d, p % 4, pos, x);
    }
    if !Boundaries(c.grid, w).IsInside(pos) { QuietOutside(c, w, p, pos); }
  }

  lemma CopyInZoneIsKnown(c: Config, s: State, r: Record, w: nat, pc: Counter, d: nat, copy: Copy)
    requires GoodConfig(c) && ByTheTables(c) && w < c.grid.Worlds() && d in c.targets(w, Ghosts, pc.Section())
    requires AllTurned(c, s, r.was) && CopyRight(c, r, w, pc, copy) && InZone(c, w, d, pc.Section(), copy.body)
    ensures Known(c, r, copy.id, copy.body, pc.phase + 1)
  {
    ZoneIsQuiet(c, w, d, pc.phase, copy.body.pos);
    if !Known(c, r, copy.id, copy.body, pc.phase + 1) {
      KnownLasts(c, s, r, copy.id, copy.body, pc.phase);
    }
  }

  lemma GhostItemFrom(c: Config, w: nat, wd: World, item: Item)
    requires c.grid.row > 0 && item in GhostItems(c, w, wd)
    ensures item.dest in c.targets(w, Ghosts, wd.pc.Section())
    ensures || (item.id in wd.owned && item.body == wd.owned[item.id])
            || (Copy(item.id, item.body) in wd.ghosts && InZone(c, w, item.dest, wd.pc.Section(), item.body))
  {
  }

  lemma CopyItemRight(c: Config, s: State, r: Record, w: nat, wd: World, item: Item)
    requires GoodConfig(c) && ByTheTables(c) && w < c.grid.Worlds() && AllTurned(c, s, r.was)
    requires item.dest in c.targets(w, Ghosts, wd.pc.Section()) && WorldRight(c, r, w, wd)
    requires Copy(item.id, item.body) in wd.ghosts && InZone(c, w, item.dest, wd.pc.Section(), item.body)
    ensures ItemRight(c, r, wd.pc.phase, item)
  {
    CopyInZoneIsKnown(c, s, r, w, wd.pc, item.dest, Copy(item.id, item.body));
  }

  lemma GhostItemsRight(c: Config, s: State, was: Past, w: nat, item: Item)
    requires GoodConfig(c) && ByTheTables(c) && Traffic(c, s) && Hosted(s) && Recorded(c, s, was)
    requires w < |s.worlds| && s.worlds[w].pc.stage.Receive? && WorldRight(c, RecordOf(s, was), w, s.worlds[w])
    requires item in GhostItems(c, w, s.worlds[w])
    ensures ItemRight(c, RecordOf(s, was), s.worlds[w].pc.phase, item)
  {
    var wd := s.worlds[w];
    GhostItemFrom(c, w, wd, item);
    if item.id in wd.owned && item.body == wd.owned[item.id] {
      OwnedIsKnown(c, s, was, w, item.id);
    } else {
      CopyItemRight(c, s, RecordOf(s, was), w, wd, item);
    }
  }

  // ----- what a world receives is right

  lemma MessageIsRight(c: Config, s: State, r: Record, w: nat, dropped: set<Copy>)
    requires GoodConfig(c) && Traffic(c, s) && Enabled(c, s, w, ReceiveItem(dropped)) && s.worlds[w].pc.kind == Ghosts
    requires CopiesRight(c, s, r)
    ensures MessageRight(c, r, NextMessage(c, s, w, dropped))
    ensures NextMessage(c, s, w, dropped).phase == s.worlds[w].pc.phase
  {
    var key := InKey(c, w, s.worlds[w].pc);
    ReceivedInPhase(c, s, w, dropped);
    assert ChannelRight(c, r, key, s.channels[key]);
    assert MessageRight(c, r, s.channels[key].items[s.channels[key].itemsRead]);
  }

  /** A copy that arrives for an owned agent shows it as it is. */
  lemma CopiesAreFaithful(c: Config, s: State, was: Past, w: nat, a: Action)
    requires GoodConfig(c) && Traffic(c, s) && Recorded(c, s, was) && CopiesRight(c, s, RecordOf(s, was)) && Enabled(c, s, w, a)
    ensures Faithful(c, s, w, a) && Steady(c, s, w, a)
  {
    if a.ReceiveItem? && s.worlds[w].pc.kind == Ghosts {
      var wd, msg := s.worlds[w], NextMessage(c, s, w, a.dropped);
      MessageIsRight(c, s, RecordOf(s, was), w, a.dropped);
      assert OwnedRight(was, wd);
      assert msg.id in wd.owned ==> Lasts(was, msg.id, DueAt(wd, msg.id), wd.owned[msg.id]);
    }
  }

  lemma AsArrived(c: Config, r: Record, u: nat, msg: Message)
    requires c.grid.row > 0 && MessageRight(c, r, msg) && !Boundaries(c.grid, u).IsInside(msg.body.pos)
    ensures ArrivedRight(c, r, u, msg.phase, Copy(msg.id, msg.body))
  {
  }

  lemma MessageMeans(c: Config, s: State, was: Past, msg: Message)
    requires c.grid.row > 0 && MessageRight(c, RecordOf(s, was), msg)
    ensures msg.id in s.place && msg.body == was(msg.id, msg.phase + 1)
  {
  }

  lemma OthersAreElsewhere(c: Config, s: State, was: Past, u: nat, msg: Message)
    requires GoodConfig(c) && Traffic(c, s) && Hosted(s) && WellPlaced(c, s) && Recorded(c, s, was)
    requires u < |s.worlds| && s.worlds[u].pc.kind == Ghosts && !s.worlds[u].pc.stage.Compute?
    requires msg.id in s.place && msg.body == was(msg.id, msg.phase + 1)
    requires msg.phase == s.worlds[u].pc.phase && msg.id !in s.worlds[u].owned
    ensures !Boundaries(c.grid, u).IsInside(msg.body.pos)
  {
    if Boundaries(c.grid, u).IsInside(msg.body.pos) { OwnerHasIt(c, s, was, u, msg.id, msg.body); }
  }

  lemma ArrivalIsElsewhere(c: Config, s: State, was: Past, w: nat, dropped: set<Copy>)
    requires GoodConfig(c) && Traffic(c, s) && Hosted(s) && WellPlaced(c, s) && Recorded(c, s, was)
    requires CopiesRight(c, s, RecordOf(s, was))
    requires Enabled(c, s, w, ReceiveItem(dropped)) && s.worlds[w].pc.kind == Ghosts
    requires NextMessage(c, s, w, dropped).id !in s.worlds[w].owned
    ensures var msg := NextMessage(c, s, w, dropped);
      msg.phase == s.worlds[w].pc.phase && ArrivedRight(c, RecordOf(s, was), w, msg.phase, Copy(msg.id, msg.body))
  {
    MessageIsRight(c, s, RecordOf(s, was), w, dropped);
    var msg := NextMessage(c, s, w, dropped);
    MessageMeans(c, s, was, msg);
    assert AtSender(c, w, s.worlds[w].pc);
    OthersAreElsewhere(c, s, was, w, msg);
    AsArrived(c, RecordOf(s, was), w, msg);
  }

  // ----- the exchange comes to every copy that may be out of date

  // A zone is served, and what is still in it is not of the type that was served.
  lemma ClearedAfter(c: Config, u: nat, pc: Counter, a: Action, n: nat, body: Body)
    requires GoodConfig(c) && AtAction(c, u, pc, a) && Cleared(c, u, pc, body) && !(a.EndReceive? && pc.kind == Ghosts)
    requires a.CloseReceive? && pc.kind == Ghosts && body.type_ == pc.stage.t ==>
               !InZone(c, u, InKey(c, u, pc).src, pc.Section(), body)
    ensures Cleared(c, u, NextCounter(c, u, pc, a, n), body)
  {
  }

  // When all zones are served, a position in the halo is in no section that has been executed.
  lemma ClearedAt(c: Config, u: nat, pc: Counter, body: Body, x: nat)
    requires GoodConfig(c) && ByTheTables(c) && u < c.grid.Worlds() && AtAction(c, u, pc, EndReceive) && pc.kind == Ghosts
    requires Cleared(c, u, pc, body) && body.type_ < c.types && OverlapBoundaries(c.grid, u).IsInside(body.pos)
    requires x < c.grid.Worlds() && x != u
    ensures !Section(c.grid, x, pc.Section()).IsInside(body.pos)
  {
    if Section(c.grid, x, pc.Section()).IsInside(body.pos) {
      SectionInHaloIsReceived(c.grid, u, x, pc.Section(), body.pos);
      assert GhostPartners(c, u, x, pc.Section());
      var i := IndexOf(Senders(c, u, pc), x);
      assert Served(pc, body.type_, i);
    }
  }

  lemma AllCleared(c: Config, u: nat, pc: Counter, body: Body)
    requires GoodConfig(c) && ByTheTables(c) && u < c.grid.Worlds() && AtAction(c, u, pc, EndReceive) && pc.kind == Ghosts
    requires Cleared(c, u, pc, body) && body.type_ < c.types
    requires OverlapBoundaries(c.grid, u).IsInside(body.pos) && !Boundaries(c.grid, u).IsInside(body.pos)
    ensures Quiet(c, pc.phase, body.pos)
  {
    forall x: nat | x < c.grid.Worlds() && x != u ensures !Section(c.grid, x, pc.phase % 4).IsInside(body.pos) {
      ClearedAt(c, u, pc, body, x);
    }
    QuietOutside(c, u, pc.phase, body.pos);
  }

  lemma CopyAtTheEnd(c: Config, s: State, r: Record, u: nat, pc: Counter, copy: Copy)
    requires GoodConfig(c) && ByTheTables(c) && u < c.grid.Worlds() && AtAction(c, u, pc, EndReceive) && pc.kind == Ghosts
    requires CopyRight(c, r, u, pc, copy) && copy.body.type_ < c.types && AllTurned(c, s, r.was)
    ensures CopyRight(c, r, u, Counter(pc.phase + 1, Agents, Compute), copy)
  {
    if OverlapBoundaries(c.grid, u).IsInside(copy.body.pos) && !Known(c, r, copy.id, copy.body, pc.phase + 1) {
      AllCleared(c, u, pc, copy.body);
      KnownLasts(c, s, r, copy.id, copy.body, pc.phase);
    }
  }

  // ----- one action keeps copies right

  // The counter of a world that has not finished the section moves on.
  lemma CopyRightMoved(c: Config, r: Record, u: nat, pc: Counter, a: Action, n: nat, copy: Copy)
    requires GoodConfig(c) && AtAction(c, u, pc, a) && CopyRight(c, r, u, pc, copy) && !(a.EndReceive? && pc.kind == Ghosts)
    requires a.CloseReceive? && pc.kind == Ghosts && copy.body.type_ == pc.stage.t ==>
               !InZone(c, u, InKey(c, u, pc).src, pc.Section(), copy.body)
    ensures CopyRight(c, r, u, NextCounter(c, u, pc, a, n), copy)
  {
    if Cleared(c, u, pc, copy.body) { ClearedAfter(c, u, pc, a, n, copy.body); }
  }

  lemma IncomingBecomesRight(c: Config, r: Record, u: nat, pc: Counter, pc': Counter, copy: Copy)
    requires c.grid.row > 0 && ArrivedRight(c, r, u, pc.phase, copy) && pc'.phase == pc.phase
    ensures CopyRight(c, r, u, pc', copy)
  {
  }

  // The agent that leaves is kept as a copy.
  lemma LeavingIsRight(c: Config, s: State, s': State, w: nat, a: Action, was: Past)
    requires GoodConfig(c) && Traffic(c, s) && Hosted(s) && Moves(c, s, s', w, a) && OwnedRight(was, s.worlds[w])
    requires a.Execute? && Relocates(c, s, w, a) && s'.place.Keys == s.place.Keys
    ensures var m := Migrant(c, s, w, a);
            CopyRight(c, RecordOf(s', PastAfter(c, s, w, a, was)), w, s.worlds[w].pc, Copy(m.id, m.body))
  {
    PastOfExecuted(c, s, w, a.id, a.pos, was);
    DueWhenMoved(c, s, s', w, a);
  }

  // Where the copies that a world has after an action come from.
  lemma GhostsAfter(c: Config, s: State, w: nat, a: Action, copy: Copy)
    requires GoodConfig(c) && Enabled(c, s, w, a) && copy in NextWorld(c, s, w, a).ghosts
    ensures || (copy in s.worlds[w].ghosts
                && (a.CloseReceive? && s.worlds[w].pc.kind == Ghosts && copy.body.type_ == s.worlds[w].pc.stage.t ==>
                      !InZone(c, w, InKey(c, w, s.worlds[w].pc).src, s.worlds[w].pc.Section(), copy.body)))
            || (a.Execute? && Relocates(c, s, w, a) && copy == Copy(a.id, Migrant(c, s, w, a).body))
            || (a.CloseReceive? && s.worlds[w].pc.kind == Ghosts && copy in s.worlds[w].incoming)
  {
  }

  lemma CopyRightAfter(c: Config, s: State, s': State, r: Record, w: nat, a: Action, copy: Copy)
    requires GoodConfig(c) && ByTheTables(c) && w < c.grid.Worlds() && Moves(c, s, s', w, a)
    requires CopyRight(c, r, w, s.worlds[w].pc, copy) && copy.body.type_ < c.types && AllTurned(c, s', r.was)
    requires a.CloseReceive? && s.worlds[w].pc.kind == Ghosts && copy.body.type_ == s.worlds[w].pc.stage.t ==>
               !InZone(c, w, InKey(c, w, s.worlds[w].pc).src, s.worlds[w].pc.Section(), copy.body)
    ensures CopyRight(c, r, w, NextWorld(c, s, w, a).pc, copy)
  {
    var pc := s.worlds[w].pc;
    if a.EndReceive? && pc.kind == Ghosts {
      CopyAtTheEnd(c, s', r, w, pc, copy);
    } else {
      CopyRightMoved(c, r, w, pc, a, if a.ReceiveHeader? then NextHeader(c, s, w).n else 0, copy);
    }
  }

  // The state before an action, with the record after it.
  ghost predicate Ready(c: Config, s: State, s': State, w: nat, a: Action, was: Past)
    requires GoodConfig(c)
  {
    && ByTheTables(c) && Traffic(c, s) && Hosted(s) && WellPlaced(c, s) && Recorded(c, s, was)
    && CopiesRight(c, s, RecordOf(s, was)) && Moves(c, s, s', w, a) && s'.place.Keys == s.place.Keys
    && Recorded(c, s', PastAfter(c, s, w, a, was))
  }

  lemma GhostsRightKept(c: Config, s: State, s': State, w: nat, a: Action, was: Past)
    requires GoodConfig(c) && Ready(c, s, s', w, a, was)
    requires WorldRight(c, RecordOf(s', PastAfter(c, s, w, a, was)), w, s.worlds[w])
    ensures GhostsRight(c, RecordOf(s', PastAfter(c, s, w, a, was)), w, s'.worlds[w].pc, s'.worlds[w].ghosts)
  {
    var wd, wd', r' := s.worlds[w], s'.worlds[w], RecordOf(s', PastAfter(c, s, w, a, was));
    assert GoodWorld(c, w, wd) && OwnedRight(was, wd);
    forall copy | copy in wd'.ghosts ensures CopyRight(c, r', w, wd'.pc, copy) {
      GhostsAfter(c, s, w, a, copy);
      if a.Execute? && Relocates(c, s, w, a) && copy == Copy(a.id, Migrant(c, s, w, a).body) {
        LeavingIsRight(c, s, s', w, a, was);
      } else if copy in wd.ghosts && !(a.CloseReceive? && wd.pc.kind == Ghosts && copy in wd.incoming) {
        CopyRightAfter(c, s, s', r', w, a, copy);
      } else {
        IncomingBecomesRight(c, r', w, wd.pc, wd'.pc, copy);
      }
    }
  }

  // What a world that exchanges copies has to send.
  lemma PostedAfter(c: Config, s: State, w: nat, a: Action, item: Item)
    requires GoodConfig(c) && Enabled(c, s, w, a) && !(s.worlds[w].pc.stage.Compute? && s.worlds[w].pc.kind == Ghosts)
    requires NextWorld(c, s, w, a).pc.kind == Ghosts && item in NextWorld(c, s, w, a).outbox
    ensures NextWorld(c, s, w, a).pc.phase == s.worlds[w].pc.phase
    ensures if s.worlds[w].pc.kind == Ghosts then item in s.worlds[w].outbox
            else s.worlds[w].pc.stage.Receive? && item in GhostItems(c, w, s.worlds[w])
  {
  }

  lemma ItemRightLater(c: Config, r: Record, r': Record, w: nat, p: nat, item: Item)
    requires c.grid.row > 0 && Advances(c, r, r', w) && ItemRight(c, r, p, item)
    ensures ItemRight(c, r', p, item)
  {
    KnownKept(c, r, r', w, item.id, item.body, p + 1);
  }

  lemma PostedRightAt(c: Config, s: State, r': Record, w: nat, a: Action, was: Past, item: Item)
    requires GoodConfig(c) && ByTheTables(c) && Traffic(c, s) && Hosted(s) && Recorded(c, s, was) && Enabled(c, s, w, a)
    requires Advances(c, RecordOf(s, was), r', w) && WorldRight(c, RecordOf(s, was), w, s.worlds[w])
    requires NextWorld(c, s, w, a).pc.kind == Ghosts && item in NextWorld(c, s, w, a).outbox
    ensures ItemRight(c, r', s.worlds[w].pc.phase, item)
  {
    assert GoodWorld(c, w, s.worlds[w]);
    PostedAfter(c, s, w, a, item);
    if s.worlds[w].pc.kind == Agents { GhostItemsRight(c, s, was, w, item); }
    ItemRightLater(c, RecordOf(s, was), r', w, s.worlds[w].pc.phase, item);
  }

  lemma PostedRightKept(c: Config, s: State, r': Record, w: nat, a: Action, was: Past)
    requires GoodConfig(c) && ByTheTables(c) && Traffic(c, s) && Hosted(s) && Recorded(c, s, was) && Enabled(c, s, w, a)
    requires Advances(c, RecordOf(s, was), r', w) && WorldRight(c, RecordOf(s, was), w, s.worlds[w])
    ensures PostedRight(c, r', NextWorld(c, s, w, a).pc, NextWorld(c, s, w, a).outbox)
  {
    var wd' := NextWorld(c, s, w, a);
    assert GoodWorld(c, w, s.worlds[w]);
    if wd'.pc.kind == Ghosts {
      forall item | item in wd'.outbox ensures ItemRight(c, r', wd'.pc.phase, item) {
        PostedAfter(c, s, w, a, item);
        PostedRightAt(c, s, r', w, a, was, item);
      }
    }
  }

  lemma ArrivedRightLater(c: Config, r: Record, r': Record, w: nat, p: nat, copy: Copy)
    requires c.grid.row > 0 && Advances(c, r, r', w) && ArrivedRight(c, r, w, p, copy)
    ensures ArrivedRight(c, r', w, p, copy)
  {
    KnownKept(c, r, r', w, copy.id, copy.body, p + 1);
  }

  // The copies that have arrived for a zone.
  lemma IncomingAfter(c: Config, s: State, w: nat, a: Action, copy: Copy)
    requires GoodConfig(c) && Enabled(c, s, w, a) && copy in NextWorld(c, s, w, a).incoming
    requires var pc' := NextWorld(c, s, w, a).pc; pc'.kind == Ghosts && pc'.stage.Receive? && pc'.stage.left.Some?
    ensures a.ReceiveItem? && s.worlds[w].pc.kind == Ghosts && NextWorld(c, s, w, a).pc.phase == s.worlds[w].pc.phase
    ensures var msg := NextMessage(c, s, w, a.dropped);
            copy in s.worlds[w].incoming || (msg.id !in s.worlds[w].owned && copy == Copy(msg.id, msg.body))
  {
  }

  lemma IncomingRightAt(c: Config, s: State, r': Record, w: nat, a: Action, was: Past, copy: Copy)
    requires GoodConfig(c) && Traffic(c, s) && Hosted(s) && WellPlaced(c, s) && Recorded(c, s, was)
    requires CopiesRight(c, s, RecordOf(s, was)) && Enabled(c, s, w, a) && copy in NextWorld(c, s, w, a).incoming
    requires Advances(c, RecordOf(s, was), r', w)
    requires var pc' := NextWorld(c, s, w, a).pc; pc'.kind == Ghosts && pc'.stage.Receive? && pc'.stage.left.Some?
    ensures ArrivedRight(c, r', w, s.worlds[w].pc.phase, copy)
  {
    var wd, r := s.worlds[w], RecordOf(s, was);
    IncomingAfter(c, s, w, a, copy);
    if copy in wd.incoming {
      assert WorldRight(c, r, w, wd);
      assert ArrivedRight(c, r, w, wd.pc.phase, copy);
    } else {
      ArrivalIsElsewhere(c, s, was, w, a.dropped);
    }
    ArrivedRightLater(c, r, r', w, wd.pc.phase, copy);
  }

  lemma IncomingRightKept(c: Config, s: State, r': Record, w: nat, a: Action, was: Past)
    requires GoodConfig(c) && Traffic(c, s) && Hosted(s) && WellPlaced(c, s) && Recorded(c, s, was)
    requires CopiesRight(c, s, RecordOf(s, was)) && Enabled(c, s, w, a) && Advances(c, RecordOf(s, was), r', w)
    ensures IncomingRight(c, r', w, NextWorld(c, s, w, a).pc, NextWorld(c, s, w, a).incoming)
  {
    var wd' := NextWorld(c, s, w, a);
    if wd'.pc.kind == Ghosts && wd'.pc.stage.Receive? && wd'.pc.stage.left.Some? {
      forall copy | copy in wd'.incoming ensures ArrivedRight(c, r', w, wd'.pc.phase, copy) {
        IncomingAfter(c, s, w, a, copy);
        IncomingRightAt(c, s, r', w, a, was, copy);
      }
    }
  }

  lemma ChannelRightKept(c: Config, s: State, w: nat, a: Action, r: Record, key: Key)
    requires GoodConfig(c) && Enabled(c, s, w, a) && key in s.channels && ChannelRight(c, r, key, s.channels[key])
    requires WorldRight(c, r, w, s.worlds[w])
    ensures key in NextChannels(c, s, w, a) && ChannelRight(c, r, key, NextChannels(c, s, w, a)[key])
  {
    var ch, ch' := s.channels[key], NextChannels(c, s, w, a)[key];
    if key.kind == Ghosts {
      forall j | 0 <= j < |ch'.items| ensures MessageRight(c, r, ch'.items[j]) {
        if j < |ch.items| { assert MessageRight(c, r, ch.items[j]); }
      }
    }
  }

  /** Every action keeps all copies right. */
  lemma CopiesRightKept(c: Config, s: State, s': State, w: nat, a: Action, was: Past)
    requires GoodConfig(c) && Ready(c, s, s', w, a, was)
    ensures CopiesRight(c, s', RecordOf(s', PastAfter(c, s, w, a, was)))
  {
    var r, r' := RecordOf(s, was), RecordOf(s', PastAfter(c, s, w, a, was));
    RecordAdvances(c, s, s', w, a, was);
    forall u | 0 <= u < |s.worlds| ensures WorldRight(c, r', u, s.worlds[u]) && WorldRight(c, r', u, s'.worlds[u]) {
      WorldRightLater(c, r, r', w, u, s.worlds[u]);
      if u == w {
        GhostsRightKept(c, s, s', w, a, was);
        PostedRightKept(c, s, r', w, a, was);
        IncomingRightKept(c, s, r', w, a, was);
      }
    }
    forall key | key in s'.channels ensures ChannelRight(c, r', key, s'.channels[key]) {
      ChannelRightLater(c, r, r', w, key, s.channels[key]);
      ChannelRightKept(c, s, w, a, r', key);
    }
  }

  // ----- every run from right copies

  /** At the start, every copy within the halo of a world is that of an agent of another world. */
  ghost predicate CoherentStart(c: Config, s: State)
    requires GoodConfig(c) && Init(c, s)
  {
    forall w :: 0 <= w < |s.worlds| ==> CopiesShowOwners(c, s, w, s.worlds[w].ghosts)
  }

  ghost predicate CopiesShowOwners(c: Config, s: State, w: nat, ghosts: set<Copy>)
    requires c.grid.row > 0 && w < |s.worlds|
  {
    forall copy :: copy in ghosts && OverlapBoundaries(c.grid, w).IsInside(copy.body.pos) ==> ShowsOwner(s, w, copy)
  }

  ghost predicate ShowsOwner(s: State, w: nat, copy: Copy) {
    exists x: nat :: x < |s.worlds| && x != w && copy.id in s.worlds[x].owned && copy.body == s.worlds[x].owned[copy.id]
  }

  lemma CopyRightInitially(c: Config, s: State, w: nat, copy: Copy)
    requires GoodConfig(c) && Init(c, s) && w < |s.worlds| && ShowsOwner(s, w, copy)
    ensures CopyRight(c, RecordOf(s, PastInitially(s)), w, s.worlds[w].pc, copy)
  {
    var x: nat :| x < |s.worlds| && x != w && copy.id in s.worlds[x].owned && copy.body == s.worlds[x].owned[copy.id];
    assert InitialWorld(c, s, x) && InitialWorld(c, s, w);
    if Boundaries(c.grid, w).IsInside(copy.body.pos) { OneTile(c.grid, w, x, copy.body.pos); }
  }

  lemma CopiesRightInitially(c: Config, s: State)
    requires GoodConfig(c) && Init(c, s) && CoherentStart(c, s)
    ensures CopiesRight(c, s, RecordOf(s, PastInitially(s)))
  {
    var r := RecordOf(s, PastInitially(s));
    forall w | 0 <= w < |s.worlds| ensures WorldRight(c, r, w, s.worlds[w]) {
      assert InitialWorld(c, s, w) && CopiesShowOwners(c, s, w, s.worlds[w].ghosts);
      forall copy | copy in s.worlds[w].ghosts ensures CopyRight(c, r, w, s.worlds[w].pc, copy) {
        if OverlapBoundaries(c.grid, w).IsInside(copy.body.pos) { CopyRightInitially(c, s, w, copy); }
      }
    }
  }

  /** The record of a run up to state k. */
  ghost function PastAt(c: Config, run: seq<State>, moves: seq<(nat, Action)>, k: nat): Past
    requires GoodConfig(c) && IsRun(c, run, moves) && k < |run|
  {
    if k == 0 then PastInitially(run[0])
    else
      var j := k - 1;
      assert Moves(c, run[j], run[j + 1], moves[j].0, moves[j].1);
      PastAfter(c, run[j], moves[j].0, moves[j].1, PastAt(c, run, moves, j))
  }

  ghost predicate AllRight(c: Config, s: State, was: Past)
    requires GoodConfig(c)
  {
    Traffic(c, s) && Hosted(s) && WellPlaced(c, s) && Recorded(c, s, was) && CopiesRight(c, s, RecordOf(s, was))
  }

  lemma AllRightInitially(c: Config, s: State)
    requires GoodConfig(c) && Init(c, s) && CoherentStart(c, s)
    ensures AllRight(c, s, PastInitially(s))
  {
    TrafficInitially(c, s);
    LedgerInitially(c, s, true);
    RecordedInitially(c, s);
    CopiesRightInitially(c, s);
  }

  lemma AllRightKept(c: Config, s: State, s': State, w: nat, a: Action, was: Past)
    requires GoodConfig(c) && ByTheTables(c) && AllRight(c, s, was) && Moves(c, s, s', w, a)
    ensures Steady(c, s, w, a) && AllRight(c, s', PastAfter(c, s, w, a, was))
  {
    CopiesAreFaithful(c, s, was, w, a);
    TrafficKept(c, s, w, a);
    HostedKept(c, s, s', w, a);
    WellPlacedKept(c, s, s', w, a);
    RecordedKept(c, s, s', w, a, was);
    CopiesRightKept(c, s, s', w, a, was);
  }

  lemma {:induction false} AlwaysRight(c: Config, run: seq<State>, moves: seq<(nat, Action)>, k: nat)
    requires GoodConfig(c) && ByTheTables(c) && IsRun(c, run, moves) && k < |run| && CoherentStart(c, run[0])
    ensures AllRight(c, run[k], PastAt(c, run, moves, k))
  {
    if k == 0 {
      AllRightInitially(c, run[0]);
    } else {
      var j := k - 1;
      AlwaysRight(c, run, moves, j);
      assert Moves(c, run[j], run[j + 1], moves[j].0, moves[j].1);
      AllRightKept(c, run[j], run[j + 1], moves[j].0, moves[j].1, PastAt(c, run, moves, j));
    }
  }

  /** When the copies at the start are right, no copy that arrives ever moves an agent that the
      receiver owns. */
  lemma OwnersAloneMoveAgents(c: Config, run: seq<State>, moves: seq<(nat, Action)>)
    requires GoodConfig(c) && ByTheTables(c) && IsRun(c, run, moves) && CoherentStart(c, run[0])
    ensures SteadyRun(c, run, moves)
  {
    forall k | 0 <= k < |moves| ensures SteadyMove(c, run[k], moves[k]) {
      AlwaysRight(c, run, moves, k);
      assert Moves(c, run[k], run[k + 1], moves[k].0, moves[k].1);
      AllRightKept(c, run[k], run[k + 1], moves[k].0, moves[k].1, PastAt(c, run, moves, k));
    }
  }

  /** In every run, a copy in the halo of a world that is about to execute a section shows the agent
      as its owner has it, unless the owner has executed the agent since. */
  lemma CopiesShowAgents(c: Config, run: seq<State>, moves: seq<(nat, Action)>, k: nat, u: nat, copy: Copy, w: nat)
    requires GoodConfig(c) && ByTheTables(c) && IsRun(c, run, moves) && k < |run| && CoherentStart(c, run[0])
    requires u < |run[k].worlds| && w < |run[k].worlds| && run[k].worlds[u].pc.stage.Compute?
    requires copy in run[k].worlds[u].ghosts && OverlapBoundaries(c.grid, u).IsInside(copy.body.pos)
    ensures copy.id in run[0].place && !Boundaries(c.grid, u).IsInside(copy.body.pos)
    ensures copy.id in run[k].worlds[w].owned && DueAt(run[k].worlds[w], copy.id) <= run[k].worlds[u].pc.phase ==>
              copy.body == run[k].worlds[w].owned[copy.id]
  {
    var s, was := run[k], PastAt(c, run, moves, k);
    AlwaysRight(c, run, moves, k);
    AgentsConserved(c, run, moves, k);
    assert WorldRight(c, RecordOf(s, was), u, s.worlds[u]);
    assert CopyRight(c, RecordOf(s, was), u, s.worlds[u].pc, copy);
    assert OwnedRight(was, s.worlds[w]);
    if copy.id in s.worlds[w].owned {
      assert Lasts(was, copy.id, DueAt(s.worlds[w], copy.id), s.worlds[w].owned[copy.id]);
    }
  }

  /** In every run from right copies that has finished, every agent was executed exactly once in
      every step. */
  lemma ExecutedOnceInEveryStep(c: Config, run: seq<State>, moves: seq<(nat, Action)>, k: nat, id: Id, t: nat)
    requires GoodConfig(c) && ByTheTables(c) && IsRun(c, run, moves) && k < |run| && CoherentStart(c, run[0])
    requires id in run[0].place && Finished(c, run[k])
    ensures (t, id) in run[k].log <==> t < c.steps
    ensures NeverTwice(run[k].log)
  {
    OwnersAloneMoveAgents(c, run, moves);
    OnceInSteadyRun(c, run, moves, k, id, t);
  }

  /** In every state of every run from right copies, every agent that is owned is owned by the world
      in whose tile it is. */
  lemma OwnersAreInPlace(c: Config, run: seq<State>, moves: seq<(nat, Action)>, k: nat, w: nat, id: Id)
    requires GoodConfig(c) && ByTheTables(c) && IsRun(c, run, moves) && k < |run| && CoherentStart(c, run[0])
    requires w < |run[k].worlds| && id in run[k].worlds[w].owned
    ensures Boundaries(c.grid, w).IsInside(run[k].worlds[w].owned[id].pos)
    ensures w == IdFromPosition(c.grid, run[k].worlds[w].owned[id].pos)
  {
    OwnersAloneMoveAgents(c, run, moves);
    InPlaceInSteadyRun(c, run, moves, k, w, id);
  }

  /** The program exchanges copies by the tables. */
  lemma SetUpByTheTables(g: Grid, types: nat, steps: nat)
    requires GoodGrid(g) && types > 0
    ensures GoodConfig(SetUp(g, types, steps)) && ByTheTables(SetUp(g, types, steps))
  {
    var c := SetUp(g, types, steps);
    SetUpIsGood(g, types, steps);
    forall v: nat, w: nat, s: nat | v < g.Worlds() && w < g.Worlds() && s < 4 ensures GhostPartners(c, v, w, s) {
      NeighborsAre(g, v);
      SelectTargetsAre(g, v, s, Neighbors(g, v));
      SelectSourcesAre(g, v, s, Neighbors(g, v));
    }
  }
}
