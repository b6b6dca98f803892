/** How agents have moved so far, phase by phase.

    The record of a run tells for every agent how it was before each phase, and in which phase it can
    be executed next at the earliest.  Agents that are owned, wait or travel are as the record says. */
module WorldHistory {
  import opened WorldGeometry
  import opened WorldProtocol
  import opened WorldTraffic
  import opened WorldAgents
  import opened WorldExecution

  type Past = (Id, nat) -> Body

  /** The agents, the phase in which each of them is due, and how it was before every phase. */
  datatype Record = Record(ids: set<Id>, due: Id -> nat, was: Past)

  // The phase in which world wd can execute agent id next.
  function DueAt(wd: World, id: Id): nat {
    wd.pc.phase + if wd.pc.stage.Compute? && id !in wd.executed then 0 else 1
  }

  ghost function Due(s: State, id: Id): nat {
    if id !in s.place then 0
    else match s.place[id]
         case Owned(w) => if w < |s.worlds| then DueAt(s.worlds[w], id) else 0
         case Outbox(w) => if w < |s.worlds| then s.worlds[w].pc.phase + 1 else 0
         case Flight(src, dst, j) =>
           var key := Key(src, dst, Agents);
           if key in s.channels && j < |s.channels[key].items| then s.channels[key].items[j].phase + 1 else 0
  }

  ghost function RecordOf(s: State, was: Past): Record {
    Record(s.place.Keys, id => Due(s, id), was)
  }

  // An agent executed in phase p is another one from then on.
  function Rewritten(was: Past, id: Id, p: nat, body: Body): Past {
    (i: Id, n: nat) => if i == id && n > p then body else was(i, n)
  }

  ghost function PastAfter(c: Config, s: State, w: nat, a: Action, was: Past): Past
    requires GoodConfig(c) && Enabled(c, s, w, a)
  {
    match a
    case Execute(id, pos) => Rewritten(was, id, s.worlds[w].pc.phase, s.worlds[w].owned[id].(pos := pos))
    case _ => was
  }

  ghost function PastInitially(s: State): Past {
    (id: Id, n: nat) =>
      if id in s.place && s.place[id].Owned? && s.place[id].w < |s.worlds| && id in s.worlds[s.place[id].w].owned
      then s.worlds[s.place[id].w].owned[id] else Body(Point2D(0, 0), 0)
  }

  // ----- what is known for good

  // No world executes what is at this position in phase m.
  ghost predicate Quiet(c: Config, m: nat, pos: Point2D)
    requires c.grid.row > 0
  {
    forall x: nat :: x < c.grid.Worlds() ==> !Section(c.grid, x, m % 4).IsInside(pos)
  }

  /** How agent id was before phase m is not going to change any more: from the phase in which it is
      due it is where no world executes it. */
  ghost predicate Firm(c: Config, r: Record, id: Id, m: nat)
    requires c.grid.row > 0
  {
    forall n: nat :: r.due(id) <= n < m ==> Quiet(c, n, r.was(id, n).pos)
  }

  /** A copy is right as of phase m. */
  ghost predicate Known(c: Config, r: Record, id: Id, body: Body, m: nat)
    requires c.grid.row > 0
  {
    id in r.ids && body == r.was(id, m) && Firm(c, r, id, m)
  }

  // The agent is executed, in the phase in which it is due and by the world whose section it is in.
  ghost predicate ExecutedIn(c: Config, r: Record, r': Record, id: Id, w: nat)
    requires c.grid.row > 0
  {
    var d := r.due(id);
    && w < c.grid.Worlds() && Section(c.grid, w, d % 4).IsInside(r.was(id, d).pos)
    && d < r'.due(id) && forall n :: 0 <= n <= d ==> r'.was(id, n) == r.was(id, n)
  }

  /** What an action of world w may do to the record. */
  ghost predicate Advances(c: Config, r: Record, r': Record, w: nat)
    requires c.grid.row > 0
  {
    && r'.ids == r.ids
    && forall id :: id in r.ids ==> AgentAdvances(c, r, r', id, w)
  }

  ghost predicate AgentAdvances(c: Config, r: Record, r': Record, id: Id, w: nat)
    requires c.grid.row > 0
  {
    && r.due(id) <= r'.due(id)
    && (ExecutedIn(c, r, r', id, w) || forall n: nat :: r'.was(id, n) == r.was(id, n))
  }

  lemma FirmKept(c: Config, r: Record, r': Record, id: Id, w: nat, m: nat)
    requires c.grid.row > 0 && AgentAdvances(c, r, r', id, w) && Firm(c, r, id, m)
    ensures Firm(c, r', id, m) && r'.was(id, m) == r.was(id, m)
  {
    if m > r.due(id) {
      assert Quiet(c, r.due(id), r.was(id, r.due(id)).pos);
    }
  }

  lemma KnownKept(c: Config, r: Record, r': Record, w: nat, id: Id, body: Body, m: nat)
    requires c.grid.row > 0 && Advances(c, r, r', w) && Known(c, r, id, body, m)
    ensures Known(c, r', id, body, m)
  {
    FirmKept(c, r, r', id, w, m);
  }

  // ----- agents change only where they are executed

  predicate TurnOf(c: Config, s: State, pos: Point2D, x: nat, m: nat)
    requires c.grid.row > 0
  {
    && x < |s.worlds| && x < c.grid.Worlds() && Section(c.grid, x, m % 4).IsInside(pos)
    && s.worlds[x].pc.phase >= m
  }

  ghost predicate Turned(c: Config, s: State, was: Past, id: Id, m: nat)
    requires c.grid.row > 0
  {
    was(id, m + 1) == was(id, m) || exists x: nat :: TurnOf(c, s, was(id, m).pos, x, m)
  }

  /** An agent that was changed in a phase was in that section of a world that has reached the phase. */
  ghost predicate AllTurned(c: Config, s: State, was: Past)
    requires c.grid.row > 0
  {
    forall id, m: nat :: Turned(c, s, was, id, m)
  }

  lemma KnownLasts(c: Config, s: State, r: Record, id: Id, body: Body, m: nat)
    requires c.grid.row > 0 && Known(c, r, id, body, m) && Quiet(c, m, body.pos) && AllTurned(c, s, r.was)
    ensures Known(c, r, id, body, m + 1)
  {
    assert Turned(c, s, r.was, id, m);
  }

  // ----- agents are as the record says

  ghost predicate Lasts(was: Past, id: Id, m: nat, body: Body) {
    forall n :: n >= m ==> was(id, n) == body
  }

  ghost predicate OwnedRight(was: Past, wd: World) {
    forall id :: id in wd.owned ==> Lasts(was, id, DueAt(wd, id), wd.owned[id])
  }

  // An agent that left tile w in phase p.
  ghost predicate LeftFrom(c: Config, was: Past, w: nat, id: Id, body: Body, p: nat)
    requires c.grid.row > 0
  {
    Lasts(was, id, p + 1, body) && Boundaries(c.grid, w).IsInside(was(id, p).pos)
  }

  ghost predicate OutboxRight(c: Config, was: Past, w: nat, wd: World)
    requires c.grid.row > 0
  {
    wd.pc.kind == Agents ==> forall item :: item in wd.outbox ==> LeftFrom(c, was, w, item.id, item.body, wd.pc.phase)
  }

  ghost predicate FlightRightAt(c: Config, was: Past, key: Key, ch: Channel, j: nat)
    requires c.grid.row > 0 && j < |ch.items|
  {
    LeftFrom(c, was, key.src, ch.items[j].id, ch.items[j].body, ch.items[j].phase)
  }

  ghost predicate FlightRight(c: Config, was: Past, key: Key, ch: Channel)
    requires c.grid.row > 0
  {
    key.kind == Agents ==> forall j :: ch.itemsRead <= j < |ch.items| ==> FlightRightAt(c, was, key, ch, j)
  }

  /** The record of the agents is right. */
  ghost predicate Recorded(c: Config, s: State, was: Past)
    requires c.grid.row > 0
  {
    && AllTurned(c, s, was)
    && (forall w :: 0 <= w < |s.worlds| ==> OwnedRight(was, s.worlds[w]) && OutboxRight(c, was, w, s.worlds[w]))
    && (forall key :: key in s.channels ==> FlightRight(c, was, key, s.channels[key]))
  }

  // ----- one action keeps the record right

  lemma PastOfOthers(c: Config, s: State, w: nat, a: Action, was: Past, id: Id)
    requires GoodConfig(c) && Enabled(c, s, w, a) && !(a.Execute? && a.id == id)
    ensures forall n: nat :: PastAfter(c, s, w, a, was)(id, n) == was(id, n)
  {
  }

  // Executing an agent: it was as owned, and is as moved.
  lemma PastOfExecuted(c: Config, s: State, w: nat, id: Id, pos: Point2D, was: Past)
    requires GoodConfig(c) && Enabled(c, s, w, Execute(id, pos)) && OwnedRight(was, s.worlds[w])
    ensures var p, was' := s.worlds[w].pc.phase, PastAfter(c, s, w, Execute(id, pos), was);
      && was(id, p) == s.worlds[w].owned[id] && (forall n :: n >= p ==> was(id, n) == was(id, p))
      && Lasts(was', id, p + 1, s.worlds[w].owned[id].(pos := pos))
      && (forall n :: 0 <= n <= p ==> was'(id, n) == was(id, n))
  {
    assert Lasts(was, id, DueAt(s.worlds[w], id), s.worlds[w].owned[id]);
  }

  lemma PhaseAfter(c: Config, s: State, w: nat, a: Action)
    requires GoodConfig(c) && Enabled(c, s, w, a)
    ensures var pc, pc' := s.worlds[w].pc, NextWorld(c, s, w, a).pc;
      pc'.phase == pc.phase + if a.EndReceive? && pc.kind == Ghosts then 1 else 0
  {
  }

  lemma TurnedKept(c: Config, s: State, s': State, w: nat, a: Action, was: Past, id: Id, m: nat)
    requires GoodConfig(c) && |s.worlds| == c.grid.Worlds() && Moves(c, s, s', w, a)
    requires OwnedRight(was, s.worlds[w]) && Turned(c, s, was, id, m)
    ensures Turned(c, s', PastAfter(c, s, w, a, was), id, m)
  {
    var was' := PastAfter(c, s, w, a, was);
    PhaseAfter(c, s, w, a);
    if a.Execute? && a.id == id {
      PastOfExecuted(c, s, w, id, a.pos, was);
      if m == s.worlds[w].pc.phase { assert TurnOf(c, s', was'(id, m).pos, w, m); }
    } else {
      PastOfOthers(c, s, w, a, was, id);
    }
    if x: nat :| TurnOf(c, s, was(id, m).pos, x, m) { assert TurnOf(c, s', was(id, m).pos, x, m); }
  }

  lemma DueWhenSent(c: Config, s: State, s': State, w: nat, item: Item)
    requires GoodConfig(c) && Hosted(s) && Moves(c, s, s', w, SendItem(item)) && s.worlds[w].pc.kind == Agents
    ensures item.id in s.place && Due(s', item.id) == Due(s, item.id)
  {
    MovedIsFound(c, s, w, SendItem(item));
    FlightAfter(c, s, w, SendItem(item), OutKey(c, w, s.worlds[w].pc));
  }

  // An agent that is received counts as executed: it is due after the phase in which it was sent.
  lemma DueOfArrived(c: Config, s: State, w: nat, dropped: set<Copy>)
    requires GoodConfig(c) && Enabled(c, s, w, ReceiveItem(dropped)) && s.worlds[w].pc.kind == Agents
    ensures var id := NextMessage(c, s, w, dropped).id;
      && NextPlace(c, s, w, ReceiveItem(dropped)) == s.place[id := Owned(w)]
      && DueAt(NextWorld(c, s, w, ReceiveItem(dropped)), id) == s.worlds[w].pc.phase + 1
  {
  }

  lemma DueInFlight(c: Config, s: State, w: nat, dropped: set<Copy>)
    requires GoodConfig(c) && Traffic(c, s) && Hosted(s) && Enabled(c, s, w, ReceiveItem(dropped))
    requires s.worlds[w].pc.kind == Agents
    ensures NextMessage(c, s, w, dropped).id in s.place
    ensures Due(s, NextMessage(c, s, w, dropped).id) == s.worlds[w].pc.phase + 1
  {
    MovedIsFound(c, s, w, ReceiveItem(dropped));
    ReceivedInPhase(c, s, w, dropped);
  }

  lemma DueWhenReceived(c: Config, s: State, s': State, w: nat, dropped: set<Copy>)
    requires GoodConfig(c) && Traffic(c, s) && Hosted(s) && Moves(c, s, s', w, ReceiveItem(dropped))
    requires s.worlds[w].pc.kind == Agents
    ensures var id := NextMessage(c, s, w, dropped).id; id in s.place && Due(s', id) == Due(s, id)
  {
    DueInFlight(c, s, w, dropped);
    DueOfArrived(c, s, w, dropped);
  }

  lemma DueWhenMoved(c: Config, s: State, s': State, w: nat, a: Action)
    requires GoodConfig(c) && Traffic(c, s) && Hosted(s) && Moves(c, s, s', w, a) && Relocates(c, s, w, a)
    ensures var id := Subject(c, s, w, a);
            id in s.place && Due(s', id) == if a.Execute? then s.worlds[w].pc.phase + 1 else Due(s, id)
  {
    match a
    case Execute(_, _) => MovedIsFound(c, s, w, a);
    case SendItem(item) => DueWhenSent(c, s, s', w, item);
    case ReceiveItem(dropped) => DueWhenReceived(c, s, s', w, dropped);
  }

  lemma DueOfOwned(c: Config, s: State, w: nat, a: Action, id: Id)
    requires GoodConfig(c) && Enabled(c, s, w, a)
    ensures DueAt(s.worlds[w], id) <= DueAt(NextWorld(c, s, w, a), id)
    ensures a.Execute? && id == a.id ==> DueAt(NextWorld(c, s, w, a), id) == s.worlds[w].pc.phase + 1
  {
  }

  lemma DueOfOthers(c: Config, s: State, s': State, w: nat, a: Action, id: Id)
    requires GoodConfig(c) && Hosted(s) && Moves(c, s, s', w, a) && id in s.place
    requires !(Relocates(c, s, w, a) && id == Subject(c, s, w, a))
    ensures Due(s, id) <= Due(s', id)
    ensures a.Execute? && id == a.id ==> Due(s', id) == s.worlds[w].pc.phase + 1
  {
    PlacesKept(c, s, w, a, id);
    assert IsThere(s, id);
    assert OwnedPlaced(s.place, w, s.worlds[w]);
    match s.place[id]
    case Owned(u) => DueOfOwned(c, s, w, a, id);
    case Outbox(u) => PhaseAfter(c, s, w, a);
    case Flight(src, dst, j) => FlightAfter(c, s, w, a, Key(src, dst, Agents));
  }

  lemma DueOfExecuted(c: Config, s: State, w: nat, id: Id, pos: Point2D)
    requires GoodConfig(c) && Hosted(s) && Enabled(c, s, w, Execute(id, pos))
    ensures id in s.place && s.place[id] == Owned(w) && Due(s, id) == s.worlds[w].pc.phase
  {
    assert OwnedPlaced(s.place, w, s.worlds[w]);
  }

  /** Every action advances the record. */
  lemma RecordAdvances(c: Config, s: State, s': State, w: nat, a: Action, was: Past)
    requires GoodConfig(c) && Traffic(c, s) && Hosted(s) && Moves(c, s, s', w, a) && OwnedRight(was, s.worlds[w])
    requires s'.place.Keys == s.place.Keys
    ensures Advances(c, RecordOf(s, was), RecordOf(s', PastAfter(c, s, w, a, was)), w)
  {
    var r, r' := RecordOf(s, was), RecordOf(s', PastAfter(c, s, w, a, was));
    forall id | id in r.ids ensures AgentAdvances(c, r, r', id, w) {
      if Relocates(c, s, w, a) && id == Subject(c, s, w, a) {
        DueWhenMoved(c, s, s', w, a);
      } else {
        DueOfOthers(c, s, s', w, a, id);
      }
      if a.Execute? && id == a.id {
        DueOfExecuted(c, s, w, id, a.pos);
        PastOfExecuted(c, s, w, id, a.pos, was);
        assert ExecutedIn(c, r, r', id, w);
      } else {
        PastOfOthers(c, s, w, a, was, id);
      }
    }
  }

  /** A copy that arrives for an owned agent shows it as it is. */
  ghost predicate Faithful(c: Config, s: State, w: nat, a: Action)
    requires GoodConfig(c) && Enabled(c, s, w, a)
  {
    a.ReceiveItem? && s.worlds[w].pc.kind == Ghosts ==>
      var msg := NextMessage(c, s, w, a.dropped);
      msg.id in s.worlds[w].owned ==> msg.body == s.worlds[w].owned[msg.id]
  }

  lemma ArrivalIsRight(c: Config, s: State, w: nat, dropped: set<Copy>, was: Past)
    requires GoodConfig(c) && Traffic(c, s) && Enabled(c, s, w, ReceiveItem(dropped)) && Recorded(c, s, was)
    requires s.worlds[w].pc.kind == Agents
    ensures Lasts(was, NextMessage(c, s, w, dropped).id, s.worlds[w].pc.phase + 1, NextMessage(c, s, w, dropped).body)
  {
    var key := InKey(c, w, s.worlds[w].pc);
    ReceivedInPhase(c, s, w, dropped);
    assert FlightRight(c, was, key, s.channels[key]);
    assert FlightRightAt(c, was, key, s.channels[key], s.channels[key].itemsRead);
  }

  lemma LastsAfter(c: Config, s: State, w: nat, a: Action, was: Past, id: Id, m: nat, body: Body)
    requires GoodConfig(c) && Enabled(c, s, w, a) && Lasts(was, id, m, body) && !(a.Execute? && a.id == id)
    ensures Lasts(PastAfter(c, s, w, a, was), id, m, body)
  {
    PastOfOthers(c, s, w, a, was, id);
  }

  lemma StillOwned(c: Config, s: State, w: nat, a: Action, id: Id)
    requires GoodConfig(c) && Enabled(c, s, w, a) && Faithful(c, s, w, a) && id in NextWorld(c, s, w, a).owned
    requires !(a.Execute? && id == a.id)
    requires !(a.ReceiveItem? && s.worlds[w].pc.kind == Agents && id == NextMessage(c, s, w, a.dropped).id)
    ensures id in s.worlds[w].owned && NextWorld(c, s, w, a).owned[id] == s.worlds[w].owned[id]
  {
  }

  lemma OwnedRightAt(c: Config, s: State, w: nat, a: Action, was: Past, id: Id)
    requires GoodConfig(c) && Traffic(c, s) && Enabled(c, s, w, a) && Recorded(c, s, was) && Faithful(c, s, w, a)
    requires id in NextWorld(c, s, w, a).owned
    ensures Lasts(PastAfter(c, s, w, a, was), id, DueAt(NextWorld(c, s, w, a), id), NextWorld(c, s, w, a).owned[id])
  {
    var wd := s.worlds[w];
    assert OwnedRight(was, wd);
    DueOfOwned(c, s, w, a, id);
    if a.Execute? && id == a.id {
      PastOfExecuted(c, s, w, id, a.pos, was);
    } else if a.ReceiveItem? && wd.pc.kind == Agents && id == NextMessage(c, s, w, a.dropped).id {
      ArrivalIsRight(c, s, w, a.dropped, was);
    } else {
      StillOwned(c, s, w, a, id);
      LastsAfter(c, s, w, a, was, id, DueAt(wd, id), wd.owned[id]);
    }
  }

  lemma OwnedRightKept(c: Config, s: State, w: nat, a: Action, was: Past)
    requires GoodConfig(c) && Traffic(c, s) && Enabled(c, s, w, a) && Recorded(c, s, was) && Faithful(c, s, w, a)
    ensures OwnedRight(PastAfter(c, s, w, a, was), NextWorld(c, s, w, a))
  {
    forall id | id in NextWorld(c, s, w, a).owned
      ensures Lasts(PastAfter(c, s, w, a, was), id, DueAt(NextWorld(c, s, w, a), id), NextWorld(c, s, w, a).owned[id])
    {
      OwnedRightAt(c, s, w, a, was, id);
    }
  }

  lemma OwnedRightElsewhere(c: Config, s: State, w: nat, a: Action, was: Past, u: nat)
    requires GoodConfig(c) && Hosted(s) && Enabled(c, s, w, a) && u < |s.worlds| && u != w && OwnedRight(was, s.worlds[u])
    ensures OwnedRight(PastAfter(c, s, w, a, was), s.worlds[u])
  {
    assert OwnedPlaced(s.place, u, s.worlds[u]) && OwnedPlaced(s.place, w, s.worlds[w]);
    forall id | id in s.worlds[u].owned
      ensures Lasts(PastAfter(c, s, w, a, was), id, DueAt(s.worlds[u], id), s.worlds[u].owned[id])
    {
      LastsAfter(c, s, w, a, was, id, DueAt(s.worlds[u], id), s.worlds[u].owned[id]);
    }
  }

  lemma LeftFromAfter(c: Config, s: State, w: nat, a: Action, was: Past, u: nat, id: Id, body: Body, p: nat)
    requires GoodConfig(c) && Enabled(c, s, w, a) && LeftFrom(c, was, u, id, body, p) && !(a.Execute? && a.id == id)
    ensures LeftFrom(c, PastAfter(c, s, w, a, was), u, id, body, p)
  {
    PastOfOthers(c, s, w, a, was, id);
  }

  lemma LeavesFrom(c: Config, s: State, w: nat, a: Action, was: Past)
    requires GoodConfig(c) && Enabled(c, s, w, a) && a.Execute? && Relocates(c, s, w, a) && OwnedRight(was, s.worlds[w])
    ensures LeftFrom(c, PastAfter(c, s, w, a, was), w, a.id, Migrant(c, s, w, a).body, s.worlds[w].pc.phase)
  {
    PastOfExecuted(c, s, w, a.id, a.pos, was);
    SectionsPartition(c.grid, w, s.worlds[w].owned[a.id].pos);
  }

  lemma OutboxRightKept(c: Config, s: State, w: nat, a: Action, was: Past)
    requires GoodConfig(c) && Traffic(c, s) && Hosted(s) && Enabled(c, s, w, a) && Recorded(c, s, was)
    ensures OutboxRight(c, PastAfter(c, s, w, a, was), w, NextWorld(c, s, w, a))
  {
    var wd, wd', was' := s.worlds[w], NextWorld(c, s, w, a), PastAfter(c, s, w, a, was);
    assert GoodWorld(c, w, wd) && OwnedPlaced(s.place, w, wd) && OutboxPlaced(s.place, w, wd);
    assert OwnedRight(was, wd) && OutboxRight(c, was, w, wd);
    if wd'.pc.kind == Agents {
      PhaseAfter(c, s, w, a);
      forall item | item in wd'.outbox ensures LeftFrom(c, was', w, item.id, item.body, wd'.pc.phase) {
        OutboxAfter(c, s, w, a, item);
        if a.Execute? && Relocates(c, s, w, a) && item == Migrant(c, s, w, a) {
          LeavesFrom(c, s, w, a, was);
        } else {
          LeftFromAfter(c, s, w, a, was, w, item.id, item.body, wd.pc.phase);
        }
      }
    }
  }

  lemma OutboxRightElsewhere(c: Config, s: State, w: nat, a: Action, was: Past, u: nat)
    requires GoodConfig(c) && Hosted(s) && Enabled(c, s, w, a) && u < |s.worlds| && u != w
    requires OutboxRight(c, was, u, s.worlds[u])
    ensures OutboxRight(c, PastAfter(c, s, w, a, was), u, s.worlds[u])
  {
    var wd := s.worlds[u];
    assert OutboxPlaced(s.place, u, wd) && OwnedPlaced(s.place, w, s.worlds[w]);
    if wd.pc.kind == Agents {
      forall item | item in wd.outbox ensures LeftFrom(c, PastAfter(c, s, w, a, was), u, item.id, item.body, wd.pc.phase) {
        LeftFromAfter(c, s, w, a, was, u, item.id, item.body, wd.pc.phase);
      }
    }
  }

  lemma FlightRightKept(c: Config, s: State, w: nat, a: Action, was: Past, key: Key)
    requires GoodConfig(c) && Hosted(s) && Enabled(c, s, w, a) && Recorded(c, s, was) && key in s.channels
    ensures key in NextChannels(c, s, w, a)
    ensures FlightRight(c, PastAfter(c, s, w, a, was), key, NextChannels(c, s, w, a)[key])
  {
    if key.kind == Agents {
      FlightAfter(c, s, w, a, key);
      var ch' := NextChannels(c, s, w, a)[key];
      forall j | ch'.itemsRead <= j < |ch'.items| ensures FlightRightAt(c, PastAfter(c, s, w, a, was), key, ch', j) {
        FlightRightAtKept(c, s, w, a, was, key, j);
      }
    }
  }

  lemma FlightRightAtKept(c: Config, s: State, w: nat, a: Action, was: Past, key: Key, j: nat)
    requires GoodConfig(c) && Hosted(s) && Enabled(c, s, w, a) && Recorded(c, s, was)
    requires key in s.channels && key.kind == Agents && key in NextChannels(c, s, w, a)
    requires NextChannels(c, s, w, a)[key].itemsRead <= j < |NextChannels(c, s, w, a)[key].items|
    ensures FlightRightAt(c, PastAfter(c, s, w, a, was), key, NextChannels(c, s, w, a)[key], j)
  {
    FlightAfter(c, s, w, a, key);
    var ch := s.channels[key];
    assert OwnedPlaced(s.place, w, s.worlds[w]) && FlightPlaced(s.place, key, ch) && FlightRight(c, was, key, ch);
    if j < |ch.items| {
      assert FlightPlacedAt(s.place, key, ch, j) && FlightRightAt(c, was, key, ch, j);
      LeftFromAfter(c, s, w, a, was, key.src, ch.items[j].id, ch.items[j].body, ch.items[j].phase);
    } else {
      assert OutboxRight(c, was, w, s.worlds[w]);
    }
  }

  lemma WorldsRecordedKept(c: Config, s: State, s': State, w: nat, a: Action, was: Past, u: nat)
    requires GoodConfig(c) && Traffic(c, s) && Hosted(s) && Moves(c, s, s', w, a) && Recorded(c, s, was)
    requires Faithful(c, s, w, a) && u < |s.worlds|
    ensures OwnedRight(PastAfter(c, s, w, a, was), s'.worlds[u]) && OutboxRight(c, PastAfter(c, s, w, a, was), u, s'.worlds[u])
  {
    if u == w {
      OwnedRightKept(c, s, w, a, was);
      OutboxRightKept(c, s, w, a, was);
    } else {
      OwnedRightElsewhere(c, s, w, a, was, u);
      OutboxRightElsewhere(c, s, w, a, was, u);
    }
  }

  lemma ChannelsRecordedKept(c: Config, s: State, w: nat, a: Action, was: Past)
    requires GoodConfig(c) && Hosted(s) && Enabled(c, s, w, a) && Recorded(c, s, was)
    ensures forall key :: key in NextChannels(c, s, w, a) ==> FlightRight(c, PastAfter(c, s, w, a, was), key, NextChannels(c, s, w, a)[key])
  {
    forall key | key in NextChannels(c, s, w, a)
      ensures FlightRight(c, PastAfter(c, s, w, a, was), key, NextChannels(c, s, w, a)[key])
    {
      FlightRightKept(c, s, w, a, was, key);
    }
  }

  lemma AllTurnedKept(c: Config, s: State, s': State, w: nat, a: Action, was: Past)
    requires GoodConfig(c) && |s.worlds| == c.grid.Worlds() && Moves(c, s, s', w, a)
    requires OwnedRight(was, s.worlds[w]) && AllTurned(c, s, was)
    ensures AllTurned(c, s', PastAfter(c, s, w, a, was))
  {
    forall id, m: nat ensures Turned(c, s', PastAfter(c, s, w, a, was), id, m) {
      TurnedKept(c, s, s', w, a, was, id, m);
    }
  }

  /** Every action keeps the record right, if copies that arrive for owned agents show them as they are. */
  lemma RecordedKept(c: Config, s: State, s': State, w: nat, a: Action, was: Past)
    requires GoodConfig(c) && Traffic(c, s) && Hosted(s) && Moves(c, s, s', w, a) && Recorded(c, s, was)
    requires Faithful(c, s, w, a)
    ensures Recorded(c, s', PastAfter(c, s, w, a, was))
  {
    forall u | 0 <= u < |s'.worlds|
      ensures OwnedRight(PastAfter(c, s, w, a, was), s'.worlds[u]) && OutboxRight(c, PastAfter(c, s, w, a, was), u, s'.worlds[u])
    {
      WorldsRecordedKept(c, s, s', w, a, was, u);
    }
    ChannelsRecordedKept(c, s, w, a, was);
    AllTurnedKept(c, s, s', w, a, was);
  }

  lemma RecordedInitially(c: Config, s: State)
    requires GoodConfig(c) && Init(c, s)
    ensures Recorded(c, s, PastInitially(s))
  {
    forall w | 0 <= w < |s.worlds|
      ensures OwnedRight(PastInitially(s), s.worlds[w]) && OutboxRight(c, PastInitially(s), w, s.worlds[w])
    {
      assert InitialWorld(c, s, w);
    }
  }
}
