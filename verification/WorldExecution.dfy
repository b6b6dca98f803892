/** When agents are executed: never twice in a step, in any interleaving; and exactly once in every
    step, by the world in whose tile they are, when only their own execution moves them. */
module WorldExecution {
  import opened Common
  import opened WorldGeometry
  import opened WorldProtocol
  import opened WorldPartners
  import opened WorldTraffic
  import opened WorldAgents

  // ----- an agent is received in the phase and for the type for which it was sent

  lemma PhaseOfHeader(c: Config, key: Key, headers: seq<Header>, k: nat, p: nat)
    requires c.grid.row > 0 && k < |headers| && HeaderStamp(c, key, headers, k)
    requires Headers(c, key.src, key.dst, key.kind, p) <= k < Headers(c, key.src, key.dst, key.kind, p) + c.types
    requires key.dst in c.targets(key.src, key.kind, p % 4)
    ensures headers[k].phase == p
  {
    var ph := headers[k].phase;
    if ph < p { HeadersMonotone(c, key.src, key.dst, key.kind, ph, p); }
    if p < ph { HeadersMonotone(c, key.src, key.dst, key.kind, p, ph); }
  }

  lemma HeaderReceivedLast(c: Config, w: nat, pc: Counter)
    requires GoodConfig(c) && w < c.grid.Worlds() && AtSender(c, w, pc) && pc.stage.left.Some?
    ensures Received(c, w, pc, InKey(c, w, pc).src, pc.kind)
         == Headers(c, InKey(c, w, pc).src, w, pc.kind, pc.phase) + pc.stage.t + 1
  {
    ServedSender(c, w, pc);
  }

  // The same for one channel, without the rest of the state.
  lemma ItemOfPhase(c: Config, key: Key, ch: Channel, missing: nat, p: nat, t: nat)
    requires c.grid.row > 0 && ReadSoFar(ch, ch.headersRead, missing) && missing > 0 && ch.itemsRead < |ch.items|
    requires HeadersStamped(c, key, ch.headers) && ItemsStamped(c, key, ch.headers, ch.items)
    requires key.dst in c.targets(key.src, key.kind, p % 4) && t < c.types
    requires ch.headersRead == Headers(c, key.src, key.dst, key.kind, p) + t + 1
    ensures ch.items[ch.itemsRead].phase == p && ch.items[ch.itemsRead].body.type_ == t
  {
    NextItem(c, key, ch, ch.headersRead, missing);
    PhaseOfHeader(c, key, ch.headers, ch.headersRead - 1, p);
  }

  /** What is received was sent in the phase that the receiver is in, and has the type that it
      expects. */
  lemma ReceivedInPhase(c: Config, s: State, w: nat, dropped: set<Copy>)
    requires GoodConfig(c) && Traffic(c, s) && Enabled(c, s, w, ReceiveItem(dropped))
    ensures NextMessage(c, s, w, dropped).phase == s.worlds[w].pc.phase
    ensures NextMessage(c, s, w, dropped).body.type_ == s.worlds[w].pc.stage.t
  {
    var pc := s.worlds[w].pc;
    var key := InKey(c, w, pc);
    ServedSender(c, w, pc);
    HeaderReceivedLast(c, w, pc);
    assert GoodChannel(c, s, key);
    ItemOfPhase(c, key, s.channels[key], pc.stage.left.value, pc.phase, pc.stage.t);
  }

  // ----- where agents are to be executed

  /** The proviso: copies that arrive for an owned agent do not move it. */
  ghost predicate Steady(c: Config, s: State, w: nat, a: Action)
    requires GoodConfig(c) && Enabled(c, s, w, a)
  {
    a.ReceiveItem? && s.worlds[w].pc.kind == Ghosts ==>
      var msg := NextMessage(c, s, w, a.dropped);
      msg.id in s.worlds[w].owned ==> msg.body.pos == s.worlds[w].owned[msg.id].pos
  }

  ghost predicate SteadyRun(c: Config, run: seq<State>, moves: seq<(nat, Action)>)
    requires GoodConfig(c) && IsRun(c, run, moves)
  {
    forall k :: 0 <= k < |moves| ==> SteadyMove(c, run[k], moves[k])
  }

  ghost predicate SteadyMove(c: Config, s: State, move: (nat, Action))
    requires GoodConfig(c)
  {
    Enabled(c, s, move.0, move.1) ==> Steady(c, s, move.0, move.1)
  }

  // Not in a section of this step that is over.
  predicate Waiting(c: Config, w: nat, pc: Counter, pos: Point2D)
    requires c.grid.row > 0
  {
    forall n :: 0 <= n < 4 && (n < pc.Section() || (n == pc.Section() && !pc.stage.Compute?)) ==>
                  !Section(c.grid, w, n).IsInside(pos)
  }

  ghost predicate InTile(c: Config, w: nat, wd: World, id: Id)
    requires c.grid.row > 0 && id in wd.owned
  {
    && Boundaries(c.grid, w).IsInside(wd.owned[id].pos)
    && (id !in wd.executed ==> Waiting(c, w, wd.pc, wd.owned[id].pos))
  }

  ghost predicate Addressed(c: Config, dst: nat, body: Body)
    requires c.grid.row > 0
  {
    Boundaries(c.grid, dst).IsInside(body.pos)
  }

  /** Owned agents are in the tile of the owner, those still to be executed in a section to come;
      agents on their way are sent to the world in whose tile they are. */
  ghost predicate WellPlaced(c: Config, s: State)
    requires c.grid.row > 0
  {
    && (forall w :: 0 <= w < |s.worlds| ==> WorldPlaced(c, w, s.worlds[w]))
    && (forall key :: key in s.channels && key.kind == Agents ==> ItemsAddressed(c, key, s.channels[key]))
  }

  ghost predicate WorldPlaced(c: Config, w: nat, wd: World)
    requires c.grid.row > 0
  {
    && (forall id :: id in wd.owned ==> InTile(c, w, wd, id))
    && (wd.pc.kind == Agents ==> forall item :: item in wd.outbox ==> Addressed(c, item.dest, item.body))
  }

  ghost predicate ItemsAddressed(c: Config, key: Key, ch: Channel)
    requires c.grid.row > 0
  {
    forall j :: 0 <= j < |ch.items| ==> Addressed(c, key.dst, ch.items[j].body)
  }

  // What a copy that arrives does to an owned agent.
  lemma StaysThere(c: Config, s: State, w: nat, a: Action, id: Id)
    requires GoodConfig(c) && Enabled(c, s, w, a) && Steady(c, s, w, a) && id in s.worlds[w].owned
    requires id in NextWorld(c, s, w, a).owned && !(a.ReceiveItem? && s.worlds[w].pc.kind == Agents) && !(a.Execute? && a.id == id)
    ensures NextWorld(c, s, w, a).owned[id].pos == s.worlds[w].owned[id].pos
  {
  }

  // An agent that stays in its world stays in the tile, and is executed when its section is.
  lemma StaysInTile(c: Config, s: State, w: nat, a: Action, id: Id)
    requires GoodConfig(c) && Enabled(c, s, w, a) && Steady(c, s, w, a) && id in s.worlds[w].owned
    requires id in NextWorld(c, s, w, a).owned && !(a.ReceiveItem? && s.worlds[w].pc.kind == Agents)
    requires InTile(c, w, s.worlds[w], id)
    ensures InTile(c, w, NextWorld(c, s, w, a), id)
  {
    var wd := s.worlds[w];
    if !(a.Execute? && a.id == id) {
      StaysThere(c, s, w, a, id);
      if id !in NextWorld(c, s, w, a).executed { StillWaits(c, s, w, a, id); }
    }
  }

  // An agent that is not executed does not see its section go by.
  lemma StillWaits(c: Config, s: State, w: nat, a: Action, id: Id)
    requires GoodConfig(c) && Enabled(c, s, w, a) && id in s.worlds[w].owned && InTile(c, w, s.worlds[w], id)
    requires id !in NextWorld(c, s, w, a).executed
    ensures Waiting(c, w, NextWorld(c, s, w, a).pc, s.worlds[w].owned[id].pos)
  {
    var wd := s.worlds[w];
    if a.FinishCompute? {
      assert !Eligible(c, w, wd, id);
    } else if a.EndReceive? && wd.pc.kind == Ghosts && id !in wd.executed {
      SectionsPartition(c.grid, w, wd.owned[id].pos);
    }
  }

  lemma ArrivesInTile(c: Config, s: State, w: nat, a: Action, id: Id)
    requires GoodConfig(c) && Enabled(c, s, w, a) && a.ReceiveItem? && s.worlds[w].pc.kind == Agents
    requires id in NextWorld(c, s, w, a).owned
    requires id in s.worlds[w].owned ==> InTile(c, w, s.worlds[w], id)
    requires ItemsAddressed(c, InKey(c, w, s.worlds[w].pc), s.channels[InKey(c, w, s.worlds[w].pc)])
    ensures InTile(c, w, NextWorld(c, s, w, a), id)
  {
    assert id == NextMessage(c, s, w, a.dropped).id ==> Addressed(c, w, NextMessage(c, s, w, a.dropped).body);
  }

  lemma WorldPlacedKept(c: Config, s: State, w: nat, a: Action)
    requires GoodConfig(c) && Traffic(c, s) && WellPlaced(c, s) && Enabled(c, s, w, a) && Steady(c, s, w, a)
    ensures WorldPlaced(c, w, NextWorld(c, s, w, a))
  {
    var wd, wd' := s.worlds[w], NextWorld(c, s, w, a);
    assert GoodWorld(c, w, wd) && WorldPlaced(c, w, wd);
    forall id | id in wd'.owned ensures InTile(c, w, wd', id) {
      OwnedAfter(c, s, w, a, id);
      if a.ReceiveItem? && wd.pc.kind == Agents {
        ArrivesInTile(c, s, w, a, id);
      } else {
        StaysInTile(c, s, w, a, id);
      }
    }
    if wd'.pc.kind == Agents {
      forall item | item in wd'.outbox ensures Addressed(c, item.dest, item.body) {
        OutboxAfter(c, s, w, a, item);
        if a.Execute? { OwnerOfPosition(c.grid, w, a.pos); }
      }
    }
  }

  lemma ItemsAddressedKept(c: Config, s: State, w: nat, a: Action, key: Key)
    requires GoodConfig(c) && WellPlaced(c, s) && Enabled(c, s, w, a) && key in s.channels && key.kind == Agents
    ensures key in NextChannels(c, s, w, a) && ItemsAddressed(c, key, NextChannels(c, s, w, a)[key])
  {
    FlightAfter(c, s, w, a, key);
    assert ItemsAddressed(c, key, s.channels[key]);
    if a.SendItem? && key == OutKey(c, w, s.worlds[w].pc) {
      assert WorldPlaced(c, w, s.worlds[w]);
      assert Addressed(c, a.item.dest, a.item.body);
    }
  }

  lemma WellPlacedKept(c: Config, s: State, s': State, w: nat, a: Action)
    requires GoodConfig(c) && Traffic(c, s) && WellPlaced(c, s) && Moves(c, s, s', w, a) && Steady(c, s, w, a)
    ensures WellPlaced(c, s')
  {
    forall u | 0 <= u < |s'.worlds| ensures WorldPlaced(c, u, s'.worlds[u]) {
      if u == w { WorldPlacedKept(c, s, w, a); } else { assert WorldPlaced(c, u, s.worlds[u]); }
    }
    AllAddressedKept(c, s, w, a);
  }

  lemma AllAddressedKept(c: Config, s: State, w: nat, a: Action)
    requires GoodConfig(c) && WellPlaced(c, s) && Enabled(c, s, w, a)
    ensures forall key :: key in NextChannels(c, s, w, a) && key.kind == Agents ==> ItemsAddressed(c, key, NextChannels(c, s, w, a)[key])
  {
    forall key | key in NextChannels(c, s, w, a) && key.kind == Agents
      ensures ItemsAddressed(c, key, NextChannels(c, s, w, a)[key])
    {
      ItemsAddressedKept(c, s, w, a, key);
    }
  }

  // ----- the log of executions

  /** Agent id is due for step t: it has not been executed in step t or later, and, in a steady run,
      it has been executed in all steps before. */
  ghost predicate DueIn(log: seq<(nat, Id)>, id: Id, t: nat, steady: bool) {
    && (forall k :: 0 <= k < |log| && log[k].1 == id ==> log[k].0 < t)
    && (steady ==> forall u: nat :: u < t ==> (u, id) in log)
  }

  /** The next step in which an agent is to be executed, as its place tells. */
  ghost function NextStep(s: State, id: Id): nat
    requires id in s.place && IsThere(s, id)
  {
    match s.place[id]
    case Owned(w) => StepOf(s.worlds[w], id)
    case Outbox(w) => s.worlds[w].pc.Step() + 1
    case Flight(src, dst, j) => s.channels[Key(src, dst, Agents)].items[j].phase / 4 + 1
  }

  ghost predicate NeverTwice(log: seq<(nat, Id)>) {
    forall i, j :: 0 <= i < j < |log| ==> log[i] != log[j]
  }

  ghost predicate WithinSteps(c: Config, log: seq<(nat, Id)>) {
    forall i :: 0 <= i < |log| ==> log[i].0 < c.steps
  }

  ghost predicate Ledger(c: Config, s: State, steady: bool)
    requires Hosted(s)
  {
    && NeverTwice(s.log) && WithinSteps(c, s.log)
    && forall id :: id in s.place ==> DueIn(s.log, id, NextStep(s, id), steady)
  }

  // The step in which world wd would execute agent id next.
  function StepOf(wd: World, id: Id): nat { wd.pc.Step() + if id in wd.executed then 1 else 0 }

  // The end of a step brings an agent that was not executed to the next step.
  ghost predicate StepEnds(s: State, w: nat, a: Action, id: Id)
    requires w < |s.worlds|
  {
    var wd := s.worlds[w];
    a.EndReceive? && wd.pc.kind == Ghosts && wd.pc.Section() == 3 && id !in wd.executed
  }

  lemma StepOfOwned(c: Config, s: State, w: nat, a: Action, id: Id)
    requires GoodConfig(c) && Enabled(c, s, w, a) && !(a.Execute? && id == a.id)
    requires !(a.ReceiveItem? && s.worlds[w].pc.kind == Agents && id == Subject(c, s, w, a))
    ensures StepOf(NextWorld(c, s, w, a), id) == StepOf(s.worlds[w], id) + if StepEnds(s, w, a, id) then 1 else 0
  {
  }

  lemma StepInOutbox(c: Config, s: State, w: nat, a: Action)
    requires GoodConfig(c) && Enabled(c, s, w, a)
    ensures NextWorld(c, s, w, a).pc.Step() == s.worlds[w].pc.Step()
         || (s.worlds[w].pc.kind == Ghosts && NextWorld(c, s, w, a).pc.kind == Agents)
  {
  }

  // Agents that the action is not about are due when they were, or their step ends.
  lemma NextStepOfOthers(c: Config, s: State, s': State, w: nat, a: Action, id: Id)
    requires GoodConfig(c) && Hosted(s) && Hosted(s') && Moves(c, s, s', w, a) && id in s.place
    requires !(Relocates(c, s, w, a) && id == Subject(c, s, w, a)) && !(a.Execute? && id == a.id)
    ensures id in s'.place && s'.place[id] == s.place[id]
    ensures NextStep(s', id) == NextStep(s, id) + if s.place[id] == Owned(w) && StepEnds(s, w, a, id) then 1 else 0
  {
    PlacesKept(c, s, w, a, id);
    assert IsThere(s, id) && IsThere(s', id);
    match s.place[id]
    case Owned(u) => if u == w { StepOfOwned(c, s, w, a, id); }
    case Outbox(u) => if u == w { StepInOutbox(c, s, w, a); }
    case Flight(src, dst, j) => FlightAfter(c, s, w, a, Key(src, dst, Agents));
  }

  // Executing an agent brings it to the next step; sending and receiving it do not.
  lemma NextStepWhenExecuted(c: Config, s: State, s': State, w: nat, id: Id, pos: Point2D)
    requires GoodConfig(c) && Hosted(s) && Hosted(s') && Moves(c, s, s', w, Execute(id, pos))
    ensures id in s.place && id in s'.place
    ensures NextStep(s, id) == s.worlds[w].pc.Step() && NextStep(s', id) == s.worlds[w].pc.Step() + 1
  {
    assert OwnedPlaced(s.place, w, s.worlds[w]);
    assert IsThere(s, id) && IsThere(s', id);
  }

  lemma NextStepWhenSent(c: Config, s: State, s': State, w: nat, item: Item)
    requires GoodConfig(c) && Hosted(s) && Hosted(s') && Moves(c, s, s', w, SendItem(item)) && s.worlds[w].pc.kind == Agents
    ensures item.id in s.place && item.id in s'.place && NextStep(s', item.id) == NextStep(s, item.id)
  {
    MovedIsFound(c, s, w, SendItem(item));
    assert IsThere(s, item.id) && IsThere(s', item.id);
    FlightAfter(c, s, w, SendItem(item), OutKey(c, w, s.worlds[w].pc));
  }

  lemma NextStepWhenReceived(c: Config, s: State, s': State, w: nat, dropped: set<Copy>)
    requires GoodConfig(c) && Traffic(c, s) && Hosted(s) && Hosted(s')
    requires Moves(c, s, s', w, ReceiveItem(dropped)) && s.worlds[w].pc.kind == Agents
    ensures var id := NextMessage(c, s, w, dropped).id;
            id in s.place && id in s'.place && NextStep(s', id) == NextStep(s, id)
  {
    MovedIsFound(c, s, w, ReceiveItem(dropped));
    ReceivedInPhase(c, s, w, dropped);
    var id := NextMessage(c, s, w, dropped).id;
    assert IsThere(s, id) && IsThere(s', id);
  }

  // In a steady run nobody is left out when a step ends.
  lemma NobodyLeftOut(c: Config, s: State, w: nat, a: Action, id: Id)
    requires GoodConfig(c) && Hosted(s) && WellPlaced(c, s) && Enabled(c, s, w, a)
    requires id in s.place && s.place[id] == Owned(w)
    ensures !StepEnds(s, w, a, id)
  {
    assert IsThere(s, id);
    assert WorldPlaced(c, w, s.worlds[w]);
    assert InTile(c, w, s.worlds[w], id);
    SectionsPartition(c.grid, w, s.worlds[w].owned[id].pos);
  }

  lemma DueKept(c: Config, s: State, s': State, w: nat, a: Action, id: Id, steady: bool)
    requires GoodConfig(c) && Traffic(c, s) && Hosted(s) && Hosted(s') && Moves(c, s, s', w, a) && Ledger(c, s, steady)
    requires steady ==> WellPlaced(c, s)
    requires id in s.place && !a.Execute?
    ensures id in s'.place && DueIn(s'.log, id, NextStep(s', id), steady)
  {
    assert DueIn(s.log, id, NextStep(s, id), steady);
    if Relocates(c, s, w, a) && id == Subject(c, s, w, a) {
      if a.SendItem? { NextStepWhenSent(c, s, s', w, a.item); } else { NextStepWhenReceived(c, s, s', w, a.dropped); }
    } else {
      NextStepOfOthers(c, s, s', w, a, id);
      if steady && s.place[id] == Owned(w) { NobodyLeftOut(c, s, w, a, id); }
    }
  }

  // Logging an execution in the step in which the agent is due.
  lemma DueAfterLogging(log: seq<(nat, Id)>, id: Id, t: nat, doer: Id, u: nat, steady: bool)
    requires DueIn(log, id, t, steady) && (id == doer ==> t == u)
    ensures DueIn(log + [(u, doer)], id, if id == doer then t + 1 else t, steady)
  {
    var log' := log + [(u, doer)];
    assert log'[|log|] == (u, doer);
    assert forall v: nat :: (v, id) in log ==> (v, id) in log';
  }

  lemma NeverTwiceAfterLogging(log: seq<(nat, Id)>, doer: Id, u: nat, steady: bool)
    requires NeverTwice(log) && DueIn(log, doer, u, steady)
    ensures NeverTwice(log + [(u, doer)])
  {
  }

  lemma DueKeptExecuting(c: Config, s: State, s': State, w: nat, doer: Id, pos: Point2D, id: Id, steady: bool)
    requires GoodConfig(c) && Hosted(s) && Hosted(s') && Moves(c, s, s', w, Execute(doer, pos)) && Ledger(c, s, steady)
    requires id in s.place
    ensures id in s'.place && DueIn(s'.log, id, NextStep(s', id), steady)
  {
    assert DueIn(s.log, id, NextStep(s, id), steady);
    NextStepWhenExecuted(c, s, s', w, doer, pos);
    DueAfterLogging(s.log, id, NextStep(s, id), doer, s.worlds[w].pc.Step(), steady);
    if id != doer { NextStepOfOthers(c, s, s', w, Execute(doer, pos), id); }
  }

  lemma LedgerKept(c: Config, s: State, s': State, w: nat, a: Action, steady: bool)
    requires GoodConfig(c) && Traffic(c, s) && Hosted(s) && Hosted(s') && Moves(c, s, s', w, a) && Ledger(c, s, steady)
    requires s'.place.Keys == s.place.Keys
    requires steady ==> WellPlaced(c, s)
    ensures Ledger(c, s', steady)
  {
    if a.Execute? {
      NextStepWhenExecuted(c, s, s', w, a.id, a.pos);
      NeverTwiceAfterLogging(s.log, a.id, s.worlds[w].pc.Step(), steady);
    }
    forall id | id in s'.place ensures DueIn(s'.log, id, NextStep(s', id), steady) {
      assert id in s.place;
      if a.Execute? { DueKeptExecuting(c, s, s', w, a.id, a.pos, id, steady); }
      else { DueKept(c, s, s', w, a, id, steady); }
    }
  }

  // ----- every run

  lemma LedgerInitially(c: Config, s: State, steady: bool)
    requires GoodConfig(c) && Init(c, s)
    ensures Hosted(s) && Ledger(c, s, steady) && WellPlaced(c, s)
  {
    HostedInitially(c, s);
    forall id | id in s.place ensures DueIn(s.log, id, NextStep(s, id), steady) {
      assert InitialWorld(c, s, s.place[id].w);
    }
    forall w | 0 <= w < |s.worlds| ensures WorldPlaced(c, w, s.worlds[w]) {
      assert InitialWorld(c, s, w);
    }
  }

  lemma RunKeepsLedger(c: Config, run: seq<State>, moves: seq<(nat, Action)>, k: nat, steady: bool)
    requires GoodConfig(c) && IsRun(c, run, moves) && k < |moves| && Hosted(run[k]) && Ledger(c, run[k], steady)
    requires steady ==> WellPlaced(c, run[k]) && SteadyMove(c, run[k], moves[k])
    ensures Hosted(run[k + 1]) && Ledger(c, run[k + 1], steady) && (steady ==> WellPlaced(c, run[k + 1]))
  {
    var (w, a) := moves[k];
    TrafficAlways(c, run, moves, k);
    HostedKept(c, run[k], run[k + 1], w, a);
    LedgerKept(c, run[k], run[k + 1], w, a, steady);
    if steady { WellPlacedKept(c, run[k], run[k + 1], w, a); }
  }

  lemma {:induction false} LedgerAlways(c: Config, run: seq<State>, moves: seq<(nat, Action)>, k: nat, steady: bool)
    requires GoodConfig(c) && IsRun(c, run, moves) && k < |run| && (steady ==> SteadyRun(c, run, moves))
    ensures Hosted(run[k]) && Ledger(c, run[k], steady) && (steady ==> WellPlaced(c, run[k]))
  {
    if k == 0 {
      LedgerInitially(c, run[0], steady);
    } else {
      LedgerAlways(c, run, moves, k - 1, steady);
      RunKeepsLedger(c, run, moves, k - 1, steady);
    }
  }

  /** In every run, whatever is sent where, no agent is executed twice in the same step, by the same
      world or by two of them. */
  lemma NeverExecutedTwice(c: Config, run: seq<State>, moves: seq<(nat, Action)>, k: nat)
    requires GoodConfig(c) && IsRun(c, run, moves) && k < |run|
    ensures NeverTwice(run[k].log)
  {
    LedgerAlways(c, run, moves, k, false);
  }

  /** In a steady run that has finished, every agent was executed once in every step. */
  lemma OnceInSteadyRun(c: Config, run: seq<State>, moves: seq<(nat, Action)>, k: nat, id: Id, t: nat)
    requires GoodConfig(c) && IsRun(c, run, moves) && SteadyRun(c, run, moves) && k < |run|
    requires id in run[0].place && Finished(c, run[k])
    ensures (t, id) in run[k].log <==> t < c.steps
    ensures NeverTwice(run[k].log)
  {
    var s := run[k];
    TrafficAlways(c, run, moves, k);
    AgentsConserved(c, run, moves, k);
    LedgerAlways(c, run, moves, k, true);
    DueAtTheEnd(c, s, id);
    assert DueIn(s.log, id, NextStep(s, id), true);
  }

  lemma DueAtTheEnd(c: Config, s: State, id: Id)
    requires GoodConfig(c) && Traffic(c, s) && Hosted(s) && Finished(c, s) && id in s.place
    ensures NextStep(s, id) >= c.steps
  {
    assert IsThere(s, id);
    match s.place[id]
    case Owned(w) =>
    case Outbox(w) =>
    case Flight(src, dst, _) => SectionOverMeansDrained(c, s, 0, Key(src, dst, Agents));
  }

  /** In a steady run, every agent is owned by the world in whose tile it is. */
  lemma InPlaceInSteadyRun(c: Config, run: seq<State>, moves: seq<(nat, Action)>, k: nat, w: nat, id: Id)
    requires GoodConfig(c) && IsRun(c, run, moves) && SteadyRun(c, run, moves) && k < |run|
    requires w < |run[k].worlds| && id in run[k].worlds[w].owned
    ensures Boundaries(c.grid, w).IsInside(run[k].worlds[w].owned[id].pos)
    ensures w == IdFromPosition(c.grid, run[k].worlds[w].owned[id].pos)
  {
    LedgerAlways(c, run, moves, k, true);
    assert WorldPlaced(c, w, run[k].worlds[w]);
    assert InTile(c, w, run[k].worlds[w], id);
    OwnerOfPosition(c.grid, w, run[k].worlds[w].owned[id].pos);
  }
}
