/** Where the agents are: no agent is ever lost or doubled, in any interleaving of the worlds. */
module WorldAgents {
  import opened WorldGeometry
  import opened WorldProtocol
  import opened WorldPartners
  import opened WorldTraffic

  // ----- the record of places is right

  ghost predicate OwnedPlaced(place: map<Id, Place>, w: nat, wd: World) {
    forall id :: id in wd.owned ==> id in place && place[id] == Owned(w)
  }

  // Every agent waits at most once in an outbox.  Copies wait there too, after the agents are gone.
  ghost predicate OutboxPlaced(place: map<Id, Place>, w: nat, wd: World) {
    wd.pc.kind == Agents ==>
      && (forall item :: item in wd.outbox ==> item.id in place && place[item.id] == Outbox(w))
      && (forall i, j :: i in wd.outbox && j in wd.outbox && i.id == j.id ==> i == j)
  }

  // Agent j of a channel, not received yet.
  ghost predicate FlightPlacedAt(place: map<Id, Place>, key: Key, ch: Channel, j: nat)
    requires j < |ch.items|
  {
    ch.items[j].id in place && place[ch.items[j].id] == Flight(key.src, key.dst, j)
  }

  ghost predicate FlightPlaced(place: map<Id, Place>, key: Key, ch: Channel) {
    key.kind == Agents ==> forall j :: ch.itemsRead <= j < |ch.items| ==> FlightPlacedAt(place, key, ch, j)
  }

  ghost predicate IsThere(s: State, id: Id)
    requires id in s.place
  {
    match s.place[id]
    case Owned(w) => w < |s.worlds| && id in s.worlds[w].owned
    case Outbox(w) =>
      w < |s.worlds| && s.worlds[w].pc.kind == Agents && exists item :: item in s.worlds[w].outbox && item.id == id
    case Flight(src, dst, j) =>
      && Key(src, dst, Agents) in s.channels
      && var ch := s.channels[Key(src, dst, Agents)]; ch.itemsRead <= j < |ch.items| && ch.items[j].id == id
  }

  ghost predicate WorldsHosted(s: State) {
    forall w :: 0 <= w < |s.worlds| ==> OwnedPlaced(s.place, w, s.worlds[w]) && OutboxPlaced(s.place, w, s.worlds[w])
  }

  ghost predicate ChannelsHosted(s: State) {
    forall key :: key in s.channels ==> FlightPlaced(s.place, key, s.channels[key])
  }

  ghost predicate AgentsHosted(s: State) {
    forall id :: id in s.place ==> IsThere(s, id)
  }

  /** Every agent is in the place recorded for it, and nowhere else. */
  ghost predicate Hosted(s: State) {
    WorldsHosted(s) && ChannelsHosted(s) && AgentsHosted(s)
  }

  // ----- one action keeps it right

  // The actions that move an agent from one place to another.
  ghost predicate Relocates(c: Config, s: State, w: nat, a: Action)
    requires GoodConfig(c) && Enabled(c, s, w, a)
  {
    match a
    case Execute(_, pos) => !Boundaries(c.grid, w).IsInside(pos)
    case SendItem(_) => s.worlds[w].pc.kind == Agents
    case ReceiveItem(_) => s.worlds[w].pc.kind == Agents
    case _ => false
  }

  // The agent that an action is about.
  ghost function Subject(c: Config, s: State, w: nat, a: Action): Id
    requires GoodConfig(c) && Enabled(c, s, w, a)
  {
    match a
    case Execute(id, _) => id
    case SendItem(item) => item.id
    case ReceiveItem(dropped) => NextMessage(c, s, w, dropped).id
    case _ => 0
  }

  // The place where an action finds the agent that it moves.
  ghost predicate Found(c: Config, s: State, w: nat, a: Action)
    requires GoodConfig(c) && Enabled(c, s, w, a)
  {
    var id := Subject(c, s, w, a);
    && id in s.place
    && match a
       case Execute(_, _) => s.place[id] == Owned(w)
       case SendItem(_) => s.place[id] == Outbox(w)
       case ReceiveItem(_) =>
         var key := InKey(c, w, s.worlds[w].pc);
         s.place[id] == Flight(key.src, key.dst, s.channels[key].itemsRead)
       case _ => true
  }

  lemma MovedIsFound(c: Config, s: State, w: nat, a: Action)
    requires GoodConfig(c) && Hosted(s) && Enabled(c, s, w, a) && Relocates(c, s, w, a)
    ensures Found(c, s, w, a)
  {
    if a.ReceiveItem? {
      var key := InKey(c, w, s.worlds[w].pc);
      assert FlightPlaced(s.place, key, s.channels[key]);
      assert FlightPlacedAt(s.place, key, s.channels[key], s.channels[key].itemsRead);
    }
  }

  lemma PlacesKept(c: Config, s: State, w: nat, a: Action, id: Id)
    requires GoodConfig(c) && Enabled(c, s, w, a)
    requires !(Relocates(c, s, w, a) && id == Subject(c, s, w, a))
    ensures id in NextPlace(c, s, w, a) <==> id in s.place
    ensures id in s.place ==> NextPlace(c, s, w, a)[id] == s.place[id]
  {
  }

  // Which agents the acting world owns afterwards.
  lemma OwnedAfter(c: Config, s: State, w: nat, a: Action, id: Id)
    requires GoodConfig(c) && Enabled(c, s, w, a)
    ensures id in NextWorld(c, s, w, a).owned
       <==> if Relocates(c, s, w, a) && id == Subject(c, s, w, a) then !a.Execute? && (a.ReceiveItem? || id in s.worlds[w].owned)
            else id in s.worlds[w].owned
  {
  }

  // And which of them wait in its outbox.
  lemma OutboxAfter(c: Config, s: State, w: nat, a: Action, item: Item)
    requires GoodConfig(c) && Enabled(c, s, w, a) && GoodWorld(c, w, s.worlds[w]) && NextWorld(c, s, w, a).pc.kind == Agents
    ensures item in NextWorld(c, s, w, a).outbox
       <==> if a.Execute? && Relocates(c, s, w, a) && item == Item(IdFromPosition(c.grid, a.pos), a.id, s.worlds[w].owned[a.id].(pos := a.pos)) then true
            else if a.SendItem? && item == a.item then false
            else item in s.worlds[w].outbox
    ensures item in NextWorld(c, s, w, a).outbox && !(a.Execute? && Relocates(c, s, w, a) && item.id == a.id) ==> s.worlds[w].pc.kind == Agents
  {
  }

  lemma OwnedPlacedKept(c: Config, s: State, w: nat, a: Action, u: nat)
    requires GoodConfig(c) && Hosted(s) && Enabled(c, s, w, a) && u < |s.worlds|
    ensures OwnedPlaced(NextPlace(c, s, w, a), u, Apply(c, s, w, a).worlds[u])
  {
    var wd' := Apply(c, s, w, a).worlds[u];
    if Relocates(c, s, w, a) { MovedIsFound(c, s, w, a); }
    assert OwnedPlaced(s.place, u, s.worlds[u]);
    forall id | id in wd'.owned ensures id in NextPlace(c, s, w, a) && NextPlace(c, s, w, a)[id] == Owned(u) {
      OwnedAfter(c, s, w, a, id);
      if !(Relocates(c, s, w, a) && id == Subject(c, s, w, a)) { PlacesKept(c, s, w, a, id); }
    }
  }

  // The item that a migrating agent becomes.
  ghost function Migrant(c: Config, s: State, w: nat, a: Action): Item
    requires GoodConfig(c) && Enabled(c, s, w, a) && a.Execute? && Relocates(c, s, w, a)
  {
    Item(IdFromPosition(c.grid, a.pos), a.id, s.worlds[w].owned[a.id].(pos := a.pos))
  }

  lemma OutboxPlacedKept(c: Config, s: State, w: nat, a: Action)
    requires GoodConfig(c) && Hosted(s) && Enabled(c, s, w, a) && w < |s.worlds| && GoodWorld(c, w, s.worlds[w])
    ensures OutboxPlaced(NextPlace(c, s, w, a), w, NextWorld(c, s, w, a))
  {
    var wd, wd', place' := s.worlds[w], NextWorld(c, s, w, a), NextPlace(c, s, w, a);
    if Relocates(c, s, w, a) { MovedIsFound(c, s, w, a); }
    assert OutboxPlaced(s.place, w, wd);
    if wd'.pc.kind == Agents {
      forall item | item in wd'.outbox ensures item.id in place' && place'[item.id] == Outbox(w) {
        OutboxAfter(c, s, w, a, item);
        if !(Relocates(c, s, w, a) && item.id == Subject(c, s, w, a)) { PlacesKept(c, s, w, a, item.id); }
      }
      forall i, j | i in wd'.outbox && j in wd'.outbox && i.id == j.id ensures i == j {
        OutboxAfter(c, s, w, a, i);
        OutboxAfter(c, s, w, a, j);
      }
    }
  }

  lemma OutboxElsewhereKept(c: Config, s: State, w: nat, a: Action, u: nat)
    requires GoodConfig(c) && Hosted(s) && Enabled(c, s, w, a) && u < |s.worlds| && u != w
    ensures OutboxPlaced(NextPlace(c, s, w, a), u, s.worlds[u])
  {
    if Relocates(c, s, w, a) { MovedIsFound(c, s, w, a); }
    assert OutboxPlaced(s.place, u, s.worlds[u]);
    if s.worlds[u].pc.kind == Agents {
      forall item | item in s.worlds[u].outbox
        ensures item.id in NextPlace(c, s, w, a) && NextPlace(c, s, w, a)[item.id] == Outbox(u)
      {
        PlacesKept(c, s, w, a, item.id);
      }
    }
  }

  // What an action does to the agents on a channel.
  lemma FlightAfter(c: Config, s: State, w: nat, a: Action, key: Key)
    requires GoodConfig(c) && Enabled(c, s, w, a) && key in s.channels && key.kind == Agents
    ensures key in NextChannels(c, s, w, a)
    ensures var ch, ch' := s.channels[key], NextChannels(c, s, w, a)[key];
      && ch'.items == (if a.SendItem? && key == OutKey(c, w, s.worlds[w].pc)
                       then ch.items + [Message(a.item.id, a.item.body, s.worlds[w].pc.phase)] else ch.items)
      && ch'.itemsRead == ch.itemsRead + if a.ReceiveItem? && key == InKey(c, w, s.worlds[w].pc) then 1 else 0
  {
  }

  lemma FlightPlacedKept(c: Config, s: State, w: nat, a: Action, key: Key)
    requires GoodConfig(c) && Hosted(s) && Enabled(c, s, w, a) && key in s.channels
    ensures key in NextChannels(c, s, w, a)
    ensures FlightPlaced(NextPlace(c, s, w, a), key, NextChannels(c, s, w, a)[key])
  {
    if key.kind == Agents {
      FlightAfter(c, s, w, a, key);
      var ch' := NextChannels(c, s, w, a)[key];
      forall j | ch'.itemsRead <= j < |ch'.items| ensures FlightPlacedAt(NextPlace(c, s, w, a), key, ch', j) {
        FlightPlacedAtKept(c, s, w, a, key, j);
      }
    }
  }

  lemma FlightPlacedAtKept(c: Config, s: State, w: nat, a: Action, key: Key, j: nat)
    requires GoodConfig(c) && Hosted(s) && Enabled(c, s, w, a) && key in s.channels && key.kind == Agents
    requires key in NextChannels(c, s, w, a)
    requires NextChannels(c, s, w, a)[key].itemsRead <= j < |NextChannels(c, s, w, a)[key].items|
    ensures FlightPlacedAt(NextPlace(c, s, w, a), key, NextChannels(c, s, w, a)[key], j)
  {
    FlightAfter(c, s, w, a, key);
    if Relocates(c, s, w, a) { MovedIsFound(c, s, w, a); }
    var ch := s.channels[key];
    assert FlightPlaced(s.place, key, ch);
    if j < |ch.items| {
      assert FlightPlacedAt(s.place, key, ch, j);
      PlacesKept(c, s, w, a, ch.items[j].id);
    }
  }

  lemma IsThereKept(c: Config, s: State, w: nat, a: Action, id: Id)
    requires GoodConfig(c) && Traffic(c, s) && Hosted(s) && Enabled(c, s, w, a) && id in s.place
    requires !(Relocates(c, s, w, a) && id == Subject(c, s, w, a))
    ensures id in NextPlace(c, s, w, a) && IsThere(Apply(c, s, w, a), id)
  {
    PlacesKept(c, s, w, a, id);
    assert IsThere(s, id);
    match s.place[id]
    case Owned(u) => if u == w { OwnedAfter(c, s, w, a, id); }
    case Outbox(u) => if u == w { StillWaiting(c, s, w, a, id); }
    case Flight(src, dst, j) => StillFlying(c, s, w, a, Key(src, dst, Agents), j);
  }

  lemma StillFlying(c: Config, s: State, w: nat, a: Action, key: Key, j: nat)
    requires GoodConfig(c) && Enabled(c, s, w, a) && key in s.channels && key.kind == Agents
    requires s.channels[key].itemsRead <= j < |s.channels[key].items|
    requires !(Relocates(c, s, w, a) && s.channels[key].items[j].id == Subject(c, s, w, a))
    ensures key in NextChannels(c, s, w, a)
    ensures var ch' := NextChannels(c, s, w, a)[key];
            ch'.itemsRead <= j < |ch'.items| && ch'.items[j].id == s.channels[key].items[j].id
  {
    FlightAfter(c, s, w, a, key);
  }

  lemma StillWaiting(c: Config, s: State, w: nat, a: Action, id: Id)
    requires GoodConfig(c) && Enabled(c, s, w, a) && w < |s.worlds| && GoodWorld(c, w, s.worlds[w])
    requires s.worlds[w].pc.kind == Agents && exists item :: item in s.worlds[w].outbox && item.id == id
    requires !(Relocates(c, s, w, a) && id == Subject(c, s, w, a))
    ensures NextWorld(c, s, w, a).pc.kind == Agents && exists item :: item in NextWorld(c, s, w, a).outbox && item.id == id
  {
    var item :| item in s.worlds[w].outbox && item.id == id;
    assert item in NextWorld(c, s, w, a).outbox;
  }

  lemma MovedIsThere(c: Config, s: State, w: nat, a: Action)
    requires GoodConfig(c) && Traffic(c, s) && Enabled(c, s, w, a) && Relocates(c, s, w, a)
    ensures Subject(c, s, w, a) in NextPlace(c, s, w, a) && IsThere(Apply(c, s, w, a), Subject(c, s, w, a))
  {
    if a.Execute? {
      assert Migrant(c, s, w, a) in NextWorld(c, s, w, a).outbox;
    } else if a.SendItem? {
      FlightAfter(c, s, w, a, OutKey(c, w, s.worlds[w].pc));
      var key := OutKey(c, w, s.worlds[w].pc);
      SenderIsReader(c, s, key);
    }
  }

  lemma SenderIsReader(c: Config, s: State, key: Key)
    requires GoodConfig(c) && Traffic(c, s) && key in s.channels
    ensures s.channels[key].itemsRead <= |s.channels[key].items|
  {
    assert GoodChannel(c, s, key);
  }

  lemma WorldsHostedKept(c: Config, s: State, w: nat, a: Action)
    requires GoodConfig(c) && Traffic(c, s) && Hosted(s) && Enabled(c, s, w, a)
    ensures WorldsHosted(Apply(c, s, w, a))
  {
    var s' := Apply(c, s, w, a);
    assert GoodWorld(c, w, s.worlds[w]);
    forall u | 0 <= u < |s'.worlds| ensures OwnedPlaced(s'.place, u, s'.worlds[u]) && OutboxPlaced(s'.place, u, s'.worlds[u]) {
      OwnedPlacedKept(c, s, w, a, u);
      if u == w { OutboxPlacedKept(c, s, w, a); } else { OutboxElsewhereKept(c, s, w, a, u); }
    }
  }

  lemma ChannelsHostedKept(c: Config, s: State, w: nat, a: Action)
    requires GoodConfig(c) && Hosted(s) && Enabled(c, s, w, a)
    ensures ChannelsHosted(Apply(c, s, w, a))
  {
    var s' := Apply(c, s, w, a);
    forall key | key in s'.channels ensures FlightPlaced(s'.place, key, s'.channels[key]) {
      FlightPlacedKept(c, s, w, a, key);
    }
  }

  lemma AgentsHostedKept(c: Config, s: State, w: nat, a: Action)
    requires GoodConfig(c) && Traffic(c, s) && Hosted(s) && Enabled(c, s, w, a)
    ensures AgentsHosted(Apply(c, s, w, a))
  {
    var s' := Apply(c, s, w, a);
    forall id | id in s'.place ensures IsThere(s', id) {
      if Relocates(c, s, w, a) && id == Subject(c, s, w, a) {
        MovedIsThere(c, s, w, a);
      } else {
        PlacesKept(c, s, w, a, id);
        IsThereKept(c, s, w, a, id);
      }
    }
  }

  lemma SamePlaces(c: Config, s: State, w: nat, a: Action)
    requires GoodConfig(c) && Hosted(s) && Enabled(c, s, w, a)
    ensures NextPlace(c, s, w, a).Keys == s.place.Keys
  {
    if Relocates(c, s, w, a) { MovedIsFound(c, s, w, a); }
  }

  lemma HostedKept(c: Config, s: State, s': State, w: nat, a: Action)
    requires GoodConfig(c) && Traffic(c, s) && Hosted(s) && Moves(c, s, s', w, a)
    ensures Hosted(s') && s'.place.Keys == s.place.Keys
  {
    WorldsHostedKept(c, s, w, a);
    ChannelsHostedKept(c, s, w, a);
    AgentsHostedKept(c, s, w, a);
    SamePlaces(c, s, w, a);
  }

  lemma HostedInitially(c: Config, s: State)
    requires GoodConfig(c) && Init(c, s)
    ensures Hosted(s)
  {
    forall w | 0 <= w < |s.worlds| ensures OwnedPlaced(s.place, w, s.worlds[w]) && OutboxPlaced(s.place, w, s.worlds[w]) {
      assert InitialWorld(c, s, w);
    }
  }

  lemma RunKeepsHosted(c: Config, run: seq<State>, moves: seq<(nat, Action)>, k: nat)
    requires GoodConfig(c) && IsRun(c, run, moves) && k < |moves| && Hosted(run[k])
    ensures Hosted(run[k + 1]) && run[k + 1].place.Keys == run[k].place.Keys
  {
    TrafficAlways(c, run, moves, k);
    HostedKept(c, run[k], run[k + 1], moves[k].0, moves[k].1);
  }

  /** Agents are conserved: in every state of every run the agents are those of the start, each of
      them in exactly one place. */
  lemma {:induction false} AgentsConserved(c: Config, run: seq<State>, moves: seq<(nat, Action)>, k: nat)
    requires GoodConfig(c) && IsRun(c, run, moves) && k < |run|
    ensures Hosted(run[k]) && run[k].place.Keys == run[0].place.Keys
  {
    if k == 0 {
      HostedInitially(c, run[0]);
    } else {
      var j := k - 1;
      AgentsConserved(c, run, moves, j);
      RunKeepsHosted(c, run, moves, j);
      assert run[j + 1] == run[k];
    }
  }

  // ----- once a section is over

  /** All worlds have received the agents of phase p, or have finished. */
  ghost predicate SectionOver(c: Config, s: State, p: nat) {
    || (forall w :: 0 <= w < |s.worlds| ==> s.worlds[w].pc.phase == p && s.worlds[w].pc.kind == Ghosts)
    || Finished(c, s)
  }

  lemma SectionOverMeansDrained(c: Config, s: State, p: nat, key: Key)
    requires GoodConfig(c) && Traffic(c, s) && SectionOver(c, s, p) && key in s.channels && key.kind == Agents
    ensures s.channels[key].itemsRead == |s.channels[key].items| && s.channels[key].headersRead == |s.channels[key].headers|
  {
    assert GoodChannel(c, s, key);
    var v, w := s.worlds[key.src].pc, s.worlds[key.dst].pc;
    assert GoodWorld(c, key.src, s.worlds[key.src]) && GoodWorld(c, key.dst, s.worlds[key.dst]);
    PartnersMatch(c, key.src, key.dst, Agents, v.Section());
  }

  /** An agent is owned by exactly one world. */
  ghost predicate OwnedOnce(s: State, id: Id) {
    && (exists w :: 0 <= w < |s.worlds| && id in s.worlds[w].owned)
    && (forall v, w :: 0 <= v < |s.worlds| && 0 <= w < |s.worlds| && id in s.worlds[v].owned && id in s.worlds[w].owned ==> v == w)
  }

  lemma OwnedOnceWhenOver(c: Config, s: State, p: nat, id: Id)
    requires GoodConfig(c) && Traffic(c, s) && Hosted(s) && SectionOver(c, s, p) && id in s.place
    ensures OwnedOnce(s, id)
  {
    forall v | 0 <= v < |s.worlds| && id in s.worlds[v].owned ensures s.place[id] == Owned(v) {
      assert OwnedPlaced(s.place, v, s.worlds[v]);
    }
    assert IsThere(s, id);
    match s.place[id]
    case Owned(w) =>
    case Outbox(w) => NothingWaits(c, s, p, w);
    case Flight(src, dst, _) => SectionOverMeansDrained(c, s, p, Key(src, dst, Agents));
  }

  lemma NothingWaits(c: Config, s: State, p: nat, w: nat)
    requires GoodConfig(c) && Traffic(c, s) && SectionOver(c, s, p) && w < |s.worlds|
    ensures s.worlds[w].pc.kind == Agents ==> s.worlds[w].outbox == {}
  {
    assert GoodWorld(c, w, s.worlds[w]);
  }

  /** After every section the agents are those of the start, each owned by exactly one world, and
      the channels of migrating agents are empty. */
  lemma SectionConservesAgents(c: Config, run: seq<State>, moves: seq<(nat, Action)>, k: nat, p: nat)
    requires GoodConfig(c) && IsRun(c, run, moves) && k < |run| && SectionOver(c, run[k], p)
    ensures forall id :: id in run[0].place ==> OwnedOnce(run[k], id)
    ensures forall w, id :: 0 <= w < |run[k].worlds| && id in run[k].worlds[w].owned ==> id in run[0].place
    ensures forall key :: key in run[k].channels && key.kind == Agents ==>
                            run[k].channels[key].itemsRead == |run[k].channels[key].items|
  {
    var s := run[k];
    TrafficAlways(c, run, moves, k);
    AgentsConserved(c, run, moves, k);
    forall id | id in run[0].place ensures OwnedOnce(s, id) { OwnedOnceWhenOver(c, s, p, id); }
    forall w, id | 0 <= w < |s.worlds| && id in s.worlds[w].owned ensures id in run[0].place {
      assert OwnedPlaced(s.place, w, s.worlds[w]);
    }
    forall key | key in s.channels && key.kind == Agents ensures s.channels[key].itemsRead == |s.channels[key].items| {
      SectionOverMeansDrained(c, s, p, key);
    }
  }
}
