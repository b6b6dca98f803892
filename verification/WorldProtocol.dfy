/** The distributed section loop as a state machine.

    Every world runs its own program; the worlds are interleaved arbitrarily, one message or one
    agent at a time, and there is no barrier.  A channel keeps everything that was ever sent on it
    together with how much of it has been received, which is a FIFO with its history. */
module WorldProtocol {
  import opened Common
  import opened WorldGeometry
  import opened WorldExchange

  /** The grid, the number of agent types, the number of steps to run, and the lists of partners
      that every world serves after every section.  WorldSetUp.SetUp gives the lists of the program. */
  datatype Config = Config(grid: Grid, types: nat, steps: nat,
                           targets: (nat, Kind, nat) -> seq<nat>, sources: (nat, Kind, nat) -> seq<nat>) {
    function Phases(): nat { 4 * steps }
  }

  /** World v sends to world w exactly when w expects to receive from v; agents travel between all
      neighbours, ghosts between some of them. */
  ghost predicate PartnersAgree(c: Config, v: nat, w: nat, kind: Kind, s: nat)
    requires c.grid.row > 0
  {
    && (w in c.targets(v, kind, s) <==> v in c.sources(w, kind, s))
    && (w in c.targets(v, kind, s) ==> AreNeighbors(c.grid, v, w))
    && (kind == Agents ==> (w in c.targets(v, kind, s) <==> AreNeighbors(c.grid, v, w)))
  }

  ghost predicate PartnersListed(c: Config, v: nat, kind: Kind, s: nat) {
    && NoDuplicates(c.targets(v, kind, s)) && NoDuplicates(c.sources(v, kind, s))
    && (forall w :: w in c.targets(v, kind, s) ==> w < c.grid.Worlds())
    && (forall w :: w in c.sources(v, kind, s) ==> w < c.grid.Worlds())
  }

  ghost predicate GoodConfig(c: Config) {
    && GoodGrid(c.grid) && c.types > 0
    && (forall v: nat, w: nat, kind, s: nat ::
          v < c.grid.Worlds() && w < c.grid.Worlds() && s < 4 ==> PartnersAgree(c, v, w, kind, s))
    && (forall v: nat, kind, s: nat :: v < c.grid.Worlds() && s < 4 ==> PartnersListed(c, v, kind, s))
  }

  // ----- data

  type Id = nat

  datatype Body = Body(pos: Point2D, type_: nat)
  datatype Copy = Copy(id: Id, body: Body)

  /** Migrating agents and copies of agents travel on channels of their own. */
  datatype Kind = Agents | Ghosts

  datatype Item = Item(dest: nat, id: Id, body: Body)

  // Messages carry the phase in which they are sent; no world ever looks at it.
  datatype Header = Header(n: nat, phase: nat)
  datatype Message = Message(id: Id, body: Body, phase: nat)

  datatype Channel = Channel(headers: seq<Header>, items: seq<Message>, headersRead: nat, itemsRead: nat)

  datatype Key = Key(src: nat, dst: nat, kind: Kind)

  /** Where a world is in its program.  Sending serves type t and partner i; once the header with
      the number of agents is out, the agents follow.  Receiving likewise, left telling how many
      announced agents are still to come. */
  datatype Stage =
    | Compute
    | Send(t: nat, i: nat, open: bool)
    | Receive(t: nat, i: nat, left: Option<nat>)

  /** Phases count sections from the start of the run: four of them make a step. */
  datatype Counter = Counter(phase: nat, kind: Kind, stage: Stage) {
    function Section(): nat { phase % 4 }
    function Step(): nat { phase / 4 }
  }

  datatype World = World(pc: Counter, owned: map<Id, Body>, ghosts: set<Copy>, executed: set<Id>,
                         outbox: set<Item>, incoming: set<Copy>)

  /** Where an agent is: owned by a world, waiting there to be sent, or on its way. */
  datatype Place = Owned(w: nat) | Outbox(w: nat) | Flight(src: nat, dst: nat, index: nat)

  /** Besides worlds and channels the state records where every agent is, and which agents have
      been executed in which step; no world ever looks at these records. */
  datatype State = State(worlds: seq<World>, channels: map<Key, Channel>,
                         place: map<Id, Place>, log: seq<(nat, Id)>)

  // ----- steps

  datatype Action =
    | Execute(id: Id, pos: Point2D)
    | FinishCompute
    | SendHeader
    | SendItem(item: Item)
    | CloseSend
    | NextSendType
    | EndSend
    | ReceiveHeader
    | ReceiveItem(dropped: set<Copy>)
    | CloseReceive
    | NextReceiveType
    | EndReceive

  // Agents of the section that is being executed, not executed yet in this step.
  ghost predicate Eligible(c: Config, w: nat, wd: World, id: Id)
    requires c.grid.row > 0
  {
    && id in wd.owned && id !in wd.executed
    && Section(c.grid, w, wd.pc.Section()).IsInside(wd.owned[id].pos)
  }

  /** The proviso on agents: they stay in the global raster and do not skip past a neighbour. */
  ghost predicate BoundedMove(c: Config, w: nat, pos: Point2D)
    requires GoodConfig(c)
  {
    && GlobalBoundaries(c.grid).IsInside(pos)
    && (Boundaries(c.grid, w).IsInside(pos) || (IdFromPosition(c.grid, pos) >= 0 && AreNeighbors(c.grid, w, IdFromPosition(c.grid, pos))))
  }

  // The agents of a type that are still to be sent to a partner.
  function Batch(wd: World, t: nat, dest: nat): set<Item> {
    set item | item in wd.outbox && item.body.type_ == t && item.dest == dest
  }

  // Position of an agent in the local coordinates of world w, tested against an exchanged zone.
  predicate InZone(c: Config, w: nat, partner: nat, s: nat, body: Body)
    requires c.grid.row > 0 && s < 4
  {
    OverlapZone(c.grid, w, partner, s).IsInside(body.pos.Minus(OverlapBoundaries(c.grid, w).origin))
  }

  // Adding an agent drops one older copy of it, if there is any.
  ghost predicate DropsOne(ghosts: set<Copy>, id: Id, dropped: set<Copy>) {
    if exists copy :: copy in ghosts && copy.id == id
    then exists copy :: copy in ghosts && copy.id == id && dropped == {copy}
    else dropped == {}
  }

  // The partners of the current phase.
  function Receivers(c: Config, w: nat, pc: Counter): seq<nat>
    requires c.grid.row > 0
  {
    c.targets(w, pc.kind, pc.Section())
  }

  function Senders(c: Config, w: nat, pc: Counter): seq<nat>
    requires c.grid.row > 0
  {
    c.sources(w, pc.kind, pc.Section())
  }

  // The channel that is served.
  predicate AtReceiver(c: Config, w: nat, pc: Counter)
    requires c.grid.row > 0
  {
    pc.stage.Send? && pc.stage.t < c.types && pc.stage.i < |Receivers(c, w, pc)|
  }

  predicate AtSender(c: Config, w: nat, pc: Counter)
    requires c.grid.row > 0
  {
    pc.stage.Receive? && pc.stage.t < c.types && pc.stage.i < |Senders(c, w, pc)|
  }

  function OutKey(c: Config, w: nat, pc: Counter): Key
    requires c.grid.row > 0 && AtReceiver(c, w, pc)
  {
    Key(w, Receivers(c, w, pc)[pc.stage.i], pc.kind)
  }

  function InKey(c: Config, w: nat, pc: Counter): Key
    requires c.grid.row > 0 && AtSender(c, w, pc)
  {
    Key(Senders(c, w, pc)[pc.stage.i], w, pc.kind)
  }

  /** What an action needs of the program counter. */
  predicate AtAction(c: Config, w: nat, pc: Counter, a: Action)
    requires c.grid.row > 0
  {
    match a
    case Execute(_, _) => pc.stage.Compute? && pc.phase < c.Phases()
    case FinishCompute => pc.stage.Compute? && pc.phase < c.Phases()
    case SendHeader => AtReceiver(c, w, pc) && !pc.stage.open
    case SendItem(_) => AtReceiver(c, w, pc) && pc.stage.open
    case CloseSend => AtReceiver(c, w, pc) && pc.stage.open
    case NextSendType => pc.stage.Send? && !pc.stage.open && pc.stage.t < c.types && pc.stage.i == |Receivers(c, w, pc)|
    case EndSend => pc.stage.Send? && pc.stage.t == c.types
    case ReceiveHeader => AtSender(c, w, pc) && pc.stage.left == None
    case ReceiveItem(_) => AtSender(c, w, pc) && pc.stage.left.Some? && pc.stage.left.value > 0
    case CloseReceive => AtSender(c, w, pc) && pc.stage.left == Some(0)
    case NextReceiveType =>
      pc.stage.Receive? && pc.stage.left == None && pc.stage.t < c.types && pc.stage.i == |Senders(c, w, pc)|
    case EndReceive => pc.stage.Receive? && pc.stage.t == c.types
  }

  ghost predicate Enabled(c: Config, s: State, w: nat, a: Action)
    requires GoodConfig(c)
  {
    && w < |s.worlds| && AtAction(c, w, s.worlds[w].pc, a)
    && var wd := s.worlds[w];
       match a
       case Execute(id, pos) => Eligible(c, w, wd, id) && BoundedMove(c, w, pos)
       case FinishCompute => forall id :: id in wd.owned ==> !Eligible(c, w, wd, id)
       case SendHeader => OutKey(c, w, wd.pc) in s.channels
       case SendItem(item) =>
         OutKey(c, w, wd.pc) in s.channels && item in Batch(wd, wd.pc.stage.t, OutKey(c, w, wd.pc).dst)
       case CloseSend => Batch(wd, wd.pc.stage.t, OutKey(c, w, wd.pc).dst) == {}
       case ReceiveHeader =>
         && InKey(c, w, wd.pc) in s.channels
         && s.channels[InKey(c, w, wd.pc)].headersRead < |s.channels[InKey(c, w, wd.pc)].headers|
       case ReceiveItem(dropped) =>
         && InKey(c, w, wd.pc) in s.channels
         && var ch := s.channels[InKey(c, w, wd.pc)];
            ch.itemsRead < |ch.items| && DropsOne(wd.ghosts, ch.items[ch.itemsRead].id, dropped)
       case _ => true
  }

  // The header and the agent that are received next.
  ghost function NextHeader(c: Config, s: State, w: nat): Header
    requires GoodConfig(c) && Enabled(c, s, w, ReceiveHeader)
  {
    var ch := s.channels[InKey(c, w, s.worlds[w].pc)];
    ch.headers[ch.headersRead]
  }

  ghost function NextMessage(c: Config, s: State, w: nat, dropped: set<Copy>): Message
    requires GoodConfig(c) && Enabled(c, s, w, ReceiveItem(dropped))
  {
    var ch := s.channels[InKey(c, w, s.worlds[w].pc)];
    ch.items[ch.itemsRead]
  }

  /** The program counter after an action, announced being the count in a received header. */
  function NextCounter(c: Config, w: nat, pc: Counter, a: Action, announced: nat): Counter
    requires c.grid.row > 0 && AtAction(c, w, pc, a)
  {
    match a
    case Execute(_, _) => pc
    case FinishCompute => pc.(stage := Send(0, 0, false))
    case SendHeader => pc.(stage := Send(pc.stage.t, pc.stage.i, true))
    case SendItem(_) => pc
    case CloseSend => pc.(stage := Send(pc.stage.t, pc.stage.i + 1, false))
    case NextSendType => pc.(stage := Send(pc.stage.t + 1, 0, false))
    case EndSend => pc.(stage := Receive(0, 0, None))
    case ReceiveHeader => pc.(stage := Receive(pc.stage.t, pc.stage.i, Some(announced)))
    case ReceiveItem(_) => pc.(stage := Receive(pc.stage.t, pc.stage.i, Some(pc.stage.left.value - 1)))
    case CloseReceive => pc.(stage := Receive(pc.stage.t, pc.stage.i + 1, None))
    case NextReceiveType => pc.(stage := Receive(pc.stage.t + 1, 0, None))
    case EndReceive =>
      if pc.kind == Agents then pc.(kind := Ghosts, stage := Send(0, 0, false))
      else Counter(pc.phase + 1, Agents, Compute)
  }

  // The copies that are sent after a section: of everything in the zone shared with a target.
  function GhostItems(c: Config, w: nat, wd: World): set<Item>
    requires c.grid.row > 0
  {
    var s := wd.pc.Section();
    var targets := c.targets(w, Ghosts, s);
    (set d, id | d in targets && id in wd.owned && InZone(c, w, d, s, wd.owned[id]) :: Item(d, id, wd.owned[id]))
    + (set d, copy | d in targets && copy in wd.ghosts && InZone(c, w, d, s, copy.body) :: Item(d, copy.id, copy.body))
  }

  // An agent of the section is executed and moves to pos; outside the tile it is to be sent away.
  function Executed(c: Config, w: nat, wd: World, id: Id, pos: Point2D): World
    requires c.grid.row > 0 && c.grid.local > 0 && id in wd.owned
    requires Boundaries(c.grid, w).IsInside(pos) || IdFromPosition(c.grid, pos) >= 0
  {
    var body := wd.owned[id].(pos := pos);
    if Boundaries(c.grid, w).IsInside(pos) then
      wd.(owned := wd.owned[id := body], executed := wd.executed + {id})
    else
      wd.(owned := wd.owned - {id}, executed := wd.executed + {id}, ghosts := wd.ghosts + {Copy(id, body)},
          outbox := wd.outbox + {Item(IdFromPosition(c.grid, pos), id, body)})
  }

  // A migrating agent becomes owned and counts as executed; a ghost copy replaces an owned agent
  // or waits to be added to the ghosts.
  function Arrived(wd: World, msg: Message, dropped: set<Copy>): World {
    if wd.pc.kind == Agents then
      wd.(owned := wd.owned[msg.id := msg.body], executed := wd.executed + {msg.id}, ghosts := wd.ghosts - dropped)
    else if msg.id in wd.owned then
      wd.(owned := wd.owned[msg.id := msg.body], ghosts := wd.ghosts - dropped)
    else
      wd.(incoming := wd.incoming + {Copy(msg.id, msg.body)})
  }

  // The ghosts of one type in the zone shared with a partner are replaced by those it has sent.
  function Replaced(c: Config, w: nat, wd: World, src: nat, t: nat): World
    requires c.grid.row > 0
  {
    var kept := set copy | copy in wd.ghosts && !(copy.body.type_ == t && InZone(c, w, src, wd.pc.Section(), copy.body));
    wd.(ghosts := kept + wd.incoming, incoming := {})
  }

  /** The world that acts, after the action. */
  ghost function NextWorld(c: Config, s: State, w: nat, a: Action): World
    requires GoodConfig(c) && Enabled(c, s, w, a)
  {
    var wd := s.worlds[w];
    var pc := wd.pc;
    var pc' := NextCounter(c, w, pc, a, if a.ReceiveHeader? then NextHeader(c, s, w).n else 0);
    match a
    case Execute(id, pos) => Executed(c, w, wd, id, pos).(pc := pc')
    case SendItem(item) => wd.(pc := pc', outbox := wd.outbox - {item})
    case ReceiveHeader => wd.(pc := pc', incoming := {})
    case ReceiveItem(dropped) => Arrived(wd, NextMessage(c, s, w, dropped), dropped).(pc := pc')
    case CloseReceive =>
      if pc.kind == Agents then wd.(pc := pc')
      else Replaced(c, w, wd, InKey(c, w, pc).src, pc.stage.t).(pc := pc')
    case EndReceive =>
      if pc.kind == Agents then wd.(pc := pc', outbox := GhostItems(c, w, wd))
      else wd.(pc := pc', executed := if pc.Section() == 3 then {} else wd.executed)
    case _ => wd.(pc := pc')
  }

  ghost function NextChannels(c: Config, s: State, w: nat, a: Action): map<Key, Channel>
    requires GoodConfig(c) && Enabled(c, s, w, a)
  {
    var wd := s.worlds[w];
    match a
    case SendHeader =>
      var key := OutKey(c, w, wd.pc);
      var ch := s.channels[key];
      s.channels[key := ch.(headers := ch.headers + [Header(|Batch(wd, wd.pc.stage.t, key.dst)|, wd.pc.phase)])]
    case SendItem(item) =>
      var key := OutKey(c, w, wd.pc);
      var ch := s.channels[key];
      s.channels[key := ch.(items := ch.items + [Message(item.id, item.body, wd.pc.phase)])]
    case ReceiveHeader =>
      var key := InKey(c, w, wd.pc);
      s.channels[key := s.channels[key].(headersRead := s.channels[key].headersRead + 1)]
    case ReceiveItem(_) =>
      var key := InKey(c, w, wd.pc);
      s.channels[key := s.channels[key].(itemsRead := s.channels[key].itemsRead + 1)]
    case _ => s.channels
  }

  ghost function NextPlace(c: Config, s: State, w: nat, a: Action): map<Id, Place>
    requires GoodConfig(c) && Enabled(c, s, w, a)
  {
    var pc := s.worlds[w].pc;
    match a
    case Execute(id, pos) => if Boundaries(c.grid, w).IsInside(pos) then s.place else s.place[id := Outbox(w)]
    case SendItem(item) =>
      if pc.kind == Agents
      then s.place[item.id := Flight(w, OutKey(c, w, pc).dst, |s.channels[OutKey(c, w, pc)].items|)]
      else s.place
    case ReceiveItem(dropped) =>
      if pc.kind == Agents then s.place[NextMessage(c, s, w, dropped).id := Owned(w)] else s.place
    case _ => s.place
  }

  /** World w takes action a. */
  ghost function Apply(c: Config, s: State, w: nat, a: Action): State
    requires GoodConfig(c) && Enabled(c, s, w, a)
  {
    State(s.worlds[w := NextWorld(c, s, w, a)], NextChannels(c, s, w, a), NextPlace(c, s, w, a),
          if a.Execute? then s.log + [(s.worlds[w].pc.Step(), a.id)] else s.log)
  }

  // ----- runs

  const NO_TRAFFIC := Channel([], [], 0, 0)

  /** Agents start in the tile that contains them, each in one world; copies may be anywhere. */
  ghost predicate Init(c: Config, s: State)
    requires GoodConfig(c)
  {
    && |s.worlds| == c.grid.Worlds() && s.log == []
    && (forall key :: key in s.channels <==> key.src < |s.worlds| && key.dst < |s.worlds| && key.src != key.dst)
    && (forall key :: key in s.channels ==> s.channels[key] == NO_TRAFFIC)
    && (forall w :: 0 <= w < |s.worlds| ==> InitialWorld(c, s, w))
    && (forall id :: id in s.place ==> s.place[id].Owned? && s.place[id].w < |s.worlds| && id in s.worlds[s.place[id].w].owned)
  }

  ghost predicate InitialWorld(c: Config, s: State, w: nat)
    requires GoodConfig(c) && w < |s.worlds|
  {
    var wd := s.worlds[w];
    && wd.pc == Counter(0, Agents, Compute)
    && wd.executed == {} && wd.outbox == {} && wd.incoming == {}
    && (forall id :: id in wd.owned ==>
          && id in s.place && s.place[id] == Owned(w)
          && wd.owned[id].type_ < c.types && Boundaries(c.grid, w).IsInside(wd.owned[id].pos))
    && (forall copy :: copy in wd.ghosts ==> copy.body.type_ < c.types)
  }

  /** One step of the whole system: some world takes an enabled action. */
  ghost predicate Moves(c: Config, s: State, s': State, w: nat, a: Action)
    requires GoodConfig(c)
  {
    Enabled(c, s, w, a) && s' == Apply(c, s, w, a)
  }

  // A run, with the world that moves and the action it takes at every step.
  ghost predicate IsRun(c: Config, run: seq<State>, moves: seq<(nat, Action)>)
    requires GoodConfig(c)
  {
    && |run| == |moves| + 1 && Init(c, run[0])
    && forall k :: 0 <= k < |moves| ==> Moves(c, run[k], run[k + 1], moves[k].0, moves[k].1)
  }

  ghost predicate Finished(c: Config, s: State) {
    forall w :: 0 <= w < |s.worlds| ==> s.worlds[w].pc == Counter(c.Phases(), Agents, Compute)
  }
}
