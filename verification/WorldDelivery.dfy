/** Nothing is left out of an exchange of copies: what a world shows a partner after a section, in the
    zone that they share, the partner holds once it has been served. */
module WorldDelivery {
  import opened Common
  import opened WorldGeometry
  import opened WorldExchange
  import opened WorldZones
  import opened WorldProtocol
  import opened WorldPartners
  import opened WorldTraffic
  import opened WorldSafety
  import opened WorldAgents
  import opened WorldExecution
  import opened WorldHistory
  import opened WorldCopies
  import opened WorldSetUp

  // ----- partners are served column by column

  // Tile a comes before tile b, seen from world u.
  predicate Sooner(g: Grid, u: nat, a: nat, b: nat)
    requires g.row > 0
  {
    var d, e := Offset(g, u, a), Offset(g, u, b);
    d.x < e.x || (d.x == e.x && d.y < e.y)
  }

  ghost predicate ListInOrder(g: Grid, u: nat, l: seq<nat>)
    requires g.row > 0
  {
    forall i, k :: 0 <= i < k < |l| ==> Sooner(g, u, l[i], l[k])
  }

  /** Copies are received from the partners column by column, in a column from top to bottom. */
  ghost predicate InOrder(c: Config) {
    c.grid.row > 0 && forall u: nat, s: nat :: u < c.grid.Worlds() && s < 4 ==> ListInOrder(c.grid, u, c.sources(u, Ghosts, s))
  }

  lemma OrderedConcat(g: Grid, u: nat, a: seq<nat>, b: seq<nat>)
    requires g.row > 0 && ListInOrder(g, u, a) && ListInOrder(g, u, b)
    requires forall m, n :: m in a && n in b ==> Sooner(g, u, m, n)
    ensures ListInOrder(g, u, a + b)
  {
    forall i, k | 0 <= i < k < |a + b| ensures Sooner(g, u, (a + b)[i], (a + b)[k]) {
      if i < |a| <= k { assert (a + b)[i] in a && (a + b)[k] in b; }
    }
  }

  lemma ColumnInOrder(g: Grid, u: nat, dx: int)
    requires g.row > 0 && u < g.Worlds() && -1 <= dx <= 1
    ensures ListInOrder(g, u, NeighborColumn(g, u, dx))
  {
    NeighborAtIs(g, u, dx, -1);
    NeighborAtIs(g, u, dx, 0);
    NeighborAtIs(g, u, dx, 1);
    OrderedConcat(g, u, NeighborAt(g, u, dx, -1), NeighborAt(g, u, dx, 0));
    OrderedConcat(g, u, NeighborAt(g, u, dx, -1) + NeighborAt(g, u, dx, 0), NeighborAt(g, u, dx, 1));
  }

  lemma NeighborsInOrder(g: Grid, u: nat)
    requires g.row > 0 && u < g.Worlds()
    ensures ListInOrder(g, u, Neighbors(g, u))
  {
    ColumnInOrder(g, u, -1);
    ColumnInOrder(g, u, 0);
    ColumnInOrder(g, u, 1);
    NeighborColumnIs(g, u, -1);
    NeighborColumnIs(g, u, 0);
    NeighborColumnIs(g, u, 1);
    OrderedConcat(g, u, NeighborColumn(g, u, -1), NeighborColumn(g, u, 0));
    OrderedConcat(g, u, NeighborColumn(g, u, -1) + NeighborColumn(g, u, 0), NeighborColumn(g, u, 1));
  }

  lemma {:induction false} SelectedInOrder(g: Grid, u: nat, s: nat, l: seq<nat>)
    requires g.row > 0 && s < 4 && ListInOrder(g, u, l)
    ensures ListInOrder(g, u, SelectSources(g, u, s, l)) && forall n :: n in SelectSources(g, u, s, l) ==> n in l
  {
    if l != [] {
      SelectedInOrder(g, u, s, l[1..]);
      assert forall n :: n in l[1..] ==> Sooner(g, u, l[0], n);
      OrderedConcat(g, u, if NeedsToReceiveData(g, u, l[0], s) then [l[0]] else [], SelectSources(g, u, s, l[1..]));
    }
  }

  /** The program receives copies in that order. */
  lemma SetUpInOrder(g: Grid, types: nat, steps: nat)
    requires GoodGrid(g)
    ensures InOrder(SetUp(g, types, steps))
  {
    var c := SetUp(g, types, steps);
    forall u: nat, s: nat | u < g.Worlds() && s < 4 ensures ListInOrder(g, u, c.sources(u, Ghosts, s)) {
      NeighborsInOrder(g, u);
      SelectedInOrder(g, u, s, Neighbors(g, u));
    }
  }

  // On one axis, the zone of a later partner does not reach into the tile of an earlier one.
  lemma AxisMisses(x: Axis, x': Axis, d: int, e: int, high: bool, p: int)
    requires NextTo(x, x', d) && -1 <= e <= 1 && d < e && High(-d, high) && High(-e, high)
    requires x'.origin <= p < x'.origin + x'.local && AlongZone(x, d, high, p)
    ensures !AlongZone(x, e, high, p)
  {
  }

  /** A world replaces the copies of its partners one after the other, and the zones overlap when the
      overlap is more than a sixth of a tile.  Those that it receives from a partner for the tile of
      that partner are not replaced by partners that come later. */
  lemma LaterZoneMisses(g: Grid, u: nat, a: nat, b: nat, s: nat, p: Point2D)
    requires GoodGrid(g) && AreNeighbors(g, u, a) && AreNeighbors(g, u, b) && s < 4
    requires NeedsToReceiveData(g, u, a, s) && NeedsToReceiveData(g, u, b, s) && Sooner(g, u, a, b)
    requires Boundaries(g, a).IsInside(p) && ToGlobal(g, u, OverlapZone(g, u, a, s)).IsInside(p)
    ensures !ToGlobal(g, u, OverlapZone(g, u, b, s)).IsInside(p)
  {
    NeighborAxes(g, u, a);
    AxesOfZone(g, u, a, s, p);
    AxesOfZone(g, u, b, s, p);
    var d, e := Offset(g, u, a), Offset(g, u, b);
    if ToGlobal(g, u, OverlapZone(g, u, b, s)).IsInside(p) {
      if d.x < e.x {
        AxisMisses(AxisX(g, u), AxisX(g, a), d.x, e.x, s == 1 || s == 3, p.x);
      } else {
        AxisMisses(AxisY(g, u), AxisY(g, a), d.y, e.y, s == 2 || s == 3, p.y);
      }
    }
  }

  // ----- what is to be delivered

  /** A copy that a world has to show a partner after the section of a phase. */
  datatype Parcel = Parcel(src: nat, dst: nat, phase: nat, copy: Copy)

  ghost predicate GoodParcel(c: Config, e: Parcel)
    requires c.grid.row > 0
  {
    && e.src < c.grid.Worlds() && e.dst < c.grid.Worlds() && e.src != e.dst
    && AreNeighbors(c.grid, e.src, e.dst) && NeedsToBeUpdated(c.grid, e.src, e.dst, e.phase % 4)
    && e.copy.body.type_ < c.types && !Boundaries(c.grid, e.dst).IsInside(e.copy.body.pos)
    && ToGlobal(c.grid, e.src, OverlapZone(c.grid, e.src, e.dst, e.phase % 4)).IsInside(e.copy.body.pos)
  }

  function KeyOf(e: Parcel): Key { Key(e.src, e.dst, Ghosts) }
  function ItemOf(e: Parcel): Item { Item(e.dst, e.copy.id, e.copy.body) }

  // It waits in the outbox,
  ghost predicate Waits(s: State, e: Parcel)
    requires e.src < |s.worlds|
  {
    var wd := s.worlds[e.src];
    wd.pc.phase == e.phase && wd.pc.kind == Ghosts && ItemOf(e) in wd.outbox
  }

  // or travels as message n,
  ghost predicate TravelsAs(s: State, e: Parcel, n: nat) {
    && KeyOf(e) in s.channels
    && var ch := s.channels[KeyOf(e)];
       ch.itemsRead <= n < |ch.items| && ch.items[n] == Message(e.copy.id, e.copy.body, e.phase)
  }

  ghost predicate Travels(s: State, e: Parcel) { exists n: nat :: TravelsAs(s, e, n) }

  // or has arrived,
  ghost predicate HasArrived(c: Config, s: State, e: Parcel)
    requires c.grid.row > 0 && e.dst < |s.worlds|
  {
    var wd := s.worlds[e.dst];
    && wd.pc.phase == e.phase && AtSender(c, e.dst, wd.pc) && wd.pc.stage.left.Some?
    && InKey(c, e.dst, wd.pc) == KeyOf(e) && wd.pc.stage.t == e.copy.body.type_ && e.copy in wd.incoming
  }

  /** or the partner has been served. */
  ghost predicate Closed(c: Config, pc: Counter, e: Parcel)
    requires c.grid.row > 0
  {
    || pc.phase > e.phase
    || (pc.phase == e.phase && pc.kind == Ghosts && pc.stage.Receive? && e.src in Senders(c, e.dst, pc)
        && Served(pc, e.copy.body.type_, IndexOf(Senders(c, e.dst, pc), e.src)))
  }

  // The partner has just been served.
  ghost predicate JustClosed(c: Config, pc: Counter, e: Parcel)
    requires c.grid.row > 0
  {
    && pc.phase == e.phase && pc.kind == Ghosts && pc.stage.Receive? && e.src in Senders(c, e.dst, pc)
    && pc.stage == Receive(e.copy.body.type_, IndexOf(Senders(c, e.dst, pc), e.src) + 1, None)
  }

  /** While the copy is to be held: once served, and, when it is of an agent in the tile of the sender,
      until agents are received in the next section. */
  ghost predicate ToBeHeld(c: Config, pc: Counter, e: Parcel)
    requires c.grid.row > 0
  {
    || JustClosed(c, pc, e)
    || (Boundaries(c.grid, e.src).IsInside(e.copy.body.pos)
        && (pc.phase == e.phase || (pc.phase == e.phase + 1 && pc.kind == Agents && !pc.stage.Receive?)))
  }

  ghost predicate Delivered(c: Config, s: State, e: Parcel)
    requires c.grid.row > 0 && e.dst < |s.worlds|
  {
    && Closed(c, s.worlds[e.dst].pc, e)
    && (ToBeHeld(c, s.worlds[e.dst].pc, e) ==> e.copy in s.worlds[e.dst].ghosts)
  }

  ghost predicate OnItsWay(c: Config, s: State, e: Parcel)
    requires c.grid.row > 0 && e.src < |s.worlds| && e.dst < |s.worlds|
  {
    Waits(s, e) || Travels(s, e) || HasArrived(c, s, e) || Delivered(c, s, e)
  }

  // The agent is not owned by the world that is to get the copy.
  ghost predicate NotOwned(s: State, e: Parcel)
    requires e.dst < |s.worlds|
  {
    var wd := s.worlds[e.dst];
    wd.pc.phase == e.phase && wd.pc.kind == Ghosts && wd.pc.stage.Receive? ==> e.copy.id !in wd.owned
  }

  // ----- one action moves it on

  lemma WaitsKept(c: Config, s: State, w: nat, a: Action, e: Parcel)
    requires GoodConfig(c) && Traffic(c, s) && Enabled(c, s, w, a) && GoodParcel(c, e) && Waits(s, e)
    ensures Waits(Apply(c, s, w, a), e) || Travels(Apply(c, s, w, a), e)
  {
    if w == e.src {
      SendsWhileItWaits(c, s, e);
      if a.SendItem? && a.item == ItemOf(e) {
        SenderIsReader(c, s, KeyOf(e));
        SentNext(c, s, w, a.item, e);
      } else {
        OutboxAfterSending(c, s, w, a, ItemOf(e));
      }
    }
  }

  lemma SendsWhileItWaits(c: Config, s: State, e: Parcel)
    requires GoodConfig(c) && Traffic(c, s) && GoodParcel(c, e) && Waits(s, e)
    ensures s.worlds[e.src].pc.stage.Send? && KeyOf(e) in s.channels
  {
    assert GoodWorld(c, e.src, s.worlds[e.src]);
  }

  lemma SentNext(c: Config, s: State, w: nat, item: Item, e: Parcel)
    requires GoodConfig(c) && Enabled(c, s, w, SendItem(item)) && w == e.src && s.worlds[w].pc.kind == Ghosts
    requires item == ItemOf(e) && s.worlds[w].pc.phase == e.phase && KeyOf(e) in s.channels
    requires s.channels[KeyOf(e)].itemsRead <= |s.channels[KeyOf(e)].items|
    ensures Travels(Apply(c, s, w, SendItem(item)), e)
  {
    assert OutKey(c, w, s.worlds[w].pc) == KeyOf(e);
    assert TravelsAs(Apply(c, s, w, SendItem(item)), e, |s.channels[KeyOf(e)].items|);
  }

  lemma OutboxAfterSending(c: Config, s: State, w: nat, a: Action, item: Item)
    requires GoodConfig(c) && Enabled(c, s, w, a) && s.worlds[w].pc.stage.Send? && item in s.worlds[w].outbox
    requires !(a.SendItem? && a.item == item)
    ensures item in NextWorld(c, s, w, a).outbox
    ensures NextWorld(c, s, w, a).pc.phase == s.worlds[w].pc.phase && NextWorld(c, s, w, a).pc.kind == s.worlds[w].pc.kind
  {
  }

  lemma TravelsKept(c: Config, s: State, w: nat, a: Action, e: Parcel, n: nat)
    requires GoodConfig(c) && Traffic(c, s) && Enabled(c, s, w, a) && GoodParcel(c, e)
    requires NotOwned(s, e) && TravelsAs(s, e, n)
    ensures Travels(Apply(c, s, w, a), e) || HasArrived(c, Apply(c, s, w, a), e)
  {
    ChannelsGrow(c, s, w, a, KeyOf(e));
    if a.ReceiveItem? && w == e.dst && InKey(c, w, s.worlds[w].pc) == KeyOf(e) && n == s.channels[KeyOf(e)].itemsRead {
      ReceivedInPhase(c, s, w, a.dropped);
      ArrivesNow(c, s, w, a.dropped, e);
    } else {
      StillTravels(c, s, w, a, e, n);
    }
  }

  lemma ArrivesNow(c: Config, s: State, w: nat, dropped: set<Copy>, e: Parcel)
    requires GoodConfig(c) && Enabled(c, s, w, ReceiveItem(dropped)) && w == e.dst && NotOwned(s, e)
    requires InKey(c, w, s.worlds[w].pc) == KeyOf(e)
    requires NextMessage(c, s, w, dropped) == Message(e.copy.id, e.copy.body, e.phase)
    requires s.worlds[w].pc.phase == e.phase && s.worlds[w].pc.stage.t == e.copy.body.type_
    ensures HasArrived(c, Apply(c, s, w, ReceiveItem(dropped)), e)
  {
  }

  lemma StillTravels(c: Config, s: State, w: nat, a: Action, e: Parcel, n: nat)
    requires GoodConfig(c) && Enabled(c, s, w, a) && TravelsAs(s, e, n)
    requires !(a.ReceiveItem? && InKey(c, w, s.worlds[w].pc) == KeyOf(e) && n == s.channels[KeyOf(e)].itemsRead)
    ensures TravelsAs(Apply(c, s, w, a), e, n)
  {
  }

  // While agents of a batch arrive, nothing else happens in their world.
  lemma ArrivedActions(c: Config, s: State, w: nat, a: Action, e: Parcel)
    requires GoodConfig(c) && Enabled(c, s, w, a) && w == e.dst && HasArrived(c, s, e)
    ensures a.ReceiveItem? || a.CloseReceive?
  {
  }

  lemma ArrivedWaits(c: Config, s: State, w: nat, dropped: set<Copy>, e: Parcel)
    requires GoodConfig(c) && Enabled(c, s, w, ReceiveItem(dropped)) && w == e.dst && HasArrived(c, s, e)
    ensures HasArrived(c, Apply(c, s, w, ReceiveItem(dropped)), e)
  {
  }

  lemma ArrivedElsewhere(c: Config, s: State, w: nat, a: Action, e: Parcel)
    requires GoodConfig(c) && Enabled(c, s, w, a) && w != e.dst && e.dst < |s.worlds| && HasArrived(c, s, e)
    ensures HasArrived(c, Apply(c, s, w, a), e)
  {
    assert Apply(c, s, w, a).worlds[e.dst] == s.worlds[e.dst];
  }

  lemma ArrivedKept(c: Config, s: State, w: nat, a: Action, e: Parcel)
    requires GoodConfig(c) && Shaped(c, s) && Enabled(c, s, w, a) && GoodParcel(c, e) && HasArrived(c, s, e)
    ensures HasArrived(c, Apply(c, s, w, a), e) || Delivered(c, Apply(c, s, w, a), e)
  {
    if w != e.dst {
      ArrivedElsewhere(c, s, w, a, e);
    } else {
      ArrivedActions(c, s, w, a, e);
      if a.CloseReceive? { ClosedNow(c, s, w, e); } else { ArrivedWaits(c, s, w, a.dropped, e); }
    }
  }

  lemma ClosedNow(c: Config, s: State, w: nat, e: Parcel)
    requires GoodConfig(c) && Shaped(c, s) && Enabled(c, s, w, CloseReceive) && w == e.dst && HasArrived(c, s, e)
    ensures Delivered(c, Apply(c, s, w, CloseReceive), e)
  {
    ServedSender(c, w, s.worlds[w].pc);
  }

  // What is to be held is kept: it is not dropped, and not replaced.
  lemma HeldKept(c: Config, s: State, w: nat, a: Action, e: Parcel)
    requires GoodConfig(c) && Enabled(c, s, w, a) && w == e.dst && NotOwned(s, e) && e.copy in s.worlds[w].ghosts
    requires !(a.ReceiveItem? && s.worlds[w].pc.kind == Agents)
    requires s.worlds[w].pc.phase == e.phase ==> s.worlds[w].pc.kind == Ghosts && s.worlds[w].pc.stage.Receive?
    requires s.worlds[w].pc.phase != e.phase ==> s.worlds[w].pc.kind == Agents
    requires a.CloseReceive? && s.worlds[w].pc.kind == Ghosts && e.copy.body.type_ == s.worlds[w].pc.stage.t ==>
               !InZone(c, w, InKey(c, w, s.worlds[w].pc).src, s.worlds[w].pc.Section(), e.copy.body)
    ensures e.copy in NextWorld(c, s, w, a).ghosts
  {
  }

  lemma ServedLater(c: Config, w: nat, pc: Counter, e: Parcel)
    requires GoodConfig(c) && ByTheTables(c) && InOrder(c) && GoodParcel(c, e) && w == e.dst
    requires AtSender(c, w, pc) && pc.kind == Ghosts && pc.phase == e.phase && Closed(c, pc, e) && e.copy.body.type_ == pc.stage.t
    ensures var y, s := InKey(c, w, pc).src, pc.Section();
      && Sooner(c.grid, w, e.src, y) && AreNeighbors(c.grid, w, y) && AreNeighbors(c.grid, w, e.src)
      && NeedsToReceiveData(c.grid, w, y, s) && NeedsToReceiveData(c.grid, w, e.src, s)
  {
    var l := Senders(c, w, pc);
    ServedSender(c, w, pc);
    assert GhostPartners(c, w, l[pc.stage.i], pc.Section()) && GhostPartners(c, w, e.src, pc.Section());
    assert ListInOrder(c.grid, w, l);
    assert Sooner(c.grid, w, l[IndexOf(l, e.src)], l[pc.stage.i]);
  }

  // A partner that comes later does not replace it.
  lemma LaterIsElsewhere(c: Config, w: nat, pc: Counter, e: Parcel)
    requires GoodConfig(c) && ByTheTables(c) && InOrder(c) && GoodParcel(c, e) && w == e.dst
    requires AtSender(c, w, pc) && pc.kind == Ghosts && pc.phase == e.phase && Closed(c, pc, e)
    requires Boundaries(c.grid, e.src).IsInside(e.copy.body.pos) && e.copy.body.type_ == pc.stage.t
    ensures !InZone(c, w, InKey(c, w, pc).src, pc.Section(), e.copy.body)
  {
    var y := InKey(c, w, pc).src;
    ServedLater(c, w, pc, e);
    OverlapZonesAgree(c.grid, e.src, w, pc.Section());
    LaterZoneMisses(c.grid, w, e.src, y, pc.Section(), e.copy.body.pos);
  }

  // A world is served once and for all.
  lemma ClosedStays(c: Config, w: nat, pc: Counter, a: Action, n: nat, e: Parcel)
    requires GoodConfig(c) && AtAction(c, w, pc, a) && w == e.dst && Closed(c, pc, e)
    ensures Closed(c, NextCounter(c, w, pc, a, n), e)
  {
  }

  // And what is to be held afterwards was to be held before.
  lemma HeldBefore(c: Config, w: nat, pc: Counter, a: Action, n: nat, e: Parcel)
    requires GoodConfig(c) && GoodCounter(c, w, pc) && AtAction(c, w, pc, a) && w == e.dst && Closed(c, pc, e)
    requires ToBeHeld(c, NextCounter(c, w, pc, a, n), e)
    ensures Boundaries(c.grid, e.src).IsInside(e.copy.body.pos) && ToBeHeld(c, pc, e)
    ensures if pc.phase == e.phase then pc.kind == Ghosts && pc.stage.Receive? else pc.kind == Agents && !pc.stage.Receive?
  {
  }

  lemma DeliveredKept(c: Config, s: State, w: nat, a: Action, e: Parcel)
    requires GoodConfig(c) && ByTheTables(c) && InOrder(c) && Traffic(c, s) && Enabled(c, s, w, a) && GoodParcel(c, e)
    requires NotOwned(s, e) && Delivered(c, s, e)
    ensures Delivered(c, Apply(c, s, w, a), e)
  {
    if w == e.dst {
      assert GoodWorld(c, w, s.worlds[w]);
      HoldsOn(c, s, w, a, e);
    }
  }

  lemma HoldsOn(c: Config, s: State, w: nat, a: Action, e: Parcel)
    requires GoodConfig(c) && ByTheTables(c) && InOrder(c) && Enabled(c, s, w, a) && GoodParcel(c, e) && w == e.dst
    requires GoodCounter(c, w, s.worlds[w].pc) && NotOwned(s, e) && Delivered(c, s, e)
    ensures Closed(c, NextWorld(c, s, w, a).pc, e)
    ensures ToBeHeld(c, NextWorld(c, s, w, a).pc, e) ==> e.copy in NextWorld(c, s, w, a).ghosts
  {
    var pc := s.worlds[w].pc;
    var n := if a.ReceiveHeader? then NextHeader(c, s, w).n else 0;
    NextCounterOf(c, s, w, a);
    ClosedStays(c, w, pc, a, n, e);
    if ToBeHeld(c, NextCounter(c, w, pc, a, n), e) {
      HeldBefore(c, w, pc, a, n, e);
      if a.CloseReceive? && pc.kind == Ghosts && e.copy.body.type_ == pc.stage.t { LaterIsElsewhere(c, w, pc, e); }
      HeldKept(c, s, w, a, e);
    }
  }

  lemma NextCounterOf(c: Config, s: State, w: nat, a: Action)
    requires GoodConfig(c) && Enabled(c, s, w, a)
    ensures NextWorld(c, s, w, a).pc
         == NextCounter(c, w, s.worlds[w].pc, a, if a.ReceiveHeader? then NextHeader(c, s, w).n else 0)
  {
  }

  /** Every action moves a parcel on, or leaves it where it is. */
  lemma OnItsWayKept(c: Config, s: State, w: nat, a: Action, e: Parcel)
    requires GoodConfig(c) && ByTheTables(c) && InOrder(c) && Traffic(c, s) && Enabled(c, s, w, a) && GoodParcel(c, e)
    requires NotOwned(s, e) && OnItsWay(c, s, e)
    ensures OnItsWay(c, Apply(c, s, w, a), e)
  {
    if Waits(s, e) {
      WaitsKept(c, s, w, a, e);
    } else if n: nat :| TravelsAs(s, e, n) {
      TravelsKept(c, s, w, a, e, n);
    } else if HasArrived(c, s, e) {
      ArrivedKept(c, s, w, a, e);
    } else {
      DeliveredKept(c, s, w, a, e);
    }
  }

  // ----- once served, it is there

  // A world that still has the parcel in its outbox has not announced it, or not sent all of the batch.
  lemma StillInBatch(c: Config, w: nat, wd: World, e: Parcel)
    requires GoodConfig(c) && ByTheTables(c) && GoodParcel(c, e) && w == e.src && GoodWorld(c, w, wd) && wd.pc.kind == Ghosts
    requires wd.pc.phase == e.phase && ItemOf(e) in wd.outbox
    ensures var sent, last := Sent(c, w, wd.pc, e.dst, Ghosts), Headers(c, w, e.dst, Ghosts, e.phase) + e.copy.body.type_ + 1;
      sent <= last && (sent == last ==> Outstanding(c, KeyOf(e), wd) > 0)
  {
    var item := ItemOf(e);
    assert GhostPartners(c, w, e.dst, e.phase % 4);
    if wd.pc.stage.Send? {
      assert StillToSend(c, w, wd.pc, item);
      assert item.body.type_ == wd.pc.stage.t ==> item in Batch(wd, wd.pc.stage.t, item.dest);
    }
  }

  // A world that has been served has read the header of the batch, and all that it announced.
  lemma ServedHasRead(c: Config, pc: Counter, e: Parcel)
    requires GoodConfig(c) && ByTheTables(c) && GoodParcel(c, e) && GoodCounter(c, e.dst, pc) && Closed(c, pc, e)
    ensures var read, last := Received(c, e.dst, pc, e.src, Ghosts), Headers(c, e.src, e.dst, Ghosts, e.phase) + e.copy.body.type_ + 1;
      read >= last && (read == last ==> Pending(c, KeyOf(e), pc) == 0)
  {
    assert GhostPartners(c, e.src, e.dst, e.phase % 4);
    PartnersInGrid(c, e.dst, Ghosts, pc.Section());
    if pc.phase > e.phase {
      HeadersMonotone(c, e.src, e.dst, Ghosts, e.phase, pc.phase);
      if Receiving(c, KeyOf(e), pc) { ServedSender(c, e.dst, pc); }
    } else {
      IndexOfAt(Senders(c, e.dst, pc), IndexOf(Senders(c, e.dst, pc), e.src));
    }
  }

  lemma NotWaitingWhenServed(c: Config, s: State, e: Parcel)
    requires GoodConfig(c) && ByTheTables(c) && Traffic(c, s) && GoodParcel(c, e) && Closed(c, s.worlds[e.dst].pc, e)
    ensures !Waits(s, e)
  {
    if Waits(s, e) {
      var key, wd, pc := KeyOf(e), s.worlds[e.src], s.worlds[e.dst].pc;
      assert GoodWorld(c, e.src, wd) && GoodWorld(c, e.dst, s.worlds[e.dst]) && GoodChannel(c, s, key);
      StillInBatch(c, e.src, wd, e);
      ServedHasRead(c, pc, e);
      AllRead(s.channels[key], Sent(c, e.src, wd.pc, e.dst, Ghosts), Outstanding(c, key, wd),
              Received(c, e.dst, pc, e.src, Ghosts), Pending(c, key, pc));
    }
  }

  lemma AllRead(ch: Channel, sent: nat, missing: nat, read: nat, left: nat)
    requires SentSoFar(ch.headers, ch.items, sent, missing) && ReadSoFar(ch, read, left)
    ensures read <= sent && (read == sent && left == 0 ==> missing == 0)
  {
  }

  // A message of a batch whose header has been read, and of which nothing is pending, is read.
  lemma BatchIsRead(c: Config, key: Key, ch: Channel, read: nat, left: nat, n: nat)
    requires c.grid.row > 0 && ItemsStamped(c, key, ch.headers, ch.items) && n < |ch.items| <= Announced(ch.headers, |ch.headers|)
    requires ReadSoFar(ch, read, left)
    requires var last := Headers(c, key.src, key.dst, key.kind, ch.items[n].phase) + ch.items[n].body.type_ + 1;
             read >= last && (read == last ==> left == 0)
    ensures n < ch.itemsRead
  {
    var r := HeaderOf(ch.headers, 0, n);
    assert ItemStamp(c, key, ch.headers, ch.items, r);
    assert r + 1 <= read;
    if read == r + 1 {
      assert ch.itemsRead == Announced(ch.headers, r + 1);
    } else {
      AnnouncedMonotone(ch.headers, r + 1, read - 1);
    }
  }

  lemma NotTravellingWhenServed(c: Config, s: State, e: Parcel)
    requires GoodConfig(c) && ByTheTables(c) && Traffic(c, s) && GoodParcel(c, e) && Closed(c, s.worlds[e.dst].pc, e)
    ensures !Travels(s, e)
  {
    if n: nat :| TravelsAs(s, e, n) {
      var key, pc := KeyOf(e), s.worlds[e.dst].pc;
      assert GoodWorld(c, e.dst, s.worlds[e.dst]) && GoodChannel(c, s, key);
      ServedHasRead(c, pc, e);
      BatchIsRead(c, key, s.channels[key], Received(c, e.dst, pc, e.src, Ghosts), Pending(c, key, pc), n);
    }
  }

  lemma NotArrivingWhenServed(c: Config, s: State, e: Parcel)
    requires GoodConfig(c) && GoodParcel(c, e) && e.dst < |s.worlds| && Closed(c, s.worlds[e.dst].pc, e)
    ensures !HasArrived(c, s, e)
  {
    if HasArrived(c, s, e) { ServedSender(c, e.dst, s.worlds[e.dst].pc); }
  }

  /** Once a world has been served, the copy is there. */
  lemma ServedHolds(c: Config, s: State, e: Parcel)
    requires GoodConfig(c) && ByTheTables(c) && Traffic(c, s) && GoodParcel(c, e) && OnItsWay(c, s, e)
    requires Closed(c, s.worlds[e.dst].pc, e) && ToBeHeld(c, s.worlds[e.dst].pc, e)
    ensures e.copy in s.worlds[e.dst].ghosts
  {
    NotWaitingWhenServed(c, s, e);
    NotTravellingWhenServed(c, s, e);
    NotArrivingWhenServed(c, s, e);
  }

  // ----- what a world shows is sent

  /** What a world knows of at the end of a section: the agents that it owns, and its copies of others. */
  ghost predicate Shows(wd: World, copy: Copy) {
    (copy.id in wd.owned && copy.body == wd.owned[copy.id]) || copy in wd.ghosts
  }

  // The section is over: agents have been received, and copies are going to be sent.
  ghost predicate SectionEnds(c: Config, s: State, x: nat, a: Action)
    requires GoodConfig(c)
  {
    Enabled(c, s, x, a) && a.EndReceive? && s.worlds[x].pc.kind == Agents
  }

  lemma ShownIsSent(c: Config, x: nat, wd: World, e: Parcel)
    requires GoodConfig(c) && ByTheTables(c) && GoodParcel(c, e) && e.src == x && e.phase == wd.pc.phase && Shows(wd, e.copy)
    ensures ItemOf(e) in GhostItems(c, x, wd)
  {
    assert GhostPartners(c, x, e.dst, e.phase % 4);
  }

  lemma ShownIsPosted(c: Config, s: State, x: nat, a: Action, e: Parcel)
    requires GoodConfig(c) && ByTheTables(c) && SectionEnds(c, s, x, a) && GoodParcel(c, e)
    requires e.src == x && e.phase == s.worlds[x].pc.phase && Shows(s.worlds[x], e.copy)
    ensures x < |Apply(c, s, x, a).worlds| && Waits(Apply(c, s, x, a), e)
  {
    ShownIsSent(c, x, s.worlds[x], e);
  }

  lemma NotOwnedThere(c: Config, s: State, was: Past, e: Parcel)
    requires GoodConfig(c) && GoodParcel(c, e) && AllRight(c, s, was)
    requires ItemRight(c, RecordOf(s, was), e.phase, ItemOf(e))
    ensures NotOwned(s, e)
  {
    var wd := s.worlds[e.dst];
    assert OwnedRight(was, wd) && WorldPlaced(c, e.dst, wd);
    if e.copy.id in wd.owned {
      assert Lasts(was, e.copy.id, DueAt(wd, e.copy.id), wd.owned[e.copy.id]);
      assert InTile(c, e.dst, wd, e.copy.id);
    }
  }

  lemma ShownIsKnown(c: Config, s: State, was: Past, x: nat, e: Parcel)
    requires GoodConfig(c) && ByTheTables(c) && Traffic(c, s) && Hosted(s) && Recorded(c, s, was) && GoodParcel(c, e)
    requires x < |s.worlds| && s.worlds[x].pc.stage.Receive? && WorldRight(c, RecordOf(s, was), x, s.worlds[x])
    requires e.src == x && e.phase == s.worlds[x].pc.phase && Shows(s.worlds[x], e.copy)
    ensures ItemRight(c, RecordOf(s, was), e.phase, ItemOf(e))
  {
    ShownIsSent(c, x, s.worlds[x], e);
    GhostItemsRight(c, s, was, x, ItemOf(e));
  }

  // ----- every run from right copies

  // How far a parcel is, and that it is right.
  ghost predicate Underway(c: Config, s: State, was: Past, e: Parcel)
    requires c.grid.row > 0
  {
    && |s.worlds| == c.grid.Worlds() && GoodParcel(c, e) && OnItsWay(c, s, e)
    && ItemRight(c, RecordOf(s, was), e.phase, ItemOf(e))
  }

  lemma StateAdvances(c: Config, s: State, s': State, w: nat, a: Action, was: Past)
    requires GoodConfig(c) && AllRight(c, s, was) && Moves(c, s, s', w, a)
    ensures Advances(c, RecordOf(s, was), RecordOf(s', PastAfter(c, s, w, a, was)), w)
  {
    HostedKept(c, s, s', w, a);
    assert OwnedRight(was, s.worlds[w]);
    RecordAdvances(c, s, s', w, a, was);
  }

  lemma ParcelRightLater(c: Config, s: State, s': State, w: nat, a: Action, was: Past, e: Parcel)
    requires GoodConfig(c) && AllRight(c, s, was) && Moves(c, s, s', w, a)
    requires ItemRight(c, RecordOf(s, was), e.phase, ItemOf(e))
    ensures ItemRight(c, RecordOf(s', PastAfter(c, s, w, a, was)), e.phase, ItemOf(e))
  {
    StateAdvances(c, s, s', w, a, was);
    ItemRightLater(c, RecordOf(s, was), RecordOf(s', PastAfter(c, s, w, a, was)), w, e.phase, ItemOf(e));
  }

  lemma ShownIsRight(c: Config, s: State, was: Past, x: nat, a: Action, e: Parcel)
    requires GoodConfig(c) && ByTheTables(c) && AllRight(c, s, was) && SectionEnds(c, s, x, a) && GoodParcel(c, e)
    requires e.src == x && e.phase == s.worlds[x].pc.phase && Shows(s.worlds[x], e.copy)
    ensures ItemRight(c, RecordOf(s, was), e.phase, ItemOf(e))
  {
    assert WorldRight(c, RecordOf(s, was), x, s.worlds[x]);
    ShownIsKnown(c, s, was, x, e);
  }

  lemma UnderwayFrom(c: Config, s: State, s': State, x: nat, a: Action, was: Past, e: Parcel)
    requires GoodConfig(c) && ByTheTables(c) && AllRight(c, s, was) && Moves(c, s, s', x, a) && SectionEnds(c, s, x, a)
    requires GoodParcel(c, e) && e.src == x && e.phase == s.worlds[x].pc.phase && Shows(s.worlds[x], e.copy)
    ensures Underway(c, s', PastAfter(c, s, x, a, was), e)
  {
    ShownIsPosted(c, s, x, a, e);
    ShownIsRight(c, s, was, x, a, e);
    ParcelRightLater(c, s, s', x, a, was, e);
  }

  lemma UnderwayKept(c: Config, s: State, s': State, w: nat, a: Action, was: Past, e: Parcel)
    requires GoodConfig(c) && ByTheTables(c) && InOrder(c) && AllRight(c, s, was) && Moves(c, s, s', w, a) && Underway(c, s, was, e)
    ensures Underway(c, s', PastAfter(c, s, w, a, was), e)
  {
    NotOwnedThere(c, s, was, e);
    OnItsWayKept(c, s, w, a, e);
    ParcelRightLater(c, s, s', w, a, was, e);
  }

  // The parcel was shown when the section of move i ended.
  ghost predicate ShownAt(c: Config, run: seq<State>, moves: seq<(nat, Action)>, i: nat, e: Parcel)
    requires GoodConfig(c) && IsRun(c, run, moves)
  {
    && i < |moves| && GoodParcel(c, e) && moves[i].0 == e.src && SectionEnds(c, run[i], e.src, moves[i].1)
    && run[i].worlds[e.src].pc.phase == e.phase && Shows(run[i].worlds[e.src], e.copy)
  }

  lemma UnderwayAfter(c: Config, run: seq<State>, moves: seq<(nat, Action)>, k: nat, e: Parcel)
    requires GoodConfig(c) && ByTheTables(c) && InOrder(c) && IsRun(c, run, moves) && CoherentStart(c, run[0]) && k < |moves|
    requires ShownAt(c, run, moves, k, e) || Underway(c, run[k], PastAt(c, run, moves, k), e)
    ensures Underway(c, run[k + 1], PastAt(c, run, moves, k + 1), e)
  {
    var (w, a) := moves[k];
    var was := PastAt(c, run, moves, k);
    AlwaysRight(c, run, moves, k);
    assert Moves(c, run[k], run[k + 1], w, a);
    assert PastAt(c, run, moves, k + 1) == PastAfter(c, run[k], w, a, was);
    if Underway(c, run[k], was, e) {
      UnderwayKept(c, run[k], run[k + 1], w, a, was, e);
    } else {
      UnderwayFrom(c, run[k], run[k + 1], w, a, was, e);
    }
  }

  lemma {:induction false} AlwaysUnderway(c: Config, run: seq<State>, moves: seq<(nat, Action)>, i: nat, j: nat, e: Parcel)
    requires GoodConfig(c) && ByTheTables(c) && InOrder(c) && IsRun(c, run, moves) && CoherentStart(c, run[0])
    requires ShownAt(c, run, moves, i, e) && i <= j < |moves|
    ensures Underway(c, run[j + 1], PastAt(c, run, moves, j + 1), e)
    decreases j
  {
    if j > i { AlwaysUnderway(c, run, moves, i, j - 1, e); }
    UnderwayAfter(c, run, moves, j, e);
  }

  /** Nothing that is shown is left out: in every run from right copies, whatever a world owned or held
      a copy of when its section ended, in the zone shared with a partner and outside the tile of that
      partner, the partner holds a copy of as soon as it has been served, and of agents in the tile of
      the sender until it receives agents in the next section. */
  lemma ShownIsDelivered(c: Config, run: seq<State>, moves: seq<(nat, Action)>, i: nat, j: nat, e: Parcel)
    requires GoodConfig(c) && ByTheTables(c) && InOrder(c) && IsRun(c, run, moves) && CoherentStart(c, run[0])
    requires ShownAt(c, run, moves, i, e) && i < j < |run| && e.dst < |run[j].worlds|
    requires Closed(c, run[j].worlds[e.dst].pc, e) && ToBeHeld(c, run[j].worlds[e.dst].pc, e)
    ensures e.copy in run[j].worlds[e.dst].ghosts
  {
    AlwaysUnderway(c, run, moves, i, j - 1, e);
    TrafficAlways(c, run, moves, j);
    ServedHolds(c, run[j], e);
  }

  // ----- the agents of the neighbours, as a world sees them that executes

  // World x has received the agents of phase p.
  predicate Beyond(pc: Counter, p: nat) { pc.phase > p || (pc.phase == p && pc.kind == Ghosts) }

  lemma EndsNow(c: Config, w: nat, pc: Counter, a: Action, n: nat, p: nat)
    requires GoodConfig(c) && GoodCounter(c, w, pc) && AtAction(c, w, pc, a)
    requires !Beyond(pc, p) && Beyond(NextCounter(c, w, pc, a, n), p)
    ensures a.EndReceive? && pc.kind == Agents && pc.phase == p
  {
  }

  lemma NotBeyondAtStart(c: Config, s: State, x: nat, p: nat)
    requires GoodConfig(c) && Init(c, s) && x < |s.worlds|
    ensures !Beyond(s.worlds[x].pc, p)
  {
    assert InitialWorld(c, s, x);
  }

  // When that was.
  lemma {:induction false} SectionEnded(c: Config, run: seq<State>, moves: seq<(nat, Action)>, j: nat, x: nat, p: nat) returns (i: nat)
    requires GoodConfig(c) && IsRun(c, run, moves) && j < |run| && x < |run[j].worlds| && Beyond(run[j].worlds[x].pc, p)
    ensures i < j && moves[i].0 == x && SectionEnds(c, run[i], x, moves[i].1) && run[i].worlds[x].pc.phase == p
  {
    if j == 0 {
      NotBeyondAtStart(c, run[0], x, p);
      assert false;
    }
    var k := j - 1;
    var (w, a) := moves[k];
    assert Moves(c, run[k], run[k + 1], w, a);
    if Beyond(run[k].worlds[x].pc, p) {
      i := SectionEnded(c, run, moves, k, x, p);
    } else {
      i := k;
      TrafficAlways(c, run, moves, k);
      assert GoodWorld(c, x, run[k].worlds[x]);
      NextCounterOf(c, run[k], w, a);
      EndsNow(c, w, run[k].worlds[w].pc, a, if a.ReceiveHeader? then NextHeader(c, run[k], w).n else 0, p);
    }
  }

  // From the end of a section until agents are executed in the next one.
  predicate InBetween(pc: Counter, p: nat) {
    (pc.phase == p && pc.kind == Ghosts) || (pc.phase == p + 1 && pc.kind == Agents && pc.stage.Compute?)
  }

  lemma WasInBetween(c: Config, w: nat, pc: Counter, a: Action, n: nat, p: nat)
    requires GoodConfig(c) && GoodCounter(c, w, pc) && AtAction(c, w, pc, a) && Beyond(pc, p)
    requires InBetween(NextCounter(c, w, pc, a, n), p)
    ensures InBetween(pc, p)
  {
  }

  // What is owned and has not been executed was owned before, and was the same.
  lemma OwnedBefore(c: Config, s: State, w: nat, a: Action, id: Id, p: nat)
    requires GoodConfig(c) && Enabled(c, s, w, a) && Faithful(c, s, w, a) && InBetween(s.worlds[w].pc, p)
    requires GoodCounter(c, w, s.worlds[w].pc) && id in NextWorld(c, s, w, a).owned && DueAt(NextWorld(c, s, w, a), id) <= p + 1
    ensures id in s.worlds[w].owned && NextWorld(c, s, w, a).owned[id] == s.worlds[w].owned[id]
    ensures DueAt(s.worlds[w], id) <= p + 1
  {
    DueOfOwned(c, s, w, a, id);
  }

  lemma SinceOneMove(c: Config, s: State, s': State, w: nat, a: Action, was: Past, x: nat, id: Id, p: nat)
    requires GoodConfig(c) && AllRight(c, s, was) && Moves(c, s, s', w, a) && x < |s.worlds|
    requires Beyond(s.worlds[x].pc, p) && InBetween(s'.worlds[x].pc, p)
    requires id in s'.worlds[x].owned && DueAt(s'.worlds[x], id) <= p + 1
    ensures InBetween(s.worlds[x].pc, p) && id in s.worlds[x].owned && DueAt(s.worlds[x], id) <= p + 1
    ensures s'.worlds[x].owned[id] == s.worlds[x].owned[id]
  {
    if x == w {
      assert GoodWorld(c, x, s.worlds[x]);
      NextCounterOf(c, s, w, a);
      WasInBetween(c, w, s.worlds[w].pc, a, if a.ReceiveHeader? then NextHeader(c, s, w).n else 0, p);
      CopiesAreFaithful(c, s, was, w, a);
      OwnedBefore(c, s, w, a, id, p);
    }
  }

  lemma EndsOnce(c: Config, s: State, s': State, x: nat, a: Action, p: nat)
    requires GoodConfig(c) && Moves(c, s, s', x, a) && SectionEnds(c, s, x, a) && s.worlds[x].pc.phase == p
    ensures Beyond(s'.worlds[x].pc, p) && s'.worlds[x].owned == s.worlds[x].owned
  {
  }

  lemma BeyondStays(c: Config, s: State, s': State, w: nat, a: Action, x: nat, p: nat)
    requires GoodConfig(c) && Moves(c, s, s', w, a) && x < |s.worlds| && Beyond(s.worlds[x].pc, p)
    ensures x < |s'.worlds| && Beyond(s'.worlds[x].pc, p)
  {
    if x == w { NextCounterOf(c, s, w, a); }
  }

  lemma {:induction false} BeyondSince(c: Config, run: seq<State>, moves: seq<(nat, Action)>, i: nat, j: nat, x: nat, p: nat)
    requires GoodConfig(c) && IsRun(c, run, moves) && i < j < |run| && moves[i].0 == x
    requires SectionEnds(c, run[i], x, moves[i].1) && run[i].worlds[x].pc.phase == p
    ensures x < |run[j].worlds| && Beyond(run[j].worlds[x].pc, p)
    decreases j
  {
    var k := j - 1;
    assert Moves(c, run[k], run[k + 1], moves[k].0, moves[k].1);
    if k == i {
      EndsOnce(c, run[k], run[k + 1], x, moves[k].1, p);
    } else {
      BeyondSince(c, run, moves, i, k, x, p);
      BeyondStays(c, run[k], run[k + 1], moves[k].0, moves[k].1, x, p);
    }
  }

  // Agents that have not been executed since the end of a section were owned then, and were the same.
  lemma {:induction false} OwnedSince(c: Config, run: seq<State>, moves: seq<(nat, Action)>, i: nat, j: nat, x: nat, id: Id, p: nat)
    requires GoodConfig(c) && ByTheTables(c) && IsRun(c, run, moves) && CoherentStart(c, run[0]) && i < j < |run| && moves[i].0 == x
    requires SectionEnds(c, run[i], x, moves[i].1) && run[i].worlds[x].pc.phase == p
    requires x < |run[j].worlds| && InBetween(run[j].worlds[x].pc, p)
    requires id in run[j].worlds[x].owned && DueAt(run[j].worlds[x], id) <= p + 1
    ensures id in run[i].worlds[x].owned && run[j].worlds[x].owned[id] == run[i].worlds[x].owned[id]
    decreases j
  {
    var k := j - 1;
    assert Moves(c, run[k], run[k + 1], moves[k].0, moves[k].1);
    if k == i {
      EndsOnce(c, run[k], run[k + 1], x, moves[k].1, p);
    } else {
      AlwaysRight(c, run, moves, k);
      BeyondSince(c, run, moves, i, k, x, p);
      SinceOneMove(c, run[k], run[k + 1], moves[k].0, moves[k].1, PastAt(c, run, moves, k), x, id, p);
      OwnedSince(c, run, moves, i, k, x, id, p);
    }
  }

  lemma NothingSentYet(c: Config, x: nat, pc: Counter, u: nat, p: nat)
    requires GoodConfig(c) && GoodCounter(c, x, pc) && !Beyond(pc, p)
    ensures Sent(c, x, pc, u, Ghosts) <= Headers(c, x, u, Ghosts, p)
  {
    if pc.phase < p { HeadersMonotone(c, x, u, Ghosts, pc.phase, p); }
  }

  // A world that has been served after a section has partners that have ended it.
  lemma PartnerIsBeyond(c: Config, s: State, x: nat, u: nat, p: nat)
    requires GoodConfig(c) && ByTheTables(c) && Traffic(c, s) && x < |s.worlds| && u < |s.worlds| && x != u
    requires AreNeighbors(c.grid, x, u) && NeedsToBeUpdated(c.grid, x, u, p % 4) && s.worlds[u].pc.phase > p
    ensures Beyond(s.worlds[x].pc, p)
  {
    assert GhostPartners(c, x, u, p % 4) && GoodWorld(c, x, s.worlds[x]);
    NoMoreThanSent(c, s, x, u, Ghosts);
    HeadersMonotone(c, x, u, Ghosts, p, s.worlds[u].pc.phase);
    if !Beyond(s.worlds[x].pc, p) { NothingSentYet(c, x, s.worlds[x].pc, u, p); }
  }

  /** What a world sees that executes a section: of every partner that sends to it after the section
      before, all agents in the zone that they share, as they are, unless they were executed since. */
  lemma NeighborsAreSeen(c: Config, run: seq<State>, moves: seq<(nat, Action)>, j: nat, u: nat, x: nat, id: Id, p: nat)
    requires GoodConfig(c) && ByTheTables(c) && InOrder(c) && IsRun(c, run, moves) && CoherentStart(c, run[0]) && j < |run|
    requires u < |run[j].worlds| && x < |run[j].worlds| && run[j].worlds[u].pc == Counter(p + 1, Agents, Compute)
    requires AreNeighbors(c.grid, x, u) && NeedsToBeUpdated(c.grid, x, u, p % 4)
    requires id in run[j].worlds[x].owned && DueAt(run[j].worlds[x], id) <= p + 1
    requires ToGlobal(c.grid, x, OverlapZone(c.grid, x, u, p % 4)).IsInside(run[j].worlds[x].owned[id].pos)
    ensures Copy(id, run[j].worlds[x].owned[id]) in run[j].worlds[u].ghosts
  {
    var s := run[j];
    var e := Parcel(x, u, p, Copy(id, s.worlds[x].owned[id]));
    AlwaysRight(c, run, moves, j);
    AgentInTile(c, s, x, u, id);
    PartnerIsBeyond(c, s, x, u, p);
    assert InBetween(s.worlds[x].pc, p) by { assert GoodWorld(c, x, s.worlds[x]); }
    var i := SectionEnded(c, run, moves, j, x, p);
    OwnedSince(c, run, moves, i, j, x, id, p);
    ShownIsDelivered(c, run, moves, i, j, e);
  }

  lemma AgentInTile(c: Config, s: State, x: nat, u: nat, id: Id)
    requires GoodConfig(c) && Traffic(c, s) && WellPlaced(c, s) && x < |s.worlds| && u < |s.worlds| && x != u
    requires id in s.worlds[x].owned
    ensures Boundaries(c.grid, x).IsInside(s.worlds[x].owned[id].pos) && !Boundaries(c.grid, u).IsInside(s.worlds[x].owned[id].pos)
    ensures s.worlds[x].owned[id].type_ < c.types
  {
    var pos := s.worlds[x].owned[id].pos;
    assert GoodWorld(c, x, s.worlds[x]) && WorldPlaced(c, x, s.worlds[x]);
    assert InTile(c, x, s.worlds[x], id);
    if Boundaries(c.grid, u).IsInside(pos) { OneTile(c.grid, x, u, pos); }
  }

  // ----- agents that have left are shown, too

  // Agent id has left the tile of world x in phase p, as the record says, and world x keeps a copy.
  ghost predicate HasLeft(c: Config, s: State, was: Past, x: nat, p: nat, copy: Copy)
    requires c.grid.row > 0
  {
    && x < |s.worlds| && copy in s.worlds[x].ghosts && copy.id in s.place
    && Boundaries(c.grid, x).IsInside(was(copy.id, p).pos) && Due(s, copy.id) > p
  }

  lemma LeavesNow(c: Config, s: State, s': State, x: nat, a: Action, was: Past)
    requires GoodConfig(c) && AllRight(c, s, was) && Moves(c, s, s', x, a) && a.Execute? && Relocates(c, s, x, a)
    ensures HasLeft(c, s', PastAfter(c, s, x, a, was), x, s.worlds[x].pc.phase, Copy(a.id, s.worlds[x].owned[a.id].(pos := a.pos)))
  {
    assert OwnedRight(was, s.worlds[x]);
    LeavesFrom(c, s, x, a, was);
    DueWhenMoved(c, s, s', x, a);
    HostedKept(c, s, s', x, a);
  }

  // An agent that has left does not arrive in the same section.
  lemma NotBackYet(c: Config, s: State, was: Past, x: nat, dropped: set<Copy>, copy: Copy)
    requires GoodConfig(c) && AllRight(c, s, was) && Enabled(c, s, x, ReceiveItem(dropped)) && s.worlds[x].pc.kind == Agents
    requires HasLeft(c, s, was, x, s.worlds[x].pc.phase, copy)
    ensures NextMessage(c, s, x, dropped).id != copy.id
  {
    var key := InKey(c, x, s.worlds[x].pc);
    ReceivedInPhase(c, s, x, dropped);
    ServedSender(c, x, s.worlds[x].pc);
    assert FlightRight(c, was, key, s.channels[key]);
    assert FlightRightAt(c, was, key, s.channels[key], s.channels[key].itemsRead);
    if NextMessage(c, s, x, dropped).id == copy.id { OneTile(c.grid, key.src, x, was(copy.id, s.worlds[x].pc.phase).pos); }
  }

  lemma CopyStays(c: Config, s: State, w: nat, a: Action, copy: Copy)
    requires GoodConfig(c) && Enabled(c, s, w, a) && s.worlds[w].pc.kind == Agents && copy in s.worlds[w].ghosts
    requires a.ReceiveItem? ==> NextMessage(c, s, w, a.dropped).id != copy.id
    ensures copy in NextWorld(c, s, w, a).ghosts
  {
  }

  lemma RecordOfLeft(c: Config, r: Record, r': Record, w: nat, id: Id, p: nat)
    requires c.grid.row > 0 && Advances(c, r, r', w) && id in r.ids && r.due(id) > p
    ensures r'.was(id, p) == r.was(id, p) && r'.due(id) > p
  {
    assert AgentAdvances(c, r, r', id, w);
  }

  lemma HasLeftKept(c: Config, s: State, s': State, w: nat, a: Action, was: Past, x: nat, p: nat, copy: Copy)
    requires GoodConfig(c) && AllRight(c, s, was) && Moves(c, s, s', w, a) && HasLeft(c, s, was, x, p, copy)
    requires s.worlds[x].pc.phase == p && s.worlds[x].pc.kind == Agents
    ensures HasLeft(c, s', PastAfter(c, s, w, a, was), x, p, copy)
  {
    StateAdvances(c, s, s', w, a, was);
    RecordOfLeft(c, RecordOf(s, was), RecordOf(s', PastAfter(c, s, w, a, was)), w, copy.id, p);
    if x == w {
      if a.ReceiveItem? { NotBackYet(c, s, was, x, a.dropped, copy); }
      CopyStays(c, s, w, a, copy);
    }
  }

  // World x is executing the section of phase p, or sending and receiving agents after it.
  predicate InSection(s: State, x: nat, p: nat) {
    x < |s.worlds| && s.worlds[x].pc.phase == p && s.worlds[x].pc.kind == Agents
  }

  ghost predicate SameSection(run: seq<State>, x: nat, p: nat, i: nat, j: nat) {
    i <= j < |run| && forall k :: i <= k <= j ==> InSection(run[k], x, p)
  }

  // Move i executes an agent of the section of phase p, which leaves the tile.
  ghost predicate Leaves(c: Config, run: seq<State>, moves: seq<(nat, Action)>, i: nat, x: nat, p: nat, copy: Copy)
    requires GoodConfig(c) && IsRun(c, run, moves)
  {
    && i < |moves| && moves[i] == (x, Execute(copy.id, copy.body.pos)) && Enabled(c, run[i], x, moves[i].1)
    && run[i].worlds[x].pc.phase == p && !Boundaries(c.grid, x).IsInside(copy.body.pos)
    && copy.body == run[i].worlds[x].owned[copy.id].(pos := copy.body.pos)
  }

  lemma LeftNext(c: Config, run: seq<State>, moves: seq<(nat, Action)>, k: nat, x: nat, p: nat, copy: Copy)
    requires GoodConfig(c) && ByTheTables(c) && IsRun(c, run, moves) && CoherentStart(c, run[0]) && k < |moves|
    requires Leaves(c, run, moves, k, x, p, copy)
          || (InSection(run[k], x, p) && HasLeft(c, run[k], PastAt(c, run, moves, k), x, p, copy))
    ensures HasLeft(c, run[k + 1], PastAt(c, run, moves, k + 1), x, p, copy)
  {
    var (w, a) := moves[k];
    var was := PastAt(c, run, moves, k);
    AlwaysRight(c, run, moves, k);
    assert Moves(c, run[k], run[k + 1], w, a);
    assert PastAt(c, run, moves, k + 1) == PastAfter(c, run[k], w, a, was);
    if Leaves(c, run, moves, k, x, p, copy) {
      LeavesNow(c, run[k], run[k + 1], x, a, was);
    } else {
      HasLeftKept(c, run[k], run[k + 1], w, a, was, x, p, copy);
    }
  }

  // What HasLeft says of state k of a run.
  ghost predicate LeftBy(c: Config, run: seq<State>, moves: seq<(nat, Action)>, k: nat, x: nat, p: nat, copy: Copy)
    requires GoodConfig(c) && IsRun(c, run, moves)
  {
    k < |run| && HasLeft(c, run[k], PastAt(c, run, moves, k), x, p, copy)
  }

  lemma {:induction false} LeftSince(c: Config, run: seq<State>, moves: seq<(nat, Action)>, i: nat, j: nat, x: nat, p: nat, copy: Copy)
    requires GoodConfig(c) && ByTheTables(c) && IsRun(c, run, moves) && CoherentStart(c, run[0]) && i <= j < |moves|
    requires Leaves(c, run, moves, i, x, p, copy) && SameSection(run, x, p, i, j)
    ensures LeftBy(c, run, moves, j + 1, x, p, copy)
    decreases j
  {
    if j > i {
      LeftSince(c, run, moves, i, j - 1, x, p, copy);
      assert InSection(run[j], x, p);
    }
    LeftNext(c, run, moves, j, x, p, copy);
  }

  /** An agent that leaves a tile is shown to the partners of the world that executed it, as it is
      then: they hold a copy of it as soon as they have been served after that section. */
  lemma LeavingIsShown(c: Config, run: seq<State>, moves: seq<(nat, Action)>, i: nat, k: nat, j: nat, e: Parcel)
    requires GoodConfig(c) && ByTheTables(c) && InOrder(c) && IsRun(c, run, moves) && CoherentStart(c, run[0]) && GoodParcel(c, e)
    requires i < k < j < |run| && Leaves(c, run, moves, i, e.src, e.phase, e.copy) && SameSection(run, e.src, e.phase, i, k)
    requires moves[k].0 == e.src && SectionEnds(c, run[k], e.src, moves[k].1)
    requires e.dst < |run[j].worlds| && JustClosed(c, run[j].worlds[e.dst].pc, e)
    ensures e.copy in run[j].worlds[e.dst].ghosts
  {
    LeftSince(c, run, moves, i, k - 1, e.src, e.phase, e.copy);
    assert InSection(run[k], e.src, e.phase);
    ShownIsDelivered(c, run, moves, k, j, e);
  }
}
