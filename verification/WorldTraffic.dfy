/** What the channels hold, in every reachable state: on each of them, headers and agents match the
    program counters at both ends. */
module WorldTraffic {
  import opened Common
  import opened WorldGeometry
  import opened WorldProtocol
  import opened WorldPartners

  // ----- announced agents

  // The number of agents that the first k headers announce.
  function Announced(headers: seq<Header>, k: nat): nat
    requires k <= |headers|
  {
    if k == 0 then 0 else Announced(headers, k - 1) + headers[k - 1].n
  }

  lemma {:induction false} AnnouncedPrefix(a: seq<Header>, b: seq<Header>, k: nat)
    requires k <= |a| && k <= |b| && a[..k] == b[..k]
    ensures Announced(a, k) == Announced(b, k)
  {
    if k > 0 {
      assert a[k - 1] == a[..k][k - 1] == b[..k][k - 1];
      assert a[..k - 1] == a[..k][..k - 1] == b[..k][..k - 1];
      AnnouncedPrefix(a, b, k - 1);
    }
  }

  lemma {:induction false} AnnouncedMonotone(h: seq<Header>, k: nat, l: nat)
    requires k <= l <= |h|
    ensures Announced(h, k) <= Announced(h, l)
    ensures k < l ==> Announced(h, k) + h[k].n <= Announced(h, l)
    decreases l - k
  {
    if k < l { AnnouncedMonotone(h, k, l - 1); }
  }

  // ----- the outbox of one world

  // An item is still to be sent when its type and partner come after the current ones.
  predicate StillToSend(c: Config, w: nat, pc: Counter, item: Item)
    requires c.grid.row > 0 && pc.stage.Send?
  {
    var l := Receivers(c, w, pc);
    && item.dest in l && item.body.type_ < c.types
    && (item.body.type_ > pc.stage.t || (item.body.type_ == pc.stage.t && IndexOf(l, item.dest) >= pc.stage.i))
  }

  ghost predicate GoodOutbox(c: Config, w: nat, pc: Counter, outbox: set<Item>)
    requires c.grid.row > 0
  {
    match pc.stage
    case Compute =>
      && (pc.phase == c.Phases() ==> outbox == {})
      && forall item :: item in outbox ==> AreNeighbors(c.grid, w, item.dest) && item.body.type_ < c.types
    case Send(_, _, _) => forall item :: item in outbox ==> StillToSend(c, w, pc, item)
    case Receive(_, _, _) => outbox == {}
  }

  // Every agent that a world knows of has a registered type.
  ghost predicate Registered(c: Config, wd: World) {
    && (forall id :: id in wd.owned ==> wd.owned[id].type_ < c.types)
    && (forall copy :: copy in wd.ghosts ==> copy.body.type_ < c.types)
    && (forall copy :: copy in wd.incoming ==> copy.body.type_ < c.types)
  }

  ghost predicate GoodWorld(c: Config, w: nat, wd: World)
    requires c.grid.row > 0
  {
    GoodCounter(c, w, wd.pc) && GoodOutbox(c, w, wd.pc, wd.outbox) && Registered(c, wd)
  }

  // ----- the two ends of a channel

  // Header k was sent in the phase it says.
  ghost predicate HeaderStamp(c: Config, key: Key, headers: seq<Header>, k: nat)
    requires c.grid.row > 0 && k < |headers|
  {
    var ph := headers[k].phase;
    && key.dst in c.targets(key.src, key.kind, ph % 4)
    && Headers(c, key.src, key.dst, key.kind, ph) <= k < Headers(c, key.src, key.dst, key.kind, ph) + c.types
  }

  // The agents announced by header k were sent in the same phase, and are of the type that the
  // header was sent for: within a phase there is one header for every type.
  ghost predicate ItemStamp(c: Config, key: Key, headers: seq<Header>, items: seq<Message>, k: nat)
    requires c.grid.row > 0 && k < |headers|
  {
    forall j :: Announced(headers, k) <= j < Announced(headers, k + 1) && j < |items| ==>
                  && items[j].phase == headers[k].phase && items[j].body.type_ < c.types
                  && Headers(c, key.src, key.dst, key.kind, headers[k].phase) + items[j].body.type_ == k
  }

  // A batch for this channel is open at its sender.
  predicate Sending(c: Config, key: Key, pc: Counter)
    requires c.grid.row > 0
  {
    AtReceiver(c, key.src, pc) && pc.stage.open && OutKey(c, key.src, pc) == key
  }

  // A batch of this channel is open at its receiver.
  predicate Receiving(c: Config, key: Key, pc: Counter)
    requires c.grid.row > 0
  {
    AtSender(c, key.dst, pc) && pc.stage.left.Some? && InKey(c, key.dst, pc) == key
  }

  // Agents announced but not sent yet.
  function Outstanding(c: Config, key: Key, wd: World): nat
    requires c.grid.row > 0
  {
    if Sending(c, key, wd.pc) then |Batch(wd, wd.pc.stage.t, key.dst)| else 0
  }

  // Agents announced but not received yet.
  function Pending(c: Config, key: Key, pc: Counter): nat
    requires c.grid.row > 0
  {
    if Receiving(c, key, pc) then pc.stage.left.value else 0
  }

  // The agents are those that the headers announce, but for the last ones of the last batch.
  predicate SentSoFar(headers: seq<Header>, items: seq<Message>, sent: nat, missing: nat) {
    && |headers| == sent && |items| + missing == Announced(headers, sent)
    && (missing > 0 ==> sent > 0 && missing <= headers[sent - 1].n)
  }

  predicate ReadSoFar(ch: Channel, read: nat, missing: nat) {
    && ch.headersRead == read <= |ch.headers| && ch.itemsRead <= |ch.items|
    && ch.itemsRead + missing == Announced(ch.headers, read)
    && (missing > 0 ==> read > 0 && missing <= ch.headers[read - 1].n)
  }

  ghost predicate HeadersStamped(c: Config, key: Key, headers: seq<Header>)
    requires c.grid.row > 0
  {
    forall k :: 0 <= k < |headers| ==> HeaderStamp(c, key, headers, k)
  }

  ghost predicate ItemsStamped(c: Config, key: Key, headers: seq<Header>, items: seq<Message>)
    requires c.grid.row > 0
  {
    forall k :: 0 <= k < |headers| ==> ItemStamp(c, key, headers, items, k)
  }

  /** The sending end: the headers are those that the sender's program counter tells, and the agents
      those that the headers announce, but for the batch that is being sent. */
  ghost predicate SentRight(c: Config, key: Key, wd: World, headers: seq<Header>, items: seq<Message>)
    requires c.grid.row > 0
  {
    && SentSoFar(headers, items, Sent(c, key.src, wd.pc, key.dst, key.kind), Outstanding(c, key, wd))
    && (Sending(c, key, wd.pc) ==> |headers| > 0 && headers[|headers| - 1].phase == wd.pc.phase)
    && HeadersStamped(c, key, headers) && ItemsStamped(c, key, headers, items)
  }

  /** The receiving end: headers and agents are taken in the order announced, and never before they
      are sent. */
  ghost predicate ReceivedRight(c: Config, key: Key, pc: Counter, ch: Channel)
    requires c.grid.row > 0
  {
    && ReadSoFar(ch, Received(c, key.dst, pc, key.src, key.kind), Pending(c, key, pc))
    && (Receiving(c, key, pc) ==> ch.headersRead > 0)
  }

  ghost predicate GoodChannel(c: Config, s: State, key: Key)
    requires c.grid.row > 0 && key.src < |s.worlds| && key.dst < |s.worlds| && key in s.channels
  {
    var ch := s.channels[key];
    SentRight(c, key, s.worlds[key.src], ch.headers, ch.items) && ReceivedRight(c, key, s.worlds[key.dst].pc, ch)
  }

  ghost predicate Shaped(c: Config, s: State) {
    && |s.worlds| == c.grid.Worlds()
    && (forall key :: key in s.channels <==> key.src < |s.worlds| && key.dst < |s.worlds| && key.src != key.dst)
  }

  /** What holds of worlds and channels in every reachable state. */
  ghost predicate Traffic(c: Config, s: State)
    requires c.grid.row > 0
  {
    && Shaped(c, s)
    && (forall w :: 0 <= w < |s.worlds| ==> GoodWorld(c, w, s.worlds[w]))
    && (forall key :: key in s.channels ==> GoodChannel(c, s, key))
  }

  // ----- one action keeps the world that takes it good

  lemma ItemStaysToSend(c: Config, w: nat, pc: Counter, a: Action, item: Item)
    requires GoodConfig(c) && w < c.grid.Worlds() && GoodCounter(c, w, pc) && AtAction(c, w, pc, a)
    requires pc.stage.Send? && !a.EndSend? && StillToSend(c, w, pc, item)
    requires a.CloseSend? ==> !(item.body.type_ == pc.stage.t && item.dest == OutKey(c, w, pc).dst)
    ensures StillToSend(c, w, NextCounter(c, w, pc, a, 0), item)
  {
    PartnersInGrid(c, w, pc.kind, pc.Section());
    IndexOfAt(Receivers(c, w, pc), IndexOf(Receivers(c, w, pc), item.dest));
  }

  lemma OutboxKept(c: Config, s: State, w: nat, a: Action)
    requires GoodConfig(c) && w < c.grid.Worlds() && Enabled(c, s, w, a) && GoodWorld(c, w, s.worlds[w])
    requires s.worlds[w].pc.stage.Send?
    ensures var wd := NextWorld(c, s, w, a); GoodOutbox(c, w, wd.pc, wd.outbox)
  {
    var wd, wd' := s.worlds[w], NextWorld(c, s, w, a);
    if a.EndSend? {
      assert forall item :: item in wd.outbox ==> !StillToSend(c, w, wd.pc, item);
    } else {
      forall item | item in wd'.outbox ensures StillToSend(c, w, wd'.pc, item) {
        assert item in wd.outbox;
        if a.CloseSend? { assert item !in Batch(wd, wd.pc.stage.t, OutKey(c, w, wd.pc).dst); }
        ItemStaysToSend(c, w, wd.pc, a, item);
      }
    }
  }

  lemma OutboxKeptComputing(c: Config, s: State, w: nat, a: Action)
    requires GoodConfig(c) && w < c.grid.Worlds() && Enabled(c, s, w, a) && GoodWorld(c, w, s.worlds[w])
    requires s.worlds[w].pc.stage.Compute?
    ensures var wd := NextWorld(c, s, w, a); GoodOutbox(c, w, wd.pc, wd.outbox)
  {
    var wd, wd' := s.worlds[w], NextWorld(c, s, w, a);
    if a.FinishCompute? {
      forall item | item in wd'.outbox ensures StillToSend(c, w, wd'.pc, item) {
        PartnersMatch(c, w, item.dest, Agents, wd.pc.Section());
      }
    }
  }

  lemma GhostItemsToSend(c: Config, w: nat, wd: World)
    requires GoodConfig(c) && GoodWorld(c, w, wd) && AtAction(c, w, wd.pc, EndReceive) && wd.pc.kind == Agents
    ensures GoodOutbox(c, w, wd.pc.(kind := Ghosts, stage := Send(0, 0, false)), GhostItems(c, w, wd))
  {
    var pc' := wd.pc.(kind := Ghosts, stage := Send(0, 0, false));
    forall item | item in GhostItems(c, w, wd) ensures StillToSend(c, w, pc', item) {
    }
  }

  lemma RegisteredKept(c: Config, s: State, w: nat, a: Action)
    requires GoodConfig(c) && Enabled(c, s, w, a) && Registered(c, s.worlds[w])
    requires a.ReceiveItem? ==> NextMessage(c, s, w, a.dropped).body.type_ < c.types
    ensures Registered(c, NextWorld(c, s, w, a))
  {
  }

  lemma GoodWorldKept(c: Config, s: State, w: nat, a: Action)
    requires GoodConfig(c) && w < c.grid.Worlds() && Enabled(c, s, w, a) && GoodWorld(c, w, s.worlds[w])
    requires a.ReceiveItem? ==> NextMessage(c, s, w, a.dropped).body.type_ < c.types
    ensures GoodWorld(c, w, NextWorld(c, s, w, a))
  {
    var wd := s.worlds[w];
    CounterKept(c, w, wd.pc, a, if a.ReceiveHeader? then NextHeader(c, s, w).n else 0);
    RegisteredKept(c, s, w, a);
    if wd.pc.stage.Send? {
      OutboxKept(c, s, w, a);
    } else if wd.pc.stage.Compute? {
      OutboxKeptComputing(c, s, w, a);
    } else if a.EndReceive? && wd.pc.kind == Agents {
      GhostItemsToSend(c, w, wd);
    }
  }

  // ----- one action keeps both ends of every channel right

  lemma HeadersAfter(c: Config, key: Key, headers: seq<Header>, h: Header)
    requires c.grid.row > 0 && HeadersStamped(c, key, headers) && HeaderStamp(c, key, headers + [h], |headers|)
    ensures HeadersStamped(c, key, headers + [h])
  {
    forall k | 0 <= k < |headers + [h]| ensures HeaderStamp(c, key, headers + [h], k) {
      if k < |headers| { assert HeaderStamp(c, key, headers, k); }
    }
  }

  lemma ItemsAfterHeader(c: Config, key: Key, headers: seq<Header>, items: seq<Message>, h: Header)
    requires c.grid.row > 0 && ItemsStamped(c, key, headers, items) && |items| == Announced(headers, |headers|)
    ensures ItemsStamped(c, key, headers + [h], items)
  {
    var headers' := headers + [h];
    forall k | 0 <= k < |headers'| ensures ItemStamp(c, key, headers', items, k) {
      AnnouncedPrefix(headers, headers', k);
      if k < |headers| {
        AnnouncedPrefix(headers, headers', k + 1);
        assert ItemStamp(c, key, headers, items, k);
      }
    }
  }

  lemma ItemsAfterItem(c: Config, key: Key, headers: seq<Header>, items: seq<Message>, m: Message)
    requires c.grid.row > 0 && ItemsStamped(c, key, headers, items) && |headers| > 0
    requires Announced(headers, |headers| - 1) <= |items|
    requires m.phase == headers[|headers| - 1].phase && m.body.type_ < c.types
    requires Headers(c, key.src, key.dst, key.kind, m.phase) + m.body.type_ == |headers| - 1
    ensures ItemsStamped(c, key, headers, items + [m])
  {
    forall k | 0 <= k < |headers| ensures ItemStamp(c, key, headers, items + [m], k) {
      OneItemMore(c, key, headers, items, m, k);
    }
  }

  lemma OneItemMore(c: Config, key: Key, headers: seq<Header>, items: seq<Message>, m: Message, k: nat)
    requires c.grid.row > 0 && k < |headers| && ItemStamp(c, key, headers, items, k)
    requires Announced(headers, |headers| - 1) <= |items|
    requires m.phase == headers[|headers| - 1].phase && m.body.type_ < c.types
    requires Headers(c, key.src, key.dst, key.kind, m.phase) + m.body.type_ == |headers| - 1
    ensures ItemStamp(c, key, headers, items + [m], k)
  {
    if k < |headers| - 1 { AnnouncedMonotone(headers, k + 1, |headers| - 1); }
  }

  lemma SentHeader(headers: seq<Header>, items: seq<Message>, sent: nat, h: Header)
    requires SentSoFar(headers, items, sent, 0)
    ensures SentSoFar(headers + [h], items, sent + 1, h.n)
  {
    AnnouncedPrefix(headers, headers + [h], sent);
  }

  lemma ReadHeader(ch: Channel, read: nat)
    requires ReadSoFar(ch, read, 0) && read < |ch.headers|
    ensures ReadSoFar(ch.(headersRead := read + 1), read + 1, ch.headers[read].n)
  {
  }

  // The header that is sent next is one of the current phase.
  lemma NextHeaderStamp(c: Config, w: nat, pc: Counter, headers: seq<Header>, n: nat)
    requires GoodConfig(c) && w < c.grid.Worlds() && AtAction(c, w, pc, SendHeader)
    requires |headers| == Sent(c, w, pc, OutKey(c, w, pc).dst, pc.kind)
    ensures HeaderStamp(c, OutKey(c, w, pc), headers + [Header(n, pc.phase)], |headers|)
  {
    PartnersInGrid(c, w, pc.kind, pc.Section());
    IndexOfAt(Receivers(c, w, pc), pc.stage.i);
  }

  // What the sender does: it sends a header or an agent on this channel, or does something else.
  lemma HeaderAppended(c: Config, s: State, w: nat, key: Key)
    requires GoodConfig(c) && w < c.grid.Worlds() && Enabled(c, s, w, SendHeader) && GoodWorld(c, w, s.worlds[w])
    requires key == OutKey(c, w, s.worlds[w].pc) && key.dst < c.grid.Worlds()
    requires SentRight(c, key, s.worlds[w], s.channels[key].headers, s.channels[key].items)
    ensures var ch := NextChannels(c, s, w, SendHeader)[key];
            SentRight(c, key, NextWorld(c, s, w, SendHeader), ch.headers, ch.items)
  {
    var wd, wd' := s.worlds[w], NextWorld(c, s, w, SendHeader);
    var ch := s.channels[key];
    var n := |Batch(wd, wd.pc.stage.t, key.dst)|;
    SentMoves(c, w, wd.pc, SendHeader, 0, key.dst, key.kind);
    NextHeaderStamp(c, w, wd.pc, ch.headers, n);
    HeadersAfter(c, key, ch.headers, Header(n, wd.pc.phase));
    ItemsAfterHeader(c, key, ch.headers, ch.items, Header(n, wd.pc.phase));
    assert Outstanding(c, key, wd) == 0;
    SentHeader(ch.headers, ch.items, |ch.headers|, Header(n, wd.pc.phase));
    assert Batch(wd', wd.pc.stage.t, key.dst) == Batch(wd, wd.pc.stage.t, key.dst);
    assert Outstanding(c, key, wd') == n;
  }

  lemma ItemAppended(c: Config, s: State, w: nat, item: Item, key: Key)
    requires GoodConfig(c) && w < c.grid.Worlds() && Enabled(c, s, w, SendItem(item)) && GoodWorld(c, w, s.worlds[w])
    requires key == OutKey(c, w, s.worlds[w].pc)
    requires SentRight(c, key, s.worlds[w], s.channels[key].headers, s.channels[key].items)
    ensures var ch := NextChannels(c, s, w, SendItem(item))[key];
            SentRight(c, key, NextWorld(c, s, w, SendItem(item)), ch.headers, ch.items)
  {
    var wd, wd' := s.worlds[w], NextWorld(c, s, w, SendItem(item));
    var ch, t := s.channels[key], wd.pc.stage.t;
    assert Batch(wd', t, key.dst) == Batch(wd, t, key.dst) - {item};
    assert StillToSend(c, w, wd.pc, item);
    ServedReceiver(c, w, wd.pc);
    ItemsAfterItem(c, key, ch.headers, ch.items, Message(item.id, item.body, wd.pc.phase));
  }

  lemma SentKept(c: Config, s: State, w: nat, a: Action, key: Key)
    requires GoodConfig(c) && w < c.grid.Worlds() && Enabled(c, s, w, a) && GoodWorld(c, w, s.worlds[w])
    requires key in s.channels && key.src == w && key.dst < c.grid.Worlds()
    requires SentRight(c, key, s.worlds[w], s.channels[key].headers, s.channels[key].items)
    ensures var ch := NextChannels(c, s, w, a)[key]; SentRight(c, key, NextWorld(c, s, w, a), ch.headers, ch.items)
  {
    var wd, wd' := s.worlds[w], NextWorld(c, s, w, a);
    if a.SendHeader? && key == OutKey(c, w, wd.pc) {
      HeaderAppended(c, s, w, key);
    } else if a.SendItem? && key == OutKey(c, w, wd.pc) {
      ItemAppended(c, s, w, a.item, key);
    } else {
      SentMoves(c, w, wd.pc, a, if a.ReceiveHeader? then NextHeader(c, s, w).n else 0, key.dst, key.kind);
      assert NextChannels(c, s, w, a)[key].headers == s.channels[key].headers;
      assert NextChannels(c, s, w, a)[key].items == s.channels[key].items;
      OutstandingKept(c, s, w, a, key);
    }
  }

  lemma OutstandingKept(c: Config, s: State, w: nat, a: Action, key: Key)
    requires GoodConfig(c) && w < c.grid.Worlds() && Enabled(c, s, w, a) && GoodWorld(c, w, s.worlds[w])
    requires key.src == w && !((a.SendHeader? || a.SendItem?) && key == OutKey(c, w, s.worlds[w].pc))
    ensures Outstanding(c, key, NextWorld(c, s, w, a)) == Outstanding(c, key, s.worlds[w])
    ensures Sending(c, key, NextWorld(c, s, w, a).pc) ==>
              Sending(c, key, s.worlds[w].pc) && NextWorld(c, s, w, a).pc.phase == s.worlds[w].pc.phase
  {
  }

  // What the receiver does: it takes a header or an agent from this channel, or does something else.
  lemma CounterAfterHeader(c: Config, w: nat, pc: Counter, n: nat)
    requires GoodConfig(c) && w < c.grid.Worlds() && GoodCounter(c, w, pc) && AtAction(c, w, pc, ReceiveHeader)
    requires InKey(c, w, pc).src < c.grid.Worlds()
    ensures var key, pc' := InKey(c, w, pc), NextCounter(c, w, pc, ReceiveHeader, n);
      && Receiving(c, key, pc') && Pending(c, key, pc') == n && Pending(c, key, pc) == 0
      && Received(c, w, pc', key.src, key.kind) == Received(c, w, pc, key.src, key.kind) + 1
  {
    ReceivedMoves(c, w, pc, ReceiveHeader, n, InKey(c, w, pc).src, pc.kind);
  }

  lemma HeaderTaken(c: Config, s: State, w: nat)
    requires GoodConfig(c) && w < c.grid.Worlds() && Enabled(c, s, w, ReceiveHeader) && GoodWorld(c, w, s.worlds[w])
    requires var key := InKey(c, w, s.worlds[w].pc);
             key.src < c.grid.Worlds() && ReceivedRight(c, key, s.worlds[w].pc, s.channels[key])
    ensures var key := InKey(c, w, s.worlds[w].pc);
            ReceivedRight(c, key, NextWorld(c, s, w, ReceiveHeader).pc, NextChannels(c, s, w, ReceiveHeader)[key])
  {
    var pc := s.worlds[w].pc;
    var ch := s.channels[InKey(c, w, pc)];
    CounterAfterHeader(c, w, pc, NextHeader(c, s, w).n);
    ReadHeader(ch, ch.headersRead);
  }

  lemma ReceivedKept(c: Config, s: State, w: nat, a: Action, key: Key)
    requires GoodConfig(c) && w < c.grid.Worlds() && Enabled(c, s, w, a) && GoodWorld(c, w, s.worlds[w])
    requires key in s.channels && key.dst == w && key.src < c.grid.Worlds() && key.src != w
    requires ReceivedRight(c, key, s.worlds[w].pc, s.channels[key])
    ensures ReceivedRight(c, key, NextWorld(c, s, w, a).pc, NextChannels(c, s, w, a)[key])
  {
    var pc := s.worlds[w].pc;
    if a.ReceiveHeader? && key == InKey(c, w, pc) {
      HeaderTaken(c, s, w);
    } else {
      ReceivedMoves(c, w, pc, a, if a.ReceiveHeader? then NextHeader(c, s, w).n else 0, key.src, key.kind);
      PendingKept(c, s, w, a, key);
    }
  }

  lemma PendingKept(c: Config, s: State, w: nat, a: Action, key: Key)
    requires GoodConfig(c) && w < c.grid.Worlds() && Enabled(c, s, w, a) && GoodWorld(c, w, s.worlds[w])
    requires key in s.channels && key.dst == w && key.src != w && !(a.ReceiveHeader? && key == InKey(c, w, s.worlds[w].pc))
    ensures var ch, ch' := s.channels[key], NextChannels(c, s, w, a)[key];
      && ch'.headers == ch.headers && ch'.items == ch.items && ch'.headersRead == ch.headersRead
      && ch'.itemsRead + Pending(c, key, NextWorld(c, s, w, a).pc) == ch.itemsRead + Pending(c, key, s.worlds[w].pc)
      && ch.itemsRead <= ch'.itemsRead && (ch.itemsRead <= |ch.items| ==> ch'.itemsRead <= |ch.items|)
    ensures Receiving(c, key, NextWorld(c, s, w, a).pc) ==> Receiving(c, key, s.worlds[w].pc)
  {
  }

  // More traffic on a channel does not disturb its receiver.
  lemma ReadDespiteMore(ch: Channel, ch': Channel, read: nat, missing: nat)
    requires ReadSoFar(ch, read, missing)
    requires ch'.headersRead == ch.headersRead && ch'.itemsRead == ch.itemsRead
    requires ch.headers <= ch'.headers && ch.items <= ch'.items
    ensures ReadSoFar(ch', read, missing)
  {
    AnnouncedPrefix(ch.headers, ch'.headers, read);
  }

  // ----- every reachable state

  // Taking an action leaves the channels of other worlds alone, and only adds to the others.
  lemma ChannelsGrow(c: Config, s: State, w: nat, a: Action, key: Key)
    requires GoodConfig(c) && Enabled(c, s, w, a) && key in s.channels
    ensures key in NextChannels(c, s, w, a)
    ensures var ch, ch' := s.channels[key], NextChannels(c, s, w, a)[key];
      && ch.headers <= ch'.headers && ch.items <= ch'.items
      && (key.src != w ==> ch'.headers == ch.headers && ch'.items == ch.items)
      && (key.dst != w ==> ch'.headersRead == ch.headersRead && ch'.itemsRead == ch.itemsRead)
  {
  }

  lemma ChannelKept(c: Config, s: State, w: nat, a: Action, key: Key)
    requires GoodConfig(c) && Traffic(c, s) && Enabled(c, s, w, a) && key in s.channels
    ensures GoodChannel(c, Apply(c, s, w, a), key)
  {
    ChannelsGrow(c, s, w, a, key);
    assert GoodChannel(c, s, key);
    if key.src == w { SentKept(c, s, w, a, key); }
    if key.dst == w {
      ReceivedKept(c, s, w, a, key);
    } else {
      var pc := s.worlds[key.dst].pc;
      ReadDespiteMore(s.channels[key], NextChannels(c, s, w, a)[key],
                      Received(c, key.dst, pc, key.src, key.kind), Pending(c, key, pc));
    }
  }

  // The agent that is received next was announced by the header received last.
  lemma NextItem(c: Config, key: Key, ch: Channel, read: nat, missing: nat)
    requires c.grid.row > 0 && ReadSoFar(ch, read, missing) && missing > 0 && ch.itemsRead < |ch.items|
    requires ItemsStamped(c, key, ch.headers, ch.items)
    ensures ch.items[ch.itemsRead].phase == ch.headers[read - 1].phase
    ensures ch.items[ch.itemsRead].body.type_ < c.types
    ensures Headers(c, key.src, key.dst, key.kind, ch.headers[read - 1].phase) + ch.items[ch.itemsRead].body.type_ == read - 1
  {
    assert ItemStamp(c, key, ch.headers, ch.items, read - 1);
  }

  lemma ReceivedType(c: Config, s: State, w: nat, dropped: set<Copy>)
    requires GoodConfig(c) && Enabled(c, s, w, ReceiveItem(dropped)) && w < c.grid.Worlds()
    requires var key := InKey(c, w, s.worlds[w].pc); key.src < |s.worlds| && GoodChannel(c, s, key)
    ensures NextMessage(c, s, w, dropped).body.type_ < c.types
  {
    var pc := s.worlds[w].pc;
    var key := InKey(c, w, pc);
    NextItem(c, key, s.channels[key], s.channels[key].headersRead, Pending(c, key, pc));
  }

  lemma WorldsKept(c: Config, s: State, w: nat, a: Action)
    requires GoodConfig(c) && Traffic(c, s) && Enabled(c, s, w, a)
    ensures forall u :: 0 <= u < |s.worlds| ==> GoodWorld(c, u, Apply(c, s, w, a).worlds[u])
  {
    if a.ReceiveItem? {
      var key := InKey(c, w, s.worlds[w].pc);
      assert GoodChannel(c, s, key);
      ReceivedType(c, s, w, a.dropped);
    }
    GoodWorldKept(c, s, w, a);
  }

  lemma ShapeKept(c: Config, s: State, w: nat, a: Action)
    requires GoodConfig(c) && Shaped(c, s) && Enabled(c, s, w, a)
    ensures Shaped(c, Apply(c, s, w, a))
  {
  }

  lemma TrafficKept(c: Config, s: State, w: nat, a: Action)
    requires GoodConfig(c) && Traffic(c, s) && Enabled(c, s, w, a)
    ensures Traffic(c, Apply(c, s, w, a))
  {
    var s' := Apply(c, s, w, a);
    ShapeKept(c, s, w, a);
    WorldsKept(c, s, w, a);
    forall key | key in s'.channels ensures GoodChannel(c, s', key) {
      ChannelKept(c, s, w, a, key);
    }
  }

  lemma TrafficInitially(c: Config, s: State)
    requires GoodConfig(c) && Init(c, s)
    ensures Traffic(c, s)
  {
    forall w | 0 <= w < |s.worlds| ensures GoodWorld(c, w, s.worlds[w]) {
      assert InitialWorld(c, s, w);
    }
    forall key | key in s.channels ensures GoodChannel(c, s, key) {
      assert InitialWorld(c, s, key.src) && InitialWorld(c, s, key.dst);
    }
  }

  /** In every state of every run, headers and agents on every channel match the program counters at
      both ends. */
  lemma {:induction false} TrafficAlways(c: Config, run: seq<State>, moves: seq<(nat, Action)>, k: nat)
    requires GoodConfig(c) && IsRun(c, run, moves) && k < |run|
    ensures Traffic(c, run[k])
  {
    if k == 0 {
      TrafficInitially(c, run[0]);
    } else {
      TrafficAlways(c, run, moves, k - 1);
      assert Moves(c, run[k - 1], run[k - 1 + 1], moves[k - 1].0, moves[k - 1].1);
      TrafficKept(c, run[k - 1], moves[k - 1].0, moves[k - 1].1);
    }
  }
}
