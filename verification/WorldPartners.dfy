/** How many headers a world has sent to or received from a partner, read off its program counter. */
module WorldPartners {
  import opened Common
  import opened WorldGeometry
  import opened WorldProtocol

  // What a good configuration says about the partners of one world, or of two.
  lemma PartnersInGrid(c: Config, v: nat, kind: Kind, s: nat)
    requires GoodConfig(c) && v < c.grid.Worlds() && s < 4
    ensures PartnersListed(c, v, kind, s)
  {
  }

  lemma PartnersMatch(c: Config, v: nat, w: nat, kind: Kind, s: nat)
    requires GoodConfig(c) && v < c.grid.Worlds() && w < c.grid.Worlds() && s < 4
    ensures PartnersAgree(c, v, w, kind, s)
  {
  }

  function IndexOf(l: seq<nat>, x: nat): (i: nat)
    requires x in l
    ensures i < |l| && l[i] == x
  {
    if l[0] == x then 0 else 1 + IndexOf(l[1..], x)
  }

  lemma IndexOfAt(l: seq<nat>, i: nat)
    requires NoDuplicates(l) && i < |l|
    ensures IndexOf(l, l[i]) == i
  {
    var j := IndexOf(l, l[i]);
    assert l[j] == l[i];
  }

  // ----- counting headers

  // The headers of all phases before ph.
  function Headers(c: Config, v: nat, w: nat, kind: Kind, ph: nat): nat
    requires c.grid.row > 0
  {
    if ph == 0 then 0
    else Headers(c, v, w, kind, ph - 1) + (if w in c.targets(v, kind, (ph - 1) % 4) then c.types else 0)
  }

  lemma {:induction false} HeadersMonotone(c: Config, v: nat, w: nat, kind: Kind, p: nat, q: nat)
    requires c.grid.row > 0 && p <= q
    ensures Headers(c, v, w, kind, p) <= Headers(c, v, w, kind, q)
    ensures p < q && w in c.targets(v, kind, p % 4) ==>
              Headers(c, v, w, kind, p) + c.types <= Headers(c, v, w, kind, q)
    decreases q - p
  {
    if p < q { HeadersMonotone(c, v, w, kind, p + 1, q); }
  }

  function Rank(pc: Counter): nat {
    match pc.stage
    case Compute => 0
    case Send(_, _, _) => if pc.kind == Agents then 1 else 3
    case Receive(_, _, _) => if pc.kind == Agents then 2 else 4
  }

  // How far a world is with the headers of the current phase, for the partner at index idx.
  function Progress(c: Config, pc: Counter, idx: nat, sending: bool, kind: Kind): nat {
    var target := (if kind == Agents then 1 else 3) + (if sending then 0 else 1);
    if Rank(pc) < target then 0
    else if Rank(pc) > target then c.types
    else match pc.stage
         case Compute => 0
         case Send(t, i, open) => t + if idx < i || (idx == i && open) then 1 else 0
         case Receive(t, i, left) => t + if idx < i || (idx == i && left.Some?) then 1 else 0
  }

  /** The number of headers that world v, being at pc, has sent to world w so far. */
  function Sent(c: Config, v: nat, pc: Counter, w: nat, kind: Kind): nat
    requires c.grid.row > 0
  {
    var l := c.targets(v, kind, pc.Section());
    Headers(c, v, w, kind, pc.phase) + if w in l then Progress(c, pc, IndexOf(l, w), true, kind) else 0
  }

  /** The number of headers that world w, being at pc, has received from world v so far. */
  function Received(c: Config, w: nat, pc: Counter, v: nat, kind: Kind): nat
    requires c.grid.row > 0
  {
    var l := c.sources(w, kind, pc.Section());
    Headers(c, v, w, kind, pc.phase) + if v in l then Progress(c, pc, IndexOf(l, v), false, kind) else 0
  }

  // ----- the program of one world is well formed

  ghost predicate GoodCounter(c: Config, w: nat, pc: Counter)
    requires c.grid.row > 0
  {
    && pc.phase <= c.Phases()
    && match pc.stage
       case Compute => pc.kind == Agents
       case Send(t, i, open) =>
         && pc.phase < c.Phases() && t <= c.types && i <= |Receivers(c, w, pc)|
         && (t == c.types ==> i == 0 && !open) && (open ==> i < |Receivers(c, w, pc)|)
       case Receive(t, i, left) =>
         && pc.phase < c.Phases() && t <= c.types && i <= |Senders(c, w, pc)|
         && (t == c.types ==> i == 0 && left == None) && (left.Some? ==> i < |Senders(c, w, pc)|)
  }

  lemma CounterKept(c: Config, w: nat, pc: Counter, a: Action, n: nat)
    requires GoodConfig(c) && GoodCounter(c, w, pc) && AtAction(c, w, pc, a)
    ensures GoodCounter(c, w, NextCounter(c, w, pc, a, n))
  {
  }

  // ----- the counts move with the actions

  // Within a phase a header is counted for the partner that is served, and for no other.
  lemma ProgressMoves(c: Config, w: nat, pc: Counter, a: Action, n: nat, idx: nat, sending: bool, kind: Kind)
    requires GoodConfig(c) && GoodCounter(c, w, pc) && AtAction(c, w, pc, a) && !(a.EndReceive? && pc.kind == Ghosts)
    requires idx < |if sending then c.targets(w, kind, pc.Section()) else c.sources(w, kind, pc.Section())|
    ensures Progress(c, NextCounter(c, w, pc, a, n), idx, sending, kind)
         == Progress(c, pc, idx, sending, kind)
            + if (if sending then a.SendHeader? else a.ReceiveHeader?) && kind == pc.kind && idx == pc.stage.i then 1 else 0
  {
  }

  // At the end of a phase all headers of that phase are sent and received.
  lemma HeadersOfPhase(c: Config, v: nat, w: nat, kind: Kind, ph: nat)
    requires c.grid.row > 0
    ensures Headers(c, v, w, kind, ph + 1) == Headers(c, v, w, kind, ph) + if w in c.targets(v, kind, ph % 4) then c.types else 0
  {
  }

  lemma PhaseEndsSent(c: Config, w: nat, pc: Counter, u: nat, kind: Kind)
    requires c.grid.row > 0 && pc.stage == Receive(c.types, 0, None) && pc.kind == Ghosts
    ensures Sent(c, w, Counter(pc.phase + 1, Agents, Compute), u, kind) == Sent(c, w, pc, u, kind)
  {
    HeadersOfPhase(c, w, u, kind, pc.phase);
  }

  lemma PhaseEndsReceived(c: Config, w: nat, pc: Counter, u: nat, kind: Kind)
    requires c.grid.row > 0 && pc.stage == Receive(c.types, 0, None) && pc.kind == Ghosts
    requires u in c.sources(w, kind, pc.Section()) <==> w in c.targets(u, kind, pc.Section())
    ensures Received(c, w, Counter(pc.phase + 1, Agents, Compute), u, kind) == Received(c, w, pc, u, kind)
  {
    HeadersOfPhase(c, u, w, kind, pc.phase);
  }

  lemma SentMoves(c: Config, w: nat, pc: Counter, a: Action, n: nat, u: nat, kind: Kind)
    requires GoodConfig(c) && w < c.grid.Worlds() && u < c.grid.Worlds() && GoodCounter(c, w, pc) && AtAction(c, w, pc, a)
    ensures Sent(c, w, NextCounter(c, w, pc, a, n), u, kind)
         == Sent(c, w, pc, u, kind) + if a.SendHeader? && OutKey(c, w, pc) == Key(w, u, kind) then 1 else 0
  {
    var l := c.targets(w, kind, pc.Section());
    PartnersInGrid(c, w, kind, pc.Section());
    if a.EndReceive? && pc.kind == Ghosts {
      PhaseEndsSent(c, w, pc, u, kind);
    } else if u in l {
      ProgressMoves(c, w, pc, a, n, IndexOf(l, u), true, kind);
      if a.SendHeader? && kind == pc.kind { IndexOfAt(l, pc.stage.i); }
    }
  }

  lemma ReceivedMoves(c: Config, w: nat, pc: Counter, a: Action, n: nat, u: nat, kind: Kind)
    requires GoodConfig(c) && w < c.grid.Worlds() && u < c.grid.Worlds() && GoodCounter(c, w, pc) && AtAction(c, w, pc, a)
    ensures Received(c, w, NextCounter(c, w, pc, a, n), u, kind)
         == Received(c, w, pc, u, kind) + if a.ReceiveHeader? && InKey(c, w, pc) == Key(u, w, kind) then 1 else 0
  {
    var l := c.sources(w, kind, pc.Section());
    PartnersInGrid(c, w, kind, pc.Section());
    if a.EndReceive? && pc.kind == Ghosts {
      PartnersMatch(c, u, w, kind, pc.Section());
      PhaseEndsReceived(c, w, pc, u, kind);
    } else if u in l {
      ProgressMoves(c, w, pc, a, n, IndexOf(l, u), false, kind);
      if a.ReceiveHeader? && kind == pc.kind { IndexOfAt(l, pc.stage.i); }
    }
  }

  // ----- the partner that is served

  lemma ServedReceiver(c: Config, w: nat, pc: Counter)
    requires GoodConfig(c) && w < c.grid.Worlds() && AtReceiver(c, w, pc)
    ensures var key := OutKey(c, w, pc);
      && key.dst < c.grid.Worlds() && key.dst != w && key.dst in Receivers(c, w, pc)
      && IndexOf(Receivers(c, w, pc), key.dst) == pc.stage.i
  {
    var dst := OutKey(c, w, pc).dst;
    PartnersInGrid(c, w, pc.kind, pc.Section());
    assert dst in Receivers(c, w, pc);
    PartnersMatch(c, w, dst, pc.kind, pc.Section());
    IndexOfAt(Receivers(c, w, pc), pc.stage.i);
  }

  lemma ServedSender(c: Config, w: nat, pc: Counter)
    requires GoodConfig(c) && w < c.grid.Worlds() && AtSender(c, w, pc)
    ensures var key := InKey(c, w, pc);
      && key.src < c.grid.Worlds() && key.src != w && key.src in Senders(c, w, pc)
      && IndexOf(Senders(c, w, pc), key.src) == pc.stage.i && w in c.targets(key.src, pc.kind, pc.Section())
  {
    var src := InKey(c, w, pc).src;
    PartnersInGrid(c, w, pc.kind, pc.Section());
    assert src in Senders(c, w, pc);
    PartnersMatch(c, src, w, pc.kind, pc.Section());
    IndexOfAt(Senders(c, w, pc), pc.stage.i);
  }

  // A world whose position is not behind that of a receiver has sent all headers of the phase, and
  // when it is sending again it has sent one more.
  function Position(pc: Counter): nat { 5 * pc.phase + Rank(pc) }

  lemma SentPast(c: Config, v: nat, w: nat, pc: Counter, pc': Counter)
    requires GoodConfig(c) && v < c.grid.Worlds() && w < c.grid.Worlds()
    requires GoodCounter(c, w, pc) && GoodCounter(c, v, pc') && pc.stage.Receive? && Position(pc) <= Position(pc')
    requires w in c.targets(v, pc.kind, pc.Section())
    ensures Sent(c, v, pc', w, pc.kind) >= Headers(c, v, w, pc.kind, pc.phase) + c.types
    ensures AtReceiver(c, v, pc') && pc'.stage.open && OutKey(c, v, pc') == Key(v, w, pc.kind) ==>
              Sent(c, v, pc', w, pc.kind) > Headers(c, v, w, pc.kind, pc.phase) + c.types
  {
    if pc'.phase > pc.phase {
      HeadersMonotone(c, v, w, pc.kind, pc.phase, pc'.phase);
      if AtReceiver(c, v, pc') && OutKey(c, v, pc') == Key(v, w, pc.kind) { ServedReceiver(c, v, pc'); }
    }
  }
}
