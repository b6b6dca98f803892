/** After the start-up exchange every world holds the global raster over its whole halo, and on the
    way no guard of a raster fires. */
module StartUpProof {
  import opened Common
  import opened WorldGeometry
  import opened WorldExchange
  import opened WorldPartners
  import opened Rasters
  import opened StartUp
  import opened StartUpCells

  // ----- counting parcels and posted receives; n is the number of rasters

  predicate Serves(x: Plan, l: Link, round: nat)
    requires x.grid.row > 0
  {
    (round == 0) == l.maxima && l.dst in SendsTo(x, l.src, round)
  }

  function Earlier(x: Plan, n: nat, l: Link, round: nat): nat
    requires x.grid.row > 0
  {
    if round == 0 then 0 else Earlier(x, n, l, round - 1) + if Serves(x, l, round - 1) then n else 0
  }

  lemma {:induction false} EarlierGrows(x: Plan, n: nat, l: Link, q: nat, round: nat)
    requires x.grid.row > 0 && q <= round
    ensures Earlier(x, n, l, q) <= Earlier(x, n, l, round)
    ensures q < round && Serves(x, l, q) ==> Earlier(x, n, l, q) + n <= Earlier(x, n, l, round)
    decreases round - q
  {
    if q < round { EarlierGrows(x, n, l, q + 1, round); }
  }

  // Passes of two nested loops that have served the partner at index idx.
  function Passes(r: nat, i: nat, idx: nat): nat { r + if idx < i then 1 else 0 }

  lemma AdvancePasses(r: nat, i: nat, partners: nat, idx: nat)
    requires i < partners && idx < partners
    ensures var (r', i') := Advance(r, i, partners); Passes(r', i', idx) == Passes(r, i, idx) + if idx == i then 1 else 0
  {
  }

  function SentNow(n: nat, a: Activity, idx: nat): nat {
    match a
    case Sending(r, i) => Passes(r, i, idx)
    case _ => n
  }

  function PostedNow(n: nat, a: Activity, idx: nat): nat {
    match a
    case Sending(_, _) => 0
    case Posting(r, i) => Passes(r, i, idx)
    case _ => n
  }

  function SentOn(x: Plan, n: nat, round: nat, l: Link, a: Activity): nat
    requires x.grid.row > 0
  {
    Earlier(x, n, l, round) + if Serves(x, l, round) then SentNow(n, a, IndexOf(SendsTo(x, l.src, round), l.dst)) else 0
  }

  function PostedOn(x: Plan, n: nat, round: nat, l: Link, a: Activity): nat
    requires x.grid.row > 0
  {
    Earlier(x, n, l, round) + if (round == 0) == l.maxima then PostedFor(x, n, round, l.dst, a, l.src) else 0
  }

  // The receives of this round that world w has posted for partner o.
  function PostedFor(x: Plan, n: nat, round: nat, w: nat, a: Activity, o: nat): nat
    requires x.grid.row > 0
  {
    var list := ReceivesFrom(x, w, round);
    if o in list then PostedNow(n, a, IndexOf(list, o)) else 0
  }

  // ----- what holds in every reachable state

  predicate GoodLoop(r: nat, i: nat, partners: nat, n: nat) {
    r <= n && (i == 0 || i < partners) && (r == n ==> i == 0)
  }

  predicate GoodActivity(x: Plan, n: nat, w: nat, round: nat, a: Activity)
    requires x.grid.row > 0
  {
    match a
    case Sending(r, i) => GoodLoop(r, i, |SendsTo(x, w, round)|, n)
    case Posting(r, i) => GoodLoop(r, i, |ReceivesFrom(x, w, round)|, n)
    case _ => true
  }

  ghost predicate GoodRequest(x: Plan, n: nat, round: nat, w: nat, request: Request)
    requires x.grid.row > 0
  {
    && request.src < x.grid.Worlds() && w in SendsTo(x, request.src, round) && request.raster < n
    && request.index == Earlier(x, n, Link(request.src, w, round == 0), round) + request.raster
  }

  ghost predicate NodeRight(x: Plan, truths: seq<Truth>, round: nat, w: nat, node: Node)
    requires x.grid.row > 0
  {
    && GoodActivity(x, |truths|, w, round, node.activity) && GoodRasters(x.grid, w, node.rasters, truths)
    && (forall request :: request in node.requests ==> GoodRequest(x, |truths|, round, w, request))
    && (node.activity.Sending? || node.activity.Waiting? ==> node.requests == {})
  }

  ghost predicate ParcelRight(x: Plan, truths: seq<Truth>, round: nat, l: Link, parcel: Parcel, k: nat)
    requires x.grid.row > 0
  {
    && parcel.round <= round && Serves(x, l, parcel.round) && parcel.raster < |truths|
    && k == Earlier(x, |truths|, l, parcel.round) + parcel.raster
    && Faithful(x.grid, l, truths[parcel.raster], parcel.data)
  }

  ghost predicate SenderRight(x: Plan, truths: seq<Truth>, round: nat, l: Link, a: Activity, parcels: seq<Parcel>)
    requires x.grid.row > 0
  {
    && |parcels| == SentOn(x, |truths|, round, l, a)
    && forall k :: 0 <= k < |parcels| ==> ParcelRight(x, truths, round, l, parcels[k], k)
  }

  ghost predicate ReceiverRight(x: Plan, n: nat, round: nat, l: Link, node: Node)
    requires x.grid.row > 0
  {
    l in node.posted && node.posted[l] == PostedOn(x, n, round, l, node.activity)
  }

  // The exchange of raster r from o to w in round q.
  ghost predicate IsExchange(x: Plan, n: nat, q: nat, o: nat, w: nat, r: nat)
    requires x.grid.row > 0
  {
    o < x.grid.Worlds() && w < x.grid.Worlds() && w in SendsTo(x, o, q) && r < n
  }

  ghost predicate AppliedRight(x: Plan, truths: seq<Truth>, nodes: seq<Node>, q: nat, o: nat, w: nat, r: nat)
    requires x.grid.row > 0
  {
    && IsExchange(x, |truths|, q, o, w, r) && w < |nodes| && r < |nodes[w].rasters|
    && StripRight(x.grid, Link(o, w, q == 0), nodes[w].rasters[r], truths[r])
  }

  // An exchange of this round whose receive has been posted is pending or complete.
  ghost predicate Accounted(x: Plan, n: nat, round: nat, o: nat, w: nat, r: nat, node: Node, applied: set<(nat, nat, nat, nat)>)
    requires x.grid.row > 0
  {
    IsExchange(x, n, round, o, w, r) && r < PostedFor(x, n, round, w, node.activity, o) ==>
      (round, o, w, r) in applied || Request(o, r, Earlier(x, n, Link(o, w, round == 0), round) + r) in node.requests
  }

  ghost predicate NodesRight(x: Plan, truths: seq<Truth>, s: Start)
    requires x.grid.row > 0
  {
    forall w :: 0 <= w < |s.nodes| ==> NodeRight(x, truths, s.round, w, s.nodes[w])
  }

  ghost predicate LinkRight(x: Plan, truths: seq<Truth>, s: Start, l: Link)
    requires x.grid.row > 0 && l in s.links
  {
    && l.src < |s.nodes| && l.dst < |s.nodes|
    && SenderRight(x, truths, s.round, l, s.nodes[l.src].activity, s.links[l])
    && ReceiverRight(x, |truths|, s.round, l, s.nodes[l.dst])
  }

  ghost predicate LinksRight(x: Plan, truths: seq<Truth>, s: Start)
    requires x.grid.row > 0
  {
    forall l :: l in s.links ==> LinkRight(x, truths, s, l)
  }

  ghost predicate ExchangesRight(x: Plan, truths: seq<Truth>, s: Start)
    requires x.grid.row > 0
  {
    && (forall q, o, w, r :: (q, o, w, r) in s.applied ==> AppliedRight(x, truths, s.nodes, q, o, w, r))
    && (forall q: nat, o: nat, w: nat, r: nat :: q < s.round && IsExchange(x, |truths|, q, o, w, r) ==> (q, o, w, r) in s.applied)
    && (forall o: nat, w: nat, r: nat :: w < |s.nodes| ==> Accounted(x, |truths|, s.round, o, w, r, s.nodes[w], s.applied))
  }

  ghost predicate StartShape(x: Plan, s: Start) {
    && !s.failed && s.round <= ROUNDS && |s.nodes| == x.grid.Worlds()
    && (forall l :: l in s.links <==> l.src < |s.nodes| && l.dst < |s.nodes| && l.src != l.dst)
  }

  ghost predicate StartRight(x: Plan, truths: seq<Truth>, s: Start)
    requires x.grid.row > 0
  {
    StartShape(x, s) && NodesRight(x, truths, s) && LinksRight(x, truths, s) && ExchangesRight(x, truths, s)
  }

  // ----- the parcel that a posted receive takes

  // Parcels and receives of a link are numbered alike.
  lemma NumberedAlike(x: Plan, truths: seq<Truth>, l: Link, parcel: Parcel, round: nat, raster: nat, k: nat)
    requires x.grid.row > 0 && ParcelRight(x, truths, round, l, parcel, k) && Serves(x, l, round) && raster < |truths|
    requires k == Earlier(x, |truths|, l, round) + raster
    ensures parcel.round == round && parcel.raster == raster
  {
    if parcel.round < round { EarlierGrows(x, |truths|, l, parcel.round, round); }
  }

  ghost predicate TakenRight(x: Plan, l: Link, round: nat, t: Truth, parcel: Parcel)
    requires x.grid.row > 0
  {
    GoodLink(x.grid, l) && Serves(x, l, round) && Faithful(x.grid, l, t, parcel.data)
  }

  lemma TakenParcel(x: Plan, truths: seq<Truth>, s: Start, w: nat, request: Request)
    requires GoodStart(x, truths) && StartRight(x, truths, s) && CanTake(x, s, w, ApplyParcel(request))
    ensures request.raster < |truths|
    ensures TakenRight(x, Link(request.src, w, s.round == 0), s.round, truths[request.raster],
                       s.links[Link(request.src, w, s.round == 0)][request.index])
  {
    var l := Link(request.src, w, s.round == 0);
    assert NodeRight(x, truths, s.round, w, s.nodes[w]);
    assert GoodRequest(x, |truths|, s.round, w, request);
    PartnersOf(x, request.src, w, s.round);
    assert LinkRight(x, truths, s, l);
    assert ParcelRight(x, truths, s.round, l, s.links[l][request.index], request.index);
    NumberedAlike(x, truths, l, s.links[l][request.index], s.round, request.raster, request.index);
  }

  // The maxima of the strip are there when its values arrive.
  lemma MaximaAreThere(x: Plan, truths: seq<Truth>, s: Start, w: nat, o: nat, r: nat)
    requires GoodStart(x, truths) && StartRight(x, truths, s) && s.round > 0
    requires w < x.grid.Worlds() && o < x.grid.Worlds() && w in SendsTo(x, o, s.round) && r < |truths|
    ensures r < |s.nodes[w].rasters| && StripRight(x.grid, Link(o, w, true), s.nodes[w].rasters[r], truths[r])
  {
    PartnersOf(x, o, w, s.round);
    PartnersOf(x, o, w, 0);
    assert IsExchange(x, |truths|, 0, o, w, r);
    assert (0, o, w, r) in s.applied;
    assert AppliedRight(x, truths, s.nodes, 0, o, w, r);
  }

  /** Applying what arrives does not fail, makes the strip right and leaves right what was right. */
  lemma ApplyingWorks(x: Plan, truths: seq<Truth>, s: Start, w: nat, request: Request)
    requires GoodStart(x, truths) && StartRight(x, truths, s) && CanTake(x, s, w, ApplyParcel(request))
    ensures var l, r := Link(request.src, w, s.round == 0), request.raster;
      && r < |truths| == |s.nodes[w].rasters|
      && var c := Updated(x, s, w, request);
         c.Done? && Fitting(x.grid, w, c.value, truths[r]) && StripRight(x.grid, l, c.value, truths[r])
         && KeepsRight(x.grid, w, s.nodes[w].rasters[r], c.value, truths[r])
  {
    var l, r := Link(request.src, w, s.round == 0), request.raster;
    TakenParcel(x, truths, s, w, request);
    assert NodeRight(x, truths, s.round, w, s.nodes[w]);
    if s.round > 0 { MaximaAreThere(x, truths, s, w, l.src, r); }
    AppliedFaithfully(x.grid, l, truths[r], s.nodes[w].rasters[r], s.links[l][request.index].data);
  }

  lemma PackingWorks(x: Plan, truths: seq<Truth>, s: Start, w: nat)
    requires GoodStart(x, truths) && StartRight(x, truths, s) && CanTake(x, s, w, SendParcel)
    ensures var a := s.nodes[w].activity;
      && GoodLink(x.grid, OutLink(x, w, s.round, a.i)) && a.r < |truths|
      && NextParcel(x, s, w).Done? && Faithful(x.grid, OutLink(x, w, s.round, a.i), truths[a.r], NextParcel(x, s, w).value)
  {
    var a := s.nodes[w].activity;
    var l := OutLink(x, w, s.round, a.i);
    assert NodeRight(x, truths, s.round, w, s.nodes[w]);
    PartnersListedOnce(x, w, s.round);
    assert l.dst in SendsTo(x, w, s.round);
    PartnersOf(x, w, l.dst, s.round);
    PackedFaithfully(x.grid, l, truths[a.r], s.nodes[w].rasters[a.r]);
  }

  // The request that is posted asks for the right parcel.
  ghost predicate PostingRight(x: Plan, n: nat, round: nat, w: nat, node: Node)
    requires x.grid.row > 0
  {
    && node.activity.Posting? && node.activity.i < |ReceivesFrom(x, w, round)| && node.activity.r < n
    && var l := InLink(x, w, round, node.activity.i);
       GoodLink(x.grid, l) && Serves(x, l, round) && ReceiverRight(x, n, round, l, node)
       && GoodRequest(x, n, round, w, Request(l.src, node.activity.r, node.posted[l]))
  }

  lemma PostingWorks(x: Plan, truths: seq<Truth>, s: Start, w: nat)
    requires GoodStart(x, truths) && StartRight(x, truths, s) && CanTake(x, s, w, PostReceive)
    ensures PostingRight(x, |truths|, s.round, w, s.nodes[w])
  {
    var a := s.nodes[w].activity;
    var l := InLink(x, w, s.round, a.i);
    assert NodeRight(x, truths, s.round, w, s.nodes[w]);
    PartnersListedOnce(x, w, s.round);
    assert l.src in ReceivesFrom(x, w, s.round);
    PartnersOf(x, l.src, w, s.round);
    IndexOfAt(ReceivesFrom(x, w, s.round), a.i);
    assert LinkRight(x, truths, s, l);
  }

  // ----- one step of world w

  // What a step needs to go right, besides what holds of the world that takes it.
  ghost predicate Works(x: Plan, truths: seq<Truth>, s: Start, w: nat, e: Event)
    requires x.grid.row > 0 && CanTake(x, s, w, e)
  {
    && !Fails(x, s, w, e)
    && match e
       case SendParcel =>
         var a := s.nodes[w].activity;
         a.r < |truths| && Faithful(x.grid, OutLink(x, w, s.round, a.i), truths[a.r], NextParcel(x, s, w).value)
       case PostReceive => PostingRight(x, |truths|, s.round, w, s.nodes[w])
       case ApplyParcel(request) =>
         var c, r := Updated(x, s, w, request).value, request.raster;
         && r < |truths| == |s.nodes[w].rasters| && GoodRequest(x, |truths|, s.round, w, request)
         && Fitting(x.grid, w, c, truths[r]) && StripRight(x.grid, Link(request.src, w, s.round == 0), c, truths[r])
         && KeepsRight(x.grid, w, s.nodes[w].rasters[r], c, truths[r])
       case _ => true
  }

  lemma EveryStepWorks(x: Plan, truths: seq<Truth>, s: Start, w: nat, e: Event)
    requires GoodStart(x, truths) && StartRight(x, truths, s) && CanTake(x, s, w, e)
    ensures Works(x, truths, s, w, e)
  {
    match e
    case SendParcel => PackingWorks(x, truths, s, w);
    case PostReceive => PostingWorks(x, truths, s, w);
    case ApplyParcel(request) =>
      ApplyingWorks(x, truths, s, w, request);
      assert NodeRight(x, truths, s.round, w, s.nodes[w]);
    case _ =>
  }

  ghost predicate Steps(x: Plan, truths: seq<Truth>, s: Start, w: nat, e: Event) {
    && GoodStart(x, truths) && CanTake(x, s, w, e) && !e.PassBarrier? && w < x.grid.Worlds()
    && Works(x, truths, s, w, e) && NodeRight(x, truths, s.round, w, s.nodes[w])
  }

  lemma NodeKept(x: Plan, truths: seq<Truth>, s: Start, w: nat, e: Event)
    requires Steps(x, truths, s, w, e)
    ensures NodeRight(x, truths, s.round, w, NextNode(x, s, w, e))
  {
    if e.ApplyParcel? {
      RastersKept(x.grid, w, s.nodes[w].rasters, truths, e.request.raster, Updated(x, s, w, e.request).value);
    }
  }

  lemma RastersKept(g: Grid, w: nat, rasters: seq<Cells>, truths: seq<Truth>, r: nat, c: Cells)
    requires g.row > 0 && GoodRasters(g, w, rasters, truths) && r < |truths|
    requires Fitting(g, w, c, truths[r]) && KeepsRight(g, w, rasters[r], c, truths[r])
    ensures GoodRasters(g, w, rasters[r := c], truths)
  {
    forall p, maxima | Boundaries(g, w).IsInside(p) ensures CellRight(g, w, Choose(c, maxima), Wanted(truths[r], maxima), p) {
      assert CellRight(g, w, Choose(rasters[r], maxima), Wanted(truths[r], maxima), p);
    }
  }

  // The links that world w sends on.
  lemma SenderKept(x: Plan, truths: seq<Truth>, s: Start, w: nat, e: Event, l: Link)
    requires Steps(x, truths, s, w, e) && l in s.links && l.src == w
    requires SenderRight(x, truths, s.round, l, s.nodes[w].activity, s.links[l])
    ensures l in NextLinks(x, s, w, e)
    ensures SenderRight(x, truths, s.round, l, NextNode(x, s, w, e).activity, NextLinks(x, s, w, e)[l])
  {
    if e.SendParcel? { ParcelSent(x, truths, s, w, l); }
  }

  lemma ParcelSent(x: Plan, truths: seq<Truth>, s: Start, w: nat, l: Link)
    requires Steps(x, truths, s, w, SendParcel) && l in s.links && l.src == w
    requires SenderRight(x, truths, s.round, l, s.nodes[w].activity, s.links[l])
    ensures l in NextLinks(x, s, w, SendParcel)
    ensures SenderRight(x, truths, s.round, l, NextNode(x, s, w, SendParcel).activity, NextLinks(x, s, w, SendParcel)[l])
  {
    var a, list := s.nodes[w].activity, SendsTo(x, w, s.round);
    PartnersListedOnce(x, w, s.round);
    IndexOfAt(list, a.i);
    if l.dst in list { AdvancePasses(a.r, a.i, |list|, IndexOf(list, l.dst)); }
  }

  // The receives that world w has posted.
  lemma PostedMoves(x: Plan, truths: seq<Truth>, s: Start, w: nat, e: Event, o: nat)
    requires Steps(x, truths, s, w, e)
    ensures PostedFor(x, |truths|, s.round, w, NextNode(x, s, w, e).activity, o)
         == PostedFor(x, |truths|, s.round, w, s.nodes[w].activity, o)
            + if e.PostReceive? && InLink(x, w, s.round, s.nodes[w].activity.i).src == o then 1 else 0
  {
    var a, list := s.nodes[w].activity, ReceivesFrom(x, w, s.round);
    PartnersListedOnce(x, w, s.round);
    if o in list {
      if e.PostReceive? {
        IndexOfAt(list, a.i);
        AdvancePasses(a.r, a.i, |list|, IndexOf(list, o));
      } else if e.EndPosting? {
        PassesDone(x, |truths|, a.r, a.i, |list|, IndexOf(list, o));
      }
    }
  }

  lemma PassesDone(x: Plan, n: nat, r: nat, i: nat, partners: nat, idx: nat)
    requires GoodLoop(r, i, partners, n) && LoopsDone(r, i, partners, n) && idx < partners
    ensures Passes(r, i, idx) == n
  {
  }

  // The links that world w receives on.
  lemma ReceiverKept(x: Plan, truths: seq<Truth>, s: Start, w: nat, e: Event, l: Link)
    requires Steps(x, truths, s, w, e) && l.dst == w && ReceiverRight(x, |truths|, s.round, l, s.nodes[w])
    ensures ReceiverRight(x, |truths|, s.round, l, NextNode(x, s, w, e))
  {
    PostedMoves(x, truths, s, w, e, l.src);
  }

  // What has been applied to a raster stays right, and so does what is applied now.
  lemma AppliedKept(x: Plan, truths: seq<Truth>, s: Start, w: nat, e: Event, q: nat, o: nat, v: nat, r: nat)
    requires Steps(x, truths, s, w, e) && (q, o, v, r) in NextApplied(x, s, w, e)
    requires (q, o, v, r) in s.applied ==> AppliedRight(x, truths, s.nodes, q, o, v, r)
    ensures AppliedRight(x, truths, s.nodes[w := NextNode(x, s, w, e)], q, o, v, r)
  {
    if e.ApplyParcel? && v == w && r == e.request.raster && (q, o, v, r) in s.applied {
      StripStaysRight(x.grid, Link(o, w, q == 0), s.nodes[w].rasters[r], Updated(x, s, w, e.request).value, truths[r]);
    }
  }

  lemma StripStaysRight(g: Grid, l: Link, c: Cells, c': Cells, t: Truth)
    requires g.row > 0 && StripRight(g, l, c, t) && KeepsRight(g, l.dst, c, c', t)
    ensures StripRight(g, l, c', t)
  {
  }

  // More requests, of which one is for the exchange that is posted now.
  lemma AccountedGrows(x: Plan, n: nat, round: nat, o: nat, w: nat, r: nat, node: Node, node': Node, applied: set<(nat, nat, nat, nat)>)
    requires x.grid.row > 0 && Accounted(x, n, round, o, w, r, node, applied) && node.requests <= node'.requests
    requires var posted, posted' := PostedFor(x, n, round, w, node.activity, o), PostedFor(x, n, round, w, node'.activity, o);
      || posted' == posted
      || (posted' == posted + 1 && Request(o, posted, Earlier(x, n, Link(o, w, round == 0), round) + posted) in node'.requests)
    ensures Accounted(x, n, round, o, w, r, node', applied)
  {
  }

  lemma RequestsGrow(x: Plan, truths: seq<Truth>, s: Start, w: nat, e: Event)
    requires Steps(x, truths, s, w, e) && !e.ApplyParcel?
    ensures s.nodes[w].requests <= NextNode(x, s, w, e).requests && NextApplied(x, s, w, e) == s.applied
  {
  }

  lemma RequestPosted(x: Plan, truths: seq<Truth>, s: Start, w: nat)
    requires Steps(x, truths, s, w, PostReceive)
    ensures var l := InLink(x, w, s.round, s.nodes[w].activity.i);
            var posted := PostedFor(x, |truths|, s.round, w, s.nodes[w].activity, l.src);
            Request(l.src, posted, Earlier(x, |truths|, l, s.round) + posted) in NextNode(x, s, w, PostReceive).requests
  {
  }

  lemma AccountedKept(x: Plan, truths: seq<Truth>, s: Start, w: nat, e: Event, o: nat, r: nat)
    requires Steps(x, truths, s, w, e) && Accounted(x, |truths|, s.round, o, w, r, s.nodes[w], s.applied)
    ensures Accounted(x, |truths|, s.round, o, w, r, NextNode(x, s, w, e), NextApplied(x, s, w, e))
  {
    if e.ApplyParcel? {
      AccountedWhenApplied(x, truths, s, w, e.request, o, r);
    } else {
      PostedMoves(x, truths, s, w, e, o);
      RequestsGrow(x, truths, s, w, e);
      if e.PostReceive? { RequestPosted(x, truths, s, w); }
      AccountedGrows(x, |truths|, s.round, o, w, r, s.nodes[w], NextNode(x, s, w, e), s.applied);
    }
  }

  lemma AccountedWhenApplied(x: Plan, truths: seq<Truth>, s: Start, w: nat, request: Request, o: nat, r: nat)
    requires x.grid.row > 0 && CanTake(x, s, w, ApplyParcel(request)) && !Fails(x, s, w, ApplyParcel(request))
    requires Accounted(x, |truths|, s.round, o, w, r, s.nodes[w], s.applied)
    ensures Accounted(x, |truths|, s.round, o, w, r, NextNode(x, s, w, ApplyParcel(request)), NextApplied(x, s, w, ApplyParcel(request)))
  {
    assert NextNode(x, s, w, ApplyParcel(request)).activity == s.nodes[w].activity;
    assert NextNode(x, s, w, ApplyParcel(request)).requests == s.nodes[w].requests - {request};
  }

  // ----- all worlds

  lemma NodesKept(x: Plan, truths: seq<Truth>, s: Start, w: nat, e: Event)
    requires Steps(x, truths, s, w, e) && StartRight(x, truths, s)
    ensures NodesRight(x, truths, After(x, s, w, e))
  {
    NodeKept(x, truths, s, w, e);
  }

  lemma LinkKeys(x: Plan, truths: seq<Truth>, s: Start, w: nat, e: Event)
    requires Steps(x, truths, s, w, e)
    ensures NextLinks(x, s, w, e).Keys == s.links.Keys
    ensures forall l :: l in s.links && l.src != w ==> NextLinks(x, s, w, e)[l] == s.links[l]
  {
  }

  lemma LinksKept(x: Plan, truths: seq<Truth>, s: Start, w: nat, e: Event)
    requires Steps(x, truths, s, w, e) && LinksRight(x, truths, s)
    ensures LinksRight(x, truths, After(x, s, w, e))
  {
    var s' := After(x, s, w, e);
    LinkKeys(x, truths, s, w, e);
    forall l | l in s'.links ensures LinkRight(x, truths, s', l) {
      assert LinkRight(x, truths, s, l);
      if l.src == w { SenderKept(x, truths, s, w, e, l); }
      if l.dst == w { ReceiverKept(x, truths, s, w, e, l); }
    }
  }

  lemma ExchangesKept(x: Plan, truths: seq<Truth>, s: Start, w: nat, e: Event)
    requires Steps(x, truths, s, w, e) && StartRight(x, truths, s)
    ensures ExchangesRight(x, truths, After(x, s, w, e))
  {
    var s' := After(x, s, w, e);
    forall q, o, v, r | (q, o, v, r) in s'.applied ensures AppliedRight(x, truths, s'.nodes, q, o, v, r) {
      AppliedKept(x, truths, s, w, e, q, o, v, r);
    }
    forall o: nat, v: nat, r: nat | v < |s'.nodes|
      ensures Accounted(x, |truths|, s'.round, o, v, r, s'.nodes[v], s'.applied)
    {
      assert Accounted(x, |truths|, s.round, o, v, r, s.nodes[v], s.applied);
      if v == w { AccountedKept(x, truths, s, w, e, o, r); }
    }
  }

  // ----- the barrier

  lemma BarrierKeepsLink(x: Plan, truths: seq<Truth>, s: Start, l: Link)
    requires x.grid.row > 0 && l.src < |s.nodes| && l.dst < |s.nodes| && l in s.links
    requires s.nodes[l.src].activity == Waiting == s.nodes[l.dst].activity
    requires l.src in ReceivesFrom(x, l.dst, s.round) <==> l.dst in SendsTo(x, l.src, s.round)
    requires SenderRight(x, truths, s.round, l, s.nodes[l.src].activity, s.links[l])
    requires ReceiverRight(x, |truths|, s.round, l, s.nodes[l.dst])
    ensures SenderRight(x, truths, s.round + 1, l, Sending(0, 0), s.links[l])
    ensures ReceiverRight(x, |truths|, s.round + 1, l, s.nodes[l.dst].(activity := Sending(0, 0)))
  {
    var parcels := s.links[l];
    forall k | 0 <= k < |parcels| ensures ParcelRight(x, truths, s.round + 1, l, parcels[k], k) {
      assert ParcelRight(x, truths, s.round, l, parcels[k], k);
    }
  }

  lemma BarrierLink(x: Plan, truths: seq<Truth>, s: Start, w: nat, l: Link)
    requires GoodPlan(x) && CanTake(x, s, w, PassBarrier) && |s.nodes| == x.grid.Worlds()
    requires l in s.links && LinkRight(x, truths, s, l)
    ensures LinkRight(x, truths, After(x, s, w, PassBarrier), l)
  {
    PartnersOf(x, l.src, l.dst, s.round);
    BarrierKeepsLink(x, truths, s, l);
  }

  lemma BarrierLinks(x: Plan, truths: seq<Truth>, s: Start, w: nat)
    requires GoodPlan(x) && StartShape(x, s) && LinksRight(x, truths, s) && CanTake(x, s, w, PassBarrier)
    ensures LinksRight(x, truths, After(x, s, w, PassBarrier))
  {
    forall l | l in s.links ensures LinkRight(x, truths, After(x, s, w, PassBarrier), l) {
      BarrierLink(x, truths, s, w, l);
    }
  }

  // A round that is over is complete.
  lemma RoundComplete(x: Plan, truths: seq<Truth>, s: Start, o: nat, w: nat, r: nat)
    requires GoodStart(x, truths) && StartRight(x, truths, s) && w < |s.nodes| && s.nodes[w].activity == Waiting
    requires IsExchange(x, |truths|, s.round, o, w, r)
    ensures (s.round, o, w, r) in s.applied
  {
    PartnersOf(x, o, w, s.round);
    assert NodeRight(x, truths, s.round, w, s.nodes[w]);
    assert Accounted(x, |truths|, s.round, o, w, r, s.nodes[w], s.applied);
  }

  lemma BarrierExchanges(x: Plan, truths: seq<Truth>, s: Start, w: nat)
    requires GoodStart(x, truths) && StartRight(x, truths, s) && CanTake(x, s, w, PassBarrier)
    ensures ExchangesRight(x, truths, After(x, s, w, PassBarrier))
  {
    var s' := After(x, s, w, PassBarrier);
    forall q, o, v, r | (q, o, v, r) in s'.applied ensures AppliedRight(x, truths, s'.nodes, q, o, v, r) {
      assert AppliedRight(x, truths, s.nodes, q, o, v, r);
    }
    forall q: nat, o: nat, v: nat, r: nat | q < s'.round && IsExchange(x, |truths|, q, o, v, r) ensures (q, o, v, r) in s'.applied {
      if q == s.round { RoundComplete(x, truths, s, o, v, r); }
    }
  }

  lemma BarrierNodes(x: Plan, truths: seq<Truth>, s: Start, w: nat)
    requires x.grid.row > 0 && NodesRight(x, truths, s) && CanTake(x, s, w, PassBarrier)
    ensures NodesRight(x, truths, After(x, s, w, PassBarrier))
  {
    var s' := After(x, s, w, PassBarrier);
    forall v | 0 <= v < |s'.nodes| ensures NodeRight(x, truths, s'.round, v, s'.nodes[v]) {
      assert NodeRight(x, truths, s.round, v, s.nodes[v]);
    }
  }

  // ----- every reachable state

  lemma StartRightKept(x: Plan, truths: seq<Truth>, s: Start, s': Start, w: nat, e: Event)
    requires GoodStart(x, truths) && StartRight(x, truths, s) && Goes(x, s, s', w, e)
    ensures StartRight(x, truths, s')
  {
    if e.PassBarrier? {
      BarrierNodes(x, truths, s, w);
      BarrierLinks(x, truths, s, w);
      BarrierExchanges(x, truths, s, w);
    } else {
      EveryStepWorks(x, truths, s, w, e);
      assert NodeRight(x, truths, s.round, w, s.nodes[w]);
      NodesKept(x, truths, s, w, e);
      LinksKept(x, truths, s, w, e);
      ExchangesKept(x, truths, s, w, e);
      ShapeStays(x, truths, s, w, e);
    }
  }

  lemma ShapeStays(x: Plan, truths: seq<Truth>, s: Start, w: nat, e: Event)
    requires Steps(x, truths, s, w, e) && StartShape(x, s)
    ensures StartShape(x, After(x, s, w, e))
  {
    LinkKeys(x, truths, s, w, e);
  }

  lemma LinkRightInitially(x: Plan, truths: seq<Truth>, s: Start, l: Link)
    requires GoodStart(x, truths) && StartsWith(x, truths, s) && l in s.links
    ensures LinkRight(x, truths, s, l)
  {
  }

  lemma StartRightInitially(x: Plan, truths: seq<Truth>, s: Start)
    requires GoodStart(x, truths) && StartsWith(x, truths, s)
    ensures StartRight(x, truths, s)
  {
    forall l | l in s.links ensures LinkRight(x, truths, s, l) {
      LinkRightInitially(x, truths, s, l);
    }
    forall w | 0 <= w < |s.nodes| ensures NodeRight(x, truths, s.round, w, s.nodes[w]) {
    }
    forall o: nat, w: nat, r: nat | w < |s.nodes| ensures Accounted(x, |truths|, s.round, o, w, r, s.nodes[w], s.applied) {
    }
  }

  lemma EventKeepsStartRight(x: Plan, truths: seq<Truth>, run: seq<Start>, events: seq<(nat, Event)>, k: nat)
    requires GoodStart(x, truths) && IsStartUp(x, truths, run, events) && k < |events| && StartRight(x, truths, run[k])
    ensures StartRight(x, truths, run[k + 1])
  {
    StartRightKept(x, truths, run[k], run[k + 1], events[k].0, events[k].1);
  }

  lemma {:induction false} StartRightAlways(x: Plan, truths: seq<Truth>, run: seq<Start>, events: seq<(nat, Event)>, k: nat)
    requires GoodStart(x, truths) && IsStartUp(x, truths, run, events) && k < |run|
    ensures StartRight(x, truths, run[k])
  {
    if k == 0 {
      StartRightInitially(x, truths, run[0]);
    } else {
      StartRightAlways(x, truths, run, events, k - 1);
      EventKeepsStartRight(x, truths, run, events, k - 1);
    }
  }

  /** In no interleaving of the exchange does a guard of a raster fire. */
  lemma NoGuardFires(x: Plan, truths: seq<Truth>, run: seq<Start>, events: seq<(nat, Event)>, k: nat)
    requires GoodStart(x, truths) && IsStartUp(x, truths, run, events) && k < |run|
    ensures !run[k].failed
  {
    StartRightAlways(x, truths, run, events, k);
  }

  /** When the exchange is over, the rasters of every world hold the global rasters, maxima and
      values, over the whole halo. */
  lemma HalosHoldTheGlobalRaster(x: Plan, truths: seq<Truth>, run: seq<Start>, events: seq<(nat, Event)>, k: nat,
                                 w: nat, r: nat, p: Point2D, maxima: bool)
    requires GoodStart(x, truths) && IsStartUp(x, truths, run, events) && k < |run| && run[k].round == ROUNDS
    requires w < x.grid.Worlds() && r < |truths| && OverlapBoundaries(x.grid, w).IsInside(p)
    ensures w < |run[k].nodes| && r < |run[k].nodes[w].rasters|
    ensures CellRight(x.grid, w, Choose(run[k].nodes[w].rasters[r], maxima), Wanted(truths[r], maxima), p)
  {
    var s := run[k];
    StartRightAlways(x, truths, run, events, k);
    assert NodeRight(x, truths, s.round, w, s.nodes[w]);
    if !Boundaries(x.grid, w).IsInside(p) { HaloCellRight(x, truths, s, w, r, p, maxima); }
  }

  // The exchange that brings a halo cell.
  lemma BroughtBy(x: Plan, w: nat, p: Point2D, maxima: bool) returns (q: nat, o: nat)
    requires GoodPlan(x) && w < x.grid.Worlds()
    requires OverlapBoundaries(x.grid, w).IsInside(p) && !Boundaries(x.grid, w).IsInside(p)
    ensures q < ROUNDS && o < x.grid.Worlds() && w in SendsTo(x, o, q) && maxima == (q == 0)
    ensures p in Crossing(x.grid, Link(o, w, maxima))
  {
    HaloIsCovered(x.grid, w, p);
    HaloInRaster(x.grid, w, p);
    OwnerOfPosition(x.grid, w, p);
    o := IdFromPosition(x.grid, p);
    NeighborsSymmetric(x.grid, w, o);
    q := 0;
    if maxima { PartnersOf(x, o, w, 0); } else { q := ServedOnce(x, o, w); }
    InternalMeetsExternal(x.grid, o, w);
    CellsOfRectangle(ToGlobal(x.grid, o, CutOut(x.grid, Link(o, w, maxima))));
  }

  lemma HaloCellRight(x: Plan, truths: seq<Truth>, s: Start, w: nat, r: nat, p: Point2D, maxima: bool)
    requires GoodStart(x, truths) && StartRight(x, truths, s) && s.round == ROUNDS && w < x.grid.Worlds() && r < |truths|
    requires OverlapBoundaries(x.grid, w).IsInside(p) && !Boundaries(x.grid, w).IsInside(p)
    ensures r < |s.nodes[w].rasters|
    ensures CellRight(x.grid, w, Choose(s.nodes[w].rasters[r], maxima), Wanted(truths[r], maxima), p)
  {
    var q, o := BroughtBy(x, w, p, maxima);
    assert IsExchange(x, |truths|, q, o, w, r);
    assert AppliedRight(x, truths, s.nodes, q, o, w, r);
  }

  // ----- nobody gets stuck

  lemma SenderCanGo(x: Plan, truths: seq<Truth>, s: Start, w: nat) returns (e: Event)
    requires GoodStart(x, truths) && StartRight(x, truths, s) && s.round < ROUNDS && w < |s.nodes|
    requires s.nodes[w].activity.Sending? || s.nodes[w].activity.Posting?
    ensures CanTake(x, s, w, e)
  {
    var a := s.nodes[w].activity;
    assert NodeRight(x, truths, s.round, w, s.nodes[w]);
    PartnersListedOnce(x, w, s.round);
    if a.Sending? {
      e := EndSending;
      if !LoopsDone(a.r, a.i, |SendsTo(x, w, s.round)|, |truths|) {
        e := SendParcel;
        var dst := SendsTo(x, w, s.round)[a.i];
        assert dst in SendsTo(x, w, s.round);
        PartnersOf(x, w, dst, s.round);
      }
    } else {
      e := EndPosting;
      if !LoopsDone(a.r, a.i, |ReceivesFrom(x, w, s.round)|, |truths|) {
        e := PostReceive;
        var l := InLink(x, w, s.round, a.i);
        assert l.src in ReceivesFrom(x, w, s.round);
        PartnersOf(x, l.src, w, s.round);
        assert LinkRight(x, truths, s, l);
      }
    }
  }

  // What is asked for has been sent once nobody sends any more.
  lemma DrainingCanGo(x: Plan, truths: seq<Truth>, s: Start, w: nat) returns (e: Event)
    requires GoodStart(x, truths) && StartRight(x, truths, s) && s.round < ROUNDS && w < |s.nodes|
    requires s.nodes[w].activity.Draining? && forall u :: 0 <= u < |s.nodes| ==> !s.nodes[u].activity.Sending?
    ensures CanTake(x, s, w, e)
  {
    var node := s.nodes[w];
    assert NodeRight(x, truths, s.round, w, node);
    if request :| request in node.requests {
      assert GoodRequest(x, |truths|, s.round, w, request);
      PartnersOf(x, request.src, w, s.round);
      assert LinkRight(x, truths, s, Link(request.src, w, s.round == 0));
      e := ApplyParcel(request);
    } else {
      e := EndDraining;
    }
  }

  /** In every reachable state of the exchange either it is over or some world can go on. */
  lemma ExchangeNeverStuck(x: Plan, truths: seq<Truth>, run: seq<Start>, events: seq<(nat, Event)>, k: nat)
    requires GoodStart(x, truths) && IsStartUp(x, truths, run, events) && k < |run|
    ensures run[k].round == ROUNDS || exists w, e :: CanTake(x, run[k], w, e)
  {
    var s := run[k];
    StartRightAlways(x, truths, run, events, k);
    if s.round < ROUNDS {
      if w: nat :| w < |s.nodes| && (s.nodes[w].activity.Sending? || s.nodes[w].activity.Posting?) {
        var e := SenderCanGo(x, truths, s, w);
      } else if w: nat :| w < |s.nodes| && s.nodes[w].activity.Draining? {
        var e := DrainingCanGo(x, truths, s, w);
      } else {
        assert x.grid.row * x.grid.row > 0;
        assert CanTake(x, s, 0, PassBarrier);
      }
    }
  }
}
