/** The partner lists of the program, and why they make a good configuration. */
module WorldSetUp {
  import opened Common
  import opened WorldGeometry
  import opened WorldExchange
  import opened WorldProtocol

  // The neighbours that data is sent to, or expected from, after section s.
  function SelectTargets(g: Grid, me: nat, s: nat, l: seq<nat>): (r: seq<nat>)
    requires g.row > 0 && s < 4
  {
    if l == [] then []
    else (if NeedsToBeUpdated(g, me, l[0], s) then [l[0]] else []) + SelectTargets(g, me, s, l[1..])
  }

  function SelectSources(g: Grid, me: nat, s: nat, l: seq<nat>): (r: seq<nat>)
    requires g.row > 0 && s < 4
  {
    if l == [] then []
    else (if NeedsToReceiveData(g, me, l[0], s) then [l[0]] else []) + SelectSources(g, me, s, l[1..])
  }

  /** The worlds that world me sends to: all neighbours for agents, some of them for ghosts. */
  function Targets(g: Grid, me: nat, kind: Kind, s: nat): seq<nat>
    requires g.row > 0 && s < 4
  {
    match kind
    case Agents => Neighbors(g, me)
    case Ghosts => SelectTargets(g, me, s, Neighbors(g, me))
  }

  function Sources(g: Grid, me: nat, kind: Kind, s: nat): seq<nat>
    requires g.row > 0 && s < 4
  {
    match kind
    case Agents => Neighbors(g, me)
    case Ghosts => SelectSources(g, me, s, Neighbors(g, me))
  }

  /** The configuration that the program runs. */
  function SetUp(g: Grid, types: nat, steps: nat): Config
    requires g.row > 0
  {
    Config(g, types, steps, (me, kind, s) => if s < 4 then Targets(g, me, kind, s) else [],
                            (me, kind, s) => if s < 4 then Sources(g, me, kind, s) else [])
  }

  lemma {:induction false} SelectTargetsAre(g: Grid, me: nat, s: nat, l: seq<nat>)
    requires g.row > 0 && s < 4 && NoDuplicates(l)
    ensures forall n :: n in SelectTargets(g, me, s, l) <==> n in l && NeedsToBeUpdated(g, me, n, s)
    ensures NoDuplicates(SelectTargets(g, me, s, l))
  {
    if l != [] {
      assert forall i :: 0 < i < |l| ==> l[i] == l[1..][i - 1];
      SelectTargetsAre(g, me, s, l[1..]);
      assert l[0] !in l[1..];
      assert forall n :: n in l <==> n == l[0] || n in l[1..];
      if NeedsToBeUpdated(g, me, l[0], s) {
        NoDuplicatesConcat([l[0]], SelectTargets(g, me, s, l[1..]));
      }
    }
  }

  lemma {:induction false} SelectSourcesAre(g: Grid, me: nat, s: nat, l: seq<nat>)
    requires g.row > 0 && s < 4 && NoDuplicates(l)
    ensures forall n :: n in SelectSources(g, me, s, l) <==> n in l && NeedsToReceiveData(g, me, n, s)
    ensures NoDuplicates(SelectSources(g, me, s, l))
  {
    if l != [] {
      assert forall i :: 0 < i < |l| ==> l[i] == l[1..][i - 1];
      SelectSourcesAre(g, me, s, l[1..]);
      assert l[0] !in l[1..];
      assert forall n :: n in l <==> n == l[0] || n in l[1..];
      if NeedsToReceiveData(g, me, l[0], s) {
        NoDuplicatesConcat([l[0]], SelectSources(g, me, s, l[1..]));
      }
    }
  }

  /** The partner lists of the program agree: all results about good configurations apply to it. */
  lemma SetUpIsGood(g: Grid, types: nat, steps: nat)
    requires GoodGrid(g) && types > 0
    ensures GoodConfig(SetUp(g, types, steps))
  {
    var c := SetUp(g, types, steps);
    forall v: nat, kind, s: nat | v < g.Worlds() && s < 4 ensures PartnersListed(c, v, kind, s) {
      NeighborsAre(g, v);
      SelectTargetsAre(g, v, s, Neighbors(g, v));
      SelectSourcesAre(g, v, s, Neighbors(g, v));
    }
    forall v: nat, w: nat, kind, s: nat | v < g.Worlds() && w < g.Worlds() && s < 4 ensures PartnersAgree(c, v, w, kind, s) {
      NeighborsAre(g, v);
      NeighborsAre(g, w);
      NeighborsSymmetric(g, v, w);
      SelectTargetsAre(g, v, s, Neighbors(g, v));
      SelectSourcesAre(g, w, s, Neighbors(g, w));
      SendingMatchesReceiving(g, v, w, s);
    }
  }
}
