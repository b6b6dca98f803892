/** Strings of lattice points, the unit edges that they run along, and how many of these edges meet
    at a lattice point. */
module Outlines {
  import opened Common

  datatype Vertex = Vertex(x: int, y: int)

  /** The unit edge that starts at (x, y) and goes to the right, or down when it is vertical. */
  datatype Edge = Edge(x: int, y: int, vertical: bool)

  // Lattice points, joined one to the next by straight segments.
  type Chain = seq<Vertex>


  // ----- segments

  predicate Straight(a: Vertex, b: Vertex) { (a.x == b.x) != (a.y == b.y) }

  predicate IsUnit(a: Vertex, b: Vertex) { Abs(a.x - b.x) + Abs(a.y - b.y) == 1 }

  /** The unit edges of a straight segment. */
  function SegmentSet(a: Vertex, b: Vertex): set<Edge> {
    if a.y == b.y then set x | Min(a.x, b.x) <= x < Max(a.x, b.x) :: Edge(x, a.y, false)
    else set y | Min(a.y, b.y) <= y < Max(a.y, b.y) :: Edge(a.x, y, true)
  }

  function SegmentEdges(a: Vertex, b: Vertex): multiset<Edge> { multiset(SegmentSet(a, b)) }

  function UnitEdge(a: Vertex, b: Vertex): Edge {
    Edge(Min(a.x, b.x), Min(a.y, b.y), a.x == b.x)
  }

  lemma SegmentTurned(a: Vertex, b: Vertex)
    requires Straight(a, b)
    ensures SegmentEdges(a, b) == SegmentEdges(b, a)
  {
    assert SegmentSet(a, b) == SegmentSet(b, a);
  }

  lemma UnitSegment(a: Vertex, b: Vertex)
    requires IsUnit(a, b)
    ensures Straight(a, b) && SegmentEdges(a, b) == multiset{UnitEdge(a, b)}
  {
    assert SegmentSet(a, b) == {UnitEdge(a, b)};
  }

  // Point p continues the segment from a to b by one unit.
  predicate Continues(a: Vertex, b: Vertex, p: Vertex) {
    var length := Max(Abs(a.x - b.x), Abs(a.y - b.y));
    a.x - b.x == (b.x - p.x) * length && a.y - b.y == (b.y - p.y) * length
  }

  lemma ContinuesMeans(a: Vertex, b: Vertex, p: Vertex)
    requires Straight(a, b) && IsUnit(b, p) && Continues(a, b, p)
    ensures if a.x == b.x then p.x == b.x && p.y == b.y + (if a.y < b.y then 1 else -1)
            else p.y == b.y && p.x == b.x + (if a.x < b.x then 1 else -1)
  {
  }

  /** A segment and its continuation have the unit edges of the segment from end to end. */
  lemma SegmentContinued(a: Vertex, b: Vertex, p: Vertex)
    requires Straight(a, b) && IsUnit(b, p) && Continues(a, b, p)
    ensures Straight(a, p) && SegmentEdges(a, p) == SegmentEdges(a, b) + multiset{UnitEdge(b, p)}
  {
    ContinuesMeans(a, b, p);
    assert SegmentSet(a, p) == SegmentSet(a, b) + {UnitEdge(b, p)};
    assert UnitEdge(b, p) !in SegmentSet(a, b);
  }

  // ----- chains

  predicate GoodChain(s: Chain) {
    |s| >= 2 && forall i :: 0 <= i < |s| - 1 ==> Straight(s[i], s[i + 1])
  }

  function First(s: Chain): Vertex requires |s| > 0 { s[0] }
  function Last(s: Chain): Vertex requires |s| > 0 { s[|s| - 1] }

  predicate Closed(s: Chain) requires |s| > 0 { First(s) == Last(s) }

  /** The unit edges of a chain, with multiplicity. */
  function ChainEdges(s: Chain): multiset<Edge> {
    if |s| < 2 then multiset{} else ChainEdges(s[..|s| - 1]) + SegmentEdges(s[|s| - 2], s[|s| - 1])
  }

  lemma ChainExtended(s: Chain, p: Vertex)
    requires |s| > 0
    ensures ChainEdges(s + [p]) == ChainEdges(s) + SegmentEdges(Last(s), p)
  {
    assert (s + [p])[..|s|] == s;
  }

  // A chain with its last point taken off and put on again.
  lemma ChainShortened(s: Chain)
    requires |s| > 1
    ensures ChainEdges(s) == ChainEdges(s[..|s| - 1]) + SegmentEdges(s[|s| - 2], Last(s))
  {
  }

  lemma {:induction false} ChainJoined(s: Chain, t: Chain)
    requires |s| > 0 && |t| > 0 && Last(s) == First(t)
    ensures ChainEdges(s + t[1..]) == ChainEdges(s) + ChainEdges(t)
    decreases |t|
  {
    if |t| == 1 {
      assert s + t[1..] == s;
    } else {
      var t' := t[..|t| - 1];
      var u := s + t'[1..];
      assert s + t[1..] == u + [Last(t)];
      assert Last(u) == t[|t| - 2];
      calc {
        ChainEdges(s + t[1..]);
        { ChainExtended(u, Last(t)); }
        ChainEdges(u) + SegmentEdges(t[|t| - 2], Last(t));
        { ChainJoined(s, t'); }
        ChainEdges(s) + ChainEdges(t') + SegmentEdges(t[|t| - 2], Last(t));
        { ChainShortened(t); }
        ChainEdges(s) + ChainEdges(t);
      }
    }
  }

  function Reversed(s: Chain): (r: Chain)
    ensures |r| == |s| && forall i :: 0 <= i < |s| ==> r[i] == s[|s| - 1 - i]
  {
    if s == [] then [] else [Last(s)] + Reversed(s[..|s| - 1])
  }

  lemma TurnedTail(s: Chain)
    requires |s| > 1
    ensures Reversed(s) == [Last(s), s[|s| - 2]] + Reversed(s[..|s| - 1])[1..]
  {
  }

  lemma SegmentChain(a: Vertex, b: Vertex)
    ensures ChainEdges([a, b]) == SegmentEdges(a, b)
  {
    assert [a, b][..1] == [a];
  }

  /** A chain runs along the same edges in both directions. */
  lemma {:induction false} ChainTurned(s: Chain)
    requires |s| > 0 && forall i :: 0 <= i < |s| - 1 ==> Straight(s[i], s[i + 1])
    ensures ChainEdges(Reversed(s)) == ChainEdges(s)
    decreases |s|
  {
    if |s| > 1 {
      var s', tip := s[..|s| - 1], [Last(s), s[|s| - 2]];
      ChainTurned(s');
      ChainJoined(tip, Reversed(s'));
      TurnedTail(s);
      SegmentChain(Last(s), s[|s| - 2]);
      SegmentTurned(s[|s| - 2], Last(s));
    }
  }

  // ----- several chains

  function AllEdges(l: seq<Chain>): multiset<Edge> {
    if l == [] then multiset{} else AllEdges(l[..|l| - 1]) + ChainEdges(l[|l| - 1])
  }

  lemma AllEdgesOfMore(l: seq<Chain>, s: Chain)
    ensures AllEdges(l + [s]) == AllEdges(l) + ChainEdges(s)
  {
    assert (l + [s])[..|l|] == l;
  }

  lemma AllEdgesOfLess(l: seq<Chain>)
    requires |l| > 0
    ensures AllEdges(l) == AllEdges(l[..|l| - 1]) + ChainEdges(l[|l| - 1])
  {
  }

  lemma AddedOnBothSides(a: multiset<Edge>, b: multiset<Edge>, c: multiset<Edge>, d: multiset<Edge>, e: multiset<Edge>)
    requires a + b == c + d
    ensures a + e + b == c + e + d
  {
    assert a + e + b == a + b + e;
    assert c + e + d == c + d + e;
  }

  lemma {:induction false} AllEdgesUpdated(l: seq<Chain>, i: nat, s: Chain)
    requires i < |l|
    ensures AllEdges(l[i := s]) + ChainEdges(l[i]) == AllEdges(l) + ChainEdges(s)
  {
    var n := |l| - 1;
    AllEdgesOfLess(l);
    AllEdgesOfLess(l[i := s]);
    if i < n {
      var before, last := l[..n], ChainEdges(l[n]);
      AllEdgesUpdated(before, i, s);
      assert l[i := s][..n] == before[i := s];
      AddedOnBothSides(AllEdges(before[i := s]), ChainEdges(l[i]), AllEdges(before), ChainEdges(s), last);
    } else {
      assert l[i := s][..n] == l[..n];
    }
  }

  predicate GoodChains(l: seq<Chain>) { forall i :: 0 <= i < |l| ==> GoodChain(l[i]) }

  // ----- degrees

  /** How many of the edges meet at lattice point v. */
  function Degree(e: multiset<Edge>, v: Vertex): nat {
    e[Edge(v.x, v.y, false)] + e[Edge(v.x - 1, v.y, false)] + e[Edge(v.x, v.y, true)] + e[Edge(v.x, v.y - 1, true)]
  }

  predicate OddDegree(e: multiset<Edge>, v: Vertex) { Degree(e, v) % 2 == 1 }

  lemma OddDegreeOfSum(e: multiset<Edge>, f: multiset<Edge>, v: Vertex)
    ensures OddDegree(e + f, v) == (OddDegree(e, v) != OddDegree(f, v))
  {
    assert Degree(e + f, v) == Degree(e, v) + Degree(f, v);
  }

  lemma SegmentDegree(a: Vertex, b: Vertex, v: Vertex)
    requires Straight(a, b)
    ensures OddDegree(SegmentEdges(a, b), v) == ((v == a) != (v == b))
  {
    var s := SegmentSet(a, b);
    assert forall e :: multiset(s)[e] == if e in s then 1 else 0;
    if a.y == b.y {
      assert forall x, y :: Edge(x, y, false) in s <==> y == a.y && Min(a.x, b.x) <= x < Max(a.x, b.x);
      assert forall x, y :: Edge(x, y, true) !in s;
    } else {
      assert forall x, y :: Edge(x, y, true) in s <==> x == a.x && Min(a.y, b.y) <= y < Max(a.y, b.y);
      assert forall x, y :: Edge(x, y, false) !in s;
    }
  }

  /** A chain meets a lattice point an odd number of times exactly when one of its ends is there,
      and the other is not. */
  lemma {:induction false} ChainDegree(s: Chain, v: Vertex)
    requires |s| > 0 && forall i :: 0 <= i < |s| - 1 ==> Straight(s[i], s[i + 1])
    ensures OddDegree(ChainEdges(s), v) == ((v == First(s)) != (v == Last(s)))
    decreases |s|
  {
    if |s| > 1 {
      var s', a, b := s[..|s| - 1], s[|s| - 2], Last(s);
      ChainDegree(s', v);
      assert Straight(s[|s| - 2], s[|s| - 2 + 1]);
      SegmentDegree(a, b, v);
      ChainShortened(s);
      OddDegreeOfSum(ChainEdges(s'), SegmentEdges(a, b), v);
    }
  }

  ghost predicate AllEven(e: multiset<Edge>) {
    forall v :: !OddDegree(e, v)
  }

  // No open chain starts or ends at v.
  ghost predicate NoOpenEndAt(l: seq<Chain>, v: Vertex)
    requires GoodChains(l)
  {
    forall i :: 0 <= i < |l| ==> Closed(l[i]) || (First(l[i]) != v && Last(l[i]) != v)
  }

  lemma {:induction false} ChainsWithoutEnd(l: seq<Chain>, v: Vertex)
    requires GoodChains(l) && NoOpenEndAt(l, v)
    ensures !OddDegree(AllEdges(l), v)
  {
    if l != [] {
      var l', s := l[..|l| - 1], l[|l| - 1];
      ChainsWithoutEnd(l', v);
      ChainDegree(s, v);
      AllEdgesOfLess(l);
      OddDegreeOfSum(AllEdges(l'), ChainEdges(s), v);
    }
  }

  // With a ring in the place of chain k, no open chain starts or ends at v.
  lemma OthersEven(l: seq<Chain>, k: nat, ring: Chain, v: Vertex)
    requires GoodChains(l) && k < |l| && GoodChain(ring) && Closed(ring)
    requires forall i :: 0 <= i < |l| && i != k ==> Closed(l[i]) || (First(l[i]) != v && Last(l[i]) != v)
    ensures !OddDegree(AllEdges(l[k := ring]), v)
  {
    ChainsWithoutEnd(l[k := ring], v);
  }

  /** The parity argument: if all edges together meet every lattice point an even number of times,
      then a chain at whose end no other open chain starts or ends is closed. */
  lemma LooseEndIsClosed(l: seq<Chain>, k: nat)
    requires GoodChains(l) && k < |l| && AllEven(AllEdges(l))
    requires forall i :: 0 <= i < |l| && i != k ==> Closed(l[i]) || (First(l[i]) != Last(l[k]) && Last(l[i]) != Last(l[k]))
    ensures Closed(l[k])
  {
    var v := Last(l[k]);
    var ring := [v, Vertex(v.x + 1, v.y), v];
    AllEdgesUpdated(l, k, ring);
    OthersEven(l, k, ring, v);
    ChainDegree(l[k], v);
    ChainDegree(ring, v);
    OddDegreeOfSum(AllEdges(l[k := ring]), ChainEdges(l[k]), v);
    OddDegreeOfSum(AllEdges(l), ChainEdges(ring), v);
  }
}
