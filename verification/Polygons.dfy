/** A polygon under construction: chains of edges that are extended as edges arrive, and joined into
    rings once the polygon is complete. */
module Polygons {
  import opened Common
  import opened Outlines

  class RPolygon {
    const polyValue: int
    var lastLineUpdated: int
    var strings: seq<Chain>

    ghost predicate Valid() reads this { GoodChains(strings) }

    // The unit edges collected so far.
    ghost function Edges(): multiset<Edge> reads this { AllEdges(strings) }

    constructor (value: int)
      ensures Valid() && Edges() == multiset{} && polyValue == value && lastLineUpdated == -1 && strings == []
    {
      polyValue, lastLineUpdated, strings := value, -1, [];
    }

    /** Adds a unit edge: to the first chain that ends at one of its ends, or as a new chain. */
    method AddSegment(a: Vertex, b: Vertex)
      requires Valid() && IsUnit(a, b)
      modifies this
      ensures Valid() && strings != [] && Edges() == old(Edges()) + multiset{UnitEdge(a, b)}
      ensures lastLineUpdated == Max(a.y, b.y)
    {
      lastLineUpdated := Max(a.y, b.y);
      SameUnitEdge(a, b);
      for i := 0 to |strings|
        invariant strings == old(strings)
      {
        if Last(strings[i]) == a {
          ExtendChain(i, b);
          return;
        } else if Last(strings[i]) == b {
          ExtendChain(i, a);
          return;
        }
      }
      NewChain(strings, a, b);
      strings := strings + [[a, b]];
    }

    // Extends chain i by a unit edge; its last segment is continued when the edge is in line with it.
    method ExtendChain(i: nat, next: Vertex)
      requires Valid() && i < |strings| && IsUnit(Last(strings[i]), next)
      modifies this`strings
      ensures Valid() && strings != [] && Edges() == old(Edges()) + multiset{UnitEdge(Last(old(strings[i])), next)}
    {
      ghost var l := strings;
      ReplacedChain(l, i, next);
      var s := strings[i];
      if Continues(s[|s| - 2], Last(s), next) { s := s[..|s| - 1]; }
      assert s == Kept(l[i], next);
      strings := strings[i := s + [next]];
      assert AllEdges(strings) == AllEdges(l) + multiset{UnitEdge(Last(l[i]), next)};
    }

    /** Appends chain src to chain base, forwards or backwards, and removes it. */
    method Merge(base: nat, src: nat, forwards: bool)
      requires Valid() && base < src < |strings|
      requires Last(strings[base]) == First(Directed(strings[src], forwards))
      modifies this`strings
      ensures Valid() && Edges() == old(Edges())
      ensures |strings| == |old(strings)| - 1 && strings[..base] == old(strings[..base])
      ensures Last(strings[base]) == Last(Directed(old(strings[src]), forwards))
    {
      var joined := Appended(strings[base], strings[src], forwards);
      JoinedChain(strings[base], strings[src], forwards);
      RemovedChain(strings, base, src, joined);
      WithoutKeepsBefore(strings, base, src, joined);
      strings := strings[base := joined];
      Remove(src);
    }

    // Removes chain src: the last one takes its place.
    method Remove(src: nat)
      requires src < |strings|
      modifies this`strings
      ensures strings == Without(old(strings), src)
    {
      if src < |strings| - 1 {
        strings := strings[src := strings[|strings| - 1]];
      } else {
        assert strings[src := strings[src]] == strings;
      }
      strings := strings[..|strings| - 1];
    }

    // Tries to append each of the chains after chain base to it, once.
    method MergeFollowing(base: nat) returns (mergeHappened: bool)
      requires Valid() && base < |strings|
      modifies this`strings
      ensures Valid() && Edges() == old(Edges()) && base < |strings| && strings[..base] == old(strings[..base])
      ensures if mergeHappened then |strings| < |old(strings)| else strings == old(strings) && LooseEnd(strings, base, |strings|)
    {
      mergeHappened := false;
      var i := base + 1;
      while i < |strings|
        invariant Valid() && Edges() == old(Edges()) && base < |strings| && strings[..base] == old(strings[..base]) && i > base
        invariant if mergeHappened then |strings| < |old(strings)|
                  else strings == old(strings) && i <= |strings| && LooseEnd(strings, base, i)
        decreases |strings| - i
      {
        if Last(strings[base]) == First(strings[i]) {
          Merge(base, i, true);
          mergeHappened := true;
        } else if Last(strings[base]) == Last(strings[i]) {
          GoodWhenTurned(strings[i]);
          Merge(base, i, false);
          mergeHappened := true;
        }
        i := i + 1;
      }
    }

    /** Joins the chains into rings.  If the edges meet every lattice point an even number of times,
        every chain ends up closed. */
    method Coalesce()
      requires Valid()
      modifies this`strings
      ensures Valid() && Edges() == old(Edges())
      ensures AllEven(Edges()) ==> AllClosed(strings, |strings|)
    {
      var base := 0;
      while base < |strings|
        invariant Valid() && Edges() == old(Edges()) && base <= |strings|
        invariant AllEven(Edges()) ==> AllClosed(strings, base)
        decreases |strings| - base
      {
        ghost var before := strings;
        var mergeHappened := true;
        while mergeHappened
          invariant Valid() && Edges() == old(Edges()) && base < |strings| <= |before| && strings[..base] == before[..base]
          invariant !mergeHappened ==> LooseEnd(strings, base, |strings|)
          decreases |strings|, mergeHappened
        {
          mergeHappened := MergeFollowing(base);
        }
        if AllEven(Edges()) { RingCloses(before, strings, base); }
        base := base + 1;
      }
    }
  }

  // No chain after number base, up to number n, starts or ends where chain base ends.
  predicate LooseEnd(l: seq<Chain>, base: nat, n: nat)
    requires GoodChains(l) && base < |l| && n <= |l|
  {
    forall i :: base < i < n ==> First(l[i]) != Last(l[base]) && Last(l[i]) != Last(l[base])
  }

  predicate AllClosed(l: seq<Chain>, n: nat)
    requires GoodChains(l) && n <= |l|
  {
    forall i :: 0 <= i < n ==> Closed(l[i])
  }

  // The chains before number base are closed, so the loose end of chain base is its start.
  lemma RingCloses(before: seq<Chain>, l: seq<Chain>, base: nat)
    requires GoodChains(before) && GoodChains(l) && base < |l| && base <= |before| && l[..base] == before[..base]
    requires AllClosed(before, base) && LooseEnd(l, base, |l|) && AllEven(AllEdges(l))
    ensures AllClosed(l, base + 1)
  {
    forall i | 0 <= i < base ensures Closed(l[i]) {
      assert l[i] == l[..base][i] == before[i];
    }
    LooseEndIsClosed(l, base);
  }

  // Appends the points of a chain but the first, or, backwards, but the last.
  method Appended(base: Chain, s: Chain, forwards: bool) returns (joined: Chain)
    requires |s| >= 2
    ensures joined == base + Directed(s, forwards)[1..]
  {
    joined := base;
    var start, end, step := 1, |s|, 1;
    if !forwards { start, end, step := |s| - 2, -1, -1; }
    var i := start;
    ghost var path, n := Directed(s, forwards), 1;
    while i != end
      invariant 1 <= n <= |s| && i == start + (if forwards then n - 1 else 1 - n) && joined == base + path[1..n]
      decreases |s| - n
    {
      assert path[n] == s[i];
      assert path[1..n + 1] == path[1..n] + [s[i]];
      joined := joined + [s[i]];
      i, n := i + step, n + 1;
    }
  }

  // Exchanging a chain for one with an edge more.
  lemma SumsOfUpdate(new_: multiset<Edge>, old_: multiset<Edge>, s: multiset<Edge>, t: multiset<Edge>, e: multiset<Edge>)
    requires new_ + s == old_ + t && t == s + e
    ensures new_ == old_ + e
  {
    assert new_ == new_ + s - s;
    assert old_ + e == old_ + t - s;
  }

  lemma SameUnitEdge(a: Vertex, b: Vertex)
    ensures UnitEdge(a, b) == UnitEdge(b, a) && (IsUnit(a, b) <==> IsUnit(b, a))
  {
  }

  lemma NewChain(l: seq<Chain>, a: Vertex, b: Vertex)
    requires GoodChains(l) && IsUnit(a, b)
    ensures GoodChains(l + [[a, b]]) && AllEdges(l + [[a, b]]) == AllEdges(l) + multiset{UnitEdge(a, b)}
  {
    UnitSegment(a, b);
    assert [a, b][..1] == [a];
    AllEdgesOfMore(l, [a, b]);
  }

  // What is left of a chain when its last segment is to be continued.
  function Kept(s: Chain, next: Vertex): Chain
    requires |s| >= 2
  {
    if Continues(s[|s| - 2], Last(s), next) then s[..|s| - 1] else s
  }

  lemma GoodWhenExtended(s: Chain, next: Vertex)
    requires |s| > 0 && (|s| >= 2 ==> GoodChain(s)) && Straight(Last(s), next)
    ensures GoodChain(s + [next])
  {
  }

  // The last point moves on by one unit.
  lemma ContinuedChain(s: Chain, next: Vertex, e: multiset<Edge>)
    requires GoodChain(s) && Straight(s[|s| - 2], next)
    requires SegmentEdges(s[|s| - 2], next) == SegmentEdges(s[|s| - 2], Last(s)) + e
    ensures GoodChain(s[..|s| - 1] + [next]) && ChainEdges(s[..|s| - 1] + [next]) == ChainEdges(s) + e
  {
    ChainExtended(s[..|s| - 1], next);
    ChainShortened(s);
    GoodWhenExtended(s[..|s| - 1], next);
  }

  /** Extending a chain by a unit edge adds that edge, whether or not its last segment is continued. */
  lemma ExtendedChain(s: Chain, next: Vertex)
    requires GoodChain(s) && IsUnit(Last(s), next)
    ensures GoodChain(Kept(s, next) + [next])
    ensures ChainEdges(Kept(s, next) + [next]) == ChainEdges(s) + multiset{UnitEdge(Last(s), next)}
  {
    UnitSegment(Last(s), next);
    assert Straight(s[|s| - 2], s[|s| - 2 + 1]);
    if Continues(s[|s| - 2], Last(s), next) {
      SegmentContinued(s[|s| - 2], Last(s), next);
      ContinuedChain(s, next, multiset{UnitEdge(Last(s), next)});
    } else {
      ChainExtended(s, next);
      GoodWhenExtended(s, next);
    }
  }

  lemma ReplacedChain(l: seq<Chain>, i: nat, next: Vertex)
    requires GoodChains(l) && i < |l| && IsUnit(Last(l[i]), next)
    ensures var l' := l[i := Kept(l[i], next) + [next]];
            GoodChains(l') && AllEdges(l') == AllEdges(l) + multiset{UnitEdge(Last(l[i]), next)}
  {
    var s := Kept(l[i], next) + [next];
    ExtendedChain(l[i], next);
    AllEdgesUpdated(l, i, s);
    SumsOfUpdate(AllEdges(l[i := s]), AllEdges(l), ChainEdges(l[i]), ChainEdges(s), multiset{UnitEdge(Last(l[i]), next)});
  }

  lemma GoodWhenTurned(s: Chain)
    requires GoodChain(s)
    ensures GoodChain(Reversed(s)) && First(Reversed(s)) == Last(s) && Last(Reversed(s)) == First(s)
  {
    var r, n := Reversed(s), |s|;
    forall i | 0 <= i < n - 1 ensures Straight(r[i], r[i + 1]) {
      assert Straight(s[n - 2 - i], s[n - 2 - i + 1]);
    }
  }

  lemma GoodWhenJoined(base: Chain, path: Chain)
    requires GoodChain(base) && GoodChain(path) && Last(base) == First(path)
    ensures GoodChain(base + path[1..]) && Last(base + path[1..]) == Last(path)
  {
    var l, m := base + path[1..], |base| - 1;
    forall i | 0 <= i < |l| - 1 ensures Straight(l[i], l[i + 1]) {
      if i < m { assert Straight(base[i], base[i + 1]); } else { assert Straight(path[i - m], path[i - m + 1]); }
    }
  }

  // A chain in the direction in which it is to be appended.
  function Directed(s: Chain, forwards: bool): Chain { if forwards then s else Reversed(s) }

  // Joining a chain, in either direction, to the end of another.
  lemma JoinedChain(base: Chain, s: Chain, forwards: bool)
    requires GoodChain(base) && GoodChain(s) && Last(base) == First(Directed(s, forwards))
    ensures var joined := base + Directed(s, forwards)[1..];
      GoodChain(joined) && ChainEdges(joined) == ChainEdges(base) + ChainEdges(s) && Last(joined) == Last(Directed(s, forwards))
  {
    var path := Directed(s, forwards);
    GoodWhenTurned(s);
    ChainTurned(s);
    ChainJoined(base, path);
    GoodWhenJoined(base, path);
  }

  // The chains when number src is removed, the last one taking its place.
  function Without(l: seq<Chain>, src: nat): seq<Chain>
    requires src < |l|
  {
    l[src := l[|l| - 1]][..|l| - 1]
  }

  lemma WithoutKeepsBefore(l: seq<Chain>, base: nat, src: nat, joined: Chain)
    requires base < src < |l|
    ensures var l' := Without(l[base := joined], src);
            |l'| == |l| - 1 && l'[..base] == l[..base] && l'[base] == joined
  {
  }

  lemma WithoutOne(l: seq<Chain>, src: nat)
    requires src < |l|
    ensures AllEdges(Without(l, src)) + ChainEdges(l[src]) == AllEdges(l)
  {
    var n := |l| - 1;
    AllEdgesOfLess(l);
    if src < n {
      AllEdgesUpdated(l[..n], src, l[n]);
      assert Without(l, src) == l[..n][src := l[n]];
    } else {
      assert Without(l, src) == l[..n];
    }
  }

  lemma GoodWithout(l: seq<Chain>, src: nat)
    requires src < |l| && GoodChains(l)
    ensures GoodChains(Without(l, src))
  {
  }

  // Putting a chain with the edges of two others in the place of the first, and removing the second.
  lemma RemovedChain(l: seq<Chain>, base: nat, src: nat, joined: Chain)
    requires base < src < |l| && GoodChains(l) && GoodChain(joined)
    requires ChainEdges(joined) == ChainEdges(l[base]) + ChainEdges(l[src])
    ensures GoodChains(Without(l[base := joined], src)) && AllEdges(Without(l[base := joined], src)) == AllEdges(l)
  {
    var m := l[base := joined];
    AllEdgesUpdated(l, base, joined);
    WithoutOne(m, src);
    SumsOfMerge(AllEdges(Without(m, src)), AllEdges(m), AllEdges(l), ChainEdges(l[base]), ChainEdges(l[src]));
    GoodWithout(m, src);
  }

  lemma SumsOfMerge(w: multiset<Edge>, m: multiset<Edge>, l: multiset<Edge>, base: multiset<Edge>, src: multiset<Edge>)
    requires m + base == l + (base + src) && w + src == m
    ensures w == l
  {
    assert w == m + base - base - src;
    assert l == l + (base + src) - base - src;
  }
}
