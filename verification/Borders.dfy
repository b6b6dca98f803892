/** The border of a polygon in a labelled image, and how it is collected line by line. */
module Borders {
  import opened Outlines

  // The polygon of every pixel, line by line.
  type Plane = seq<seq<nat>>

  /** The polygon of pixel (x, y); outside of the image there is none. */
  function PolyAt(g: Plane, x: int, y: int): int {
    if 0 <= y < |g| && 0 <= x < |g[y]| then g[y][x] else -1
  }

  // The pixels on both sides of an edge: below or right of it, and above or left of it.
  function Near(g: Plane, e: Edge): int { PolyAt(g, e.x, e.y) }

  function Far(g: Plane, e: Edge): int {
    if e.vertical then PolyAt(g, e.x - 1, e.y) else PolyAt(g, e.x, e.y - 1)
  }

  /** Polygon k lies on exactly one side of the edge. */
  predicate Separates(g: Plane, k: nat, e: Edge) { (Near(g, e) == k) != (Far(g, e) == k) }

  /** The edges that separate polygon k from the rest, each of them once. */
  ghost predicate IsBorder(g: Plane, k: nat, edges: multiset<Edge>) {
    forall e :: edges[e] == if Separates(g, k, e) then 1 else 0
  }

  /** Every border meets every lattice point an even number of times. */
  lemma BorderIsEven(g: Plane, k: nat, edges: multiset<Edge>)
    requires IsBorder(g, k, edges)
    ensures AllEven(edges)
  {
    forall v ensures !OddDegree(edges, v) {
      var a, b := PolyAt(g, v.x - 1, v.y - 1) == k, PolyAt(g, v.x, v.y - 1) == k;
      var c, d := PolyAt(g, v.x - 1, v.y) == k, PolyAt(g, v.x, v.y) == k;
      assert edges[Edge(v.x, v.y, false)] == if b != d then 1 else 0;
      assert edges[Edge(v.x - 1, v.y, false)] == if a != c then 1 else 0;
      assert edges[Edge(v.x, v.y, true)] == if c != d then 1 else 0;
      assert edges[Edge(v.x, v.y - 1, true)] == if a != b then 1 else 0;
    }
  }

  // ----- rows

  ghost predicate InRow(g: Plane, k: nat, y: int) {
    exists x :: PolyAt(g, x, y) == k
  }

  // The pixels of every polygon lie in rows without a gap.
  ghost predicate Contiguous(g: Plane) {
    forall k: nat, y, z, t :: InRow(g, k, y) && InRow(g, k, t) && y <= z <= t ==> InRow(g, k, z)
  }

  // A row with a pixel of polygon k has a vertical edge of its border.
  lemma {:induction false} RowHasEdge(g: Plane, k: nat, x: int, y: int) returns (e: Edge)
    requires PolyAt(g, x, y) == k
    ensures Separates(g, k, e) && e.y == y
    decreases x
  {
    if PolyAt(g, x - 1, y) == k {
      e := RowHasEdge(g, k, x - 1, y);
    } else {
      e := Edge(x, y, true);
    }
  }

  // ----- collecting

  /** The edges examined before pixel i of line j, in the order of the second pass: the one above a
      pixel first, or only that when half is set, then the one to the right of it.  The pixels of a
      line are counted from the one before its first. */
  predicate Examined(e: Edge, j: int, i: int, half: bool) {
    e.y < j || (e.y == j && if e.vertical then e.x < i else e.x + 1 < i || (half && e.x + 1 == i))
  }

  /** A polygon under construction: its edges, and the line of the edge that was added last. */
  datatype Draft = Draft(present: bool, edges: multiset<Edge>, updated: int)

  const NO_DRAFT := Draft(false, multiset{}, -1)

  function AddEdge(d: Draft, e: Edge, line: int): Draft { Draft(true, d.edges + multiset{e}, line) }

  // One edge is added to the polygons on both sides of it, when they differ.
  function AddToBoth(v: seq<Draft>, near: int, far: int, e: Edge, line: int): (r: seq<Draft>)
    requires near < |v| && far < |v|
    ensures |r| == |v|
  {
    if near == far then v
    else
      var v1 := if near < 0 then v else v[near := AddEdge(v[near], e, line)];
      if far < 0 then v1 else v1[far := AddEdge(v1[far], e, line)]
  }

  lemma AddToBothAt(v: seq<Draft>, near: int, far: int, e: Edge, line: int, k: nat)
    requires -1 <= near < |v| && -1 <= far < |v| && k < |v|
    ensures AddToBoth(v, near, far, e, line)[k] == if (near == k) != (far == k) then AddEdge(v[k], e, line) else v[k]
  {
  }

  /** What is known of a polygon in the course of the second pass: as long as it has not been
      emitted, its draft holds the examined edges of its border and tells a line not before any of
      them; once it has been emitted, all of its border has been examined. */
  ghost predicate Collected(g: Plane, k: nat, d: Draft, done: bool, j: int, i: int, half: bool) {
    if done then
      && d == NO_DRAFT && (exists e :: Separates(g, k, e))
      && forall e :: Separates(g, k, e) ==> Examined(e, j, i, half)
    else
      && (forall e :: d.edges[e] == if Examined(e, j, i, half) && Separates(g, k, e) then 1 else 0)
      && (forall e :: Examined(e, j, i, half) && Separates(g, k, e) ==> d.present && e.y <= d.updated)
      && (d.present ==> exists e :: Examined(e, j, i, half) && Separates(g, k, e))
      && (!d.present ==> d == NO_DRAFT)
  }

  lemma NothingCollected(g: Plane, k: nat)
    ensures Collected(g, k, NO_DRAFT, false, 0, 0, false)
  {
    forall e | Examined(e, 0, 0, false) ensures !Separates(g, k, e) {
    }
  }

  // Examining one edge more.
  lemma EdgeCollected(g: Plane, k: nat, d: Draft, done: bool, e: Edge, line: int, j: int, i: int, half: bool, i': int, half': bool)
    requires Collected(g, k, d, done, j, i, half) && !Examined(e, j, i, half) && e.y == j <= line
    requires forall f :: Examined(f, j, i', half') <==> Examined(f, j, i, half) || f == e
    ensures Collected(g, k, if Separates(g, k, e) then AddEdge(d, e, line) else d, done, j, i', half')
  {
    if Separates(g, k, e) {
      assert Examined(e, j, i', half');
      assert forall f :: Examined(f, j, i, half) ==> f.y <= j;
    }
  }

  /** The edges above and to the right of a pixel. */
  function AbovePixel(i: int, j: int): Edge { Edge(i - 1, j, false) }
  function RightOfPixel(i: int, j: int): Edge { Edge(i, j, true) }

  // The drafts after both edges of pixel i of line j have been examined.
  function AfterPixel(v: seq<Draft>, here: int, above: int, right: int, i: int, j: int): (r: seq<Draft>)
    requires here < |v| && above < |v| && right < |v|
    ensures |r| == |v|
  {
    AddToBoth(AddToBoth(v, here, above, AbovePixel(i, j), j), here, right, RightOfPixel(i, j), j + 1)
  }

  lemma AboveCollected(g: Plane, k: nat, v: seq<Draft>, done: bool, i: int, j: int)
    requires k < |v| && Collected(g, k, v[k], done, j, i, false)
    requires PolyAt(g, i - 1, j) < |v| && PolyAt(g, i - 1, j - 1) < |v|
    ensures Collected(g, k, AddToBoth(v, PolyAt(g, i - 1, j), PolyAt(g, i - 1, j - 1), AbovePixel(i, j), j)[k], done, j, i, true)
  {
    AddToBothAt(v, PolyAt(g, i - 1, j), PolyAt(g, i - 1, j - 1), AbovePixel(i, j), j, k);
    EdgeCollected(g, k, v[k], done, AbovePixel(i, j), j, j, i, false, i, true);
  }

  lemma RightCollected(g: Plane, k: nat, v: seq<Draft>, done: bool, i: int, j: int)
    requires k < |v| && Collected(g, k, v[k], done, j, i, true)
    requires PolyAt(g, i - 1, j) < |v| && PolyAt(g, i, j) < |v|
    ensures Collected(g, k, AddToBoth(v, PolyAt(g, i - 1, j), PolyAt(g, i, j), RightOfPixel(i, j), j + 1)[k], done, j, i + 1, false)
  {
    AddToBothAt(v, PolyAt(g, i - 1, j), PolyAt(g, i, j), RightOfPixel(i, j), j + 1, k);
    EdgeCollected(g, k, v[k], done, RightOfPixel(i, j), j + 1, j, i, true, i + 1, false);
  }

  /** Examining the edges of one pixel collects them for the polygons that they separate. */
  lemma PixelCollected(g: Plane, k: nat, v: seq<Draft>, done: bool, i: int, j: int)
    requires k < |v| && Collected(g, k, v[k], done, j, i, false)
    requires PolyAt(g, i - 1, j) < |v| && PolyAt(g, i - 1, j - 1) < |v| && PolyAt(g, i, j) < |v|
    ensures Collected(g, k, AfterPixel(v, PolyAt(g, i - 1, j), PolyAt(g, i - 1, j - 1), PolyAt(g, i, j), i, j)[k], done, j, i + 1, false)
  {
    AboveCollected(g, k, v, done, i, j);
    RightCollected(g, k, AddToBoth(v, PolyAt(g, i - 1, j), PolyAt(g, i - 1, j - 1), AbovePixel(i, j), j), done, i, j);
  }

  // A line of w pixels is over; nothing separates anything to the right of it.
  lemma LineCollected(g: Plane, k: nat, d: Draft, done: bool, j: int, w: nat)
    requires Collected(g, k, d, done, j, w + 1, false) && forall y :: 0 <= y < |g| ==> |g[y]| == w
    ensures Collected(g, k, d, done, j + 1, 0, false)
  {
    forall e ensures Separates(g, k, e) ==> (Examined(e, j, w + 1, false) <==> Examined(e, j + 1, 0, false)) {
    }
  }

  // ----- flushing

  /** A polygon whose draft was not updated on the last line or the one before is complete: it has
      no pixel in this line, and so none after it. */
  lemma FlushedIsComplete(g: Plane, k: nat, d: Draft, j: int)
    requires Collected(g, k, d, false, j + 1, 0, false) && Contiguous(g) && d.present && d.updated < j - 1
    ensures IsBorder(g, k, d.edges)
    ensures Collected(g, k, NO_DRAFT, true, j + 1, 0, false)
  {
    var e :| Examined(e, j + 1, 0, false) && Separates(g, k, e);
    assert e.y < j - 1;
    var y := if Near(g, e) == k || e.vertical then e.y else e.y - 1;
    assert InRow(g, k, y) by {
      assert PolyAt(g, e.x, y) == k || PolyAt(g, e.x - 1, y) == k;
    }
    forall f | Separates(g, k, f) ensures Examined(f, j + 1, 0, false) {
      if f.y > j {
        var t := if Near(g, f) == k || f.vertical then f.y else f.y - 1;
        assert InRow(g, k, t) by {
          assert PolyAt(g, f.x, t) == k || PolyAt(g, f.x - 1, t) == k;
        }
        assert InRow(g, k, j);
        var x :| PolyAt(g, x, j) == k;
        var h := RowHasEdge(g, k, x, j);
        assert Examined(h, j + 1, 0, false);
        assert false;
      }
    }
  }

  ghost predicate HasPixel(g: Plane, k: nat) { exists y :: InRow(g, k, y) }

  /** A polygon has a border exactly when it has pixels. */
  lemma BorderOfPixels(g: Plane, k: nat)
    ensures HasPixel(g, k) <==> exists e :: Separates(g, k, e)
  {
    if HasPixel(g, k) {
      var y :| InRow(g, k, y);
      var x :| PolyAt(g, x, y) == k;
      var e := RowHasEdge(g, k, x, y);
    }
    if e :| Separates(g, k, e) {
      if PolyAt(g, e.x, e.y) == k {
        assert InRow(g, k, e.y);
      } else if e.vertical {
        assert PolyAt(g, e.x - 1, e.y) == k;
        assert InRow(g, k, e.y);
      } else {
        assert InRow(g, k, e.y - 1);
      }
    }
  }

  // When all lines are over, every draft is complete.
  lemma LastIsComplete(g: Plane, k: nat, d: Draft, done: bool)
    requires Collected(g, k, d, done, |g| + 1, 0, false)
    ensures HasPixel(g, k) <==> done || d.present
    ensures d.present ==> !done && IsBorder(g, k, d.edges) && Collected(g, k, NO_DRAFT, true, |g| + 1, 0, false)
  {
    BorderOfPixels(g, k);
    forall e | Separates(g, k, e) ensures Examined(e, |g| + 1, 0, false) {
    }
  }
}
