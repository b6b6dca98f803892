/** Images, the adjacencies between their pixels, and the regions these induce. */
module Regions {
  import opened Common

  datatype Pixel = Pixel(x: int, y: int)

  /** An image is a sequence of lines of equal width. */
  type Image = seq<seq<int>>

  ghost predicate IsImage(img: Image, w: nat) {
    forall y :: 0 <= y < |img| ==> |img[y]| == w
  }

  predicate InImage(img: Image, p: Pixel) {
    0 <= p.y < |img| && 0 <= p.x < |img[p.y]|
  }

  // The pixels of an image.
  ghost function Pixels(img: Image, w: nat): (S: set<Pixel>)
    requires IsImage(img, w)
    ensures forall p :: p in S <==> InImage(img, p)
  {
    var S := set x, y | 0 <= x < w && 0 <= y < |img| :: Pixel(x, y);
    assert forall p :: InImage(img, p) ==> p == Pixel(p.x, p.y);
    S
  }

  function At(img: Image, p: Pixel): int
    requires InImage(img, p)
  {
    img[p.y][p.x]
  }

  /** How an enumerator compares and connects pixels.  A tolerance of 0 is the integer
      enumerator; the floating point one compares ordered bit patterns with tolerance 10. */
  datatype Rule = Rule(connectedness: int, tolerance: nat) {
    predicate Same(a: int, b: int) { Abs(a - b) <= tolerance }
  }

  // ----- what the enumerator does with one pixel

  /** Where a pixel's polygon id comes from. */
  datatype Choice = Left | Up | UpLeft | UpRight | Fresh

  function Choose(rule: Rule, last: Option<seq<int>>, cur: seq<int>, i: nat): Choice
    requires i < |cur|
    requires last.Some? ==> |last.value| == |cur|
  {
    if i > 0 && rule.Same(cur[i], cur[i - 1]) then Left
    else if last.None? then Fresh
    else if rule.Same(last.value[i], cur[i]) then Up
    else if i > 0 && rule.connectedness == 8 && rule.Same(last.value[i - 1], cur[i]) then UpLeft
    else if i < |cur| - 1 && rule.connectedness == 8 && rule.Same(last.value[i + 1], cur[i]) then UpRight
    else Fresh
  }

  function LineAbove(img: Image, y: nat): Option<seq<int>>
    requires y < |img|
  {
    if y == 0 then None else Some(img[y - 1])
  }

  /** Scanning pixel b puts it in the polygon of the earlier pixel a: because b takes the id
      of a, or because a is above b and is merged with the polygon that b took from its left. */
  predicate Takes(rule: Rule, img: Image, w: nat, b: Pixel, a: Pixel)
    requires IsImage(img, w)
  {
    && InImage(img, b) && InImage(img, a)
    && match Choose(rule, LineAbove(img, b.y), img[b.y], b.x)
       case Left => || a == Pixel(b.x - 1, b.y)
                    || (a == Pixel(b.x, b.y - 1) && rule.Same(At(img, a), At(img, b)))
       case Up => a == Pixel(b.x, b.y - 1)
       case UpLeft => a == Pixel(b.x - 1, b.y - 1)
       case UpRight => a == Pixel(b.x + 1, b.y - 1)
       case Fresh => false
  }

  // ----- adjacency and connection by paths

  function UpRightOf(b: Pixel): Pixel { Pixel(b.x + 1, b.y - 1) }

  /** Pixel b equals the one to its upper right and not the one above, and equals the one to its
      left or upper left: with connectedness 8 these come first. */
  predicate Skips(rule: Rule, img: Image, w: nat, b: Pixel)
    requires IsImage(img, w)
  {
    var up, left, upLeft := Pixel(b.x, b.y - 1), Pixel(b.x - 1, b.y), Pixel(b.x - 1, b.y - 1);
    && InImage(img, b) && InImage(img, UpRightOf(b)) && InImage(img, up)
    && rule.Same(At(img, UpRightOf(b)), At(img, b)) && !rule.Same(At(img, up), At(img, b))
    && ((InImage(img, left) && rule.Same(At(img, b), At(img, left)))
        || (InImage(img, upLeft) && rule.Same(At(img, upLeft), At(img, b))))
  }

  /** Four and Eight are the usual adjacencies of equal pixels, and Open is Eight without the pairs
      that are skipped; Scanned relates the pixels that the enumerator puts in one polygon directly. */
  datatype Adjacency = Four | Eight | Open | Scanned

  predicate Adjacent(adj: Adjacency, rule: Rule, img: Image, w: nat, a: Pixel, b: Pixel)
    requires IsImage(img, w)
  {
    && InImage(img, a) && InImage(img, b)
    && match adj
       case Four => Abs(a.x - b.x) + Abs(a.y - b.y) == 1 && rule.Same(At(img, a), At(img, b))
       case Eight => Abs(a.x - b.x) <= 1 && Abs(a.y - b.y) <= 1 && rule.Same(At(img, a), At(img, b))
       case Open =>
         && Abs(a.x - b.x) <= 1 && Abs(a.y - b.y) <= 1 && rule.Same(At(img, a), At(img, b))
         && !(b == UpRightOf(a) && Skips(rule, img, w, a)) && !(a == UpRightOf(b) && Skips(rule, img, w, b))
       case Scanned => Takes(rule, img, w, a, b) || Takes(rule, img, w, b, a)
  }

  ghost predicate IsPath(adj: Adjacency, rule: Rule, img: Image, w: nat, path: seq<Pixel>, a: Pixel, b: Pixel)
    requires IsImage(img, w)
  {
    && |path| > 0 && path[0] == a && path[|path| - 1] == b && InImage(img, a)
    && forall i :: 0 <= i < |path| - 1 ==> Adjacent(adj, rule, img, w, path[i], path[i + 1])
  }

  ghost predicate Connected(adj: Adjacency, rule: Rule, img: Image, w: nat, a: Pixel, b: Pixel)
    requires IsImage(img, w)
  {
    exists path :: IsPath(adj, rule, img, w, path, a, b)
  }

  lemma ConnectedRefl(adj: Adjacency, rule: Rule, img: Image, w: nat, a: Pixel)
    requires IsImage(img, w) && InImage(img, a)
    ensures Connected(adj, rule, img, w, a, a)
  {
    assert IsPath(adj, rule, img, w, [a], a, a);
  }

  lemma ConnectedStep(adj: Adjacency, rule: Rule, img: Image, w: nat, a: Pixel, b: Pixel)
    requires IsImage(img, w) && Adjacent(adj, rule, img, w, a, b)
    ensures Connected(adj, rule, img, w, a, b)
  {
    assert IsPath(adj, rule, img, w, [a, b], a, b);
  }

  lemma ConnectedTrans(adj: Adjacency, rule: Rule, img: Image, w: nat, a: Pixel, b: Pixel, c: Pixel)
    requires IsImage(img, w)
    requires Connected(adj, rule, img, w, a, b) && Connected(adj, rule, img, w, b, c)
    ensures Connected(adj, rule, img, w, a, c)
  {
    var p :| IsPath(adj, rule, img, w, p, a, b);
    var q :| IsPath(adj, rule, img, w, q, b, c);
    assert IsPath(adj, rule, img, w, p + q[1..], a, c);
  }

  lemma ConnectedSym(adj: Adjacency, rule: Rule, img: Image, w: nat, a: Pixel, b: Pixel)
    requires IsImage(img, w) && Connected(adj, rule, img, w, a, b)
    ensures Connected(adj, rule, img, w, b, a)
  {
    var p :| IsPath(adj, rule, img, w, p, a, b);
    var q := seq(|p|, i requires 0 <= i < |p| => p[|p| - 1 - i]);
    PathEndsInImage(adj, rule, img, w, p, a, b);
    forall i | 0 <= i < |q| - 1 ensures Adjacent(adj, rule, img, w, q[i], q[i + 1]) {
      var j := |p| - 2 - i;
      assert q[i] == p[j + 1] && q[i + 1] == p[j];
      assert Adjacent(adj, rule, img, w, p[j], p[j + 1]);
    }
    assert IsPath(adj, rule, img, w, q, b, a);
  }

  lemma PathEndsInImage(adj: Adjacency, rule: Rule, img: Image, w: nat, p: seq<Pixel>, a: Pixel, b: Pixel)
    requires IsImage(img, w) && IsPath(adj, rule, img, w, p, a, b)
    ensures InImage(img, b)
  {
    if |p| > 1 {
      assert Adjacent(adj, rule, img, w, p[|p| - 2], p[|p| - 2 + 1]);
    }
  }

  // An adjacency contained in another one connects no more.
  lemma ConnectedMono(adj: Adjacency, adj': Adjacency, rule: Rule, img: Image, w: nat, a: Pixel, b: Pixel)
    requires IsImage(img, w) && Connected(adj, rule, img, w, a, b)
    requires forall p, q :: Adjacent(adj, rule, img, w, p, q) ==> Adjacent(adj', rule, img, w, p, q)
    ensures Connected(adj', rule, img, w, a, b)
  {
    var p :| IsPath(adj, rule, img, w, p, a, b);
    assert IsPath(adj', rule, img, w, p, a, b);
  }

  // A property that every step along the adjacency keeps, holds all along a path.
  lemma {:induction false} PathKeeps(adj: Adjacency, rule: Rule, img: Image, w: nat, path: seq<Pixel>,
                                     a: Pixel, b: Pixel, S: set<Pixel>)
    requires IsImage(img, w) && IsPath(adj, rule, img, w, path, a, b) && a in S
    requires forall p, q :: p in S && Adjacent(adj, rule, img, w, p, q) ==> q in S
    ensures b in S
  {
    if |path| > 1 {
      var c := path[|path| - 2];
      var prefix := path[..|path| - 1];
      assert forall i :: 0 <= i < |prefix| ==> prefix[i] == path[i];
      assert IsPath(adj, rule, img, w, prefix, a, c);
      PathKeeps(adj, rule, img, w, prefix, a, c, S);
      assert Adjacent(adj, rule, img, w, path[|path| - 2], path[|path| - 2 + 1]);
    }
  }

  /** Pixels that are 4-adjacent and equal are always put in one polygon directly, and pixels put
      in one polygon directly are 8-adjacent and equal. */
  lemma ScannedBetweenFourAndEight(rule: Rule, img: Image, w: nat, a: Pixel, b: Pixel)
    requires IsImage(img, w)
    ensures Adjacent(Four, rule, img, w, a, b) ==> Adjacent(Scanned, rule, img, w, a, b)
    ensures Adjacent(Scanned, rule, img, w, a, b) ==> Adjacent(Eight, rule, img, w, a, b)
    ensures Adjacent(Scanned, rule, img, w, a, b) && rule.connectedness != 8 ==> Adjacent(Four, rule, img, w, a, b)
  {
  }
}
