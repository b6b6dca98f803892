/** What the polygon enumerator computes, line by line, and why its polygons are the regions
    of the image. */
module Labelling {
  import opened Common
  import opened Forest
  import opened Regions

  /** The enumerator's id map and the value recorded for every id. */
  datatype Labels = Labels(parent: seq<nat>, value: seq<int>)

  const NO_LABELS := Labels([], [])

  /** The ids of the pixels of one line, and the labels once that line is scanned. */
  datatype Line = Line(ids: seq<nat>, labels: Labels)

  /** The values and the ids of the line above. */
  datatype Above = Above(vals: seq<int>, ids: seq<nat>)

  ghost predicate GoodLabels(l: Labels) {
    IsForest(l.parent) && |l.value| == |l.parent|
  }

  ghost predicate IdsIn(ids: seq<nat>, l: Labels) {
    forall i :: 0 <= i < |ids| ==> ids[i] < |l.parent|
  }

  ghost predicate GoodAbove(above: Option<Above>, w: nat, l: Labels) {
    above.Some? ==> |above.value.vals| == |above.value.ids| == w && IdsIn(above.value.ids, l)
  }

  ghost function AboveVals(above: Option<Above>): Option<seq<int>> {
    if above.None? then None else Some(above.value.vals)
  }

  /** One pixel more of the current line. */
  ghost function ScanPixel(rule: Rule, above: Option<Above>, cur: seq<int>, r: Line): (r': Line)
    requires |r.ids| < |cur| && GoodLabels(r.labels) && IdsIn(r.ids, r.labels) && GoodAbove(above, |cur|, r.labels)
    ensures |r'.ids| == |r.ids| + 1 && GoodLabels(r'.labels) && IdsIn(r'.ids, r'.labels)
    ensures |r'.labels.parent| >= |r.labels.parent|
  {
    var i, l := |r.ids|, r.labels;
    match Choose(rule, AboveVals(above), cur, i)
    case Left =>
      var id := r.ids[i - 1];
      if above.Some? && rule.Same(above.value.vals[i], cur[i]) then
        JoinIsForest(l.parent, above.value.ids[i], id);
        Line(r.ids + [id], l.(parent := Join(l.parent, above.value.ids[i], id)))
      else
        Line(r.ids + [id], l)
    case Up => Line(r.ids + [above.value.ids[i]], l)
    case UpLeft => Line(r.ids + [above.value.ids[i - 1]], l)
    case UpRight => Line(r.ids + [above.value.ids[i + 1]], l)
    case Fresh =>
      ExtendRoot(l.parent);
      Line(r.ids + [|l.parent|], Labels(l.parent + [|l.parent|], l.value + [cur[i]]))
  }

  /** The first k pixels of a line. */
  ghost function ScanLine(rule: Rule, above: Option<Above>, cur: seq<int>, l: Labels, k: nat): (r: Line)
    requires k <= |cur| && GoodLabels(l) && GoodAbove(above, |cur|, l)
    ensures |r.ids| == k && GoodLabels(r.labels) && IdsIn(r.ids, r.labels)
    ensures |r.labels.parent| >= |l.parent|
  {
    if k == 0 then Line([], l) else ScanPixel(rule, above, cur, ScanLine(rule, above, cur, l, k - 1))
  }

  /** The ids of all pixels of the lines scanned so far, and the labels. */
  datatype Scan = Scan(rows: seq<seq<nat>>, labels: Labels)

  ghost predicate GoodRows(rows: seq<seq<nat>>, w: nat, l: Labels) {
    forall y :: 0 <= y < |rows| ==> |rows[y]| == w && IdsIn(rows[y], l)
  }

  ghost function LastLine(img: Image, rows: seq<seq<nat>>): Option<Above>
    requires |rows| <= |img|
  {
    if |rows| == 0 then None else Some(Above(img[|rows| - 1], rows[|rows| - 1]))
  }

  /** The first y lines of an image, scanned by a fresh or cleared enumerator. */
  ghost function ScanImage(rule: Rule, img: Image, w: nat, y: nat): (s: Scan)
    requires IsImage(img, w) && y <= |img|
    ensures |s.rows| == y && GoodLabels(s.labels) && GoodRows(s.rows, w, s.labels)
  {
    if y == 0 then
      EmptyIsForest();
      Scan([], NO_LABELS)
    else
      var s := ScanImage(rule, img, w, y - 1);
      var r := ScanLine(rule, LastLine(img, s.rows), img[y - 1], s.labels, w);
      RowsGrow(s.rows, w, s.labels, r.ids, r.labels);
      Scan(s.rows + [r.ids], r.labels)
  }

  lemma RowsGrow(rows: seq<seq<nat>>, w: nat, l: Labels, ids: seq<nat>, l': Labels)
    requires GoodRows(rows, w, l) && |ids| == w && IdsIn(ids, l') && |l.parent| <= |l'.parent|
    ensures GoodRows(rows + [ids], w, l')
  {
  }

  lemma EmptyIsForest()
    ensures GoodLabels(NO_LABELS)
  {
    assert DepthOf([], []);
  }

  // The lines scanned first keep their ids.
  lemma {:induction false} ScanKeepsRows(rule: Rule, img: Image, w: nat, y: nat, y': nat)
    requires IsImage(img, w) && y <= y' <= |img|
    ensures ScanImage(rule, img, w, y).rows == ScanImage(rule, img, w, y').rows[..y]
    ensures |ScanImage(rule, img, w, y).labels.parent| <= |ScanImage(rule, img, w, y').labels.parent|
  {
    if y < y' { ScanKeepsRows(rule, img, w, y, y' - 1); }
  }

  // ----- polygons against regions

  // Pixels that have an id already.
  predicate Seen(rows: seq<seq<nat>>, p: Pixel) {
    0 <= p.y < |rows| && 0 <= p.x < |rows[p.y]|
  }

  function IdAt(rows: seq<seq<nat>>, p: Pixel): nat
    requires Seen(rows, p)
  {
    rows[p.y][p.x]
  }

  ghost predicate SamePolygon(rows: seq<seq<nat>>, parent: seq<nat>, p: Pixel, q: Pixel)
    requires IsForest(parent) && Seen(rows, p) && Seen(rows, q)
    requires IdAt(rows, p) < |parent| && IdAt(rows, q) < |parent|
  {
    Root(parent, IdAt(rows, p)) == Root(parent, IdAt(rows, q))
  }

  // rows are the ids of the first lines of img, the last of them possibly cut short.
  ghost predicate ScannedPart(img: Image, w: nat, rows: seq<seq<nat>>, l: Labels) {
    && IsImage(img, w) && |rows| <= |img| && GoodLabels(l)
    && (forall y :: 0 <= y < |rows| ==> |rows[y]| <= w && IdsIn(rows[y], l))
    && (forall y :: 0 <= y < |rows| - 1 ==> |rows[y]| == w)
  }

  // What ScannedPart says when the last line is named.
  lemma ScannedPartSplit(img: Image, w: nat, rows: seq<seq<nat>>, ids: seq<nat>, l: Labels)
    ensures ScannedPart(img, w, rows + [ids], l)
       <==> (&& IsImage(img, w) && |rows| < |img| && GoodLabels(l) && GoodRows(rows, w, l)
             && |ids| <= w && IdsIn(ids, l))
  {
    var R := rows + [ids];
    assert R[|rows|] == ids;
    assert forall y :: 0 <= y < |rows| ==> R[y] == rows[y];
  }

  // Pixels in one polygon are connected.
  ghost predicate Sound(rule: Rule, img: Image, w: nat, rows: seq<seq<nat>>, l: Labels)
    requires ScannedPart(img, w, rows, l)
  {
    forall p, q :: Seen(rows, p) && Seen(rows, q) && SamePolygon(rows, l.parent, p, q)
               ==> Connected(Scanned, rule, img, w, p, q)
  }

  // Pixels joined directly are in one polygon.
  ghost predicate Complete(rule: Rule, img: Image, w: nat, rows: seq<seq<nat>>, l: Labels)
    requires ScannedPart(img, w, rows, l)
  {
    forall p, q :: Seen(rows, p) && Seen(rows, q) && Takes(rule, img, w, p, q)
               ==> SamePolygon(rows, l.parent, p, q)
  }

  // Pixel p is where id was allocated.
  ghost predicate Witness(img: Image, rows: seq<seq<nat>>, l: Labels, id: nat, p: Pixel)
    requires id < |l.value|
  {
    Seen(rows, p) && InImage(img, p) && IdAt(rows, p) == id && At(img, p) == l.value[id]
  }

  ghost predicate Carried(img: Image, rows: seq<seq<nat>>, l: Labels, id: nat)
    requires id < |l.value|
  {
    exists p :: Witness(img, rows, l, id, p)
  }

  // Every id was allocated for a pixel, with the value of that pixel.
  ghost predicate Inhabited(img: Image, rows: seq<seq<nat>>, l: Labels) {
    forall id :: 0 <= id < |l.value| ==> Carried(img, rows, l, id)
  }

  ghost predicate Labelled(rule: Rule, img: Image, w: nat, rows: seq<seq<nat>>, l: Labels) {
    && ScannedPart(img, w, rows, l)
    && Sound(rule, img, w, rows, l) && Complete(rule, img, w, rows, l) && Inhabited(img, rows, l)
  }

  // A pixel is only ever put in the polygon of a pixel scanned before it.
  lemma TakesEarlier(rule: Rule, img: Image, w: nat, b: Pixel, a: Pixel)
    requires IsImage(img, w) && Takes(rule, img, w, b, a)
    ensures a.y < b.y || (a.y == b.y && a.x < b.x)
  {
  }

  // Pixel b gets the id of pixel a that it takes from, and nothing else is to be joined.
  lemma CopyKeepsLabelled(rule: Rule, img: Image, w: nat, rows: seq<seq<nat>>, ids: seq<nat>, l: Labels,
                          b: Pixel, a: Pixel)
    requires |rows| < |img| && |ids| < w && b == Pixel(|ids|, |rows|)
    requires Labelled(rule, img, w, rows + [ids], l)
    requires Takes(rule, img, w, b, a) && Seen(rows + [ids], a)
    requires forall q :: Takes(rule, img, w, b, q) ==> Seen(rows + [ids], q) && SamePolygon(rows + [ids], l.parent, a, q)
    ensures Labelled(rule, img, w, rows + [ids + [IdAt(rows + [ids], a)]], l)
  {
    var R := rows + [ids];
    var R' := rows + [ids + [IdAt(R, a)]];
    SeenAfter(rows, ids, IdAt(R, a));
    assert IdAt(R', b) == IdAt(R, a);
    ScannedPartSplit(img, w, rows, ids, l);
    ScannedPartSplit(img, w, rows, ids + [IdAt(R, a)], l);
    assert ScannedPart(img, w, R', l);
    ConnectedStep(Scanned, rule, img, w, b, a);
    ConnectedStep(Scanned, rule, img, w, a, b);
    ConnectedRefl(Scanned, rule, img, w, b);
    forall p, q | Seen(R', p) && Seen(R', q) && SamePolygon(R', l.parent, p, q)
      ensures Connected(Scanned, rule, img, w, p, q)
    {
      var p', q' := if p == b then a else p, if q == b then a else q;
      assert SamePolygon(R, l.parent, p', q');
      if p == b && q != b { ConnectedTrans(Scanned, rule, img, w, b, a, q); }
      if p != b && q == b { ConnectedTrans(Scanned, rule, img, w, p, a, b); }
    }
    forall p, q | Seen(R', p) && Seen(R', q) && Takes(rule, img, w, p, q)
      ensures SamePolygon(R', l.parent, p, q)
    {
      TakesEarlier(rule, img, w, p, q);
      if p == b { assert SamePolygon(R, l.parent, a, q); }
    }
    forall id | 0 <= id < |l.value| ensures Carried(img, R', l, id) {
      assert Carried(img, R, l, id);
      var p :| Witness(img, R, l, id, p);
      assert Witness(img, R', l, id, p);
    }
  }

  // One pixel more is seen, and the others keep their ids.
  lemma SeenAfter(rows: seq<seq<nat>>, ids: seq<nat>, id: nat)
    ensures forall p :: Seen(rows + [ids + [id]], p) <==> Seen(rows + [ids], p) || p == Pixel(|ids|, |rows|)
    ensures forall p :: Seen(rows + [ids], p) ==> IdAt(rows + [ids + [id]], p) == IdAt(rows + [ids], p)
  {
  }

  // Two polygons with directly joined pixels u and t are united.
  lemma UniteKeepsSound(rule: Rule, img: Image, w: nat, rows: seq<seq<nat>>, l: Labels, u: Pixel, t: Pixel)
    requires ScannedPart(img, w, rows, l) && Sound(rule, img, w, rows, l)
    requires Seen(rows, u) && Seen(rows, t) && Connected(Scanned, rule, img, w, u, t)
    ensures IsForest(Join(l.parent, IdAt(rows, u), IdAt(rows, t)))
    ensures var l' := l.(parent := Join(l.parent, IdAt(rows, u), IdAt(rows, t)));
      && ScannedPart(img, w, rows, l') && Sound(rule, img, w, rows, l')
      && SamePolygon(rows, l'.parent, u, t)
      && (forall p, q :: Seen(rows, p) && Seen(rows, q) && SamePolygon(rows, l.parent, p, q)
                    ==> SamePolygon(rows, l'.parent, p, q))
  {
    var src, dst := IdAt(rows, u), IdAt(rows, t);
    JoinUnites(l.parent, src, dst);
    var l' := l.(parent := Join(l.parent, src, dst));
    assert ScannedPart(img, w, rows, l');
    ConnectedSym(Scanned, rule, img, w, u, t);
    forall p, q | Seen(rows, p) && Seen(rows, q) && SamePolygon(rows, l'.parent, p, q)
      ensures Connected(Scanned, rule, img, w, p, q)
    {
      if SamePolygon(rows, l.parent, p, q) {
      } else if SamePolygon(rows, l.parent, p, u) && SamePolygon(rows, l.parent, q, t) {
        ConnectedTrans(Scanned, rule, img, w, p, u, t);
        assert SamePolygon(rows, l.parent, t, q);
        ConnectedTrans(Scanned, rule, img, w, p, t, q);
      } else {
        assert SamePolygon(rows, l.parent, p, t) && SamePolygon(rows, l.parent, u, q);
        ConnectedTrans(Scanned, rule, img, w, p, t, u);
        ConnectedTrans(Scanned, rule, img, w, p, u, q);
      }
    }
  }

  // Uniting keeps what was complete complete.
  lemma UniteKeepsLabelled(rule: Rule, img: Image, w: nat, rows: seq<seq<nat>>, l: Labels, u: Pixel, t: Pixel)
    requires Labelled(rule, img, w, rows, l)
    requires Seen(rows, u) && Seen(rows, t) && Connected(Scanned, rule, img, w, u, t)
    ensures IsForest(Join(l.parent, IdAt(rows, u), IdAt(rows, t)))
    ensures var l' := l.(parent := Join(l.parent, IdAt(rows, u), IdAt(rows, t)));
      Labelled(rule, img, w, rows, l') && SamePolygon(rows, l'.parent, u, t)
  {
    UniteKeepsSound(rule, img, w, rows, l, u, t);
    var l' := l.(parent := Join(l.parent, IdAt(rows, u), IdAt(rows, t)));
    forall id | 0 <= id < |l'.value| ensures Carried(img, rows, l', id) {
      assert Carried(img, rows, l, id);
      var p :| Witness(img, rows, l, id, p);
      assert Witness(img, rows, l', id, p);
    }
  }

  lemma LeftAndUp(rule: Rule, img: Image, w: nat, b: Pixel)
    requires IsImage(img, w) && InImage(img, b) && Choose(rule, LineAbove(img, b.y), img[b.y], b.x) == Left
    ensures b.x > 0
    ensures var left, up := Pixel(b.x - 1, b.y), Pixel(b.x, b.y - 1);
            forall q :: Takes(rule, img, w, b, q) <==>
                          q == left || (q == up && InImage(img, up) && rule.Same(At(img, up), At(img, b)))
  {
  }

  // A pixel that equals its left neighbour and the one above: their polygons are merged, and it
  // takes the id of its left neighbour.
  lemma MergingKeepsLabelled(rule: Rule, img: Image, w: nat, rows: seq<seq<nat>>, ids: seq<nat>, l: Labels)
    requires 0 < |rows| < |img| && 0 < |ids| < w && IdsIn(ids, l) && GoodRows(rows, w, l)
    requires Labelled(rule, img, w, rows + [ids], l)
    requires var b, left, up := Pixel(|ids|, |rows|), Pixel(|ids| - 1, |rows|), Pixel(|ids|, |rows| - 1);
             forall q :: Takes(rule, img, w, b, q) <==> q == left || q == up
    ensures Labelled(rule, img, w, rows + [ids + [ids[|ids| - 1]]],
                     l.(parent := Join(l.parent, rows[|rows| - 1][|ids|], ids[|ids| - 1])))
  {
    var b, left, up := Pixel(|ids|, |rows|), Pixel(|ids| - 1, |rows|), Pixel(|ids|, |rows| - 1);
    var R := rows + [ids];
    assert IdAt(R, left) == ids[|ids| - 1] && IdAt(R, up) == rows[|rows| - 1][|ids|];
    ConnectedStep(Scanned, rule, img, w, up, b);
    ConnectedStep(Scanned, rule, img, w, b, left);
    ConnectedTrans(Scanned, rule, img, w, up, b, left);
    UniteKeepsLabelled(rule, img, w, R, l, up, left);
    CopyKeepsLabelled(rule, img, w, rows, ids, l.(parent := Join(l.parent, IdAt(R, up), IdAt(R, left))), b, left);
  }

  // A pixel that equals its left neighbour, and not the one above.
  lemma LeftIsCopied(rule: Rule, img: Image, w: nat, rows: seq<seq<nat>>, ids: seq<nat>, l: Labels)
    requires |rows| < |img| && 0 < |ids| < w && Labelled(rule, img, w, rows + [ids], l)
    requires forall q :: Takes(rule, img, w, Pixel(|ids|, |rows|), q) <==> q == Pixel(|ids| - 1, |rows|)
    ensures Labelled(rule, img, w, rows + [ids + [ids[|ids| - 1]]], l)
  {
    var b, left := Pixel(|ids|, |rows|), Pixel(|ids| - 1, |rows|);
    assert Seen(rows + [ids], left) && IdAt(rows + [ids], left) == ids[|ids| - 1];
    CopyKeepsLabelled(rule, img, w, rows, ids, l, b, left);
  }

  lemma ScannedLeft(rule: Rule, above: Option<Above>, cur: seq<int>, r: Line)
    requires 0 < |r.ids| < |cur| && GoodLabels(r.labels) && IdsIn(r.ids, r.labels) && GoodAbove(above, |cur|, r.labels)
    requires Choose(rule, AboveVals(above), cur, |r.ids|) == Left
    ensures var i, l := |r.ids|, r.labels;
      ScanPixel(rule, above, cur, r)
      == Line(r.ids + [r.ids[i - 1]],
              if above.Some? && rule.Same(above.value.vals[i], cur[i])
              then l.(parent := Join(l.parent, above.value.ids[i], r.ids[i - 1])) else l)
  {
  }

  // A pixel equal to its left neighbour takes that id, and is merged with an equal pixel above.
  lemma LeftAndUpKeepsLabelled(rule: Rule, img: Image, w: nat, rows: seq<seq<nat>>, r: Line)
    requires 0 < |rows| < |img| && |r.ids| < w
    requires IdsIn(r.ids, r.labels) && GoodRows(rows, w, r.labels)
    requires Labelled(rule, img, w, rows + [r.ids], r.labels)
    requires Choose(rule, LineAbove(img, |rows|), img[|rows|], |r.ids|) == Left
    requires rule.Same(img[|rows| - 1][|r.ids|], img[|rows|][|r.ids|])
    ensures |r.ids| > 0
    ensures Labelled(rule, img, w, rows + [r.ids + [r.ids[|r.ids| - 1]]],
                     r.labels.(parent := Join(r.labels.parent, rows[|rows| - 1][|r.ids|], r.ids[|r.ids| - 1])))
  {
    LeftAndUp(rule, img, w, Pixel(|r.ids|, |rows|));
    MergingKeepsLabelled(rule, img, w, rows, r.ids, r.labels);
  }

  lemma LeftOnlyKeepsLabelled(rule: Rule, img: Image, w: nat, rows: seq<seq<nat>>, r: Line)
    requires |rows| < |img| && |r.ids| < w
    requires Labelled(rule, img, w, rows + [r.ids], r.labels)
    requires Choose(rule, LineAbove(img, |rows|), img[|rows|], |r.ids|) == Left
    requires |rows| == 0 || !rule.Same(img[|rows| - 1][|r.ids|], img[|rows|][|r.ids|])
    ensures |r.ids| > 0 && Labelled(rule, img, w, rows + [r.ids + [r.ids[|r.ids| - 1]]], r.labels)
  {
    LeftAndUp(rule, img, w, Pixel(|r.ids|, |rows|));
    LeftIsCopied(rule, img, w, rows, r.ids, r.labels);
  }

  lemma LeftKeepsLabelled(rule: Rule, img: Image, w: nat, rows: seq<seq<nat>>, r: Line)
    requires |rows| < |img| && |r.ids| < w
    requires IdsIn(r.ids, r.labels) && GoodRows(rows, w, r.labels)
    requires Labelled(rule, img, w, rows + [r.ids], r.labels)
    requires Choose(rule, LineAbove(img, |rows|), img[|rows|], |r.ids|) == Left
    ensures var r' := ScanPixel(rule, LastLine(img, rows), img[|rows|], r);
            Labelled(rule, img, w, rows + [r'.ids], r'.labels)
  {
    assert AboveVals(LastLine(img, rows)) == LineAbove(img, |rows|);
    if |rows| > 0 && rule.Same(img[|rows| - 1][|r.ids|], img[|rows|][|r.ids|]) {
      LeftAndUpKeepsLabelled(rule, img, w, rows, r);
    } else {
      LeftOnlyKeepsLabelled(rule, img, w, rows, r);
    }
    ScannedLeft(rule, LastLine(img, rows), img[|rows|], r);
  }

  // A pixel that takes from no other starts a polygon of its own.
  lemma FreshKeepsLabelled(rule: Rule, img: Image, w: nat, rows: seq<seq<nat>>, ids: seq<nat>, l: Labels)
    requires |rows| < |img| && |ids| < w
    requires Labelled(rule, img, w, rows + [ids], l)
    requires forall q :: !Takes(rule, img, w, Pixel(|ids|, |rows|), q)
    ensures IsForest(l.parent + [|l.parent|])
    ensures Labelled(rule, img, w, rows + [ids + [|l.parent|]],
                     Labels(l.parent + [|l.parent|], l.value + [At(img, Pixel(|ids|, |rows|))]))
  {
    var n, b := |l.parent|, Pixel(|ids|, |rows|);
    var R, R' := rows + [ids], rows + [ids + [n]];
    var l' := Labels(l.parent + [n], l.value + [At(img, b)]);
    ExtendRoot(l.parent);
    SeenAfter(rows, ids, n);
    assert IdAt(R', b) == n;
    ScannedPartSplit(img, w, rows, ids, l);
    ScannedPartSplit(img, w, rows, ids + [n], l');
    assert ScannedPart(img, w, R', l');
    ConnectedRefl(Scanned, rule, img, w, b);
    forall p | Seen(R, p) ensures Root(l'.parent, IdAt(R', p)) == Root(l.parent, IdAt(R, p)) < n {
    }
    forall p, q | Seen(R', p) && Seen(R', q) && SamePolygon(R', l'.parent, p, q)
      ensures Connected(Scanned, rule, img, w, p, q)
    {
      if p != b && q != b { assert SamePolygon(R, l.parent, p, q); }
    }
    forall p, q | Seen(R', p) && Seen(R', q) && Takes(rule, img, w, p, q)
      ensures SamePolygon(R', l'.parent, p, q)
    {
      TakesEarlier(rule, img, w, p, q);
      assert SamePolygon(R, l.parent, p, q);
    }
    forall id | 0 <= id < |l'.value| ensures Carried(img, R', l', id) {
      if id < n {
        assert Carried(img, R, l, id);
        var p :| Witness(img, R, l, id, p);
        assert Witness(img, R', l', id, p);
      } else {
        assert Witness(img, R', l', id, b);
      }
    }
  }

  // The pixel above that a pixel takes from.
  function TakenAbove(b: Pixel, choice: Choice): Pixel {
    Pixel(if choice == UpLeft then b.x - 1 else if choice == UpRight then b.x + 1 else b.x, b.y - 1)
  }

  lemma OnlyOneAbove(rule: Rule, img: Image, w: nat, b: Pixel, choice: Choice)
    requires IsImage(img, w) && InImage(img, b) && b.y > 0
    requires choice == Choose(rule, LineAbove(img, b.y), img[b.y], b.x) && choice != Left && choice != Fresh
    ensures forall q :: Takes(rule, img, w, b, q) <==> q == TakenAbove(b, choice)
  {
  }

  // A pixel that takes from the line above takes that id.
  lemma TakenIdIsCopied(rule: Rule, img: Image, w: nat, rows: seq<seq<nat>>, ids: seq<nat>, l: Labels, b: Pixel, a: Pixel)
    requires |rows| < |img| && |ids| < w && b == Pixel(|ids|, |rows|)
    requires Labelled(rule, img, w, rows + [ids], l) && GoodRows(rows, w, l) && a.y == b.y - 1 && InImage(img, a)
    requires forall q :: Takes(rule, img, w, b, q) <==> q == a
    ensures Labelled(rule, img, w, rows + [ids + [rows[a.y][a.x]]], l)
  {
    var R := rows + [ids];
    assert Takes(rule, img, w, b, a) && Seen(R, a) && IdAt(R, a) == rows[a.y][a.x];
    CopyKeepsLabelled(rule, img, w, rows, ids, l, b, a);
  }

  // Which id that is, depending on where it is taken from.
  lemma ScannedAbove(rule: Rule, above: Above, cur: seq<int>, r: Line, choice: Choice, b: Pixel)
    requires |r.ids| < |cur| && b.x == |r.ids| && GoodLabels(r.labels) && IdsIn(r.ids, r.labels)
    requires GoodAbove(Some(above), |cur|, r.labels)
    requires choice == Choose(rule, Some(above.vals), cur, |r.ids|) && choice != Left && choice != Fresh
    ensures 0 <= TakenAbove(b, choice).x < |cur|
    ensures ScanPixel(rule, Some(above), cur, r) == Line(r.ids + [above.ids[TakenAbove(b, choice).x]], r.labels)
  {
  }

  lemma AboveKeepsLabelled(rule: Rule, img: Image, w: nat, rows: seq<seq<nat>>, r: Line, choice: Choice)
    requires |rows| < |img| && |r.ids| < w
    requires IdsIn(r.ids, r.labels) && GoodRows(rows, w, r.labels)
    requires Labelled(rule, img, w, rows + [r.ids], r.labels)
    requires choice == Choose(rule, LineAbove(img, |rows|), img[|rows|], |r.ids|) && choice != Left && choice != Fresh
    ensures var r' := ScanPixel(rule, LastLine(img, rows), img[|rows|], r);
            Labelled(rule, img, w, rows + [r'.ids], r'.labels)
  {
    var b := Pixel(|r.ids|, |rows|);
    assert AboveVals(LastLine(img, rows)) == LineAbove(img, b.y);
    OnlyOneAbove(rule, img, w, b, choice);
    ScannedAbove(rule, Above(img[b.y - 1], rows[b.y - 1]), img[b.y], r, choice, b);
    TakenIdIsCopied(rule, img, w, rows, r.ids, r.labels, b, TakenAbove(b, choice));
  }

  // Scanning one pixel more keeps the polygons equal to the regions seen so far.
  lemma PixelKeepsLabelled(rule: Rule, img: Image, w: nat, rows: seq<seq<nat>>, r: Line)
    requires |rows| < |img| && |r.ids| < w
    requires IdsIn(r.ids, r.labels) && GoodRows(rows, w, r.labels)
    requires Labelled(rule, img, w, rows + [r.ids], r.labels)
    ensures var r' := ScanPixel(rule, LastLine(img, rows), img[|rows|], r);
            Labelled(rule, img, w, rows + [r'.ids], r'.labels)
  {
    var b := Pixel(|r.ids|, |rows|);
    assert AboveVals(LastLine(img, rows)) == LineAbove(img, b.y);
    match Choose(rule, LineAbove(img, b.y), img[b.y], b.x)
    case Left => LeftKeepsLabelled(rule, img, w, rows, r);
    case Fresh => FreshKeepsLabelled(rule, img, w, rows, r.ids, r.labels);
    case choice => AboveKeepsLabelled(rule, img, w, rows, r, choice);
  }

  // A line of which no pixel has been scanned.
  lemma NewLineKeepsLabelled(rule: Rule, img: Image, w: nat, rows: seq<seq<nat>>, l: Labels)
    requires |rows| < |img| && Labelled(rule, img, w, rows, l) && GoodRows(rows, w, l)
    ensures Labelled(rule, img, w, rows + [[]], l)
  {
    var R := rows + [[]];
    assert forall p :: Seen(R, p) <==> Seen(rows, p);
    assert forall p :: Seen(rows, p) ==> IdAt(R, p) == IdAt(rows, p);
    forall p, q | Seen(R, p) && Seen(R, q) && SamePolygon(R, l.parent, p, q)
      ensures Connected(Scanned, rule, img, w, p, q)
    {
      assert SamePolygon(rows, l.parent, p, q);
    }
    forall id | 0 <= id < |l.value| ensures Carried(img, R, l, id) {
      assert Carried(img, rows, l, id);
      var p :| Witness(img, rows, l, id, p);
      assert Witness(img, R, l, id, p);
    }
  }

  // Scanning a line one pixel further.
  lemma NextPixelKeepsLabelled(rule: Rule, img: Image, w: nat, rows: seq<seq<nat>>, l: Labels, k: nat, r: Line, r': Line)
    requires IsImage(img, w) && |rows| < |img| && k < w && GoodLabels(l) && GoodRows(rows, w, l)
    requires r == ScanLine(rule, LastLine(img, rows), img[|rows|], l, k)
    requires r' == ScanLine(rule, LastLine(img, rows), img[|rows|], l, k + 1)
    requires Labelled(rule, img, w, rows + [r.ids], r.labels)
    ensures Labelled(rule, img, w, rows + [r'.ids], r'.labels)
  {
    PixelKeepsLabelled(rule, img, w, rows, r);
  }

  lemma {:induction false} LineKeepsLabelled(rule: Rule, img: Image, w: nat, rows: seq<seq<nat>>, l: Labels, k: nat, r: Line)
    requires |rows| < |img| && k <= w && Labelled(rule, img, w, rows, l) && GoodRows(rows, w, l)
    requires r == ScanLine(rule, LastLine(img, rows), img[|rows|], l, k)
    ensures Labelled(rule, img, w, rows + [r.ids], r.labels)
  {
    if k == 0 {
      NewLineKeepsLabelled(rule, img, w, rows, l);
    } else {
      var before := ScanLine(rule, LastLine(img, rows), img[|rows|], l, k - 1);
      LineKeepsLabelled(rule, img, w, rows, l, k - 1, before);
      NextPixelKeepsLabelled(rule, img, w, rows, l, k - 1, before, r);
    }
  }

  lemma {:induction false} ImageLabelled(rule: Rule, img: Image, w: nat, y: nat)
    requires IsImage(img, w) && y <= |img|
    ensures var s := ScanImage(rule, img, w, y); Labelled(rule, img, w, s.rows, s.labels)
  {
    if y > 0 {
      ImageLabelled(rule, img, w, y - 1);
      var s := ScanImage(rule, img, w, y - 1);
      var r := ScanLine(rule, LastLine(img, s.rows), img[y - 1], s.labels, w);
      LineKeepsLabelled(rule, img, w, s.rows, s.labels, w, r);
    }
  }

  // ----- main results

  ghost function PolygonOf(rule: Rule, img: Image, w: nat, p: Pixel): (r: nat)
    requires IsImage(img, w) && InImage(img, p)
    ensures r < |ScanImage(rule, img, w, |img|).labels.parent|
  {
    var s := ScanImage(rule, img, w, |img|);
    Root(s.labels.parent, IdAt(s.rows, p))
  }

  // Pixels that are joined directly are in one polygon.
  lemma StepInPolygon(rule: Rule, img: Image, w: nat, a: Pixel, b: Pixel)
    requires IsImage(img, w) && Adjacent(Scanned, rule, img, w, a, b)
    ensures PolygonOf(rule, img, w, a) == PolygonOf(rule, img, w, b)
  {
    ImageLabelled(rule, img, w, |img|);
    var s := ScanImage(rule, img, w, |img|);
    if Takes(rule, img, w, a, b) {
      assert SamePolygon(s.rows, s.labels.parent, a, b);
    } else {
      assert SamePolygon(s.rows, s.labels.parent, b, a);
    }
  }

  lemma PolygonIsConnected(rule: Rule, img: Image, w: nat, p: Pixel, q: Pixel)
    requires IsImage(img, w) && InImage(img, p) && InImage(img, q)
    requires PolygonOf(rule, img, w, p) == PolygonOf(rule, img, w, q)
    ensures Connected(Scanned, rule, img, w, p, q)
  {
    ImageLabelled(rule, img, w, |img|);
    var s := ScanImage(rule, img, w, |img|);
    assert SamePolygon(s.rows, s.labels.parent, p, q);
  }

  /** Two pixels end up in one polygon exactly when a chain of directly joined pixels connects them. */
  lemma PolygonsAreScannedRegions(rule: Rule, img: Image, w: nat, p: Pixel, q: Pixel)
    requires IsImage(img, w) && InImage(img, p) && InImage(img, q)
    ensures PolygonOf(rule, img, w, p) == PolygonOf(rule, img, w, q) <==> Connected(Scanned, rule, img, w, p, q)
  {
    if PolygonOf(rule, img, w, p) == PolygonOf(rule, img, w, q) { PolygonIsConnected(rule, img, w, p, q); }
    if path :| IsPath(Scanned, rule, img, w, path, p, q) {
      var S := set a | a in Pixels(img, w) && PolygonOf(rule, img, w, a) == PolygonOf(rule, img, w, p);
      forall a, b | a in S && Adjacent(Scanned, rule, img, w, a, b) ensures b in S { StepInPolygon(rule, img, w, a, b); }
      PathKeeps(Scanned, rule, img, w, path, p, q, S);
    }
  }

  /** With connectedness 4, polygons are exactly the 4-connected regions of equal pixels. */
  lemma PolygonsAreFourRegions(rule: Rule, img: Image, w: nat, p: Pixel, q: Pixel)
    requires IsImage(img, w) && InImage(img, p) && InImage(img, q) && rule.connectedness == 4
    ensures PolygonOf(rule, img, w, p) == PolygonOf(rule, img, w, q) <==> Connected(Four, rule, img, w, p, q)
  {
    PolygonsAreScannedRegions(rule, img, w, p, q);
    ScannedBetween(rule, img, w, p, q);
  }

  /** With either connectedness, a polygon contains every 4-connected region it meets and lies in
      one 8-connected region. */
  lemma ScannedBetween(rule: Rule, img: Image, w: nat, p: Pixel, q: Pixel)
    requires IsImage(img, w)
    ensures Connected(Four, rule, img, w, p, q) ==> Connected(Scanned, rule, img, w, p, q)
    ensures Connected(Scanned, rule, img, w, p, q) ==> Connected(Eight, rule, img, w, p, q)
    ensures Connected(Scanned, rule, img, w, p, q) && rule.connectedness != 8 ==> Connected(Four, rule, img, w, p, q)
  {
    forall a, b
      ensures Adjacent(Four, rule, img, w, a, b) ==> Adjacent(Scanned, rule, img, w, a, b)
      ensures Adjacent(Scanned, rule, img, w, a, b) ==> Adjacent(Eight, rule, img, w, a, b)
      ensures Adjacent(Scanned, rule, img, w, a, b) && rule.connectedness != 8 ==> Adjacent(Four, rule, img, w, a, b)
    {
      ScannedBetweenFourAndEight(rule, img, w, a, b);
    }
    if Connected(Four, rule, img, w, p, q) { ConnectedMono(Four, Scanned, rule, img, w, p, q); }
    if Connected(Scanned, rule, img, w, p, q) {
      ConnectedMono(Scanned, Eight, rule, img, w, p, q);
      if rule.connectedness != 8 { ConnectedMono(Scanned, Four, rule, img, w, p, q); }
    }
  }

  /** What the tolerance means: two pixels side by side, and nothing else in the image, are in one
      polygon exactly when their values differ by the tolerance at most. */
  lemma TwoPixels(rule: Rule, a: int, b: int)
    ensures IsImage([[a, b]], 2)
    ensures PolygonOf(rule, [[a, b]], 2, Pixel(0, 0)) == PolygonOf(rule, [[a, b]], 2, Pixel(1, 0))
       <==> 0 - rule.tolerance <= a - b <= rule.tolerance
  {
    var img, p, q := [[a, b]], Pixel(0, 0), Pixel(1, 0);
    PolygonsAreScannedRegions(rule, img, 2, p, q);
    if Takes(rule, img, 2, q, p) {
      ConnectedStep(Scanned, rule, img, 2, p, q);
    } else if path :| IsPath(Scanned, rule, img, 2, path, p, q) {
      PathKeeps(Scanned, rule, img, 2, path, p, q, {p});
    }
  }
}
