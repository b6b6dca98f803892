/** Connectedness 8 in the enumerator: it misses a match with the pixel to the upper right when a
    match to the left or to the upper left is taken first, and nothing else. */
module EightConnected {
  import opened Regions
  import opened Labelling

  // The integer enumerator, connectedness 8.
  const RULE := Rule(8, 0)

  ghost predicate Joined(img: Image, w: nat, p: Pixel, q: Pixel)
    requires IsImage(img, w)
  {
    Connected(Scanned, RULE, img, w, p, q)
  }

  lemma JoinedBySides(img: Image, w: nat, p: Pixel, q: Pixel)
    requires IsImage(img, w) && Adjacent(Four, RULE, img, w, p, q)
    ensures Joined(img, w, p, q)
  {
    ScannedBetweenFourAndEight(RULE, img, w, p, q);
    ConnectedStep(Scanned, RULE, img, w, p, q);
  }

  lemma JoinedByTaking(img: Image, w: nat, b: Pixel, a: Pixel)
    requires IsImage(img, w) && Takes(RULE, img, w, b, a)
    ensures Joined(img, w, b, a)
  {
    ConnectedStep(Scanned, RULE, img, w, b, a);
  }

  // A match at a corner is reached around the corner, taken, or skipped.
  lemma CornerJoined(img: Image, w: nat, b: Pixel, a: Pixel)
    requires IsImage(img, w) && Adjacent(Eight, RULE, img, w, b, a)
    requires a.y == b.y - 1 && (a.x == b.x - 1 || a.x == b.x + 1)
    ensures Joined(img, w, b, a) || (a == UpRightOf(b) && Skips(RULE, img, w, b))
  {
    var up, left := Pixel(b.x, b.y - 1), Pixel(b.x - 1, b.y);
    if At(img, up) == At(img, b) {
      JoinedBySides(img, w, b, up);
      JoinedBySides(img, w, up, a);
      ConnectedTrans(Scanned, RULE, img, w, b, up, a);
    } else if a.x == b.x - 1 && At(img, left) == At(img, b) {
      JoinedBySides(img, w, b, left);
      JoinedBySides(img, w, left, a);
      ConnectedTrans(Scanned, RULE, img, w, b, left, a);
    } else if a.x == b.x - 1 || !Skips(RULE, img, w, b) {
      assert Takes(RULE, img, w, b, a);
      JoinedByTaking(img, w, b, a);
    }
  }

  lemma OpenStepJoined(img: Image, w: nat, p: Pixel, q: Pixel)
    requires IsImage(img, w) && Adjacent(Open, RULE, img, w, p, q)
    ensures Joined(img, w, p, q)
  {
    if p == q {
      ConnectedRefl(Scanned, RULE, img, w, p);
    } else if p.x == q.x || p.y == q.y {
      JoinedBySides(img, w, p, q);
    } else if q.y < p.y {
      CornerJoined(img, w, p, q);
    } else {
      CornerJoined(img, w, q, p);
      ConnectedSym(Scanned, RULE, img, w, q, p);
    }
  }

  // What every step of one adjacency joins, its paths join.
  lemma PathsJoined(adj: Adjacency, img: Image, w: nat, p: Pixel, q: Pixel)
    requires IsImage(img, w) && Connected(adj, RULE, img, w, p, q)
    requires forall a, b :: Adjacent(adj, RULE, img, w, a, b) ==> Joined(img, w, a, b)
    ensures Joined(img, w, p, q)
  {
    var path :| IsPath(adj, RULE, img, w, path, p, q);
    var S := set a | a in Pixels(img, w) && Joined(img, w, p, a);
    ConnectedRefl(Scanned, RULE, img, w, p);
    forall a, b | a in S && Adjacent(adj, RULE, img, w, a, b) ensures b in S {
      ConnectedTrans(Scanned, RULE, img, w, p, a, b);
    }
    PathKeeps(adj, RULE, img, w, path, p, q, S);
  }

  lemma ScannedStepIsOpen(img: Image, w: nat, p: Pixel, q: Pixel)
    requires IsImage(img, w) && Adjacent(Scanned, RULE, img, w, p, q)
    ensures Adjacent(Open, RULE, img, w, p, q)
  {
    ScannedBetweenFourAndEight(RULE, img, w, p, q);
  }

  /** The enumerator joins exactly the pixels that chains of equal neighbours join, skipped pairs
      left out. */
  lemma OpenRegionsAreScanned(img: Image, w: nat, p: Pixel, q: Pixel)
    requires IsImage(img, w)
    ensures Connected(Open, RULE, img, w, p, q) <==> Connected(Scanned, RULE, img, w, p, q)
  {
    if Connected(Open, RULE, img, w, p, q) {
      forall a, b | Adjacent(Open, RULE, img, w, a, b) ensures Joined(img, w, a, b) { OpenStepJoined(img, w, a, b); }
      PathsJoined(Open, img, w, p, q);
    }
    if Connected(Scanned, RULE, img, w, p, q) {
      forall a, b | Adjacent(Scanned, RULE, img, w, a, b) ensures Adjacent(Open, RULE, img, w, a, b) {
        ScannedStepIsOpen(img, w, a, b);
      }
      ConnectedMono(Scanned, Open, RULE, img, w, p, q);
    }
  }

  /** Every skipped pair is made up for: a chain of equal neighbours without skipped pairs joins it. */
  ghost predicate SkipsAreBridged(img: Image, w: nat)
    requires IsImage(img, w)
  {
    forall b :: Skips(RULE, img, w, b) ==> Connected(Open, RULE, img, w, b, UpRightOf(b))
  }

  lemma EightStepJoined(img: Image, w: nat, p: Pixel, q: Pixel)
    requires IsImage(img, w) && SkipsAreBridged(img, w) && Adjacent(Eight, RULE, img, w, p, q)
    ensures Joined(img, w, p, q)
  {
    if Adjacent(Open, RULE, img, w, p, q) {
      OpenStepJoined(img, w, p, q);
    } else if q == UpRightOf(p) && Skips(RULE, img, w, p) {
      OpenRegionsAreScanned(img, w, p, q);
    } else {
      OpenRegionsAreScanned(img, w, q, p);
      ConnectedSym(Scanned, RULE, img, w, q, p);
    }
  }

  /** The polygons are the 8-connected regions. */
  ghost predicate PolygonsAreEightRegions(img: Image, w: nat)
    requires IsImage(img, w)
  {
    forall p, q :: InImage(img, p) && InImage(img, q) ==>
      (PolygonOf(RULE, img, w, p) == PolygonOf(RULE, img, w, q) <==> Connected(Eight, RULE, img, w, p, q))
  }

  /** The polygons are the 8-connected regions exactly when every skipped match is bridged. */
  lemma EightRegionsExactly(img: Image, w: nat)
    requires IsImage(img, w)
    ensures PolygonsAreEightRegions(img, w) <==> SkipsAreBridged(img, w)
  {
    if SkipsAreBridged(img, w) {
      forall a, b | Adjacent(Eight, RULE, img, w, a, b) ensures Joined(img, w, a, b) { EightStepJoined(img, w, a, b); }
      forall p, q | InImage(img, p) && InImage(img, q)
        ensures PolygonOf(RULE, img, w, p) == PolygonOf(RULE, img, w, q) <==> Connected(Eight, RULE, img, w, p, q)
      {
        PolygonsAreScannedRegions(RULE, img, w, p, q);
        ScannedBetween(RULE, img, w, p, q);
        if Connected(Eight, RULE, img, w, p, q) { PathsJoined(Eight, img, w, p, q); }
      }
    }
    if PolygonsAreEightRegions(img, w) {
      forall b | Skips(RULE, img, w, b) ensures Connected(Open, RULE, img, w, b, UpRightOf(b)) {
        ConnectedStep(Eight, RULE, img, w, b, UpRightOf(b));
        PolygonsAreScannedRegions(RULE, img, w, b, UpRightOf(b));
        OpenRegionsAreScanned(img, w, b, UpRightOf(b));
      }
    }
  }

  /** An image without skipped matches is labelled by its 8-connected regions. */
  lemma NothingSkipped(img: Image, w: nat)
    requires IsImage(img, w) && forall b :: !Skips(RULE, img, w, b)
    ensures PolygonsAreEightRegions(img, w)
  {
    EightRegionsExactly(img, w);
  }

  /** An image in which a skipped match tears an 8-connected region apart. */
  const TORN: Image := [[0, 0, 1], [1, 1, 0]]

  lemma TornRegion()
    ensures IsImage(TORN, 3) && Connected(Eight, RULE, TORN, 3, Pixel(1, 1), Pixel(2, 0))
    ensures PolygonOf(RULE, TORN, 3, Pixel(1, 1)) != PolygonOf(RULE, TORN, 3, Pixel(2, 0))
    ensures !PolygonsAreEightRegions(TORN, 3)
  {
    var p, q := Pixel(1, 1), Pixel(2, 0);
    assert Adjacent(Eight, RULE, TORN, 3, p, q);
    ConnectedStep(Eight, RULE, TORN, 3, p, q);
    PolygonsAreScannedRegions(RULE, TORN, 3, q, p);
    forall b ensures !Adjacent(Scanned, RULE, TORN, 3, q, b) { AloneInTorn(b); }
    if Joined(TORN, 3, q, p) {
      var path :| IsPath(Scanned, RULE, TORN, 3, path, q, p);
      PathKeeps(Scanned, RULE, TORN, 3, path, q, p, {q});
    }
  }

  lemma AloneInTorn(b: Pixel)
    requires IsImage(TORN, 3)
    ensures !Adjacent(Scanned, RULE, TORN, 3, Pixel(2, 0), b)
  {
    if Adjacent(Scanned, RULE, TORN, 3, Pixel(2, 0), b) {
      ScannedBetweenFourAndEight(RULE, TORN, 3, Pixel(2, 0), b);
    }
  }
}
