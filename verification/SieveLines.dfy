/** Reading and labelling the lines of an image, which every pass of the sieve does anew. */
module SieveLines {
  import opened Common
  import opened Regions
  import opened Labelling
  import opened Enumerator
  import opened SieveSpec

  // ----- lines

  // Reads a line of the source, masking the pixels that are not to be looked at.
  method ReadLine(src: Image, mask: Mask, w: nat, y: nat) returns (thisVal: seq<int>)
    requires GoodInput(src, mask, w) && y < |src|
    ensures thisVal == MaskedLine(src, mask, w, y)
  {
    thisVal := src[y];
    for x := 0 to w
      invariant |thisVal| == w
      invariant forall i :: 0 <= i < w ==> thisVal[i] == if i < x then MaskedLine(src, mask, w, y)[i] else src[y][i]
    {
      if mask.Some? && !mask.value[y][x] {
        thisVal := thisVal[x := NODATA_MARKER];
      }
    }
  }

  // ----- a whole pass

  /** What every pass over an image goes through: the labels and the line above, before each of the
      lines and after the last one, and the ids of the lines. */
  datatype Script = Script(labels: seq<Labels>, above: seq<Option<Above>>, ids: seq<seq<nat>>)

  ghost predicate IsScript(script: Script, rule: Rule, img: Image, w: nat)
    requires IsImage(img, w)
  {
    && |script.labels| == |script.above| == |img| + 1
    && script.ids == ScanImage(rule, img, w, |img|).rows
    && forall y {:trigger ScanImage(rule, img, w, y)} :: 0 <= y <= |img| ==>
         var s := ScanImage(rule, img, w, y);
         script.labels[y] == s.labels && script.above[y] == LastLine(img, s.rows)
  }

  ghost function ScriptOf(rule: Rule, img: Image, w: nat): (script: Script)
    requires IsImage(img, w)
    ensures IsScript(script, rule, img, w)
  {
    Script(seq(|img| + 1, y requires 0 <= y <= |img| => ScanImage(rule, img, w, y).labels),
           seq(|img| + 1, y requires 0 <= y <= |img| => LastLine(img, ScanImage(rule, img, w, y).rows)),
           ScanImage(rule, img, w, |img|).rows)
  }

  /** The enumerator has labelled the first y lines. */
  ghost predicate Follows(e: PolygonEnumerator, above: Option<Above>, script: Script, y: nat)
    reads e, e.polyIdMap, e.polyValue
  {
    && y < |script.labels| && y < |script.above|
    && e.Valid() && e.Current() == script.labels[y] && above == script.above[y]
  }

  lemma ScriptStarts(script: Script, rule: Rule, img: Image, w: nat)
    requires IsImage(img, w) && IsScript(script, rule, img, w)
    ensures |script.labels| > 0 && |script.above| > 0 && script.labels[0] == NO_LABELS && script.above[0] == None
  {
    assert ScanImage(rule, img, w, 0).labels == NO_LABELS;
  }

  // What a script says about line y.
  lemma ScriptAt(script: Script, rule: Rule, img: Image, w: nat, y: nat)
    requires IsImage(img, w) && IsScript(script, rule, img, w) && y < |img|
    ensures var s := ScanImage(rule, img, w, y);
      && script.labels[y] == s.labels && script.above[y] == LastLine(img, s.rows)
      && y < |script.ids| && Line(script.ids[y], script.labels[y + 1]) == ScanLine(rule, script.above[y], img[y], s.labels, w)
      && script.above[y + 1] == Some(Above(img[y], script.ids[y]))
  {
    var s, s' := ScanImage(rule, img, w, y), ScanImage(rule, img, w, y + 1);
    ScanKeepsRows(rule, img, w, y + 1, |img|);
    assert script.ids[y] == script.ids[..y + 1][y] == s'.rows[y];
  }

  // The ids of the lines before line y, and those of line y, have been handed out by then.
  lemma ScriptIds(script: Script, rule: Rule, img: Image, w: nat, y: nat)
    requires IsImage(img, w) && IsScript(script, rule, img, w) && y < |img|
    ensures y < |script.ids| && IdsIn(script.ids[y], script.labels[y + 1])
    ensures forall p :: Seen(script.ids[..y], p) ==> IdAt(script.ids[..y], p) < |script.labels[y].parent|
    ensures |script.labels[y].parent| <= |script.labels[y + 1].parent|
  {
    ScriptAt(script, rule, img, w, y);
    ScanKeepsRows(rule, img, w, y, |img|);
    assert GoodRows(ScanImage(rule, img, w, y).rows, w, script.labels[y]);
  }

  // The line above line y holds the ids of line y - 1.
  lemma AboveInScript(script: Script, rule: Rule, img: Image, w: nat, y: nat)
    requires IsImage(img, w) && IsScript(script, rule, img, w) && y < |img|
    ensures y < |script.above| && y < |script.ids| && (script.above[y].Some? <==> y > 0)
    ensures y > 0 ==> script.above[y].value.ids == script.ids[y - 1]
  {
    ScriptAt(script, rule, img, w, y);
    if y > 0 { ScriptAt(script, rule, img, w, y - 1); }
  }

  /** Labels line y as the script says, given the line above it. */
  method FollowLine(e: PolygonEnumerator, above: Option<Above>, thisVal: seq<int>, ghost script: Script,
                    ghost img: Image, ghost w: nat, ghost y: nat)
    returns (next: Option<Above>, thisId: seq<nat>)
    requires IsImage(img, w) && y < |img| && thisVal == img[y]
    requires IsScript(script, e.rule, img, w) && Follows(e, above, script, y)
    modifies e, e.polyIdMap, e.polyValue
    ensures Follows(e, next, script, y + 1) && e.Regrown()
    ensures y < |script.ids| && thisId == script.ids[y] && next == Some(Above(thisVal, thisId))
  {
    ScriptAt(script, e.rule, img, w, y);
    thisId := e.ProcessLine(above, thisVal);
    next := Some(Above(thisVal, thisId));
  }

  // Reads line y and labels it.
  method RelabelNext(e: PolygonEnumerator, above: Option<Above>, src: Image, mask: Mask, w: nat, y: nat, ghost script: Script)
    returns (next: Option<Above>, thisId: seq<nat>)
    requires GoodInput(src, mask, w) && y < |src|
    requires IsScript(script, e.rule, Masked(src, mask, w), w) && Follows(e, above, script, y)
    modifies e, e.polyIdMap, e.polyValue
    ensures Follows(e, next, script, y + 1) && e.Regrown()
    ensures y < |script.ids| && thisId == script.ids[y]
  {
    var thisVal := ReadLine(src, mask, w, y);
    next, thisId := FollowLine(e, above, thisVal, script, Masked(src, mask, w), w, y);
  }
}
