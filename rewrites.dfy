/** The profile rewrites each stage of the packer performs, as functions of the
    profile they start from, and what they preserve. */
module Rewrites {
  import opened Profile
  import opened Selection

  // ---------------------------------------------------------------------------
  // Shape and height relations

  /** Same segment count, left edges and widths: only heights may differ. */
  predicate SameShape(s: seq<Seg>, t: seq<Seg>) {
    |s| == |t| && forall i :: 0 <= i < |s| ==> s[i].x == t[i].x && s[i].width == t[i].width
  }

  /** Same left edges and heights, position by position. Two tilings of the
      same interval that agree on this agree on every width as well. */
  predicate SameAnchors(s: seq<Seg>, t: seq<Seg>) {
    |s| == |t| && forall i :: 0 <= i < |s| ==> s[i].x == t[i].x && s[i].y == t[i].y
  }

  lemma SameShapeSpans(s: seq<Seg>, t: seq<Seg>, a: real, b: real)
    requires SameShape(s, t) && Spans(s, a, b)
    ensures Spans(t, a, b)
  {
    forall i | 0 < i < |t| ensures End(t[i - 1]) == t[i].x {
      assert End(t[i - 1]) == End(s[i - 1]);
    }
  }

  /** Two tilings of one interval with the same anchors are the same tiling:
      each width is the distance to the next left edge. */
  lemma AnchorsDetermine(s: seq<Seg>, t: seq<Seg>, a: real, b: real)
    requires Spans(s, a, b) && Spans(t, a, b) && SameAnchors(s, t)
    ensures s == t
  {
    forall i | 0 <= i < |s| ensures s[i] == t[i] {
      if i < |s| - 1 {
        assert End(s[i]) == s[i + 1].x && End(t[i]) == t[i + 1].x;
      }
    }
  }

  /** At every point of run `[lo, hi)` of `s` that lies on `rep`, `rep` is at
      least as high. */
  ghost predicate RaisesRun(s: seq<Seg>, lo: nat, hi: nat, rep: seq<Seg>)
    requires lo <= hi <= |s|
  {
    forall k, j, p :: lo <= k < hi && 0 <= j < |rep| && Covers(s[k], p) && Covers(rep[j], p) ==> s[k].y <= rep[j].y
  }

  /** Replacing a run by a spanning replacement that raises it raises the
      whole profile. */
  lemma ReplaceRaises(s: seq<Seg>, a: real, b: real, lo: nat, hi: nat, rep: seq<Seg>)
    requires Spans(s, a, b) && lo < hi <= |s|
    requires Spans(rep, s[lo].x, End(s[hi - 1]))
    requires RaisesRun(s, lo, hi, rep)
    ensures NoLower(s, Replace(s, lo, hi, rep))
  {
    var t := Replace(s, lo, hi, rep);
    var n := |rep|;
    forall i, j, p | 0 <= i < |s| && 0 <= j < |t| && Covers(s[i], p) && Covers(t[j], p)
      ensures s[i].y <= t[j].y
    {
      if j < lo {
        assert t[j] == s[j];
        CoverUnique(s, i, j, p);
      } else if j < lo + n {
        assert t[j] == rep[j - lo];
        if j - lo > 0 { Ordered(rep, 0, j - lo); }
        if j - lo < n - 1 { Ordered(rep, j - lo, n - 1); }
        var k := CoverIn(s, lo, hi, p);
        CoverUnique(s, i, k, p);
      } else {
        assert t[j] == s[j - lo - n + hi];
        CoverUnique(s, i, j - lo - n + hi, p);
      }
    }
  }

  /** Raising is transitive between tilings of one interval. */
  lemma NoLowerTrans(r: seq<Seg>, s: seq<Seg>, t: seq<Seg>, a: real, b: real)
    requires Spans(s, a, b) && Spans(t, a, b)
    requires NoLower(r, s) && NoLower(s, t)
    ensures NoLower(r, t)
  {
    forall i, j, p | 0 <= i < |r| && 0 <= j < |t| && Covers(r[i], p) && Covers(t[j], p)
      ensures r[i].y <= t[j].y
    {
      if j > 0 { Ordered(t, 0, j); }
      if j < |t| - 1 { Ordered(t, j, |t| - 1); }
      var k := CoverIn(s, 0, |s|, p);
    }
  }

  /** Every profile of non-empty contiguous segments is as high as itself. */
  lemma NoLowerRefl(s: seq<Seg>)
    requires Contiguous(s) && Positive(s)
    ensures NoLower(s, s)
  {
    forall i, j, p | 0 <= i < |s| && 0 <= j < |s| && Covers(s[i], p) && Covers(s[j], p)
      ensures s[i].y <= s[j].y
    {
      CoverUnique(s, i, j, p);
    }
  }

  /** No two neighbours are within `minGapHeight` of each other. */
  predicate Separated(s: seq<Seg>, minGapHeight: real) {
    forall i :: 0 < i < |s| ==> Abs(s[i].y - s[i - 1].y) >= minGapHeight
  }

  // ---------------------------------------------------------------------------
  // Height coalescing (DataStructures.swift:93-111)

  /** Run `[c, u)` replaced by one segment spanning it at height `top`. */
  function Coalesced(s: seq<Seg>, c: nat, u: nat, top: real): (r: seq<Seg>)
    requires c < u <= |s|
    ensures |r| == |s| - (u - c) + 1
    ensures r[c] == Seg(s[c].x, top, SumWidths(s[c..u]))
  {
    Replace(s, c, u, [Seg(s[c].x, top, SumWidths(s[c..u]))])
  }

  /** Merging a run at a height no lower than any of its members keeps the
      tiling and never lowers the profile. */
  lemma CoalescedTiles(s: seq<Seg>, maxWidth: real, c: nat, u: nat, top: real)
    requires Tiles(s, maxWidth) && c < u <= |s|
    requires forall k :: c <= k < u ==> s[k].y <= top
    ensures Tiles(Coalesced(s, c, u, top), maxWidth)
    ensures NoLower(s, Coalesced(s, c, u, top))
  {
    var m := Seg(s[c].x, top, SumWidths(s[c..u]));
    RunWidth(s, c, u);
    if c < u - 1 { Ordered(s, c, u - 1); }
    ReplaceSpans(s, 0.0, maxWidth, c, u, [m]);
    ReplaceRaises(s, 0.0, maxWidth, c, u, [m]);
  }

  /** The merged segment takes its left edge from the run's first member and
      its height from the member that attains `top`; nothing else is new. */
  lemma CoalescedFrom(s: seq<Seg>, c: nat, u: nat, top: real)
    requires c < u <= |s|
    requires exists k :: c <= k < u && s[k].y == top
    ensures Heights(Coalesced(s, c, u, top)) <= Heights(s)
    ensures Starts(Coalesced(s, c, u, top)) <= Starts(s)
  {
    var t := Coalesced(s, c, u, top);
    assert forall i :: c < i < |t| ==> t[i] == s[i + u - c - 1];
    assert forall i :: 0 <= i < c ==> t[i] == s[i];
    forall i | 0 <= i < |t| ensures t[i].x in Starts(s) && t[i].y in Heights(s) {
      if i == c {
        var k :| c <= k < u && s[k].y == top;
      }
    }
  }

  /** The coalescing loop from index `c` on (DataStructures.swift:93-111): a
      run of two or more near-equal heights at `c` is merged at the run's
      highest height and `c` is examined again; otherwise `c` moves on. */
  function CoalesceFrom(s: seq<Seg>, c: nat, minGapHeight: real): seq<Seg>
    requires c < |s|
    decreases |s|, |s| - c
  {
    if c + 1 >= |s| then s
    else
      var u := RunEnd(s, c, c + 1, minGapHeight);
      if u - c > 1 then CoalesceFrom(Coalesced(s, c, u, MaxY(s[c..u])), c, minGapHeight)
      else CoalesceFrom(s, c + 1, minGapHeight)
  }

  /** Coalescing keeps a grounded tiling, never lowers it, never adds a
      segment, a left edge or a height, and leaves a profile whose neighbours
      are all `minGapHeight` apart as it was. */
  lemma {:induction false} CoalesceSound(s: seq<Seg>, maxWidth: real, c: nat, minGapHeight: real)
    requires Tiles(s, maxWidth) && Grounded(s) && c < |s|
    ensures Tiles(CoalesceFrom(s, c, minGapHeight), maxWidth) && Grounded(CoalesceFrom(s, c, minGapHeight))
    ensures |CoalesceFrom(s, c, minGapHeight)| <= |s|
    ensures Starts(CoalesceFrom(s, c, minGapHeight)) <= Starts(s)
    ensures Heights(CoalesceFrom(s, c, minGapHeight)) <= Heights(s)
    ensures NoLower(s, CoalesceFrom(s, c, minGapHeight))
    ensures Separated(s, minGapHeight) ==> CoalesceFrom(s, c, minGapHeight) == s
    decreases |s|, |s| - c
  {
    if c + 1 >= |s| {
      NoLowerRefl(s);
    } else {
      var u := RunEnd(s, c, c + 1, minGapHeight);
      if u - c > 1 {
        var top := MaxY(s[c..u]);
        assert forall k :: c <= k < u ==> s[k] == s[c..u][k - c];
        var k0 :| 0 <= k0 < u - c && s[c..u][k0].y == top;
        assert s[c + k0].y == top;
        var m := Coalesced(s, c, u, top);
        CoalescedTiles(s, maxWidth, c, u, top);
        CoalescedFrom(s, c, u, top);
        HeightsGrounded(s, m);
        CoalesceSound(m, maxWidth, c, minGapHeight);
        NoLowerTrans(s, m, CoalesceFrom(m, c, minGapHeight), 0.0, maxWidth);
        assert Abs(s[c + 1].y - s[c].y) < minGapHeight;
      } else {
        CoalesceSound(s, maxWidth, c + 1, minGapHeight);
      }
    }
  }

  // ---------------------------------------------------------------------------
  // Gap defragmentation (DataStructures.swift:87-91)

  /** The segments that are not narrow slivers, in order. */
  function Kept(s: seq<Seg>, w: real, minGapWidth: real): seq<Seg>
  {
    if s == [] then []
    else (if Narrow(s[0], w, minGapWidth) then [] else [s[0]]) + Kept(s[1..], w, minGapWidth)
  }

  lemma {:induction false} KeptConcat(a: seq<Seg>, b: seq<Seg>, w: real, minGapWidth: real)
    ensures Kept(a + b, w, minGapWidth) == Kept(a, w, minGapWidth) + Kept(b, w, minGapWidth)
  {
    if a == [] {
      assert a + b == b;
    } else {
      assert (a + b)[1..] == a[1..] + b;
      KeptConcat(a[1..], b, w, minGapWidth);
    }
  }

  /** A profile without slivers is its own `Kept`. */
  lemma {:induction false} KeptAll(s: seq<Seg>, w: real, minGapWidth: real)
    requires forall i :: 0 <= i < |s| ==> !Narrow(s[i], w, minGapWidth)
    ensures Kept(s, w, minGapWidth) == s
  {
    if s != [] {
      assert forall i :: 1 <= i < |s| ==> s[i] == s[1..][i - 1];
      KeptAll(s[1..], w, minGapWidth);
    }
  }

  lemma SameAnchorsTrans(a: seq<Seg>, b: seq<Seg>, c: seq<Seg>)
    requires SameAnchors(a, b) && SameAnchors(b, c)
    ensures SameAnchors(a, c)
  {
  }

  /** When no sliver is left, the profile has exactly the anchors of the
      original's non-slivers; an original without slivers is unchanged. */
  lemma DefragExit(t: seq<Seg>, s: seq<Seg>, maxWidth: real, w: real, minGapWidth: real)
    requires Tiles(t, maxWidth) && Tiles(s, maxWidth)
    requires forall i :: 0 <= i < |t| ==> !Narrow(t[i], w, minGapWidth)
    requires SameAnchors(Kept(t, w, minGapWidth), Kept(s, w, minGapWidth))
    ensures SameAnchors(t, Kept(s, w, minGapWidth))
    ensures (forall i :: 0 <= i < |s| ==> !Narrow(s[i], w, minGapWidth)) ==> t == s
  {
    KeptAll(t, w, minGapWidth);
    if forall i :: 0 <= i < |s| ==> !Narrow(s[i], w, minGapWidth) {
      KeptAll(s, w, minGapWidth);
      AnchorsDetermine(t, s, 0.0, maxWidth);
    }
  }

  /** The neighbour `g` widened by a sliver `extra` merged into it. */
  function Widen(g: Seg, extra: Seg): (m: Seg)
    ensures m.x == g.x && m.y == g.y && End(m) == End(g) + extra.width
  {
    Seg(g.x, g.y, g.width + extra.width)
  }

  /** Merging the first sliver into its non-sliver left neighbour leaves the
      non-sliver segments' left edges and heights as they were. */
  lemma MergeKeepsAnchors(s: seq<Seg>, o: nat, w: real, minGapWidth: real)
    requires 0 < o < |s| && s[o].width > 0.0
    requires Narrow(s[o], w, minGapWidth) && !Narrow(s[o - 1], w, minGapWidth)
    ensures SameAnchors(Kept(Replace(s, o - 1, o + 1, [Widen(s[o - 1], s[o])]), w, minGapWidth), Kept(s, w, minGapWidth))
  {
    var m := Widen(s[o - 1], s[o]);
    var pre, post := s[..o - 1], s[o + 1..];
    var x := [s[o - 1], s[o]] + post;
    var y := [m] + post;
    assert s == pre + x;
    assert Replace(s, o - 1, o + 1, [m]) == pre + y;
    KeptConcat(pre, x, w, minGapWidth);
    KeptConcat(pre, y, w, minGapWidth);
    assert x[1..] == [s[o]] + post && ([s[o]] + post)[1..] == post && y[1..] == post;
    var a, b := Kept(pre, w, minGapWidth), Kept(post, w, minGapWidth);
    assert Kept(x, w, minGapWidth) == [s[o - 1]] + b;
    assert Kept(y, w, minGapWidth) == [m] + b;
    var u, v := a + ([m] + b), a + ([s[o - 1]] + b);
    assert forall i :: 0 <= i < |u| ==> u[i] == v[i] || (i == |a| && u[i] == m && v[i] == s[o - 1]);
  }

  /** One defragmentation step on the first sliver `o` of a grounded tiling:
      it has a left neighbour, and merging it there keeps the tiling, the
      floor and the non-sliver anchors while shrinking the profile. */
  lemma MergeSound(s: seq<Seg>, maxWidth: real, o: nat, w: real, minGapWidth: real)
    requires Tiles(s, maxWidth) && Grounded(s) && w > 0.0
    requires FirstNarrow(s, w, minGapWidth) == Some(o)
    ensures 0 < o < |s|
    ensures Tiles(Replace(s, o - 1, o + 1, [Widen(s[o - 1], s[o])]), maxWidth)
    ensures Grounded(Replace(s, o - 1, o + 1, [Widen(s[o - 1], s[o])]))
    ensures SameAnchors(Kept(Replace(s, o - 1, o + 1, [Widen(s[o - 1], s[o])]), w, minGapWidth), Kept(s, w, minGapWidth))
  {
    var m := Widen(s[o - 1], s[o]);
    MergeKeepsAnchors(s, o, w, minGapWidth);
    ReplaceSpans(s, 0.0, maxWidth, o - 1, o + 1, [m]);
    ReplaceGrounded(s, o - 1, o + 1, [m]);
  }

  /** The defragmentation loop (DataStructures.swift:87-91): while there is a
      sliver, the first one is merged into its left neighbour. */
  function Defragged(s: seq<Seg>, maxWidth: real, w: real, minGapWidth: real): seq<Seg>
    requires Tiles(s, maxWidth) && Grounded(s) && w > 0.0
    decreases |s|
  {
    match FirstNarrow(s, w, minGapWidth)
    case None => s
    case Some(o) =>
      MergeSound(s, maxWidth, o, w, minGapWidth);
      Defragged(Replace(s, o - 1, o + 1, [Widen(s[o - 1], s[o])]), maxWidth, w, minGapWidth)
  }

  /** Defragmentation leaves a grounded tiling without slivers whose left
      edges and heights are those of the old non-slivers; it never adds a
      segment, and a profile without slivers is left as it was. */
  lemma {:induction false} DefraggedSound(s: seq<Seg>, maxWidth: real, w: real, minGapWidth: real)
    requires Tiles(s, maxWidth) && Grounded(s) && w > 0.0
    ensures Tiles(Defragged(s, maxWidth, w, minGapWidth), maxWidth) && Grounded(Defragged(s, maxWidth, w, minGapWidth))
    ensures forall i :: 0 <= i < |Defragged(s, maxWidth, w, minGapWidth)| ==> !Narrow(Defragged(s, maxWidth, w, minGapWidth)[i], w, minGapWidth)
    ensures SameAnchors(Defragged(s, maxWidth, w, minGapWidth), Kept(s, w, minGapWidth))
    ensures |Defragged(s, maxWidth, w, minGapWidth)| <= |s|
    ensures (forall i :: 0 <= i < |s| ==> !Narrow(s[i], w, minGapWidth)) ==> Defragged(s, maxWidth, w, minGapWidth) == s
    decreases |s|
  {
    var t := Defragged(s, maxWidth, w, minGapWidth);
    match FirstNarrow(s, w, minGapWidth)
    case None =>
      KeptAll(s, w, minGapWidth);
    case Some(o) =>
      MergeSound(s, maxWidth, o, w, minGapWidth);
      var m := Replace(s, o - 1, o + 1, [Widen(s[o - 1], s[o])]);
      DefraggedSound(m, maxWidth, w, minGapWidth);
      KeptAll(t, w, minGapWidth);
      SameAnchorsTrans(Kept(t, w, minGapWidth), Kept(m, w, minGapWidth), Kept(s, w, minGapWidth));
      DefragExit(t, s, maxWidth, w, minGapWidth);
  }

  // ---------------------------------------------------------------------------
  // Pit resolution (DataStructures.swift:123-145)

  /** Resolves the pit at `p` in place: an edge pit takes its one neighbour's
      height; an interior pit and its lower neighbour (the left one only if
      strictly lower) are both raised to the higher of the two. */
  function ResolvePit(s: seq<Seg>, p: nat): (r: seq<Seg>)
    requires 2 <= |s| && p < |s|
    ensures SameShape(s, r)
    ensures Heights(r) <= Heights(s)
    ensures forall i :: 0 <= i < |s| && (i + 1 < p || p + 1 < i) ==> r[i] == s[i]
    ensures p == 0 ==> r[0].y == s[1].y && r[1] == s[1]
    ensures 0 < p == |s| - 1 ==> r[p].y == s[p - 1].y && r[p - 1] == s[p - 1]
    ensures 0 < p < |s| - 1 && s[p - 1].y < s[p + 1].y ==>
              r[p].y == r[p - 1].y == Max(s[p - 1].y, s[p].y) && r[p + 1] == s[p + 1]
    ensures 0 < p < |s| - 1 && s[p - 1].y >= s[p + 1].y ==>
              r[p].y == r[p + 1].y == Max(s[p + 1].y, s[p].y) && r[p - 1] == s[p - 1]
  {
    var item := s[p];
    var r :=
      if p == 0 then
        s[p := Seg(item.x, s[1].y, item.width)]
      else if p == |s| - 1 then
        s[p := Seg(item.x, s[p - 1].y, item.width)]
      else if s[p - 1].y < s[p + 1].y then
        var v := Max(s[p - 1].y, item.y);
        s[p := Seg(item.x, v, item.width)][p - 1 := Seg(s[p - 1].x, v, s[p - 1].width)]
      else
        var v := Max(s[p + 1].y, item.y);
        s[p := Seg(item.x, v, item.width)][p + 1 := Seg(s[p + 1].x, v, s[p + 1].width)];
    assert forall i :: 0 <= i < |r| ==> r[i].y in Heights(s) by {
      forall i | 0 <= i < |r| ensures r[i].y in Heights(s) {
        if r[i].y == s[i].y {
        } else if r[i].y == s[p].y {
        } else if p > 0 && r[i].y == s[p - 1].y {
        } else {
          assert p + 1 < |s| && r[i].y == s[p + 1].y;
        }
      }
    }
    r
  }

  /** Resolves the pits `ps` from the last to the first. */
  function ResolveAll(s: seq<Seg>, ps: seq<nat>): (r: seq<Seg>)
    requires 2 <= |s| && forall k :: 0 <= k < |ps| ==> ps[k] < |s|
    ensures SameShape(s, r)
  {
    if ps == [] then s else ResolvePit(ResolveAll(s, ps[1..]), ps[0])
  }

  /** Resolving pits only copies heights that were already there. */
  lemma {:induction false} ResolveAllHeights(s: seq<Seg>, ps: seq<nat>)
    requires 2 <= |s| && forall k :: 0 <= k < |ps| ==> ps[k] < |s|
    ensures Heights(ResolveAll(s, ps)) <= Heights(s)
  {
    if ps != [] {
      ResolveAllHeights(s, ps[1..]);
    }
  }

  /** A segment that is neither a pit nor next to one is left alone. */
  lemma {:induction false} ResolveAllUntouched(s: seq<Seg>, ps: seq<nat>, i: nat)
    requires 2 <= |s| && forall k :: 0 <= k < |ps| ==> ps[k] < |s|
    requires i < |s| && forall p :: p in ps ==> i + 1 < p || p + 1 < i
    ensures ResolveAll(s, ps)[i] == s[i]
  {
    if ps != [] {
      assert ps[0] in ps && forall p :: p in ps[1..] ==> p in ps;
      ResolveAllUntouched(s, ps[1..], i);
    }
  }

  /** Pit resolution keeps the tiling and the floor, and leaves every segment
      that is neither a pit nor next to one alone. */
  lemma ResolveAllSound(s: seq<Seg>, maxWidth: real, ps: seq<nat>)
    requires Tiles(s, maxWidth) && Grounded(s)
    requires 2 <= |s| && forall k :: 0 <= k < |ps| ==> ps[k] < |s|
    ensures Tiles(ResolveAll(s, ps), maxWidth) && Grounded(ResolveAll(s, ps))
    ensures Heights(ResolveAll(s, ps)) <= Heights(s)
    ensures forall i :: 0 <= i < |s| && (forall p :: p in ps ==> i + 1 < p || p + 1 < i) ==> ResolveAll(s, ps)[i] == s[i]
  {
    var t := ResolveAll(s, ps);
    ResolveAllHeights(s, ps);
    SameShapeSpans(s, t, 0.0, maxWidth);
    HeightsGrounded(s, t);
    forall i | 0 <= i < |s| && (forall p :: p in ps ==> i + 1 < p || p + 1 < i)
      ensures t[i] == s[i]
    {
      ResolveAllUntouched(s, ps, i);
    }
  }

  lemma HeightsGrounded(s: seq<Seg>, t: seq<Seg>)
    requires Grounded(s) && Heights(t) <= Heights(s)
    ensures Grounded(t)
  {
    forall i | 0 <= i < |t| ensures t[i].y >= 0.0 {
      assert t[i].y in Heights(t);
    }
  }

  // ---------------------------------------------------------------------------
  // Direct fit (DataStructures.swift:210-221)

  /** The chosen segment after the item of size `w` x `h` lands on its left
      end: the covered part raised by `h`, then any remainder at the old
      height. */
  function Split(g: Seg, w: real, h: real): (r: seq<Seg>)
    ensures 0 < |r| <= 2 && r[0] == Seg(g.x, g.y + h, w)
    ensures |r| == 2 <==> g.width > w
    ensures |r| == 2 ==> r[1].x == g.x + w && r[1].y == g.y && End(r[1]) == End(g)
  {
    if g.width - w > 0.0 then [Seg(g.x, g.y + h, w), Seg(g.x + w, g.y, g.width - w)]
    else [Seg(g.x, g.y + h, w)]
  }

  lemma SplitSpans(g: Seg, w: real, h: real)
    requires 0.0 < w <= g.width
    ensures Spans(Split(g, w, h), g.x, End(g))
    ensures Split(g, w, h)[0] == Seg(g.x, g.y + h, w)
    ensures |Split(g, w, h)| == (if w < g.width then 2 else 1)
  {
  }

  lemma SplitRaises(s: seq<Seg>, b: nat, w: real, h: real)
    requires b < |s| && Positive(s) && 0.0 < w <= s[b].width && h >= 0.0
    ensures RaisesRun(s, b, b + 1, Split(s[b], w, h))
  {
  }

  /** The direct fit keeps the tiling, never lowers the profile and keeps it
      above the floor. */
  lemma DirectFitSound(s: seq<Seg>, maxWidth: real, b: nat, w: real, h: real)
    requires Tiles(s, maxWidth) && Grounded(s) && b < |s| && 0.0 < w <= s[b].width && h >= 0.0
    ensures Tiles(Replace(s, b, b + 1, Split(s[b], w, h)), maxWidth)
    ensures Grounded(Replace(s, b, b + 1, Split(s[b], w, h)))
    ensures NoLower(s, Replace(s, b, b + 1, Split(s[b], w, h)))
    ensures Replace(s, b, b + 1, Split(s[b], w, h))[b] == Seg(s[b].x, s[b].y + h, w)
  {
    var rep := Split(s[b], w, h);
    SplitSpans(s[b], w, h);
    SplitRaises(s, b, w, h);
    ReplaceSpans(s, 0.0, maxWidth, b, b + 1, rep);
    ReplaceRaises(s, 0.0, maxWidth, b, b + 1, rep);
    ReplaceGrounded(s, b, b + 1, rep);
  }

  // ---------------------------------------------------------------------------
  // Absorption fit (DataStructures.swift:177-187)

  /** The replacement for basin `[l..r]`: the item's footprint from `x_l`, at
      `y + h`; the unconsumed part of segment `cur` at its own height; the
      segments after `cur` as they were. */
  function Absorbed(s: seq<Seg>, l: nat, cur: nat, r: nat, w: real, y: real, h: real): seq<Seg>
    requires l < cur <= r < |s|
  {
    var remaining := End(s[cur]) - (s[l].x + w);
    [Seg(s[l].x, y + h, w)]
    + (if remaining > 0.0 then [Seg(End(s[cur]) - remaining, s[cur].y, remaining)] else [])
    + (if r > cur then s[cur + 1..r + 1] else [])
  }

  /** The replacement covers exactly the basin's span. */
  lemma AbsorbedSpans(s: seq<Seg>, l: nat, cur: nat, r: nat, w: real, y: real, h: real)
    requires Contiguous(s) && Positive(s) && l < cur <= r < |s|
    requires s[cur].x - s[l].x < w <= End(s[cur]) - s[l].x
    ensures Spans(Absorbed(s, l, cur, r, w, y, h), s[l].x, End(s[r]))
    ensures Absorbed(s, l, cur, r, w, y, h)[0] == Seg(s[l].x, y + h, w)
  {
    Ordered(s, l, cur);
    var a := Absorbed(s, l, cur, r, w, y, h);
    var remaining := End(s[cur]) - (s[l].x + w);
    var head := [Seg(s[l].x, y + h, w)] + (if remaining > 0.0 then [Seg(End(s[cur]) - remaining, s[cur].y, remaining)] else []);
    assert End(head[|head| - 1]) == End(s[cur]);
    if r > cur {
      var tail := s[cur + 1..r + 1];
      assert a == head + tail;
      assert forall i :: 0 <= i < |tail| ==> tail[i] == s[cur + 1 + i];
      forall i | 0 < i < |a| ensures End(a[i - 1]) == a[i].x {
        if i > |head| {
          assert a[i - 1] == s[cur + i - |head|] && a[i] == s[cur + 1 + i - |head|];
        }
      }
    }
  }

  /** Every run segment is no taller than `y`, the footprint is at `y + h`, the
      remainder keeps its height: the basin is only ever raised. */
  lemma AbsorbedRaises(s: seq<Seg>, l: nat, cur: nat, r: nat, w: real, y: real, h: real)
    requires Contiguous(s) && Positive(s) && l < cur <= r < |s| && h >= 0.0
    requires s[cur].x - s[l].x < w <= End(s[cur]) - s[l].x
    requires forall k :: l <= k <= r ==> s[k].y <= y
    ensures RaisesRun(s, l, r + 1, Absorbed(s, l, cur, r, w, y, h))
  {
    var a := Absorbed(s, l, cur, r, w, y, h);
    var remaining := End(s[cur]) - (s[l].x + w);
    var nh := if remaining > 0.0 then 2 else 1;
    forall k, j, p | l <= k < r + 1 && 0 <= j < |a| && Covers(s[k], p) && Covers(a[j], p)
      ensures s[k].y <= a[j].y
    {
      if j == 0 {
      } else if j < nh {
        assert Covers(s[cur], p);
        CoverUnique(s, k, cur, p);
      } else {
        assert a[j] == s[cur + 1 + j - nh];
        CoverUnique(s, k, cur + 1 + j - nh, p);
      }
    }
  }

  /** The replacement stays above the floor: the footprint is at `y + h`, the
      rest are basin heights. */
  lemma AbsorbedGrounded(s: seq<Seg>, l: nat, cur: nat, r: nat, w: real, y: real, h: real)
    requires Grounded(s) && l < cur <= r < |s| && h >= 0.0 && y >= 0.0
    ensures Grounded(Absorbed(s, l, cur, r, w, y, h))
  {
    var remaining := End(s[cur]) - (s[l].x + w);
    var head := [Seg(s[l].x, y + h, w)] + (if remaining > 0.0 then [Seg(End(s[cur]) - remaining, s[cur].y, remaining)] else []);
    var tail := if r > cur then s[cur + 1..r + 1] else [];
    assert Absorbed(s, l, cur, r, w, y, h) == head + tail;
    assert forall i :: 0 <= i < |tail| ==> tail[i] == s[cur + 1 + i];
  }

  /** The absorption fit keeps the tiling, never lowers the profile and keeps
      it above the floor. */
  lemma AbsorbedSound(s: seq<Seg>, maxWidth: real, l: nat, cur: nat, r: nat, w: real, y: real, h: real)
    requires Tiles(s, maxWidth) && Grounded(s) && l < cur <= r < |s| && h >= 0.0 && y >= 0.0
    requires s[cur].x - s[l].x < w <= End(s[cur]) - s[l].x
    requires forall k :: l <= k <= r ==> s[k].y <= y
    ensures Tiles(Replace(s, l, r + 1, Absorbed(s, l, cur, r, w, y, h)), maxWidth)
    ensures Grounded(Replace(s, l, r + 1, Absorbed(s, l, cur, r, w, y, h)))
    ensures NoLower(s, Replace(s, l, r + 1, Absorbed(s, l, cur, r, w, y, h)))
  {
    var a := Absorbed(s, l, cur, r, w, y, h);
    AbsorbedSpans(s, l, cur, r, w, y, h);
    AbsorbedRaises(s, l, cur, r, w, y, h);
    AbsorbedGrounded(s, l, cur, r, w, y, h);
    ReplaceSpans(s, 0.0, maxWidth, l, r + 1, a);
    ReplaceRaises(s, 0.0, maxWidth, l, r + 1, a);
    ReplaceGrounded(s, l, r + 1, a);
  }

  /** Filling the basin `[l..r]` of `seed` up to segment `cur`, the one holding
      the item's right edge, is sound and puts the footprint at `l`. */
  lemma FillSound(s: seq<Seg>, maxWidth: real, seed: nat, l: nat, cur: nat, r: nat, w: real, h: real)
    requires Tiles(s, maxWidth) && Grounded(s) && IsBasin(s, seed, l, r) && h >= 0.0 && l < cur <= r
    requires SumWidths(s[l..cur]) < w <= SumWidths(s[l..cur]) + s[cur].width
    ensures Tiles(Replace(s, l, r + 1, Absorbed(s, l, cur, r, w, s[seed].y, h)), maxWidth)
    ensures Grounded(Replace(s, l, r + 1, Absorbed(s, l, cur, r, w, s[seed].y, h)))
    ensures NoLower(s, Replace(s, l, r + 1, Absorbed(s, l, cur, r, w, s[seed].y, h)))
    ensures Replace(s, l, r + 1, Absorbed(s, l, cur, r, w, s[seed].y, h))[l] == Seg(s[l].x, s[seed].y + h, w)
  {
    RunWidth(s, l, cur);
    AbsorbedSpans(s, l, cur, r, w, s[seed].y, h);
    AbsorbedSound(s, maxWidth, l, cur, r, w, s[seed].y, h);
  }

  // ---------------------------------------------------------------------------
  // Fallback shelf (DataStructures.swift:192-204)

  /** A segment that reaches past `w`, clipped to start at `w` if it started
      before it. */
  function ClipLeft(g: Seg, w: real): (c: Seg)
    ensures c.x == Max(g.x, w) && c.y == g.y && End(c) == End(g)
  {
    if g.x < w then Seg(w, g.y, End(g) - w) else g
  }

  /** The segments that reach past `w`, in order (the `filter` at line 196). */
  function Beyond(s: seq<Seg>, w: real): (r: seq<Seg>)
    ensures |r| <= |s|
  {
    if s == [] then []
    else Beyond(s[..|s| - 1], w) + (if End(s[|s| - 1]) > w then [s[|s| - 1]] else [])
  }

  /** `Beyond` keeps exactly the segments whose right end lies past `w`. */
  lemma {:induction false} BeyondMembers(s: seq<Seg>, w: real)
    ensures forall g :: g in Beyond(s, w) <==> g in s && End(g) > w
  {
    if s != [] {
      BeyondMembers(s[..|s| - 1], w);
      assert forall g :: g in s <==> g in s[..|s| - 1] || g == s[|s| - 1];
    }
  }

  function ClipEach(s: seq<Seg>, w: real): (r: seq<Seg>)
    ensures |r| == |s| && forall i :: 0 <= i < |s| ==> r[i] == ClipLeft(s[i], w)
    ensures forall i :: 0 <= i < |s| ==> r[i].x == Max(s[i].x, w) && r[i].y == s[i].y && End(r[i]) == End(s[i])
  {
    seq(|s|, i requires 0 <= i < |s| => ClipLeft(s[i], w))
  }

  /** The profile after the fallback: a fresh shelf `[0, w)` at `base`, then
      what reaches past `w`, clipped. */
  function Shelf(s: seq<Seg>, w: real, base: real): (r: seq<Seg>)
    ensures |r| == |Beyond(s, w)| + 1 && r[0] == Seg(0.0, base, w)
  {
    [Seg(0.0, base, w)] + ClipEach(Beyond(s, w), w)
  }

  /** In a tiling, the segments reaching past `w` are a suffix. */
  lemma {:induction false} BeyondSuffix(s: seq<Seg>, k: nat, w: real)
    requires k <= |s|
    requires forall i :: 0 <= i < k ==> End(s[i]) <= w
    requires forall i :: k <= i < |s| ==> End(s[i]) > w
    ensures Beyond(s, w) == s[k..]
    decreases |s|
  {
    if s != [] {
      var n := |s|;
      assert forall i :: 0 <= i < n - 1 ==> s[..n - 1][i] == s[i];
      if k <= n - 1 {
        BeyondSuffix(s[..n - 1], k, w);
        assert s[..n - 1][k..] + [s[n - 1]] == s[k..];
      } else {
        BeyondSuffix(s[..n - 1], n - 1, w);
      }
    }
  }

  /** The start of the point `w` in a tiling: the segment it lies on. */
  lemma BeyondOfTiling(s: seq<Seg>, maxWidth: real, w: real) returns (k: nat)
    requires Tiles(s, maxWidth) && 0.0 < w < maxWidth
    ensures k < |s| && Covers(s[k], w) && Beyond(s, w) == s[k..]
  {
    k := CoverIn(s, 0, |s|, w);
    forall i | 0 <= i < k ensures End(s[i]) <= w { Ordered(s, i, k); }
    forall i | k < i < |s| ensures End(s[i]) > w { Ordered(s, k, i); }
    BeyondSuffix(s, k, w);
  }

  lemma SuffixSpans(s: seq<Seg>, a: real, b: real, k: nat)
    requires Spans(s, a, b) && k < |s|
    ensures Spans(s[k..], s[k].x, b)
  {
    assert forall i :: 0 <= i < |s| - k ==> s[k..][i] == s[k + i];
  }

  /** Clipping a tiling of `[b[0].x, e)` at a point `w` of its first segment
      gives a tiling of `[w, e)`. */
  lemma ClipSpans(b: seq<Seg>, e: real, w: real)
    requires |b| > 0 && Spans(b, b[0].x, e) && Covers(b[0], w)
    ensures Spans(ClipEach(b, w), w, e)
    ensures ClipEach(b, w)[0] == Seg(w, b[0].y, End(b[0]) - w) && ClipEach(b, w)[1..] == b[1..]
  {
    var c := ClipEach(b, w);
    forall i | 0 < i < |b| ensures c[i] == b[i] {
      Ordered(b, 0, i);
    }
    assert c[1..] == b[1..];
    forall i | 0 < i < |c| ensures End(c[i - 1]) == c[i].x {
    }
  }

  /** A shelf as wide as the container replaces the whole profile. */
  lemma FullShelf(s: seq<Seg>, maxWidth: real, base: real)
    requires Tiles(s, maxWidth)
    ensures Shelf(s, maxWidth, base) == [Seg(0.0, base, maxWidth)]
  {
    forall i | 0 <= i < |s| ensures End(s[i]) <= maxWidth {
      if i < |s| - 1 { Ordered(s, i, |s| - 1); }
    }
    BeyondSuffix(s, |s|, maxWidth);
  }

  /** The fallback keeps the profile a tiling of `[0, maxWidth)`. */
  lemma ShelfTiles(s: seq<Seg>, maxWidth: real, w: real, base: real)
    requires Tiles(s, maxWidth) && 0.0 < w <= maxWidth
    ensures Tiles(Shelf(s, w, base), maxWidth)
  {
    if w == maxWidth {
      FullShelf(s, maxWidth, base);
    } else {
      var k := BeyondOfTiling(s, maxWidth, w);
      SuffixSpans(s, 0.0, maxWidth, k);
      ClipSpans(s[k..], maxWidth, w);
      var c := ClipEach(s[k..], w);
      PrependShelf(c, w, maxWidth, base);
    }
  }

  lemma PrependShelf(c: seq<Seg>, w: real, maxWidth: real, base: real)
    requires Spans(c, w, maxWidth) && w > 0.0
    ensures Tiles([Seg(0.0, base, w)] + c, maxWidth)
  {
    var t := [Seg(0.0, base, w)] + c;
    forall i | 1 < i < |t| ensures End(t[i - 1]) == t[i].x {
      assert t[i - 1] == c[i - 2] && t[i] == c[i - 1];
    }
  }

  /** In a tiling cut at an inner point `w`, the shelf is followed by the
      segments from the one covering `w` onwards, clipped. */
  lemma ShelfAt(s: seq<Seg>, maxWidth: real, w: real, base: real) returns (k: nat)
    requires Tiles(s, maxWidth) && 0.0 < w < maxWidth
    ensures k < |s| && Covers(s[k], w) && |Shelf(s, w, base)| == |s| - k + 1 && Shelf(s, w, base)[0].y == base
    ensures forall j :: 0 < j < |Shelf(s, w, base)| ==> Shelf(s, w, base)[j] == ClipLeft(s[k + j - 1], w)
  {
    k := BeyondOfTiling(s, maxWidth, w);
  }

  /** The fallback never lowers the profile: the shelf sits at or above every
      height, and every clipped segment keeps its height. */
  lemma ShelfRaises(s: seq<Seg>, maxWidth: real, w: real, base: real)
    requires Tiles(s, maxWidth) && 0.0 < w <= maxWidth
    requires forall i :: 0 <= i < |s| ==> s[i].y <= base
    ensures NoLower(s, Shelf(s, w, base))
  {
    if w == maxWidth {
      FullShelf(s, maxWidth, base);
    } else {
      ShelfRaisesInner(s, maxWidth, w, base);
    }
  }

  lemma ShelfRaisesInner(s: seq<Seg>, maxWidth: real, w: real, base: real)
    requires Tiles(s, maxWidth) && 0.0 < w < maxWidth
    requires forall i :: 0 <= i < |s| ==> s[i].y <= base
    ensures NoLower(s, Shelf(s, w, base))
  {
    var k := ShelfAt(s, maxWidth, w, base);
    ClippedRaises(s, Shelf(s, w, base), k, w);
  }

  /** A profile whose first segment is at least as high as all of `s` and
      whose others are the clipped segments of `s` from `k` on is no lower
      than `s`. */
  lemma ClippedRaises(s: seq<Seg>, t: seq<Seg>, k: nat, w: real)
    requires Contiguous(s) && Positive(s) && k < |s| && |t| == |s| - k + 1
    requires forall i :: 0 <= i < |s| ==> s[i].y <= t[0].y
    requires forall j :: 0 < j < |t| ==> t[j] == ClipLeft(s[k + j - 1], w)
    ensures NoLower(s, t)
  {
    forall i, j, p | 0 <= i < |s| && 0 <= j < |t| && Covers(s[i], p) && Covers(t[j], p)
      ensures s[i].y <= t[j].y
    {
      if j > 0 {
        assert Covers(s[k + j - 1], p);
        CoverUnique(s, i, k + j - 1, p);
      }
    }
  }

  /** A profile built as the shelf followed by the clipped segments reaching
      past `w`, one by one, is the fallback profile. */
  lemma ShelfBuilt(s: seq<Seg>, t: seq<Seg>, w: real, base: real)
    requires |t| == |Beyond(s, w)| + 1 && t[0] == Seg(0.0, base, w)
    requires forall j :: 0 <= j < |Beyond(s, w)| ==> t[j + 1] == ClipLeft(Beyond(s, w)[j], w)
    ensures t == Shelf(s, w, base)
  {
    var b := Beyond(s, w);
    var c := ClipEach(b, w);
    assert forall j :: 0 < j < |t| ==> t[j] == c[j - 1];
  }

  /** The fallback at the highest height keeps the tiling and the floor and
      never lowers the profile. */
  lemma ShelfSound(s: seq<Seg>, maxWidth: real, w: real)
    requires Tiles(s, maxWidth) && Grounded(s) && 0.0 < w <= maxWidth
    ensures Tiles(Shelf(s, w, MaxY(s)), maxWidth) && Grounded(Shelf(s, w, MaxY(s)))
    ensures NoLower(s, Shelf(s, w, MaxY(s)))
  {
    var base := MaxY(s);
    ShelfTiles(s, maxWidth, w, base);
    ShelfRaises(s, maxWidth, w, base);
    ShelfGrounded(s, w, base);
  }

  lemma ShelfGrounded(s: seq<Seg>, w: real, base: real)
    requires Grounded(s) && base >= 0.0
    ensures Grounded(Shelf(s, w, base))
  {
    var t := Shelf(s, w, base);
    var b := Beyond(s, w);
    BeyondMembers(s, w);
    forall j | 1 <= j < |t| ensures t[j].y >= 0.0 {
      assert t[j] == ClipLeft(b[j - 1], w);
      assert b[j - 1] in b;
      var q :| 0 <= q < |s| && s[q] == b[j - 1];
    }
  }
}
