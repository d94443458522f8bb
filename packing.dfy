/** The packer itself: `struct SkylinePacking` and its one mutating operation
    `updateSkyline(viewSize:)` (DataStructures.swift:23-225), one method per
    stage of that operation. */
module Packing {
  import opened Profile
  import opened Selection
  import opened Rewrites
  import opened Scans

  /** What one call of `UpdateSkyline` yields. `OutOfFuel` marks a call whose
      pit-driven restarts (DataStructures.swift:148) went past the bound the
      caller allowed. */
  datatype Outcome = Done(rect: Rect) | OutOfFuel

  /** The absorption fit on `s` (DataStructures.swift:153-190) with seed
      `seed`, basin `[l..r]` and `cur` the segment holding the item's right
      edge: the seed is the first in height order whose basin is `w` wide, and
      the fit yields `rect` and the profile `t`. */
  ghost predicate Absorption(s: seq<Seg>, w: real, h: real, seed: nat, l: nat, cur: nat, r: nat, rect: Rect, t: seq<Seg>) {
    IsBasin(s, seed, l, r) && SumWidths(s[l..r + 1]) >= w &&
    (forall i :: 0 <= i < |s| && Before(s, i, seed) ==> BasinNarrower(s, i, w)) &&
    l < cur <= r && SumWidths(s[l..cur]) < w <= SumWidths(s[l..cur]) + s[cur].width &&
    rect == Rect(s[l].x, s[seed].y, w, h) &&
    t == Replace(s, l, r + 1, Absorbed(s, l, cur, r, w, s[seed].y, h))
  }

  /** The fallback on `s` (DataStructures.swift:191-206): no basin is `w`
      wide, and the shelf at the highest height yields `rect` and `t`. */
  ghost predicate Fallback(s: seq<Seg>, w: real, h: real, rect: Rect, t: seq<Seg>) {
    |s| > 0 && (forall i :: 0 <= i < |s| ==> BasinNarrower(s, i, w)) &&
    rect == Rect(0.0, MaxY(s), w, h) && t == Shelf(s, w, MaxY(s))
  }

  /** What the placement stage (DataStructures.swift:152-222) makes of a clean
      profile `s`: the direct fit on the lowest wide-enough segment if there is
      one, else the absorption fit, else the fallback. */
  ghost predicate Placement(s: seq<Seg>, w: real, h: real, rect: Rect, t: seq<Seg>) {
    match LowestFit(s, w)
    case Some(b) => rect == Rect(s[b].x, s[b].y, w, h) && t == Replace(s, b, b + 1, Split(s[b], w, h))
    case None =>
      (exists seed: nat, l: nat, cur: nat, r: nat :: Absorption(s, w, h, seed, l, cur, r, rect, t)) ||
      Fallback(s, w, h, rect, t)
  }

  lemma DirectPlaces(s: seq<Seg>, w: real, h: real, b: nat, rect: Rect, t: seq<Seg>)
    requires LowestFit(s, w) == Some(b) && b < |s|
    requires rect == Rect(s[b].x, s[b].y, w, h) && t == Replace(s, b, b + 1, Split(s[b], w, h))
    ensures Placement(s, w, h, rect, t)
  {
  }

  lemma AbsorptionPlaces(s: seq<Seg>, w: real, h: real, seed: nat, l: nat, cur: nat, r: nat, rect: Rect, t: seq<Seg>)
    requires |s| > 0 && LowestFit(s, w).None? && Absorption(s, w, h, seed, l, cur, r, rect, t)
    ensures Placement(s, w, h, rect, t)
  {
  }

  lemma FallbackPlaces(s: seq<Seg>, w: real, h: real, rect: Rect, t: seq<Seg>)
    requires |s| > 0 && LowestFit(s, w).None? && Fallback(s, w, h, rect, t)
    ensures Placement(s, w, h, rect, t)
  {
  }

  /** The widths of a run reach past the end of any earlier segment. */
  lemma WidthPast(s: seq<Seg>, l: nat, a: nat, b: nat)
    requires Contiguous(s) && Positive(s) && l < a < b <= |s|
    ensures SumWidths(s[l..a]) + s[a].width <= SumWidths(s[l..b])
  {
    assert s[l..a + 1][..a - l] == s[l..a];
    RunWidth(s, l, a + 1);
    RunWidth(s, l, b);
    if a < b - 1 { Ordered(s, a, b - 1); }
  }

  /** A seed whose basin is `w` wide is not one whose basins are narrower. */
  lemma WideNotNarrower(s: seq<Seg>, seed: nat, l: nat, r: nat, w: real)
    requires IsBasin(s, seed, l, r) && SumWidths(s[l..r + 1]) >= w
    ensures !BasinNarrower(s, seed, w)
  {
  }

  /** Two absorption fits on one tiling have the same seed, basin and
      consumed segment. */
  lemma AbsorptionUnique(s: seq<Seg>, maxWidth: real, w: real, h: real,
                         seed1: nat, l1: nat, cur1: nat, r1: nat, rect1: Rect, t1: seq<Seg>,
                         seed2: nat, l2: nat, cur2: nat, r2: nat, rect2: Rect, t2: seq<Seg>)
    requires Tiles(s, maxWidth)
    requires Absorption(s, w, h, seed1, l1, cur1, r1, rect1, t1)
    requires Absorption(s, w, h, seed2, l2, cur2, r2, rect2, t2)
    ensures seed1 == seed2 && l1 == l2 && cur1 == cur2 && r1 == r2
  {
    WideNotNarrower(s, seed1, l1, r1, w);
    WideNotNarrower(s, seed2, l2, r2, w);
    assert !Before(s, seed1, seed2) && !Before(s, seed2, seed1);
    BasinUnique(s, seed1, l1, r1, l2, r2);
    if cur1 < cur2 { WidthPast(s, l1, cur1, cur2); }
    if cur2 < cur1 { WidthPast(s, l1, cur2, cur1); }
  }

  /** An absorption fit and the fallback exclude each other. */
  lemma AbsorptionNotFallback(s: seq<Seg>, w: real, h: real, seed: nat, l: nat, cur: nat, r: nat, rect: Rect, t: seq<Seg>, rect2: Rect, t2: seq<Seg>)
    requires |s| > 0 && Absorption(s, w, h, seed, l, cur, r, rect, t)
    ensures !Fallback(s, w, h, rect2, t2)
  {
    WideNotNarrower(s, seed, l, r, w);
  }

  /** The placement stage is a function of the profile: any two outcomes it
      allows are the same. */
  lemma PlacementUnique(s: seq<Seg>, maxWidth: real, w: real, h: real, rect1: Rect, t1: seq<Seg>, rect2: Rect, t2: seq<Seg>)
    requires Tiles(s, maxWidth)
    requires Placement(s, w, h, rect1, t1) && Placement(s, w, h, rect2, t2)
    ensures rect1 == rect2 && t1 == t2
  {
    if LowestFit(s, w).None? {
      if exists seed: nat, l: nat, cur: nat, r: nat :: Absorption(s, w, h, seed, l, cur, r, rect1, t1) {
        var seed1: nat, l1: nat, cur1: nat, r1: nat :| Absorption(s, w, h, seed1, l1, cur1, r1, rect1, t1);
        AbsorptionNotFallback(s, w, h, seed1, l1, cur1, r1, rect1, t1, rect2, t2);
        var seed2: nat, l2: nat, cur2: nat, r2: nat :| Absorption(s, w, h, seed2, l2, cur2, r2, rect2, t2);
        AbsorptionUnique(s, maxWidth, w, h, seed1, l1, cur1, r1, rect1, t1, seed2, l2, cur2, r2, rect2, t2);
      } else if exists seed: nat, l: nat, cur: nat, r: nat :: Absorption(s, w, h, seed, l, cur, r, rect2, t2) {
        var seed2: nat, l2: nat, cur2: nat, r2: nat :| Absorption(s, w, h, seed2, l2, cur2, r2, rect2, t2);
        AbsorptionNotFallback(s, w, h, seed2, l2, cur2, r2, rect2, t2, rect1, t1);
      }
    }
  }

  class SkylinePacking {
    /** Width of the container. */
    const maxWidth: real
    /** Slivers narrower than this beyond the item's width are merged away. */
    const minGapWidth: real
    /** Neighbours closer in height than this are coalesced. */
    const minGapHeight: real
    /** Width-to-depth ratio at or below which a segment is a pit. */
    const minPitRatio: real
    /** The skyline, left to right (`currentSkyline`). */
    var skyline: seq<Seg>

    /** Empty before the first item; afterwards a tiling of `[0, maxWidth)`
        that never dips below the floor. */
    ghost predicate Valid()
      reads this
    {
      skyline == [] || (Tiles(skyline, maxWidth) && Grounded(skyline))
    }

    constructor (maxWidth: real, minGapWidth: real := 10.0, minGapHeight: real := 2.0, minPitRatio: real := 0.10)
      ensures this.maxWidth == maxWidth && this.minGapWidth == minGapWidth
      ensures this.minGapHeight == minGapHeight && this.minPitRatio == minPitRatio
      ensures skyline == [] && Valid()
    {
      this.maxWidth := maxWidth;
      this.minGapWidth := minGapWidth;
      this.minGapHeight := minGapHeight;
      this.minPitRatio := minPitRatio;
      skyline := [];
    }

    /** Places the first item at the origin (DataStructures.swift:79-83). */
    method Seed(w: real, h: real) returns (rect: Rect)
      requires skyline == [] && 0.0 < w < maxWidth
      modifies this
      ensures skyline == [Seg(0.0, h, w), Seg(w, 0.0, maxWidth - w)]
      ensures rect == Rect(0.0, 0.0, w, h)
      ensures h >= 0.0 ==> Valid()
      ensures SumWidths(skyline) == maxWidth
    {
      skyline := skyline + [Seg(0.0, h, w)];
      skyline := skyline + [Seg(w, 0.0, maxWidth - w)];
      SeedTiles(w, h, maxWidth);
      TilesWidth(skyline, maxWidth);
      rect := Rect(0.0, 0.0, w, h);
    }

    /** Gap defragmentation (DataStructures.swift:87-91): while some segment
        starting at or beyond `w` is narrower than `minGapWidth`, the first
        one is merged into its left neighbour, which keeps its left edge and
        height and takes the sliver's width. */
    method Defragment(w: real)
      requires Valid() && skyline != [] && w > 0.0
      modifies this
      ensures skyline == Defragged(old(skyline), maxWidth, w, minGapWidth)
      ensures Valid() && skyline != []
      ensures forall i :: 0 <= i < |skyline| ==> !Narrow(skyline[i], w, minGapWidth)
      ensures SameAnchors(skyline, Kept(old(skyline), w, minGapWidth))
      ensures |skyline| <= |old(skyline)|
      ensures (forall i :: 0 <= i < |old(skyline)| ==> !Narrow(old(skyline)[i], w, minGapWidth)) ==> skyline == old(skyline)
    {
      DefraggedSound(skyline, maxWidth, w, minGapWidth);
      var gap := FirstNarrow(skyline, w, minGapWidth);
      while gap.Some?
        invariant Valid() && skyline != []
        invariant gap == FirstNarrow(skyline, w, minGapWidth)
        invariant Defragged(skyline, maxWidth, w, minGapWidth) == Defragged(old(skyline), maxWidth, w, minGapWidth)
        decreases |skyline|
      {
        var offset := gap.value;
        ghost var before := skyline;
        MergeSound(before, maxWidth, offset, w, minGapWidth);
        var mergeWith := skyline[offset - 1];
        var merged := Seg(mergeWith.x, mergeWith.y, mergeWith.width + skyline[offset].width);
        assert merged == Widen(before[offset - 1], before[offset]);
        skyline := Replace(skyline, offset - 1, offset + 1, [merged]);
        assert Defragged(before, maxWidth, w, minGapWidth) == Defragged(skyline, maxWidth, w, minGapWidth);
        gap := FirstNarrow(skyline, w, minGapWidth);
      }
      assert Defragged(skyline, maxWidth, w, minGapWidth) == skyline;
    }

    /** Height coalescing (DataStructures.swift:93-111): a run of segments
        whose heights are within `minGapHeight` of the run's first segment is
        replaced by one segment at the run's highest height; the merged
        segment is then examined again. */
    method Coalesce()
      requires Valid() && skyline != []
      modifies this
      ensures skyline == CoalesceFrom(old(skyline), 0, minGapHeight)
      ensures Valid() && skyline != []
      ensures |skyline| <= |old(skyline)|
      ensures Starts(skyline) <= Starts(old(skyline))
      ensures Heights(skyline) <= Heights(old(skyline))
      ensures NoLower(old(skyline), skyline)
      ensures Separated(old(skyline), minGapHeight) ==> skyline == old(skyline)
    {
      CoalesceSound(skyline, maxWidth, 0, minGapHeight);
      var currentIdx := 0;
      while currentIdx < |skyline| - 1
        invariant Valid() && skyline != [] && currentIdx < |skyline|
        invariant CoalesceFrom(skyline, currentIdx, minGapHeight) == CoalesceFrom(old(skyline), 0, minGapHeight)
        decreases |skyline|, |skyline| - currentIdx
      {
        var upToIdx, currentMaxY := HeightRun(skyline, currentIdx, minGapHeight);
        if upToIdx - currentIdx > 1 {
          ghost var before := skyline;
          MergeRun(currentIdx, upToIdx, currentMaxY);
          HeightsGrounded(before, skyline);
        } else {
          currentIdx := currentIdx + 1;
        }
      }
    }

    /** One coalescing step: the run `[c, u)` becomes one segment at `top`. */
    method MergeRun(c: nat, u: nat, top: real)
      requires Valid() && skyline != [] && c + 1 < u <= |skyline|
      requires forall k :: c <= k < u ==> skyline[k].y <= top
      requires exists k :: c <= k < u && skyline[k].y == top
      modifies this
      ensures skyline == Coalesced(old(skyline), c, u, top)
      ensures Tiles(skyline, maxWidth) && c < |skyline| < |old(skyline)|
      ensures Starts(skyline) <= Starts(old(skyline))
      ensures Heights(skyline) <= Heights(old(skyline))
      ensures NoLower(old(skyline), skyline)
    {
      var newWidth := SumWidths(skyline[c..u]);
      var merged := Seg(skyline[c].x, top, newWidth);
      CoalescedTiles(skyline, maxWidth, c, u, top);
      CoalescedFrom(skyline, c, u, top);
      skyline := Replace(skyline, c, u, [merged]);
    }

    /** Pit resolution (DataStructures.swift:113-150), on three or more
        segments: every segment whose width over its depth below the tallest
        segment is at most `minPitRatio` is a pit, and the pits are resolved
        from the rightmost to the leftmost. Only heights change. */
    method ResolvePits() returns (found: bool)
      requires Valid() && skyline != []
      modifies this
      ensures Valid() && skyline != []
      ensures found == (|old(skyline)| >= 3 && Pits(old(skyline), MaxY(old(skyline)), minPitRatio) != [])
      ensures !found ==> skyline == old(skyline)
      ensures |old(skyline)| >= 3 ==> skyline == ResolveAll(old(skyline), Pits(old(skyline), MaxY(old(skyline)), minPitRatio))
      ensures SameShape(old(skyline), skyline)
      ensures Heights(skyline) <= Heights(old(skyline))
    {
      found := false;
      if |skyline| >= 3 {
        var maxHeightItem := MaxY(skyline);
        var pits := Pits(skyline, maxHeightItem, minPitRatio);
        ResolveAllSound(skyline, maxWidth, pits);
        ResolveEach(pits);
        found := pits != [];
      }
    }

    /** Resolves the pits `pits`, the rightmost first. */
    method ResolveEach(pits: seq<nat>)
      requires 2 <= |skyline| && forall k :: 0 <= k < |pits| ==> pits[k] < |skyline|
      modifies this
      ensures skyline == ResolveAll(old(skyline), pits)
    {
      var k := |pits|;
      while k > 0
        invariant 0 <= k <= |pits|
        invariant skyline == ResolveAll(old(skyline), pits[k..])
      {
        k := k - 1;
        assert pits[k..][1..] == pits[k + 1..];
        ResolveOne(pits[k]);
      }
      assert pits[0..] == pits;
    }

    /** Resolves the pit at `pit` (DataStructures.swift:124-144): an edge pit
        takes its neighbour's height; an interior pit is levelled with its
        lower neighbour, the left one when strictly lower. */
    method ResolveOne(pit: nat)
      requires 2 <= |skyline| && pit < |skyline|
      modifies this
      ensures skyline == ResolvePit(old(skyline), pit)
    {
      var item := skyline[pit];
      if pit == 0 {
        var nextItem := skyline[1];
        skyline := skyline[pit := Seg(item.x, nextItem.y, item.width)];
      } else if pit == |skyline| - 1 {
        var prevItem := skyline[pit - 1];
        skyline := skyline[pit := Seg(item.x, prevItem.y, item.width)];
      } else {
        var prevItem := skyline[pit - 1];
        var nextItem := skyline[pit + 1];
        if prevItem.y < nextItem.y {
          skyline := skyline[pit := Seg(item.x, Max(prevItem.y, item.y), item.width)];
          skyline := skyline[pit - 1 := Seg(prevItem.x, Max(prevItem.y, item.y), prevItem.width)];
        } else {
          skyline := skyline[pit := Seg(item.x, Max(nextItem.y, item.y), item.width)];
          skyline := skyline[pit + 1 := Seg(nextItem.x, Max(nextItem.y, item.y), nextItem.width)];
        }
      }
    }

    /** Direct fit (DataStructures.swift:210-221): the item lands on the left
        end of segment `b`, which is split into the raised footprint and any
        remainder at the old height. */
    method DirectFit(b: nat, w: real, h: real) returns (rect: Rect)
      requires Valid() && b < |skyline| && 0.0 < w <= skyline[b].width && h > 0.0
      modifies this
      ensures skyline == Replace(old(skyline), b, b + 1, Split(old(skyline)[b], w, h))
      ensures rect == Rect(old(skyline)[b].x, old(skyline)[b].y, w, h)
      ensures Valid() && b < |skyline| && skyline[b] == Seg(rect.x, rect.y + h, w)
      ensures NoLower(old(skyline), skyline)
    {
      var current := skyline;
      var best := current[b];
      var inserted := Seg(best.x, best.y + h, w);
      var remaining := Seg(best.x + w, best.y, best.width - w);
      DirectFitSound(current, maxWidth, b, w, h);
      if remaining.width > 0.0 {
        assert [inserted, remaining] == Split(best, w, h);
        skyline := Replace(current, b, b + 1, [inserted, remaining]);
      } else {
        assert [inserted] == Split(best, w, h);
        skyline := Replace(current, b, b + 1, [inserted]);
      }
      rect := Rect(best.x, best.y, w, h);
    }

    /** Absorption fit (DataStructures.swift:153-190), reached when every
        segment is narrower than the item: the segments are visited lowest
        first; the first whose basin is at least `w` wide takes the item at
        the basin's left edge and at its own height. */
    method Absorb(w: real, h: real) returns (placed: bool, rect: Rect, seed: nat, l: nat, ghost cur: nat, r: nat)
      requires Valid() && skyline != [] && w > 0.0 && h > 0.0
      requires forall i :: 0 <= i < |skyline| ==> skyline[i].width < w
      modifies this
      ensures Valid() && skyline != []
      ensures !placed ==> skyline == old(skyline)
      ensures !placed ==> forall i :: 0 <= i < |old(skyline)| ==> BasinNarrower(old(skyline), i, w)
      ensures placed ==> IsBasin(old(skyline), seed, l, r) && SumWidths(old(skyline)[l..r + 1]) >= w
      ensures placed ==> forall i :: 0 <= i < |old(skyline)| && Before(old(skyline), i, seed) ==> BasinNarrower(old(skyline), i, w)
      ensures placed ==> rect == Rect(old(skyline)[l].x, old(skyline)[seed].y, w, h)
      ensures placed ==> l < cur <= r && skyline == Replace(old(skyline), l, r + 1, Absorbed(old(skyline), l, cur, r, w, old(skyline)[seed].y, h))
      ensures placed ==> l < |skyline| && skyline[l] == Seg(rect.x, rect.y + h, w)
      ensures placed ==> NoLower(old(skyline), skyline)
      ensures placed ==> Absorption(old(skyline), w, h, seed, l, cur, r, rect, skyline)
    {
      rect, cur := Zero, 0;
      placed, seed, l, r := FindBasin(skyline, w);
      if placed {
        rect, cur := FillBasin(seed, l, r, w, h);
      }
    }

    /** Fills basin `[l..r]` of segment `seed` with the item
        (DataStructures.swift:176-188). */
    method FillBasin(seed: nat, l: nat, r: nat, w: real, h: real) returns (rect: Rect, ghost cur: nat)
      requires Valid() && IsBasin(skyline, seed, l, r) && w > 0.0 && h > 0.0
      requires forall i :: 0 <= i < |skyline| ==> skyline[i].width < w
      requires SumWidths(skyline[l..r + 1]) >= w
      modifies this
      ensures l < cur <= r
      ensures SumWidths(old(skyline)[l..cur]) < w <= SumWidths(old(skyline)[l..cur]) + old(skyline)[cur].width
      ensures skyline == Replace(old(skyline), l, r + 1, Absorbed(old(skyline), l, cur, r, w, old(skyline)[seed].y, h))
      ensures rect == Rect(old(skyline)[l].x, old(skyline)[seed].y, w, h)
      ensures Valid() && l < |skyline| && skyline[l] == Seg(rect.x, rect.y + h, w)
      ensures NoLower(old(skyline), skyline)
    {
      var current := skyline;
      var item := current[seed];
      rect := Rect(current[l].x, item.y, w, h);
      var replacementSkyline := [Seg(current[l].x, item.y + h, w)];
      var currentLookup, widthSoFar := ConsumedUpTo(current, l, r, w);
      FillSound(current, maxWidth, seed, l, currentLookup, r, w, h);
      var remainingWidth := End(current[currentLookup]) - (rect.x + rect.width);
      ghost var head := replacementSkyline;
      if remainingWidth > 0.0 {
        replacementSkyline := replacementSkyline + [Seg(End(current[currentLookup]) - remainingWidth, current[currentLookup].y, remainingWidth)];
      } else {
        assert head == head + [];
      }
      ghost var middle := replacementSkyline;
      if r > currentLookup {
        replacementSkyline := replacementSkyline + current[currentLookup + 1..r + 1];
      } else {
        assert middle == middle + [];
      }
      assert replacementSkyline == Absorbed(current, l, currentLookup, r, w, item.y, h);
      skyline := Replace(current, l, r + 1, replacementSkyline);
      cur := currentLookup;
    }

    /** Fallback shelf (DataStructures.swift:192-206): a new shelf `[0, w)` at
        the highest height, followed by the segments that reach past `w`, the
        one straddling `w` clipped to start there. The shelf is recorded at
        the item's base height, not at its top. */
    method StartShelf(w: real, h: real) returns (rect: Rect)
      requires Valid() && skyline != [] && 0.0 < w <= maxWidth
      modifies this
      ensures Valid() && skyline != []
      ensures rect == Rect(0.0, MaxY(old(skyline)), w, h)
      ensures skyline == Shelf(old(skyline), w, MaxY(old(skyline)))
      ensures skyline[0] == Seg(0.0, rect.y, w)
      ensures NoLower(old(skyline), skyline)
    {
      var current := skyline;
      var base := MaxY(current);
      var newSkyline := [Seg(0.0, base, w)];
      var below := Beyond(current, w);
      var i := 0;
      while i < |below|
        invariant 0 <= i <= |below| && |newSkyline| == i + 1 && newSkyline[0] == Seg(0.0, base, w)
        invariant forall j :: 0 <= j < i ==> newSkyline[j + 1] == ClipLeft(below[j], w)
      {
        var item := below[i];
        if item.x < w {
          newSkyline := newSkyline + [Seg(w, item.y, item.x + item.width - w)];
        } else {
          newSkyline := newSkyline + [item];
        }
        i := i + 1;
      }
      ShelfBuilt(current, newSkyline, w, base);
      ShelfSound(current, maxWidth, w);
      skyline := newSkyline;
      rect := Rect(0.0, base, w, h);
    }

    /** The branch taken when every segment is narrower than the item
        (DataStructures.swift:153-207): the absorption fit, else the fallback
        shelf. */
    method PlaceWide(w: real, h: real) returns (rect: Rect, at: nat, ghost placed: bool, ghost seed: nat, ghost l: nat, ghost cur: nat, ghost r: nat)
      requires Valid() && skyline != [] && 0.0 < w <= maxWidth && h > 0.0
      requires forall i :: 0 <= i < |skyline| ==> skyline[i].width < w
      modifies this
      ensures placed ==> Absorption(old(skyline), w, h, seed, l, cur, r, rect, skyline)
      ensures !placed ==> Fallback(old(skyline), w, h, rect, skyline)
      ensures Placement(old(skyline), w, h, rect, skyline)
      ensures Valid() && at < |skyline|
      ensures skyline[at] == Seg(rect.x, rect.y + h, w) ||
              (at == 0 && skyline[0] == Seg(0.0, rect.y, w) && rect.y == MaxY(old(skyline)))
      ensures rect.width == w && rect.height == h
      ensures NoLower(old(skyline), skyline)
      ensures rect.y <= MaxY(old(skyline))
    {
      ghost var before := skyline;
      var found, start, left, right;
      found, rect, start, left, cur, right := Absorb(w, h);
      placed, seed, l, r := found, start, left, right;
      if found {
        at := left;
        AbsorptionPlaces(before, w, h, seed, l, cur, r, rect, skyline);
      } else {
        rect := StartShelf(w, h);
        at := 0;
        FallbackPlaces(before, w, h, rect, skyline);
      }
    }

    /** Placement once the profile is clean (DataStructures.swift:152-221):
        the direct fit if some segment is wide enough, else the absorption
        fit, else the fallback shelf. The footprint segment `at` is the item's
        top edge. */
    method Place(w: real, h: real) returns (rect: Rect, at: nat, ghost placed: bool, ghost seed: nat, ghost l: nat, ghost cur: nat, ghost r: nat)
      requires Valid() && skyline != [] && 0.0 < w <= maxWidth && h > 0.0
      modifies this
      ensures Placement(old(skyline), w, h, rect, skyline)
      ensures LowestFit(old(skyline), w).None? && placed ==> Absorption(old(skyline), w, h, seed, l, cur, r, rect, skyline)
      ensures LowestFit(old(skyline), w).None? && !placed ==> Fallback(old(skyline), w, h, rect, skyline)
      ensures Valid() && at < |skyline|
      ensures skyline[at] == Seg(rect.x, rect.y + h, w) ||
              (at == 0 && skyline[0] == Seg(0.0, rect.y, w) && rect.y == MaxY(old(skyline)))
      ensures skyline[at].x == rect.x && skyline[at].width == w && skyline[at].y >= rect.y
      ensures rect.width == w && rect.height == h && rect.y >= 0.0
      ensures NoLower(old(skyline), skyline)
      ensures LowestFit(old(skyline), w).Some? ==>
                var b := LowestFit(old(skyline), w).value;
                rect == Rect(old(skyline)[b].x, old(skyline)[b].y, w, h) &&
                skyline == Replace(old(skyline), b, b + 1, Split(old(skyline)[b], w, h))
      ensures rect.y <= MaxY(old(skyline))
    {
      ghost var before := skyline;
      var candidate := LowestFit(skyline, w);
      if candidate.None? {
        rect, at, placed, seed, l, cur, r := PlaceWide(w, h);
      } else {
        placed, seed, l, cur, r := false, 0, 0, 0, 0;
        at := candidate.value;
        rect := DirectFit(at, w, h);
        DirectPlaces(before, w, h, at, rect, skyline);
      }
    }

    /** A profile none of the clean-up passes would change for an item `w`
        wide: no sliver, no near-equal neighbours, no pit. */
    ghost predicate Settled(s: seq<Seg>, w: real)
      requires |s| > 0
    {
      (forall i :: 0 <= i < |s| ==> !Narrow(s[i], w, minGapWidth)) &&
      Separated(s, minGapHeight) &&
      (|s| < 3 || Pits(s, MaxY(s), minPitRatio) == [])
    }

    /** The profile after defragmentation and coalescing
        (DataStructures.swift:85-111). */
    ghost function Tidied(s: seq<Seg>, w: real): seq<Seg>
      requires Tiles(s, maxWidth) && Grounded(s) && w > 0.0
    {
      DefraggedSound(s, maxWidth, w, minGapWidth);
      CoalesceFrom(Defragged(s, maxWidth, w, minGapWidth), 0, minGapHeight)
    }

    /** Whether the pit pass (DataStructures.swift:113-150) finds a pit in the
        tidied profile, which makes the source start over. */
    ghost predicate PitFound(s: seq<Seg>, w: real)
      requires Tiles(s, maxWidth) && Grounded(s) && w > 0.0
    {
      var c := Tidied(s, w);
      |c| >= 3 && Pits(c, MaxY(c), minPitRatio) != []
    }

    /** The profile the three clean-up passes leave
        (DataStructures.swift:85-145). */
    ghost function Cleaned(s: seq<Seg>, w: real): seq<Seg>
      requires Tiles(s, maxWidth) && Grounded(s) && w > 0.0
    {
      var c := Tidied(s, w);
      if |c| >= 3 then ResolveAll(c, Pits(c, MaxY(c), minPitRatio)) else c
    }

    /** The clean-up passes keep a grounded tiling, never add a segment, and
        change nothing on a settled profile. */
    lemma CleanedSound(s: seq<Seg>, w: real)
      requires Tiles(s, maxWidth) && Grounded(s) && w > 0.0
      ensures Tiles(Cleaned(s, w), maxWidth) && Grounded(Cleaned(s, w))
      ensures |Cleaned(s, w)| <= |s|
      ensures Settled(s, w) ==> Cleaned(s, w) == s && !PitFound(s, w)
    {
      DefraggedSound(s, maxWidth, w, minGapWidth);
      var d := Defragged(s, maxWidth, w, minGapWidth);
      CoalesceSound(d, maxWidth, 0, minGapHeight);
      var c := Tidied(s, w);
      assert c == CoalesceFrom(d, 0, minGapHeight);
      if |c| >= 3 {
        ResolveAllSound(c, maxWidth, Pits(c, MaxY(c), minPitRatio));
      }
    }

    /** `trace` lists the profiles the rounds of one call start from
        (DataStructures.swift:85-150): each is a grounded tiling, and every
        round but the last found a pit and restarted (line 148) from the
        profile its clean-up left. */
    ghost predicate Restarts(trace: seq<seq<Seg>>, w: real)
      decreases |trace|
    {
      |trace| > 0 && w > 0.0 && Tiles(trace[0], maxWidth) && Grounded(trace[0]) &&
      (|trace| > 1 ==> PitFound(trace[0], w) && trace[1] == Cleaned(trace[0], w) && Restarts(trace[1..], w))
    }

    /** A call that places or gives up in its first round has one round. */
    lemma RestartsOne(s: seq<Seg>, w: real)
      requires Tiles(s, maxWidth) && Grounded(s) && w > 0.0
      ensures Restarts([s], w)
    {
    }

    /** A round that found a pit, put in front of the rounds of the
        restart, gives the rounds of the whole call. */
    lemma RestartsCons(s: seq<Seg>, rest: seq<seq<Seg>>, w: real)
      requires Tiles(s, maxWidth) && Grounded(s) && w > 0.0 && PitFound(s, w)
      requires |rest| > 0 && rest[0] == Cleaned(s, w) && Restarts(rest, w)
      ensures Restarts([s] + rest, w)
    {
      assert ([s] + rest)[1..] == rest;
    }

    /** What a call that starts from `s` with `fuel` restarts left yields
        (DataStructures.swift:85-222): its rounds `trace` begin at `s`; the
        call places exactly when the last round found no pit, and then on the
        profile that round's clean-up left; it gives up only once every
        restart is spent. */
    ghost predicate Ran(trace: seq<seq<Seg>>, s: seq<Seg>, fuel: nat, w: real, h: real, res: Outcome, t: seq<Seg>) {
      0 < |trace| <= fuel + 1 && trace[0] == s && Restarts(trace, w) &&
      Tiles(trace[|trace| - 1], maxWidth) && Grounded(trace[|trace| - 1]) &&
      (res.Done? <==> !PitFound(trace[|trace| - 1], w)) &&
      (res.Done? ==> Placement(Cleaned(trace[|trace| - 1], w), w, h, res.rect, t)) &&
      (res.OutOfFuel? ==> |trace| == fuel + 1 && t == Cleaned(trace[|trace| - 1], w))
    }

    /** A round without a pit, or with a pit and no fuel, is the whole call. */
    lemma RanOnce(s: seq<Seg>, fuel: nat, w: real, h: real, res: Outcome, t: seq<Seg>)
      requires Tiles(s, maxWidth) && Grounded(s) && w > 0.0
      requires !PitFound(s, w) ==> res.Done? && Placement(Cleaned(s, w), w, h, res.rect, t)
      requires PitFound(s, w) ==> fuel == 0 && res == OutOfFuel && t == Cleaned(s, w)
      ensures Ran([s], s, fuel, w, h, res, t)
    {
      RestartsOne(s, w);
    }

    /** A round with a pit, followed by the restart from its cleaned
        profile, is the whole call. */
    lemma RanAgain(s: seq<Seg>, rest: seq<seq<Seg>>, fuel: nat, w: real, h: real, res: Outcome, t: seq<Seg>)
      requires Tiles(s, maxWidth) && Grounded(s) && w > 0.0 && PitFound(s, w) && fuel > 0
      requires Ran(rest, Cleaned(s, w), fuel - 1, w, h, res, t)
      ensures Ran([s] + rest, s, fuel, w, h, res, t)
    {
      RestartsCons(s, rest, w);
      assert ([s] + rest)[|[s] + rest| - 1] == rest[|rest| - 1];
    }

    /** Round `k + 1` of a call starts from the profile round `k` left after
        finding a pit; every round starts from a grounded tiling. */
    lemma {:induction false} RestartsStep(trace: seq<seq<Seg>>, w: real, k: nat)
      requires Restarts(trace, w) && k < |trace|
      ensures Tiles(trace[k], maxWidth) && Grounded(trace[k])
      ensures k < |trace| - 1 ==> PitFound(trace[k], w) && trace[k + 1] == Cleaned(trace[k], w)
      decreases k
    {
      if k > 0 {
        RestartsStep(trace[1..], w, k - 1);
        assert trace[1..][k - 1] == trace[k];
        if k < |trace| - 1 {
          assert trace[1..][k] == trace[k + 1];
        }
      }
    }

    /** Two calls from the same profile go through the same rounds for as
        long as both last. */
    lemma {:induction false} RestartsAgree(t1: seq<seq<Seg>>, t2: seq<seq<Seg>>, w: real, k: nat)
      requires Restarts(t1, w) && Restarts(t2, w) && t1[0] == t2[0]
      requires k < |t1| && k < |t2|
      ensures t1[k] == t2[k]
    {
      if k > 0 {
        RestartsAgree(t1, t2, w, k - 1);
        RestartsStep(t1, w, k - 1);
        RestartsStep(t2, w, k - 1);
      }
    }

    /** Two calls from the same profile with as many rounds went through the
        same ones. */
    lemma RestartsSame(t1: seq<seq<Seg>>, t2: seq<seq<Seg>>, w: real)
      requires Restarts(t1, w) && Restarts(t2, w) && t1[0] == t2[0] && |t1| == |t2|
      ensures t1 == t2
    {
      forall k | 0 <= k < |t1| ensures t1[k] == t2[k] {
        RestartsAgree(t1, t2, w, k);
      }
    }

    /** Two traces from the same profile, each of which ends on a round
        without a pit or on its last allowed round, are the same trace. */
    lemma RestartsStopped(t1: seq<seq<Seg>>, t2: seq<seq<Seg>>, w: real, fuel: nat)
      requires Restarts(t1, w) && Restarts(t2, w) && t1[0] == t2[0]
      requires |t1| <= fuel + 1 && |t2| <= fuel + 1
      requires Tiles(t1[|t1| - 1], maxWidth) && Grounded(t1[|t1| - 1])
      requires Tiles(t2[|t2| - 1], maxWidth) && Grounded(t2[|t2| - 1])
      requires |t1| == fuel + 1 || !PitFound(t1[|t1| - 1], w)
      requires |t2| == fuel + 1 || !PitFound(t2[|t2| - 1], w)
      ensures t1 == t2
    {
      if |t1| < |t2| {
        RestartsAgree(t1, t2, w, |t1| - 1);
        RestartsStep(t2, w, |t1| - 1);
      } else if |t2| < |t1| {
        RestartsAgree(t2, t1, w, |t2| - 1);
        RestartsStep(t1, w, |t2| - 1);
      } else {
        RestartsSame(t1, t2, w);
      }
    }

    /** Two calls from the same profile with the same fuel go through the
        same rounds. */
    lemma RanTrace(trace1: seq<seq<Seg>>, trace2: seq<seq<Seg>>, s: seq<Seg>, fuel: nat, w: real, h: real,
                   res1: Outcome, t1: seq<Seg>, res2: Outcome, t2: seq<Seg>)
      requires Ran(trace1, s, fuel, w, h, res1, t1) && Ran(trace2, s, fuel, w, h, res2, t2)
      ensures trace1 == trace2
    {
      RestartsStopped(trace1, trace2, w, fuel);
    }

    /** A call is deterministic: from one profile, with the same fuel, it
        yields the same outcome and the same profile. */
    lemma RanUnique(trace1: seq<seq<Seg>>, trace2: seq<seq<Seg>>, s: seq<Seg>, fuel: nat, w: real, h: real,
                    res1: Outcome, t1: seq<Seg>, res2: Outcome, t2: seq<Seg>)
      requires Ran(trace1, s, fuel, w, h, res1, t1) && Ran(trace2, s, fuel, w, h, res2, t2)
      ensures res1 == res2 && t1 == t2
    {
      RanTrace(trace1, trace2, s, fuel, w, h, res1, t1, res2, t2);
      var last := trace1[|trace1| - 1];
      if res1.Done? {
        CleanedSound(last, w);
        PlacementUnique(Cleaned(last, w), maxWidth, w, h, res1.rect, t1, res2.rect, t2);
      }
    }

    /** The three clean-up passes that precede every placement
        (DataStructures.swift:85-150); `found` tells whether a pit was
        resolved, after which the source starts over. */
    method CleanUp(w: real) returns (found: bool)
      requires Valid() && skyline != [] && w > 0.0
      modifies this
      ensures skyline == Cleaned(old(skyline), w) && found == PitFound(old(skyline), w)
      ensures Valid() && skyline != []
      ensures |skyline| <= |old(skyline)|
      ensures Settled(old(skyline), w) ==> !found && skyline == old(skyline)
    {
      CleanedSound(skyline, w);
      Defragment(w);
      Coalesce();
      found := ResolvePits();
    }

    /** `updateSkyline(viewSize:)` (DataStructures.swift:74-225) for an item
        of size `w` x `h`. The recursive restart after a pit pass is allowed
        `fuel` more times. */
    method UpdateSkyline(w: real, h: real, fuel: nat) returns (res: Outcome)
      requires Valid()
      requires w > 0.0 && h > 0.0 ==> w <= maxWidth && (skyline == [] ==> w < maxWidth)
      modifies this
      ensures Valid()
      ensures w <= 0.0 || h <= 0.0 ==> res == Done(Zero) && skyline == old(skyline)
      ensures w > 0.0 && h > 0.0 ==> skyline != []
      ensures w > 0.0 && h > 0.0 && old(skyline) == [] ==>
                res == Done(Rect(0.0, 0.0, w, h)) && skyline == [Seg(0.0, h, w), Seg(w, 0.0, maxWidth - w)]
      ensures w > 0.0 && h > 0.0 && res.Done? ==>
                res.rect.width == w && res.rect.height == h && res.rect.y >= 0.0 &&
                0.0 <= res.rect.x && res.rect.x + w <= maxWidth
      ensures w > 0.0 && h > 0.0 && res.Done? ==>
                exists i :: 0 <= i < |skyline| && skyline[i].x == res.rect.x && skyline[i].width == w && skyline[i].y >= res.rect.y
      ensures w > 0.0 && h > 0.0 && old(skyline) != [] && Settled(old(skyline), w) ==>
                res.Done? && Placement(old(skyline), w, h, res.rect, skyline)
      ensures w > 0.0 && h > 0.0 && old(skyline) != [] && !PitFound(old(skyline), w) ==>
                res.Done? && Placement(Cleaned(old(skyline), w), w, h, res.rect, skyline)
      ensures w > 0.0 && h > 0.0 && old(skyline) != [] && PitFound(old(skyline), w) && fuel == 0 ==> res == OutOfFuel
      ensures res.OutOfFuel? ==> w > 0.0 && h > 0.0 && old(skyline) != [] && PitFound(old(skyline), w)
      ensures w > 0.0 && h > 0.0 && old(skyline) != [] ==> exists trace :: Ran(trace, old(skyline), fuel, w, h, res, skyline)
    {
      if w <= 0.0 || h <= 0.0 {
        return Done(Zero);
      }
      if skyline == [] {
        var rect := Seed(w, h);
        assert skyline[0] == Seg(rect.x, rect.y + h, w);
        return Done(rect);
      }
      ghost var start := skyline;
      ghost var trace;
      res, trace := Pack(w, h, fuel);
      if Settled(start, w) {
        CleanedSound(start, w);
      }
    }

    /** The body of `updateSkyline(viewSize:)` on a non-empty profile
        (DataStructures.swift:85-222): the clean-up passes, then either the
        restart after a resolved pit (or `OutOfFuel` once no restart is
        left) or the placement. The restart calls `Pack` again rather than
        `UpdateSkyline`: the guards there hold for a non-empty profile, so the
        two calls do the same. */
    method Pack(w: real, h: real, fuel: nat) returns (res: Outcome, ghost trace: seq<seq<Seg>>)
      requires Valid() && skyline != [] && 0.0 < w <= maxWidth && h > 0.0
      modifies this
      ensures Valid() && skyline != []
      ensures res.Done? ==>
                res.rect.width == w && res.rect.height == h && res.rect.y >= 0.0 &&
                0.0 <= res.rect.x && res.rect.x + w <= maxWidth
      ensures res.Done? ==>
                exists i :: 0 <= i < |skyline| && skyline[i].x == res.rect.x && skyline[i].width == w && skyline[i].y >= res.rect.y
      ensures !PitFound(old(skyline), w) ==> res.Done? && Placement(Cleaned(old(skyline), w), w, h, res.rect, skyline)
      ensures PitFound(old(skyline), w) && fuel == 0 ==> res == OutOfFuel
      ensures res.OutOfFuel? ==> PitFound(old(skyline), w)
      ensures Ran(trace, old(skyline), fuel, w, h, res, skyline)
      decreases fuel, 1
    {
      ghost var start := skyline;
      var found := CleanUp(w);
      if found && fuel == 0 {
        res, trace := OutOfFuel, [start];
        RanOnce(start, fuel, w, h, res, skyline);
      } else if found {
        res, trace := Restart(w, h, fuel, start);
      } else {
        res := Finish(w, h);
        trace := [start];
        RanOnce(start, fuel, w, h, res, skyline);
      }
    }

    /** A round whose pit pass found a pit, with a restart left
        (DataStructures.swift:147-148): the call starts over from the profile
        the clean-up left. */
    method Restart(w: real, h: real, fuel: nat, ghost start: seq<Seg>) returns (res: Outcome, ghost trace: seq<seq<Seg>>)
      requires Valid() && skyline != [] && 0.0 < w <= maxWidth && h > 0.0
      requires Tiles(start, maxWidth) && Grounded(start) && PitFound(start, w) && skyline == Cleaned(start, w)
      requires fuel > 0
      modifies this
      ensures Valid() && skyline != []
      ensures res.Done? ==>
                res.rect.width == w && res.rect.height == h && res.rect.y >= 0.0 &&
                0.0 <= res.rect.x && res.rect.x + w <= maxWidth
      ensures res.Done? ==>
                exists i :: 0 <= i < |skyline| && skyline[i].x == res.rect.x && skyline[i].width == w && skyline[i].y >= res.rect.y
      ensures Ran(trace, start, fuel, w, h, res, skyline)
      decreases fuel, 0
    {
      ghost var rest;
      res, rest := Pack(w, h, fuel - 1);
      trace := [start] + rest;
      RanAgain(start, rest, fuel, w, h, res, skyline);
    }

    /** The placement that ends a round without a pit
        (DataStructures.swift:152-222), with the rect's bounds. */
    method Finish(w: real, h: real) returns (res: Outcome)
      requires Valid() && skyline != [] && 0.0 < w <= maxWidth && h > 0.0
      modifies this
      ensures Valid() && skyline != [] && res.Done?
      ensures Placement(old(skyline), w, h, res.rect, skyline)
      ensures res.rect.width == w && res.rect.height == h && res.rect.y >= 0.0 &&
              0.0 <= res.rect.x && res.rect.x + w <= maxWidth
      ensures exists i :: 0 <= i < |skyline| && skyline[i].x == res.rect.x && skyline[i].width == w && skyline[i].y >= res.rect.y
    {
      var rect, at, placed, seed, l, cur, r := Place(w, h);
      Within(skyline, maxWidth, at);
      return Done(rect);
    }
  }
}
