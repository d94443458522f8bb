/** The index-driven read-only loops inside `updateSkyline`: the run scan of
    the height coalescing and the two scans of the absorption fit. */
module Scans {
  import opened Profile
  import opened Selection

  /** The run of near-equal heights starting at `c` (DataStructures.swift:96-101):
      it grows while a segment's height is within `minGapHeight` of the FIRST
      segment's height, and `top` is the highest height in it. */
  method HeightRun(s: seq<Seg>, c: nat, minGapHeight: real) returns (u: nat, top: real)
    requires c < |s|
    ensures c < u <= |s|
    ensures forall k :: c < k < u ==> Abs(s[k].y - s[c].y) < minGapHeight
    ensures u == |s| || Abs(s[u].y - s[c].y) >= minGapHeight
    ensures forall k :: c <= k < u ==> s[k].y <= top
    ensures exists k :: c <= k < u && s[k].y == top
    ensures u == RunEnd(s, c, c + 1, minGapHeight) && top == MaxY(s[c..u])
  {
    top := s[c].y;
    u := c + 1;
    ghost var at := c;
    while u < |s| && Abs(s[u].y - s[c].y) < minGapHeight
      invariant c < u <= |s|
      invariant forall k :: c < k < u ==> Abs(s[k].y - s[c].y) < minGapHeight
      invariant forall k :: c <= k < u ==> s[k].y <= top
      invariant c <= at < u && s[at].y == top
      invariant RunEnd(s, c, u, minGapHeight) == RunEnd(s, c, c + 1, minGapHeight)
    {
      if top < s[u].y { at := u; }
      top := Max(top, s[u].y);
      u := u + 1;
    }
    MaxYOf(s, c, u, top);
  }

  /** The basin of segment `i` (DataStructures.swift:158-170): scan left, then
      right, while the neighbours are no taller than segment `i`. */
  method Basin(s: seq<Seg>, i: nat) returns (l: nat, r: nat)
    requires i < |s|
    ensures IsBasin(s, i, l, r)
  {
    var cur: int := i - 1;
    while cur >= 0
      invariant -1 <= cur < i
      invariant forall k :: cur < k < i ==> s[k].y <= s[i].y
    {
      if s[cur].y > s[i].y { break; }
      cur := cur - 1;
    }
    // The source clamps with `max(0, currentLookup+1)`; the scan stops at -1,
    // so the clamp never applies.
    l := cur + 1;
    cur := i + 1;
    while cur < |s|
      invariant i < cur <= |s|
      invariant forall k :: i < k < cur ==> s[k].y <= s[i].y
    {
      if s[cur].y > s[i].y { break; }
      cur := cur + 1;
    }
    // Likewise `min(count-1, currentLookup-1)`: the scan stops at `|s|`.
    r := cur - 1;
  }

  /** The search of the absorption fit (DataStructures.swift:155-174, 189-190):
      the segments are visited lowest first, ties left to right, and the first
      whose basin is at least `w` wide is taken. */
  method FindBasin(s: seq<Seg>, w: real) returns (found: bool, seed: nat, l: nat, r: nat)
    ensures found ==> IsBasin(s, seed, l, r) && SumWidths(s[l..r + 1]) >= w
    ensures found ==> forall i :: 0 <= i < |s| && Before(s, i, seed) ==> BasinNarrower(s, i, w)
    ensures !found ==> forall i :: 0 <= i < |s| ==> BasinNarrower(s, i, w)
  {
    var orderedSkyline := ByHeight(s);
    var k := 0;
    while k < |orderedSkyline|
      invariant 0 <= k <= |orderedSkyline|
      invariant forall j :: 0 <= j < k ==> BasinNarrower(s, orderedSkyline[j], w)
    {
      var itemPos := orderedSkyline[k];
      var lo, hi := Basin(s, itemPos);
      var cumulativeWidth := SumWidths(s[lo..hi + 1]);
      if cumulativeWidth >= w {
        EarlierNarrower(s, orderedSkyline, k, w);
        return true, itemPos, lo, hi;
      }
      BasinNarrowerFrom(s, itemPos, lo, hi, w);
      k := k + 1;
    }
    EarlierNarrower(s, orderedSkyline, k, w);
    return false, 0, 0, 0;
  }

  /** How far into the basin `[l..r]` the item reaches
      (DataStructures.swift:178-183): `cur` is the segment holding the item's
      right edge, `widthSoFar` the width of the segments before it. */
  method ConsumedUpTo(s: seq<Seg>, l: nat, r: nat, w: real) returns (cur: nat, widthSoFar: real)
    requires l <= r < |s| && s[l].width < w <= SumWidths(s[l..r + 1])
    ensures l + 1 <= cur <= r
    ensures widthSoFar == SumWidths(s[l..cur])
    ensures widthSoFar < w <= widthSoFar + s[cur].width
  {
    assert s[l..l + 1][..0] == [];
    if l == r { assert false; }
    cur := l + 1;
    widthSoFar := s[l].width;
    while widthSoFar + s[cur].width < w
      invariant l + 1 <= cur <= r
      invariant widthSoFar == SumWidths(s[l..cur])
      invariant widthSoFar < w
      decreases r - cur
    {
      assert s[l..cur + 1][..cur - l] == s[l..cur];
      if cur == r { assert false; }
      widthSoFar := widthSoFar + s[cur].width;
      cur := cur + 1;
    }
    assert s[l..cur + 1][..cur - l] == s[l..cur];
  }
}
