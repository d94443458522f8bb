/** The expression-style parts of the packer: which segment a stage acts on
    (the source's `filter(..).first`, `min(by:)`, `map`/`filter` and
    `sorted(by:)`). */
module Selection {
  import opened Profile

  datatype Option<T> = None | Some(value: T)

  /** A sliver beyond where the item could start and narrower than the gap
      threshold (the filter at DataStructures.swift:87). */
  predicate Narrow(g: Seg, w: real, minGapWidth: real) {
    g.x >= w && g.width < minGapWidth
  }

  /** Index of the first narrow segment, if any. */
  function FirstNarrow(s: seq<Seg>, w: real, minGapWidth: real): (r: Option<nat>)
    ensures r.Some? ==> r.value < |s| && Narrow(s[r.value], w, minGapWidth)
    ensures r.Some? ==> forall i :: 0 <= i < r.value ==> !Narrow(s[i], w, minGapWidth)
    ensures r.None? <==> forall i :: 0 <= i < |s| ==> !Narrow(s[i], w, minGapWidth)
  {
    if s == [] then None
    else if Narrow(s[0], w, minGapWidth) then Some(0)
    else
      assert forall i :: 1 <= i < |s| ==> s[i] == s[1..][i - 1];
      match FirstNarrow(s[1..], w, minGapWidth)
      case None => None
      case Some(k) => Some(k + 1)
  }

  /** The direct-fit choice: among segments at least `w` wide, the lowest one,
      the leftmost on ties (Swift's `min(by:)` keeps the first minimum). */
  function LowestFit(s: seq<Seg>, w: real): (r: Option<nat>)
    ensures r.None? <==> forall i :: 0 <= i < |s| ==> s[i].width < w
    ensures r.Some? ==> r.value < |s| && s[r.value].width >= w
    ensures r.Some? ==> forall i :: 0 <= i < |s| && s[i].width >= w ==> s[r.value].y <= s[i].y
    ensures r.Some? ==> forall i :: 0 <= i < r.value && s[i].width >= w ==> s[r.value].y < s[i].y
  {
    if s == [] then None
    else
      assert forall i :: 1 <= i < |s| ==> s[i] == s[1..][i - 1];
      match LowestFit(s[1..], w)
      case None => if s[0].width >= w then Some(0) else None
      case Some(k) => if s[0].width >= w && s[0].y <= s[k + 1].y then Some(0) else Some(k + 1)
  }

  /** Where the run of near-equal heights that starts at `c` ends, scanning
      from `k` (DataStructures.swift:97-101): the first index whose height is
      `minGapHeight` or more away from the run's FIRST height, or `|s|`. */
  function RunEnd(s: seq<Seg>, c: nat, k: nat, minGapHeight: real): (u: nat)
    requires c < k <= |s|
    ensures k <= u <= |s|
    ensures forall j :: k <= j < u ==> Abs(s[j].y - s[c].y) < minGapHeight
    ensures u == |s| || Abs(s[u].y - s[c].y) >= minGapHeight
    decreases |s| - k
  {
    if k == |s| || Abs(s[k].y - s[c].y) >= minGapHeight then k
    else RunEnd(s, c, k + 1, minGapHeight)
  }

  /** The pit test of DataStructures.swift:117-118: width over depth below the
      tallest segment, the depth floored at 0.001. */
  predicate IsPit(g: Seg, top: real, minPitRatio: real) {
    g.width / Max(0.001, top - g.y) <= minPitRatio
  }

  /** Indices `i..|s|-1` whose segment is a pit, ascending. */
  function PitsFrom(s: seq<Seg>, i: nat, top: real, minPitRatio: real): (r: seq<nat>)
    requires i <= |s|
    ensures forall k :: 0 <= k < |r| ==> i <= r[k] < |s|
    ensures forall k, m :: 0 <= k < m < |r| ==> r[k] < r[m]
    ensures forall j :: i <= j < |s| ==> (j in r <==> IsPit(s[j], top, minPitRatio))
    ensures r == [] <==> forall j :: i <= j < |s| ==> !IsPit(s[j], top, minPitRatio)
    decreases |s| - i
  {
    if i == |s| then []
    else if IsPit(s[i], top, minPitRatio) then [i] + PitsFrom(s, i + 1, top, minPitRatio)
    else PitsFrom(s, i + 1, top, minPitRatio)
  }

  /** All pit indices of a profile, ascending. */
  function Pits(s: seq<Seg>, top: real, minPitRatio: real): (r: seq<nat>)
    ensures forall k :: 0 <= k < |r| ==> r[k] < |s|
    ensures forall k, m :: 0 <= k < m < |r| ==> r[k] < r[m]
    ensures forall j :: 0 <= j < |s| ==> (j in r <==> IsPit(s[j], top, minPitRatio))
    ensures r == [] <==> forall j :: 0 <= j < |s| ==> !IsPit(s[j], top, minPitRatio)
  {
    PitsFrom(s, 0, top, minPitRatio)
  }

  /** Segment `i` comes before segment `j` when it is lower, or as low and to
      the left: the order of a stable sort by height. */
  predicate Before(s: seq<Seg>, i: nat, j: nat)
    requires i < |s| && j < |s|
  {
    s[i].y < s[j].y || (s[i].y == s[j].y && i < j)
  }

  predicate SortedByHeight(s: seq<Seg>, order: seq<nat>) {
    (forall a :: 0 <= a < |order| ==> order[a] < |s|) &&
    (forall a, b :: 0 <= a < b < |order| ==> Before(s, order[a], order[b]))
  }

  /** Inserts index `k` into a height-sorted index sequence. */
  function InsertByHeight(s: seq<Seg>, order: seq<nat>, k: nat): (r: seq<nat>)
    requires k < |s| && k !in order && SortedByHeight(s, order)
    ensures |r| == |order| + 1
    ensures forall x :: x in r <==> x in order || x == k
    ensures SortedByHeight(s, r)
  {
    if order == [] then [k]
    else if Before(s, k, order[0]) then [k] + order
    else
      var rest := InsertByHeight(s, order[1..], k);
      assert order == [order[0]] + order[1..];
      assert forall b :: 0 <= b < |rest| ==> rest[b] in rest;
      [order[0]] + rest
  }

  /** Indices `0..n-1` sorted by height. */
  function SortPrefix(s: seq<Seg>, n: nat): (r: seq<nat>)
    requires n <= |s|
    ensures |r| == n
    ensures forall x: int :: x in r <==> 0 <= x < n
    ensures SortedByHeight(s, r)
  {
    if n == 0 then [] else InsertByHeight(s, SortPrefix(s, n - 1), n - 1)
  }

  /** The visiting order of the absorption fit: every index once, lowest
      segment first, ties by position (DataStructures.swift:155). */
  function ByHeight(s: seq<Seg>): (r: seq<nat>)
    ensures |r| == |s|
    ensures forall i :: 0 <= i < |s| ==> i in r
    ensures SortedByHeight(s, r)
  {
    SortPrefix(s, |s|)
  }

  /** Everything that `Before` the `k`-th visited index was visited earlier. */
  lemma VisitedEarlier(s: seq<Seg>, order: seq<nat>, k: nat, i: nat)
    requires |order| == |s| && (forall j :: 0 <= j < |s| ==> j in order) && SortedByHeight(s, order)
    requires k < |order| && i < |s| && Before(s, i, order[k])
    ensures exists a :: 0 <= a < k && order[a] == i
  {
    assert i in order;
    var a :| 0 <= a < |order| && order[a] == i;
    assert a < k;
  }

  /** `[l..r]` is the largest block around `i` whose segments are no taller
      than segment `i` (the scans at DataStructures.swift:158-170). */
  predicate IsBasin(s: seq<Seg>, i: nat, l: nat, r: nat) {
    l <= i <= r < |s| &&
    (forall k :: l <= k <= r ==> s[k].y <= s[i].y) &&
    (l == 0 || s[l - 1].y > s[i].y) &&
    (r == |s| - 1 || s[r + 1].y > s[i].y)
  }

  /** A segment has one basin. */
  lemma BasinUnique(s: seq<Seg>, i: nat, l1: nat, r1: nat, l2: nat, r2: nat)
    requires IsBasin(s, i, l1, r1) && IsBasin(s, i, l2, r2)
    ensures l1 == l2 && r1 == r2
  {
  }

  /** The basin of segment `i` is too narrow for an item `w` wide. */
  ghost predicate BasinNarrower(s: seq<Seg>, i: nat, w: real) {
    forall l: nat, r: nat :: IsBasin(s, i, l, r) ==> SumWidths(s[l..r + 1]) < w
  }

  /** Measuring one basin settles it for the segment. */
  lemma BasinNarrowerFrom(s: seq<Seg>, i: nat, l: nat, r: nat, w: real)
    requires IsBasin(s, i, l, r) && SumWidths(s[l..r + 1]) < w
    ensures BasinNarrower(s, i, w)
  {
    forall l2: nat, r2: nat | IsBasin(s, i, l2, r2) ensures SumWidths(s[l2..r2 + 1]) < w {
      BasinUnique(s, i, l, r, l2, r2);
    }
  }

  /** When the first `k` visited segments have narrow basins, so has every
      segment ordered before the `k`-th one. */
  lemma EarlierNarrower(s: seq<Seg>, order: seq<nat>, k: nat, w: real)
    requires |order| == |s| && (forall j :: 0 <= j < |s| ==> j in order) && SortedByHeight(s, order)
    requires k <= |order| && forall j :: 0 <= j < k ==> BasinNarrower(s, order[j], w)
    ensures k < |order| ==> forall i :: 0 <= i < |s| && Before(s, i, order[k]) ==> BasinNarrower(s, i, w)
    ensures k == |order| ==> forall i :: 0 <= i < |s| ==> BasinNarrower(s, i, w)
  {
    if k < |order| {
      forall i | 0 <= i < |s| && Before(s, i, order[k]) ensures BasinNarrower(s, i, w) {
        VisitedEarlier(s, order, k, i);
      }
    } else {
      forall i | 0 <= i < |s| ensures BasinNarrower(s, i, w) {
        assert i in order;
      }
    }
  }
}
