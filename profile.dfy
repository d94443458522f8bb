/** The skyline profile: segments, their tiling invariant and the geometry the
    packing stages reason about.  Every coordinate is a `real` (the source uses
    CGFloat; rounding is not modelled). */
module Profile {

  /** One segment of the skyline: it starts at `x`, is `width` wide and the
      space above it is free from height `y` on. */
  datatype Seg = Seg(x: real, y: real, width: real)

  /** The rectangle handed back for one placed item. */
  datatype Rect = Rect(x: real, y: real, width: real, height: real)

  /** The rectangle returned for a degenerate item. */
  const Zero: Rect := Rect(0.0, 0.0, 0.0, 0.0)

  function End(g: Seg): real { g.x + g.width }

  function Max(a: real, b: real): real { if a < b then b else a }

  function Abs(a: real): real { if a < 0.0 then -a else a }

  /** Point `p` lies on segment `g`. */
  predicate Covers(g: Seg, p: real) { g.x <= p < End(g) }

  /** Each segment starts where its left neighbour ends. */
  predicate Contiguous(s: seq<Seg>) {
    forall i :: 0 < i < |s| ==> End(s[i - 1]) == s[i].x
  }

  predicate Positive(s: seq<Seg>) {
    forall i :: 0 <= i < |s| ==> s[i].width > 0.0
  }

  /** `s` covers `[a, b)` exactly, left to right, with no gap, no overlap and
      no empty segment. */
  predicate Spans(s: seq<Seg>, a: real, b: real) {
    |s| > 0 && s[0].x == a && End(s[|s| - 1]) == b && Contiguous(s) && Positive(s)
  }

  /** The profile invariant: the segments tile `[0, maxWidth)`. */
  predicate Tiles(s: seq<Seg>, maxWidth: real) { Spans(s, 0.0, maxWidth) }

  /** No segment lies below the container's floor. */
  predicate Grounded(s: seq<Seg>) {
    forall i :: 0 <= i < |s| ==> s[i].y >= 0.0
  }

  /** Total width of a run of segments (the source's `reduce(0, +)`). */
  function SumWidths(s: seq<Seg>): real {
    if s == [] then 0.0 else SumWidths(s[..|s| - 1]) + s[|s| - 1].width
  }

  /** Greatest height in a non-empty profile (the source's `max(by:)`). */
  function MaxY(s: seq<Seg>): (top: real)
    requires |s| > 0
    ensures forall i :: 0 <= i < |s| ==> s[i].y <= top
    ensures exists i :: 0 <= i < |s| && s[i].y == top
  {
    if |s| == 1 then s[0].y
    else
      var rest := MaxY(s[1..]);
      assert forall i :: 1 <= i < |s| ==> s[i] == s[1..][i - 1];
      Max(s[0].y, rest)
  }

  /** A bound on the heights of a run of `s` that one of them attains is the
      run's `MaxY`. */
  lemma MaxYOf(s: seq<Seg>, c: nat, u: nat, top: real)
    requires c < u <= |s|
    requires forall k :: c <= k < u ==> s[k].y <= top
    requires exists k :: c <= k < u && s[k].y == top
    ensures MaxY(s[c..u]) == top
  {
    var t := s[c..u];
    var k :| c <= k < u && s[k].y == top;
    assert t[k - c] == s[k];
    assert forall j :: 0 <= j < |t| ==> t[j] == s[c + j];
  }

  /** The heights that occur in a profile. */
  ghost function Heights(s: seq<Seg>): set<real> {
    set i | 0 <= i < |s| :: s[i].y
  }

  /** The left edges that occur in a profile. */
  ghost function Starts(s: seq<Seg>): set<real> {
    set i | 0 <= i < |s| :: s[i].x
  }

  /** At every point covered by both profiles, `t` is at least as high as `s`. */
  ghost predicate NoLower(s: seq<Seg>, t: seq<Seg>) {
    forall i, j, p :: 0 <= i < |s| && 0 <= j < |t| && Covers(s[i], p) && Covers(t[j], p) ==> s[i].y <= t[j].y
  }

  /** Swift's `replaceSubrange(lo..<hi, with: rep)`. */
  function Replace(s: seq<Seg>, lo: nat, hi: nat, rep: seq<Seg>): (r: seq<Seg>)
    requires lo <= hi <= |s|
    ensures |r| == |s| - (hi - lo) + |rep|
  {
    s[..lo] + rep + s[hi..]
  }

  /** The widths of a contiguous run add up to the distance it spans. */
  lemma {:induction false} RunWidth(s: seq<Seg>, i: nat, j: nat)
    requires Contiguous(s) && i < j <= |s|
    ensures SumWidths(s[i..j]) == End(s[j - 1]) - s[i].x
    decreases j - i
  {
    assert s[i..j][..j - 1 - i] == s[i..j - 1];
    if i + 1 < j {
      RunWidth(s, i, j - 1);
    } else {
      assert s[i..j - 1] == [];
    }
  }

  /** A tiled profile's widths add up to the container width. */
  lemma TilesWidth(s: seq<Seg>, maxWidth: real)
    requires Tiles(s, maxWidth)
    ensures SumWidths(s) == maxWidth
  {
    RunWidth(s, 0, |s|);
    assert s[0..|s|] == s;
  }

  /** In a contiguous profile of non-empty segments, left edges rise strictly. */
  lemma {:induction false} Ordered(s: seq<Seg>, i: nat, j: nat)
    requires Contiguous(s) && Positive(s) && i < j < |s|
    ensures End(s[i]) <= s[j].x
    decreases j - i
  {
    if i + 1 < j {
      Ordered(s, i, j - 1);
    }
  }

  /** Every segment of a tiling lies inside the container. */
  lemma Within(s: seq<Seg>, maxWidth: real, i: nat)
    requires Tiles(s, maxWidth) && i < |s|
    ensures 0.0 <= s[i].x && End(s[i]) <= maxWidth
  {
    if 0 < i { Ordered(s, 0, i); }
    if i < |s| - 1 { Ordered(s, i, |s| - 1); }
  }

  /** A point on a contiguous run lies on one of the run's segments. */
  lemma {:induction false} CoverIn(s: seq<Seg>, c: nat, u: nat, p: real) returns (k: nat)
    requires Contiguous(s) && c < u <= |s| && s[c].x <= p < End(s[u - 1])
    ensures c <= k < u && Covers(s[k], p)
    decreases u - c
  {
    if p < End(s[c]) {
      k := c;
    } else {
      k := CoverIn(s, c + 1, u, p);
    }
  }

  /** In a tiling a point lies on at most one segment. */
  lemma CoverUnique(s: seq<Seg>, i: nat, j: nat, p: real)
    requires Contiguous(s) && Positive(s) && i < |s| && j < |s|
    requires Covers(s[i], p) && Covers(s[j], p)
    ensures i == j
  {
    if i < j { Ordered(s, i, j); }
    if j < i { Ordered(s, j, i); }
  }

  /** Two tilings of adjacent intervals join into a tiling of their union. */
  lemma ConcatSpans(u: seq<Seg>, v: seq<Seg>, a: real, m: real, b: real)
    requires Spans(u, a, m) && Spans(v, m, b)
    ensures Spans(u + v, a, b)
  {
    var t := u + v;
    forall i | 0 < i < |t| ensures End(t[i - 1]) == t[i].x {
      if i < |u| {
        assert t[i - 1] == u[i - 1] && t[i] == u[i];
      } else if i == |u| {
        assert t[i - 1] == u[|u| - 1] && t[i] == v[0];
      } else {
        assert t[i - 1] == v[i - 1 - |u|] && t[i] == v[i - |u|];
      }
    }
  }

  /** A non-empty run of a tiling tiles the interval it covers. */
  lemma SliceSpans(s: seq<Seg>, a: real, b: real, i: nat, j: nat)
    requires Spans(s, a, b) && i < j <= |s|
    ensures Spans(s[i..j], s[i].x, End(s[j - 1]))
  {
    var t := s[i..j];
    assert forall k :: 0 <= k < |t| ==> t[k] == s[i + k];
  }

  /** Replacing a run by segments that span exactly the same interval keeps the
      profile a tiling of the same interval. */
  lemma ReplaceSpans(s: seq<Seg>, a: real, b: real, lo: nat, hi: nat, rep: seq<Seg>)
    requires Spans(s, a, b) && lo < hi <= |s|
    requires Spans(rep, s[lo].x, End(s[hi - 1]))
    ensures Spans(Replace(s, lo, hi, rep), a, b)
  {
    if hi < |s| {
      SliceSpans(s, a, b, hi, |s|);
      assert End(s[hi - 1]) == s[hi].x;
      ConcatSpans(rep, s[hi..], s[lo].x, End(s[hi - 1]), b);
    } else {
      assert s[hi..] == [];
      assert rep + s[hi..] == rep;
    }
    assert Spans(rep + s[hi..], s[lo].x, b);
    if 0 < lo {
      SliceSpans(s, a, b, 0, lo);
      assert End(s[lo - 1]) == s[lo].x;
      ConcatSpans(s[..lo], rep + s[hi..], a, s[lo].x, b);
      assert s[0..lo] == s[..lo];
    } else {
      assert s[..lo] == [];
    }
    assert s[..lo] + rep + s[hi..] == s[..lo] + (rep + s[hi..]);
  }

  /** Replacing a run of a grounded profile by grounded segments keeps it
      grounded. */
  lemma ReplaceGrounded(s: seq<Seg>, lo: nat, hi: nat, rep: seq<Seg>)
    requires Grounded(s) && Grounded(rep) && lo <= hi <= |s|
    ensures Grounded(Replace(s, lo, hi, rep))
  {
    var t := Replace(s, lo, hi, rep);
    forall i | 0 <= i < |t| ensures t[i].y >= 0.0 {
      if i < lo {
        assert t[i] == s[i];
      } else if i < lo + |rep| {
        assert t[i] == rep[i - lo];
      } else {
        assert t[i] == s[i - lo - |rep| + hi];
      }
    }
  }

  /** The seeded profile `[(0,h,w), (w,0,maxWidth-w)]` is a tiling exactly
      when the first item is narrower than the container. */
  lemma SeedTiles(w: real, h: real, maxWidth: real)
    ensures Tiles([Seg(0.0, h, w), Seg(w, 0.0, maxWidth - w)], maxWidth) <==> 0.0 < w < maxWidth
  {
    var s := [Seg(0.0, h, w), Seg(w, 0.0, maxWidth - w)];
    if 0.0 < w < maxWidth {
      assert Contiguous(s) && Positive(s);
    }
  }
}
