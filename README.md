# Skyline packer model

A Dafny model of `SkylinePacking.updateSkyline(viewSize:)` from the SkylineLayout
Swift package. It is an online rectangle packer that places one item per call
into a container `maxWidth` wide. It keeps a *skyline*: an ordered list of
segments `(x, y, width)` which together tile `[0, maxWidth)`. Above each
segment, the space from height `y` upwards is free.

Every call goes through these stages:
1. It rejects degenerate sizes.
2. It seeds the profile on the first item.
3. It merges narrow slivers into their left neighbour.
4. It coalesces runs of near-equal heights.
5. It resolves pits. An interior pit and its lower neighbour both take the
   higher of their two heights; the left neighbour is used only when it is
   strictly lower than the right one. A pit at either end copies its only
   neighbour. If it resolved any pit, the whole call starts over.
6. It places the item in one of three ways:
   - on the lowest segment that is wide enough;
   - failing that, in the first basin of low segments that is wide enough, taking the basins lowest first;
   - failing that, on a fresh shelf at the highest height.

Files:

- `profile.dfy` (`Profile`): segments and rectangles. The tiling invariant
  `Tiles`, the floor invariant `Grounded`, and `NoLower` ("the profile was only
  raised"). Swift's `replaceSubrange` as `Replace`, and the geometric lemmas.
- `selection.dfy` (`Selection`): the expression-style choices. These are the
  first sliver, the lowest fitting segment, the pit list, the height order
  (a stable insertion sort over indices), and what a basin is.
- `scans.dfy` (`Scans`): the read-only index loops. These are the height-run
  scan, the two basin scans, and the width-consuming scan of the absorption
  fit.
- `rewrites.dfy` (`Rewrites`): each rewrite as a function of the profile it
  starts from, and each whole pass (`Defragged`, `CoalesceFrom`, `ResolveAll`)
  as a function too. For each one there are lemmas that it keeps the tiling
  and the floor. `NoLower` is proved only for coalescing, the direct fit, the
  absorption fit and the fallback shelf. The sliver merge and the pit pass can
  lower a segment. For them the lemmas state instead what they keep: the left
  edges and heights of the non-slivers, and no new height.
- `packing.dfy` (`Packing`): the class `SkylinePacking`, with the four
  thresholds as constants and `skyline` as its mutable field. It has one
  `modifies this` method per stage. Each stage method states its new profile
  as a function of the old one, using the functions of `Rewrites`. `Pack` and
  `UpdateSkyline`, which run the stages and may start over, state their outcome
  through the predicate `Ran` over the list of rounds the call goes through.
  `RanUnique` proves that `Ran` allows only one outcome. `Placement`
  states what the placement stage may yield: the direct fit, else the
  absorption fit, else the fallback. `PlacementUnique` proves that it allows
  only one outcome. `UpdateSkyline` runs the stages in the source's order,
  through `Pack` once the profile is non-empty.
- `scenario.dfy` (`Scenario`): a client that packs three items into a
  container 100 wide and obtains the exact rectangles and final profile.

`CGFloat` is modelled as `real`. The pit-driven restart is bounded by a `fuel`
argument. When the fuel runs out the call returns `OutOfFuel`.

## Model

| member | source | states |
|---|---|---|
| Profile.MaxY | Sources/SkylineLayout/DataStructures.swift:114 | the tallest height: no segment is higher, and some segment attains it |
| Profile.MaxYOf | Sources/SkylineLayout/DataStructures.swift:96-101 | the highest height of the run `[c, u)` is `top` when no height of the run exceeds `top` and one of them equals it |
| Profile.SumWidths | Sources/SkylineLayout/DataStructures.swift:104 | the total width of a run, the source's `reduce(0, +)` over widths |
| Profile.RunWidth | Sources/SkylineLayout/DataStructures.swift:104 | the widths of a contiguous run add up to the run's right end minus its left edge |
| Profile.TilesWidth | Sources/SkylineLayout/DataStructures.swift:80-81 | the widths of a tiling of `[0, maxWidth)` add up to `maxWidth` |
| Profile.Within | Sources/SkylineLayout/DataStructures.swift:221 | every segment of a tiling lies inside `[0, maxWidth]` |
| Profile.ReplaceSpans | Sources/SkylineLayout/DataStructures.swift:89 | replacing a run by segments that span exactly the same interval keeps the tiling |
| Profile.Replace | Sources/SkylineLayout/DataStructures.swift:89 | `replaceSubrange` removes `hi - lo` segments and inserts the replacement |
| Profile.ConcatSpans | Sources/SkylineLayout/DataStructures.swift:187 | tilings of two adjacent intervals join into a tiling of their union |
| Profile.SliceSpans | Sources/SkylineLayout/DataStructures.swift:187 | a non-empty run of a tiling tiles the interval it covers |
| Profile.ReplaceGrounded | Sources/SkylineLayout/DataStructures.swift:187 | replacing a run of a grounded profile by grounded segments keeps it grounded |
| Profile.SeedTiles | Sources/SkylineLayout/DataStructures.swift:80-81 | the seeded profile is a tiling if and only if `0 < w < maxWidth` |
| Selection.FirstNarrow | Sources/SkylineLayout/DataStructures.swift:87 | the first segment with `x >= w` and `width < minGapWidth`, with none before it; `None` exactly when there is no such segment |
| Selection.Narrow | Sources/SkylineLayout/DataStructures.swift:87 | a sliver: it starts at or beyond `w` and is narrower than `minGapWidth` |
| Selection.LowestFit | Sources/SkylineLayout/DataStructures.swift:210 | `None` exactly when no segment is `w` wide; otherwise a segment at least `w` wide, no higher than any other such segment and strictly lower than every earlier one, so ties go to the leftmost |
| Selection.RunEnd | Sources/SkylineLayout/DataStructures.swift:97-101 | the end of the run from `c`: every segment before it is within `minGapHeight` of segment `c`, and it is the end of the profile or the first segment that is not |
| Selection.IsPit | Sources/SkylineLayout/DataStructures.swift:117-118 | the pit test: width over `max(0.001, top - y)` is at most `minPitRatio` |
| Selection.PitsFrom | Sources/SkylineLayout/DataStructures.swift:117-118 | the pit indices from `i` on, strictly ascending: an index is included exactly when its segment passes the ratio test |
| Selection.Pits | Sources/SkylineLayout/DataStructures.swift:117-118 | every index whose `width / max(0.001, top - y)` is at most `minPitRatio`, ascending, and no other index; empty exactly when no segment is a pit |
| Selection.InsertByHeight | Sources/SkylineLayout/DataStructures.swift:155 | inserting an index keeps the order by height (ties by position) and adds exactly that index |
| Selection.Before | Sources/SkylineLayout/DataStructures.swift:155 | the visiting order: lower first, and by position on equal heights |
| Selection.SortPrefix | Sources/SkylineLayout/DataStructures.swift:155 | the indices `0..n-1`, each once, ordered by height with ties by position |
| Selection.ByHeight | Sources/SkylineLayout/DataStructures.swift:155 | the visiting order of the absorption fit: every index once, lowest first, ties by position |
| Selection.VisitedEarlier | Sources/SkylineLayout/DataStructures.swift:156 | every segment ordered before the `k`-th visited one was visited before it |
| Selection.BasinUnique | Sources/SkylineLayout/DataStructures.swift:158-170 | a segment has only one basin |
| Selection.IsBasin | Sources/SkylineLayout/DataStructures.swift:158-170 | `[l..r]` is the largest block around the seed with no segment taller than it |
| Selection.BasinNarrowerFrom | Sources/SkylineLayout/DataStructures.swift:171-174 | a basin found narrower than `w` is the only basin of its seed, so that seed cannot take the item |
| Selection.EarlierNarrower | Sources/SkylineLayout/DataStructures.swift:155-174 | when the first `k` visited seeds have basins narrower than `w`, so does every segment ordered before the `k`-th, and, once all were visited, every segment |
| Scans.HeightRun | Sources/SkylineLayout/DataStructures.swift:96-101 | the run grows while a height is within `minGapHeight` of the run's first height (not of its neighbour's), stops at the first that is not, and `top` is the run's highest height |
| Scans.Basin | Sources/SkylineLayout/DataStructures.swift:158-170 | `[l..r]` is the largest block around the seed whose segments are no taller than the seed |
| Scans.FindBasin | Sources/SkylineLayout/DataStructures.swift:155-174 | the first visited seed whose basin is at least `w` wide: every segment ordered before it has a narrower basin; when none is found, every basin is narrower than `w` |
| Scans.ConsumedUpTo | Sources/SkylineLayout/DataStructures.swift:178-183 | the scan index stays in `[l+1, r]` and stops at the segment holding the item's right edge: the width before it is below `w`, and with it at least `w` |
| Rewrites.SameShapeSpans | Sources/SkylineLayout/DataStructures.swift:123-145 | changing only heights keeps the tiling |
| Rewrites.AnchorsDetermine | Sources/SkylineLayout/DataStructures.swift:87-91 | two tilings of one interval with the same left edges and heights are equal |
| Rewrites.ReplaceRaises | Sources/SkylineLayout/DataStructures.swift:105 | replacing a run by a spanning replacement that raises the run raises the whole profile |
| Rewrites.NoLowerRefl | Sources/SkylineLayout/DataStructures.swift:94-111 | a tiling is no lower than itself, so a pass that changes nothing never lowers it |
| Rewrites.NoLowerTrans | Sources/SkylineLayout/DataStructures.swift:94-111 | two raising steps in a row raise the profile |
| Rewrites.CoalescedTiles | Sources/SkylineLayout/DataStructures.swift:102-105 | merging a run into `(x_first, top, sum of widths)` keeps the tiling and never lowers the profile |
| Rewrites.Coalesced | Sources/SkylineLayout/DataStructures.swift:104-105 | the run `[c, u)` becomes one segment `(x_c, top, sum of widths)` at position `c`, and the profile is `u - c - 1` segments shorter |
| Rewrites.CoalescedFrom | Sources/SkylineLayout/DataStructures.swift:104-105 | after a merge every left edge and every height already occurred before it |
| Rewrites.CoalesceFrom | Sources/SkylineLayout/DataStructures.swift:93-111 | the coalescing pass from index `c` on, merging each run and examining the merged segment again |
| Rewrites.CoalesceSound | Sources/SkylineLayout/DataStructures.swift:93-111 | the coalescing pass keeps the tiling and the floor, never adds a segment, never lowers the profile, and introduces no new left edge or height; a profile whose neighbours are `minGapHeight` apart is unchanged |
| Rewrites.KeptConcat | Sources/SkylineLayout/DataStructures.swift:87 | keeping the non-slivers of a concatenation keeps them of each part |
| Rewrites.KeptAll | Sources/SkylineLayout/DataStructures.swift:87 | a profile without slivers keeps all its segments |
| Rewrites.DefragExit | Sources/SkylineLayout/DataStructures.swift:87-91 | once no sliver is left, the profile has exactly the left edges and heights of the old non-slivers, and a profile that had no sliver is unchanged |
| Rewrites.MergeKeepsAnchors | Sources/SkylineLayout/DataStructures.swift:88-89 | merging the first sliver into its left neighbour keeps the left edges and heights of the non-sliver segments |
| Rewrites.Widen | Sources/SkylineLayout/DataStructures.swift:89 | the merged segment keeps the neighbour's left edge and height and ends where the sliver ended |
| Rewrites.MergeSound | Sources/SkylineLayout/DataStructures.swift:87-89 | the first sliver always has a left neighbour (`offset-1` is a valid index), and merging into it keeps the tiling, the floor and the non-sliver anchors |
| Rewrites.Defragged | Sources/SkylineLayout/DataStructures.swift:87-91 | the defragmentation pass: merge the first sliver until none is left |
| Rewrites.DefraggedSound | Sources/SkylineLayout/DataStructures.swift:87-91 | the pass keeps the tiling and the floor, leaves no sliver, never adds a segment, and leaves exactly the left edges and heights of the old non-slivers; a profile without slivers is unchanged |
| Rewrites.ResolvePit | Sources/SkylineLayout/DataStructures.swift:124-144 | only heights change, and only those already present. A segment two or more places away is untouched. An edge pit copies its neighbour's height. An interior pit and its lower neighbour (the left one only if strictly lower) take the higher of their two heights |
| Rewrites.ResolveAll | Sources/SkylineLayout/DataStructures.swift:123 | resolving the pits from the last to the first never changes a left edge, a width or the count |
| Rewrites.ResolveAllHeights | Sources/SkylineLayout/DataStructures.swift:123-145 | the pass introduces no new height |
| Rewrites.ResolveAllUntouched | Sources/SkylineLayout/DataStructures.swift:123-145 | a segment that is neither a pit nor next to one is left alone |
| Rewrites.ResolveAllSound | Sources/SkylineLayout/DataStructures.swift:113-145 | the pit pass keeps the tiling and the floor, introduces no new height and leaves segments far from pits alone |
| Rewrites.HeightsGrounded | Sources/SkylineLayout/DataStructures.swift:123-145 | a profile whose heights all occur in a grounded profile is grounded |
| Rewrites.SplitSpans | Sources/SkylineLayout/DataStructures.swift:212-220 | the footprint `(x, y+h, w)` plus the remainder, present only when wider than 0, spans exactly the chosen segment |
| Rewrites.Split | Sources/SkylineLayout/DataStructures.swift:212-220 | the footprint `(x, y+h, w)` first, then the remainder at the old height ending where the segment ended, present exactly when the segment is wider than `w` |
| Rewrites.SplitRaises | Sources/SkylineLayout/DataStructures.swift:212-215 | the direct fit never lowers the chosen segment |
| Rewrites.DirectFitSound | Sources/SkylineLayout/DataStructures.swift:210-221 | the direct fit keeps the tiling and the floor and never lowers the profile |
| Rewrites.AbsorbedSpans | Sources/SkylineLayout/DataStructures.swift:177-187 | the replacement covers exactly the basin's span `[x_l, x_r + width_r)` and starts with the footprint |
| Rewrites.Absorbed | Sources/SkylineLayout/DataStructures.swift:177-186 | the absorption replacement: the footprint `(x_l, y + h, w)`, then the unconsumed part of segment `cur` at its own height when that part is wider than 0, then the basin's segments after `cur` unchanged |
| Rewrites.AbsorbedRaises | Sources/SkylineLayout/DataStructures.swift:177-187 | the replacement never lowers any basin segment |
| Rewrites.AbsorbedGrounded | Sources/SkylineLayout/DataStructures.swift:177-186 | the replacement stays above the floor |
| Rewrites.AbsorbedSound | Sources/SkylineLayout/DataStructures.swift:174-188 | the absorption fit keeps the tiling and the floor and never lowers the profile |
| Rewrites.FillSound | Sources/SkylineLayout/DataStructures.swift:176-187 | filling the basin up to the segment that holds the item's right edge keeps the tiling and the floor, never lowers the profile, and puts the footprint `(x_l, seed.y + h, w)` at `l` |
| Rewrites.BeyondMembers | Sources/SkylineLayout/DataStructures.swift:196 | exactly the segments whose right end lies past `w` |
| Rewrites.Beyond | Sources/SkylineLayout/DataStructures.swift:196 | the `filter` of the segments reaching past `w`, never longer than the profile |
| Rewrites.ClipLeft | Sources/SkylineLayout/DataStructures.swift:198-202 | a kept segment starts at the larger of its left edge and `w`, and keeps its height and right end |
| Rewrites.ClipEach | Sources/SkylineLayout/DataStructures.swift:197-203 | every kept segment is clipped on its own: it starts at the larger of its left edge and `w`, keeps its height and keeps its right end, and the count is unchanged |
| Rewrites.BeyondOfTiling | Sources/SkylineLayout/DataStructures.swift:196 | in a tiling the kept segments are the suffix starting at the segment covering `w` |
| Rewrites.BeyondSuffix | Sources/SkylineLayout/DataStructures.swift:196 | when the segments before `k` end at or left of `w` and the rest past it, the kept segments are exactly the suffix from `k` |
| Rewrites.SuffixSpans | Sources/SkylineLayout/DataStructures.swift:196 | a suffix of a tiling tiles the rest of the interval |
| Rewrites.ClipSpans | Sources/SkylineLayout/DataStructures.swift:197-203 | clipping the kept segments at `w` gives a tiling of `[w, maxWidth)`: the first becomes `(w, y, end - w)` and the rest are unchanged |
| Rewrites.PrependShelf | Sources/SkylineLayout/DataStructures.swift:194 | putting the shelf `(0, base, w)` in front of a tiling of `[w, maxWidth)` gives a tiling of `[0, maxWidth)` |
| Rewrites.ShelfAt | Sources/SkylineLayout/DataStructures.swift:194-203 | for an inner `w`, the fallback profile is the shelf at `base` followed by the segments from the one covering `w` on, clipped |
| Rewrites.FullShelf | Sources/SkylineLayout/DataStructures.swift:192-204 | a shelf as wide as the container replaces the whole profile |
| Rewrites.Shelf | Sources/SkylineLayout/DataStructures.swift:192-204 | the fallback profile: the shelf `(0, base, w)` first, followed by one segment per kept segment |
| Rewrites.ShelfTiles | Sources/SkylineLayout/DataStructures.swift:192-204 | the fallback profile is a tiling of `[0, maxWidth)` when `w <= maxWidth` |
| Rewrites.ShelfRaises | Sources/SkylineLayout/DataStructures.swift:193-203 | the shelf at the highest height and the kept segments never lower the profile |
| Rewrites.ShelfRaisesInner | Sources/SkylineLayout/DataStructures.swift:193-203 | for an inner `w`, a shelf at or above every height followed by the clipped tail never lowers the profile |
| Rewrites.ClippedRaises | Sources/SkylineLayout/DataStructures.swift:197-203 | a profile headed by a segment as high as any of the old ones, followed by old segments clipped at `w`, is no lower than the old profile |
| Rewrites.ShelfGrounded | Sources/SkylineLayout/DataStructures.swift:193-204 | the fallback profile stays above the floor |
| Rewrites.ShelfBuilt | Sources/SkylineLayout/DataStructures.swift:192-204 | appending the shelf and then each clipped segment reaching past `w` builds exactly the fallback profile |
| Rewrites.ShelfSound | Sources/SkylineLayout/DataStructures.swift:192-204 | the fallback at the highest height keeps the tiling and the floor and never lowers the profile |
| Packing.Absorption | Sources/SkylineLayout/DataStructures.swift:153-190 | an absorption fit: the first basin in visiting order at least `w` wide, the segment `cur` holding the item's right edge, the rect `{x_l, seed.y, w, h}` and the absorbed profile |
| Packing.Fallback | Sources/SkylineLayout/DataStructures.swift:191-206 | the fallback: every basin is narrower than `w`, the rect is `{0, max y, w, h}` and the profile is the shelf profile |
| Packing.Placement | Sources/SkylineLayout/DataStructures.swift:152-222 | the placement stage: the direct fit on the lowest wide-enough segment, else an absorption fit, else the fallback |
| Packing.WidthPast | Sources/SkylineLayout/DataStructures.swift:178-183 | in a contiguous run of positive widths, the width up to and including `a` is at most the width up to any later `b` |
| Packing.AbsorptionUnique | Sources/SkylineLayout/DataStructures.swift:153-190 | two absorption fits of one tiling use the same seed, basin and right-edge segment |
| Packing.AbsorptionNotFallback | Sources/SkylineLayout/DataStructures.swift:153-206 | when an absorption fit exists the fallback is not taken |
| Packing.PlacementUnique | Sources/SkylineLayout/DataStructures.swift:152-222 | on a tiling the placement stage admits exactly one rect and one new profile |
| Packing.SkylinePacking.constructor | Sources/SkylineLayout/DataStructures.swift:23-33 | the thresholds default to 10, 2 and 0.10, and the profile starts empty |
| Packing.SkylinePacking.Seed | Sources/SkylineLayout/DataStructures.swift:79-82 | the profile becomes exactly `[(0,h,w), (w,0,maxWidth-w)]`, its widths sum to `maxWidth`, and the result is `{0,0,w,h}` |
| Packing.SkylinePacking.Defragment | Sources/SkylineLayout/DataStructures.swift:87-91 | the new profile is exactly `Defragged` of the old one. On exit no sliver remains. Left edges and heights are exactly those of the non-sliver segments of the old profile. The count never grows, the tiling is kept, and a profile without slivers is unchanged |
| Packing.SkylinePacking.MergeRun | Sources/SkylineLayout/DataStructures.swift:102-107 | the run is replaced by `(x_first, top, sum of widths)` and strictly shrinks the profile |
| Packing.SkylinePacking.Coalesce | Sources/SkylineLayout/DataStructures.swift:93-111 | the new profile is exactly the coalescing pass `CoalesceFrom` of the old one from index 0. It never lowers the profile and keeps the tiling. Left edges and heights are a subset of the old ones. A profile whose neighbours are all `minGapHeight` apart is unchanged |
| Packing.SkylinePacking.ResolvePits | Sources/SkylineLayout/DataStructures.swift:113-150 | it acts only on three or more segments. The new profile is the pits resolved right to left, with shape unchanged and no new height. It reports whether any pit was found, and no pit means no change |
| Packing.SkylinePacking.ResolveEach | Sources/SkylineLayout/DataStructures.swift:123 | the element-wise loop computes the right-to-left resolution |
| Packing.SkylinePacking.ResolveOne | Sources/SkylineLayout/DataStructures.swift:124-144 | the element assignments for one pit compute its resolution |
| Packing.SkylinePacking.DirectFit | Sources/SkylineLayout/DataStructures.swift:210-221 | the chosen segment is split into footprint and remainder, every other segment is unchanged, the result is `{x, y, w, h}`, and the profile is never lowered |
| Packing.SkylinePacking.FillBasin | Sources/SkylineLayout/DataStructures.swift:174-188 | the scan stops at the segment `cur` holding the item's right edge (the width before it is below `w`, with it at least `w`). The basin `[l..r]` is replaced by the absorbed run, the rest is unchanged, and the result is `{x_l, seed.y, w, h}` |
| Packing.SkylinePacking.Absorb | Sources/SkylineLayout/DataStructures.swift:153-190 | it takes the first basin, lowest seed first, that is at least `w` wide; every basin visited before it is narrower; a placement satisfies `Absorption`. If it places nothing, the profile is unchanged and every basin is narrower than `w` |
| Packing.SkylinePacking.StartShelf | Sources/SkylineLayout/DataStructures.swift:191-206 | the profile becomes `(0, base, w)` followed by the clipped segments reaching past `w`, at `base = max y`. The result is `{0, base, w, h}`, and the tiling and floor are kept |
| Packing.SkylinePacking.PlaceWide | Sources/SkylineLayout/DataStructures.swift:153-207 | when no segment is `w` wide: either an absorption fit or, failing that, the fallback, satisfying `Placement`; the tiling is kept and the profile is never lowered |
| Packing.SkylinePacking.Settled | Sources/SkylineLayout/DataStructures.swift:85-150 | a profile none of the clean-up passes would change: no sliver, neighbours `minGapHeight` apart, and no pit |
| Packing.SkylinePacking.Tidied | Sources/SkylineLayout/DataStructures.swift:85-111 | the profile after defragmentation and then coalescing |
| Packing.SkylinePacking.PitFound | Sources/SkylineLayout/DataStructures.swift:113-150 | whether the pit pass finds a pit in the tidied profile, which makes the source start over |
| Packing.SkylinePacking.Cleaned | Sources/SkylineLayout/DataStructures.swift:85-145 | the profile after all three clean-up passes |
| Packing.SkylinePacking.CleanedSound | Sources/SkylineLayout/DataStructures.swift:85-150 | the three clean-up passes keep a grounded tiling, never add a segment, and on a settled profile change nothing and find no pit |
| Packing.SkylinePacking.CleanUp | Sources/SkylineLayout/DataStructures.swift:85-150 | the new profile is exactly `Cleaned` of the old one and `found` is exactly `PitFound`; the tiling is kept and a settled profile is unchanged |
| Packing.SkylinePacking.Place | Sources/SkylineLayout/DataStructures.swift:152-222 | the result and the new profile are what `Placement` allows (so, by `PlacementUnique`, the only outcome). When no segment is wide enough the ghost flag tells which of absorption and fallback was taken. The returned rect bears a segment of the new profile at its left edge, `w` wide and at least at its base, and the profile is never lowered |
| Packing.SkylinePacking.UpdateSkyline | Sources/SkylineLayout/DataStructures.swift:74-225 | see the "UpdateSkyline" paragraph below the table |
| Packing.SkylinePacking.Pack | Sources/SkylineLayout/DataStructures.swift:85-222 | the call on a non-empty profile: the outcome and final profile satisfy `Ran` for the rounds `trace`, which start at the old profile. So each round but the last found a pit and restarts from its cleaned profile. The call places exactly when the last round found no pit, and then as `Placement` allows on that round's cleaned profile. It returns `OutOfFuel` only after `fuel` restarts, with the last round's cleaned profile. Without a pit in the first round the result is `Placement` on the cleaned old profile; a pit with no fuel gives `OutOfFuel` |
| Packing.SkylinePacking.Restart | Sources/SkylineLayout/DataStructures.swift:147-148 | after a round that found a pit, with a restart left, the call goes on from the cleaned profile, and `Ran` holds for the rounds from the round's start |
| Packing.SkylinePacking.Finish | Sources/SkylineLayout/DataStructures.swift:152-222 | the placement that ends a round without a pit: the result and new profile are what `Placement` allows, with the rect's bounds and the segment bearing it |
| Packing.SkylinePacking.Restarts | Sources/SkylineLayout/DataStructures.swift:85-150 | a list of rounds: each starts from a grounded tiling, and each round but the last found a pit and hands its cleaned profile to the next (line 148) |
| Packing.SkylinePacking.RestartsOne | Sources/SkylineLayout/DataStructures.swift:85-150 | a single round from a grounded tiling is a valid list of rounds |
| Packing.SkylinePacking.RestartsCons | Sources/SkylineLayout/DataStructures.swift:147-148 | a round that found a pit, followed by rounds starting from its cleaned profile, is a valid list of rounds |
| Packing.SkylinePacking.Ran | Sources/SkylineLayout/DataStructures.swift:85-222 | what a call from `s` with `fuel` restarts yields: at most `fuel + 1` rounds from `s`; `Done` exactly when the last round found no pit, with `Placement` on its cleaned profile; `OutOfFuel` only after `fuel + 1` rounds, leaving the last round's cleaned profile |
| Packing.SkylinePacking.RanOnce | Sources/SkylineLayout/DataStructures.swift:85-222 | a round without a pit that places, or a round with a pit and no fuel that gives up, satisfies `Ran` on its own |
| Packing.SkylinePacking.RanAgain | Sources/SkylineLayout/DataStructures.swift:147-148 | a round with a pit and fuel left, followed by a call from its cleaned profile with one restart less, satisfies `Ran` |
| Packing.SkylinePacking.RestartsStep | Sources/SkylineLayout/DataStructures.swift:147-148 | in a list of rounds, round `k` starts from a grounded tiling, and if it is not the last, found a pit and round `k + 1` starts from its cleaned profile |
| Packing.SkylinePacking.RestartsAgree | Sources/SkylineLayout/DataStructures.swift:85-150 | two lists of rounds from the same profile agree on every round both contain |
| Packing.SkylinePacking.RestartsSame | Sources/SkylineLayout/DataStructures.swift:85-150 | two lists of rounds from the same profile of equal length are equal |
| Packing.SkylinePacking.RestartsStopped | Sources/SkylineLayout/DataStructures.swift:85-150 | two lists of rounds from the same profile, each ending on a round without a pit or on its last allowed round, are equal |
| Packing.SkylinePacking.RanTrace | Sources/SkylineLayout/DataStructures.swift:85-222 | two calls from the same profile with the same fuel go through the same rounds |
| Packing.SkylinePacking.RanUnique | Sources/SkylineLayout/DataStructures.swift:85-222 | `Ran` determines the outcome: two calls from the same profile with the same fuel have the same result and the same final profile |
| Scenario.FirstSettled | Sources/SkylineLayout/DataStructures.swift:87-111 | after the first item nothing needs cleaning, and the second item lands on segment 1 |
| Scenario.SecondSettled | Sources/SkylineLayout/DataStructures.swift:87-111 | after the second item nothing needs cleaning, and the third item lands on segment 2 |
| Scenario.SecondPitFree | Sources/SkylineLayout/DataStructures.swift:113-119 | the three-segment profile after the second item has no pit |
| Scenario.ExampleSettled | Sources/SkylineLayout/DataStructures.swift:85-150 | the profiles after the first and the second item are settled for the next 30-wide item |
| Scenario.PlaceSecond | Sources/SkylineLayout/DataStructures.swift:209-221 | on the settled profile after the first item, the second item (30,10) is placed at `{40,0,30,10}` and the profile becomes `[(0,20,40), (40,10,30), (70,0,30)]` |
| Scenario.PlaceThird | Sources/SkylineLayout/DataStructures.swift:209-221 | on the settled profile after the second item, the third item (30,30) is placed at `{70,0,30,30}` and the profile becomes `[(0,20,40), (40,10,30), (70,30,30)]` |
| Scenario.ThreeItems | Sources/SkylineLayout/DataStructures.swift:74-225 | inserting (40,20), (30,10) and (30,30) into a 100-wide container yields `{0,0,40,20}`, `{40,0,30,10}` and `{70,0,30,30}` and the profile `[(0,20,40), (40,10,30), (70,30,30)]` |

UpdateSkyline. Its contract states the following:
- Degenerate sizes return `{0,0,0,0}` and leave the profile unchanged.
- Seeding is exact.
- The tiling and the floor are kept.
- A placed rect has the item's size, lies inside `[0, maxWidth]`, starts at or above the floor, and is borne by a segment of the new profile.
- On a non-empty settled profile the call is `Done`, and its result and new profile are what `Placement` allows, which by `PlacementUnique` is exactly one outcome.
- On a settled profile with a wide-enough segment, the direct fit's result and profile are exact.
- On a non-empty profile without a pit, the call is `Done` with what `Placement` allows on the cleaned profile. With a pit and no fuel it is `OutOfFuel`, and `OutOfFuel` happens only on a non-empty profile with a pit.
- On any non-empty profile, some list of rounds satisfies `Ran`, the closed form over all restarts. The rounds start at the old profile, and each round but the last found a pit and restarts from its cleaned profile. The call places on the last round's cleaned profile exactly when that round found no pit, and gives up only after `fuel` restarts. By `RanUnique` this is exactly one outcome.

## Left out

- `Sources/SkylineLayout/SkylineLayout.swift` (the SwiftUI `Layout` adapter) is not part of this model: it only calls into SwiftUI (`sizeThatFits`, `place`) and accumulates sizes.
- `printSkyline` and `track` (DataStructures.swift:16-20, 51-69) are debug rendering and logging and are not modelled.
- Floating-point rounding: `CGFloat` is exact `real`, so rounding noise is not captured.
- Packing.SkylinePacking.UpdateSkyline: the restart after a pit pass (line 148) has no termination argument in the source, and edge pits can lower a height (lines 127, 130). The model bounds the restarts by `fuel` and returns `OutOfFuel` beyond it. It does not claim the source terminates.
- Packing.SkylinePacking.UpdateSkyline: it requires `w <= maxWidth`, and `w < maxWidth` when the profile is empty. The source does not guard oversized items: it would build a segment of zero or negative width, or a shelf wider than the container.
- Packing.SkylinePacking.UpdateSkyline: it does not state that placements never overlap. The source does not guarantee that. The fallback records the shelf at `base` rather than `base + h` (line 194), so the next item can land inside the previous one, and edge pits can lower a height.
- Packing.SkylinePacking.Coalesce: it does not state that neighbours are `minGapHeight` apart on exit. The run test is against its first segment, and the merged height can come near the next segment again.
- Rewrites.Shelf: its own contract gives only the length and the first segment; the clipped tail is stated by `ClipEach` and `ShelfAt`.
- Selection.ByHeight: Swift's `sorted(by:)` is taken to be stable, so segments of equal height are visited left to right.
- The final `return CGRect.zero` (line 224) is unreachable, because the candidates are non-empty there. It is not modelled.
- The source has no tower flattening, no "neighbours strictly taller" pit test and no merging of pit widths; they are not modelled.
