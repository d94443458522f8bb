/** A client of the packer: a worked three-item example, in
    a container 100 wide with the default thresholds. */
module Scenario {
  import opened Profile
  import opened Selection
  import opened Rewrites
  import opened Packing

  const AfterFirst: seq<Seg> := [Seg(0.0, 20.0, 40.0), Seg(40.0, 0.0, 60.0)]
  const AfterSecond: seq<Seg> := [Seg(0.0, 20.0, 40.0), Seg(40.0, 10.0, 30.0), Seg(70.0, 0.0, 30.0)]
  const AfterThird: seq<Seg> := [Seg(0.0, 20.0, 40.0), Seg(40.0, 10.0, 30.0), Seg(70.0, 30.0, 30.0)]

  /** After the first item nothing needs cleaning for a 30-wide item, and the
      lowest segment wide enough is the free remainder. */
  lemma FirstSettled()
    ensures forall i :: 0 <= i < |AfterFirst| ==> !Narrow(AfterFirst[i], 30.0, 10.0)
    ensures Separated(AfterFirst, 2.0)
    ensures LowestFit(AfterFirst, 30.0) == Some(1)
    ensures Replace(AfterFirst, 1, 2, Split(AfterFirst[1], 30.0, 10.0)) == AfterSecond
  {
  }

  /** After the second item nothing needs cleaning for a 30-wide item, and the
      lowest segment wide enough is the last. */
  lemma SecondSettled()
    ensures forall i :: 0 <= i < |AfterSecond| ==> !Narrow(AfterSecond[i], 30.0, 10.0)
    ensures Separated(AfterSecond, 2.0)
    ensures LowestFit(AfterSecond, 30.0) == Some(2)
    ensures Replace(AfterSecond, 2, 3, Split(AfterSecond[2], 30.0, 30.0)) == AfterThird
  {
  }

  /** After the second item the tallest height is 20 and no segment is a pit:
      the shallowest ratio, 30 over 20, is far above 0.10. */
  lemma SecondPitFree()
    ensures Pits(AfterSecond, MaxY(AfterSecond), 0.10) == []
  {
    var top := MaxY(AfterSecond);
    assert top == 20.0 by {
      assert AfterSecond[0].y == 20.0 && AfterSecond[1].y < 20.0 && AfterSecond[2].y < 20.0;
    }
    forall j | 0 <= j < 3 ensures !IsPit(AfterSecond[j], top, 0.10) {
    }
  }

  /** The packer the example runs on, with the profile `s`. */
  ghost predicate ExamplePacker(packer: SkylinePacking, s: seq<Seg>)
    reads packer
  {
    packer.maxWidth == 100.0 && packer.minGapWidth == 10.0 && packer.minGapHeight == 2.0 &&
    packer.minPitRatio == 0.10 && packer.skyline == s && packer.Valid()
  }

  /** The example packer sees both profiles as settled for a 30-wide item. */
  lemma ExampleSettled(packer: SkylinePacking, s: seq<Seg>)
    requires ExamplePacker(packer, s) && (s == AfterFirst || s == AfterSecond)
    ensures packer.Settled(s, 30.0)
  {
    if s == AfterFirst {
      FirstSettled();
    } else {
      SecondSettled();
      SecondPitFree();
    }
  }

  /** The second item lands on the free remainder at the floor. */
  method PlaceSecond(packer: SkylinePacking) returns (res: Outcome)
    requires ExamplePacker(packer, AfterFirst)
    modifies packer
    ensures res == Done(Rect(40.0, 0.0, 30.0, 10.0)) && ExamplePacker(packer, AfterSecond)
  {
    FirstSettled();
    ExampleSettled(packer, AfterFirst);
    res := packer.UpdateSkyline(30.0, 10.0, 0);
  }

  /** The third item lands on the last segment, exactly as wide as it. */
  method PlaceThird(packer: SkylinePacking) returns (res: Outcome)
    requires ExamplePacker(packer, AfterSecond)
    modifies packer
    ensures res == Done(Rect(70.0, 0.0, 30.0, 30.0)) && ExamplePacker(packer, AfterThird)
  {
    SecondSettled();
    ExampleSettled(packer, AfterSecond);
    res := packer.UpdateSkyline(30.0, 30.0, 0);
  }

  /** The first item seeds the profile; the second and third each land on the
      lowest segment wide enough for them. */
  method ThreeItems() returns (first: Outcome, second: Outcome, third: Outcome, profile: seq<Seg>)
    ensures first == Done(Rect(0.0, 0.0, 40.0, 20.0))
    ensures second == Done(Rect(40.0, 0.0, 30.0, 10.0))
    ensures third == Done(Rect(70.0, 0.0, 30.0, 30.0))
    ensures profile == AfterThird
  {
    var packer := new SkylinePacking(100.0);
    first := packer.UpdateSkyline(40.0, 20.0, 0);
    assert ExamplePacker(packer, AfterFirst);
    second := PlaceSecond(packer);
    third := PlaceThird(packer);
    profile := packer.skyline;
  }
}
