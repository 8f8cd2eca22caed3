/**
 * Which group of the single-choice table each boolean field belongs to, and
 * the proof that the table partitions the grouped fields.
 */
module Partition {
  import opened Results
  import opened Models
  import opened SingleChoice

  /** Every member of `g` has `GroupIndex` `k`. */
  predicate Tagged(g: Group, k: nat) {
    forall i :: 0 <= i < |g.members| ==> GroupIndex(g.members[i]) == Some(k)
  }

  lemma SubstrateSizeTagged()
    ensures Tagged(SubstrateSizeGroup, 0)
  {
    forall i | 0 <= i < |SubstrateSizeGroup.members|
      ensures GroupIndex(SubstrateSizeGroup.members[i]) == Some(0)
    {
      if i == 0 { assert SubstrateSizeGroup.members[0] == SubstrateMostlyLarge; }
      else if i == 1 { assert SubstrateSizeGroup.members[1] == SubstrateMostlyMedium; }
      else if i == 2 { assert SubstrateSizeGroup.members[2] == SubstrateMostlySmall; }
      else if i == 3 { assert SubstrateSizeGroup.members[3] == SubstrateDominatedBedrock; }
      else if i == 4 { assert SubstrateSizeGroup.members[4] == SubstrateMostlyVeryFine; }
    }
  }

  lemma SmotheringTagged()
    ensures Tagged(SmotheringGroup, 1)
  {
    forall i | 0 <= i < |SmotheringGroup.members|
      ensures GroupIndex(SmotheringGroup.members[i]) == Some(1)
    {
      if i == 0 { assert SmotheringGroup.members[0] == SmotheringYes; }
      else if i == 1 { assert SmotheringGroup.members[1] == SmotheringNo; }
    }
  }

  lemma SiltingTagged()
    ensures Tagged(SiltingGroup, 2)
  {
    forall i | 0 <= i < |SiltingGroup.members|
      ensures GroupIndex(SiltingGroup.members[i]) == Some(2)
    {
      if i == 0 { assert SiltingGroup.members[0] == SiltingYes; }
      else if i == 1 { assert SiltingGroup.members[1] == SiltingNo; }
    }
  }

  lemma CurvinessTagged()
    ensures Tagged(CurvinessGroup, 3)
  {
    forall i | 0 <= i < |CurvinessGroup.members|
      ensures GroupIndex(CurvinessGroup.members[i]) == Some(3)
    {
      if i == 0 { assert CurvinessGroup.members[0] == CurvinessTwoPlusGoodBends; }
      else if i == 1 { assert CurvinessGroup.members[1] == CurvinessOneTwoGoodBends; }
      else if i == 2 { assert CurvinessGroup.members[2] == CurvinessMostlyStraight; }
      else if i == 3 { assert CurvinessGroup.members[3] == CurvinessVeryStraight; }
    }
  }

  lemma NaturalConditionTagged()
    ensures Tagged(NaturalConditionGroup, 4)
  {
    forall i | 0 <= i < |NaturalConditionGroup.members|
      ensures GroupIndex(NaturalConditionGroup.members[i]) == Some(4)
    {
      if i == 0 { assert NaturalConditionGroup.members[0] == NaturalMostlyNatural; }
      else if i == 1 { assert NaturalConditionGroup.members[1] == NaturalMinorChanges; }
      else if i == 2 { assert NaturalConditionGroup.members[2] == NaturalManyChanges; }
      else if i == 3 { assert NaturalConditionGroup.members[3] == NaturalHeavyChanges; }
    }
  }

  lemma WidthTagged()
    ensures Tagged(WidthGroup, 5)
  {
    forall i | 0 <= i < |WidthGroup.members|
      ensures GroupIndex(WidthGroup.members[i]) == Some(5)
    {
      if i == 0 { assert WidthGroup.members[0] == WidthWide; }
      else if i == 1 { assert WidthGroup.members[1] == WidthNarrow; }
      else if i == 2 { assert WidthGroup.members[2] == WidthNone; }
    }
  }

  lemma LandUseTagged()
    ensures Tagged(LandUseGroup, 6)
  {
    forall i | 0 <= i < |LandUseGroup.members|
      ensures GroupIndex(LandUseGroup.members[i]) == Some(6)
    {
      if i == 0 { assert LandUseGroup.members[0] == LanduseForestWetland; }
      else if i == 1 { assert LandUseGroup.members[1] == LanduseShrubs; }
      else if i == 2 { assert LandUseGroup.members[2] == LanduseOvergrownFields; }
      else if i == 3 { assert LandUseGroup.members[3] == LanduseFencedPasture; }
      else if i == 4 { assert LandUseGroup.members[4] == LandusePark; }
      else if i == 5 { assert LandUseGroup.members[5] == LanduseConservationTillage; }
    }
  }

  lemma ErosionTagged()
    ensures Tagged(ErosionGroup, 7)
  {
    forall i | 0 <= i < |ErosionGroup.members|
      ensures GroupIndex(ErosionGroup.members[i]) == Some(7)
    {
      if i == 0 { assert ErosionGroup.members[0] == ErosionUrbanIndustrial; }
      else if i == 1 { assert ErosionGroup.members[1] == ErosionOpenPasture; }
      else if i == 2 { assert ErosionGroup.members[2] == ErosionSuburbanRowcrop; }
      else if i == 3 { assert ErosionGroup.members[3] == ErosionRawCollapsing; }
    }
  }

  lemma ShadingTagged()
    ensures Tagged(ShadingGroup, 8)
  {
    forall i | 0 <= i < |ShadingGroup.members|
      ensures GroupIndex(ShadingGroup.members[i]) == Some(8)
    {
      if i == 0 { assert ShadingGroup.members[0] == ShadingMostly; }
      else if i == 1 { assert ShadingGroup.members[1] == ShadingPartly; }
      else if i == 2 { assert ShadingGroup.members[2] == ShadingNone; }
    }
  }

  lemma DepthTagged()
    ensures Tagged(DepthGroup, 9)
  {
    forall i | 0 <= i < |DepthGroup.members|
      ensures GroupIndex(DepthGroup.members[i]) == Some(9)
    {
      if i == 0 { assert DepthGroup.members[0] == DepthChestDeep; }
      else if i == 1 { assert DepthGroup.members[1] == DepthWaistDeep; }
      else if i == 2 { assert DepthGroup.members[2] == DepthKneeDeep; }
      else if i == 3 { assert DepthGroup.members[3] == DepthAnkleDeep; }
    }
  }

  lemma RifflesTagged()
    ensures Tagged(RifflesGroup, 10)
  {
    forall i | 0 <= i < |RifflesGroup.members|
      ensures GroupIndex(RifflesGroup.members[i]) == Some(10)
    {
      if i == 0 { assert RifflesGroup.members[0] == RifflesKneeDeepFast; }
      else if i == 1 { assert RifflesGroup.members[1] == RifflesAnkleCalfFast; }
      else if i == 2 { assert RifflesGroup.members[2] == RifflesAnkleShallowSlow; }
      else if i == 3 { assert RifflesGroup.members[3] == RifflesNone; }
    }
  }

  lemma SubstrateTagged()
    ensures Tagged(SubstrateGroup, 11)
  {
    forall i | 0 <= i < |SubstrateGroup.members|
      ensures GroupIndex(SubstrateGroup.members[i]) == Some(11)
    {
      if i == 0 { assert SubstrateGroup.members[0] == SubstrateFistSize; }
      else if i == 1 { assert SubstrateGroup.members[1] == SubstrateSmallerFist; }
      else if i == 2 { assert SubstrateGroup.members[2] == SubstrateSmallerFingernail; }
    }
  }

  /** Every group of the table holds only flags tagged with its own position. */
  lemma TableTagged()
    ensures forall k :: 0 <= k < |Sections| ==> Tagged(Sections[k], k)
  {
    SubstrateSizeTagged();
    SmotheringTagged();
    SiltingTagged();
    CurvinessTagged();
    NaturalConditionTagged();
    WidthTagged();
    LandUseTagged();
    ErosionTagged();
    ShadingTagged();
    DepthTagged();
    RifflesTagged();
    SubstrateTagged();
    forall k | 0 <= k < |Sections|
      ensures Tagged(Sections[k], k)
    {
      if k == 0 { assert Sections[0] == SubstrateSizeGroup; }
      else if k == 1 { assert Sections[1] == SmotheringGroup; }
      else if k == 2 { assert Sections[2] == SiltingGroup; }
      else if k == 3 { assert Sections[3] == CurvinessGroup; }
      else if k == 4 { assert Sections[4] == NaturalConditionGroup; }
      else if k == 5 { assert Sections[5] == WidthGroup; }
      else if k == 6 { assert Sections[6] == LandUseGroup; }
      else if k == 7 { assert Sections[7] == ErosionGroup; }
      else if k == 8 { assert Sections[8] == ShadingGroup; }
      else if k == 9 { assert Sections[9] == DepthGroup; }
      else if k == 10 { assert Sections[10] == RifflesGroup; }
      else if k == 11 { assert Sections[11] == SubstrateGroup; }
    }
  }

  /**
   * The flags that belong to no group are exactly the cover and flow
   * indicators, and every other flag is listed in the group `GroupIndex` names.
   */
  lemma UngroupedFlags()
    ensures forall f :: GroupIndex(f).None? <==> IsCover(f) || IsFlow(f)
    ensures forall f :: GroupIndex(f).Some? ==>
      GroupIndex(f).value < |Sections| && f in Sections[GroupIndex(f).value].members
  {
  }

  /** No flag is listed in two different groups. */
  lemma GroupsDisjoint()
    ensures forall k1, k2, i, j ::
      0 <= k1 < |Sections| && 0 <= k2 < |Sections| && k1 != k2 &&
      0 <= i < |Sections[k1].members| && 0 <= j < |Sections[k2].members| ==>
      Sections[k1].members[i] != Sections[k2].members[j]
  {
    TableTagged();
    forall k1, k2, i, j |
      0 <= k1 < |Sections| && 0 <= k2 < |Sections| && k1 != k2 &&
      0 <= i < |Sections[k1].members| && 0 <= j < |Sections[k2].members|
      ensures Sections[k1].members[i] != Sections[k2].members[j]
    {
    }
  }

  /** No group lists a cover or flow indicator. */
  lemma NoGroupListsCoverOrFlow()
    ensures forall k, i :: 0 <= k < |Sections| && 0 <= i < |Sections[k].members| ==>
      !IsCover(Sections[k].members[i]) && !IsFlow(Sections[k].members[i])
  {
    TableTagged();
    UngroupedFlags();
    forall k, i | 0 <= k < |Sections| && 0 <= i < |Sections[k].members|
      ensures !IsCover(Sections[k].members[i]) && !IsFlow(Sections[k].members[i])
    {
    }
  }
}
