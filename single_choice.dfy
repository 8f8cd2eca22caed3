/**
 * The single-choice section table of the survey form's clean pass
 * (cqhei_app/forms.py): twelve ordered groups of boolean fields, at most one
 * of which may be checked per group, each with its own error message.
 */
module SingleChoice {
  import opened Results
  import opened Models

  /** A single-choice group of boolean fields and the error reported for it. */
  datatype Group = Group(members: seq<Flag>, message: string)

  const SubstrateSizeGroup: Group :=
    Group([SubstrateMostlyLarge, SubstrateMostlyMedium, SubstrateMostlySmall,
           SubstrateDominatedBedrock, SubstrateMostlyVeryFine],
          "Please select only one option for Substrate Size in Section I.")

  const SmotheringGroup: Group :=
    Group([SmotheringYes, SmotheringNo],
          "Please select only one option for Smothering in Section I.")

  const SiltingGroup: Group :=
    Group([SiltingYes, SiltingNo],
          "Please select only one option for Silting in Section I.")

  const CurvinessGroup: Group :=
    Group([CurvinessTwoPlusGoodBends, CurvinessOneTwoGoodBends, CurvinessMostlyStraight,
           CurvinessVeryStraight],
          "Please select only one option for Curviness in Section III.")

  const NaturalConditionGroup: Group :=
    Group([NaturalMostlyNatural, NaturalMinorChanges, NaturalManyChanges,
           NaturalHeavyChanges],
          "Please select only one option for Natural Condition in Section III.")

  const WidthGroup: Group :=
    Group([WidthWide, WidthNarrow, WidthNone],
          "Please select only one option for Width in Section IV.")

  const LandUseGroup: Group :=
    Group([LanduseForestWetland, LanduseShrubs, LanduseOvergrownFields,
           LanduseFencedPasture, LandusePark, LanduseConservationTillage],
          "Please select only one option for Land Use in Section IV.")

  const ErosionGroup: Group :=
    Group([ErosionUrbanIndustrial, ErosionOpenPasture, ErosionSuburbanRowcrop,
           ErosionRawCollapsing],
          "Please select only one option for Erosion in Section IV.")

  const ShadingGroup: Group :=
    Group([ShadingMostly, ShadingPartly, ShadingNone],
          "Please select only one option for Shading in Section IV.")

  const DepthGroup: Group :=
    Group([DepthChestDeep, DepthWaistDeep, DepthKneeDeep, DepthAnkleDeep],
          "Please select only one option for Depth in Section V.")

  const RifflesGroup: Group :=
    Group([RifflesKneeDeepFast, RifflesAnkleCalfFast, RifflesAnkleShallowSlow,
           RifflesNone],
          "Please select only one option for Riffles in Section VI.")

  const SubstrateGroup: Group :=
    Group([SubstrateFistSize, SubstrateSmallerFist, SubstrateSmallerFingernail],
          "Please select only one option for Substrate in Section VI.")

  /** The groups, in the order in which they are checked. */
  const Sections: seq<Group> := [
    SubstrateSizeGroup, SmotheringGroup, SiltingGroup, CurvinessGroup,
    NaturalConditionGroup, WidthGroup, LandUseGroup, ErosionGroup,
    ShadingGroup, DepthGroup, RifflesGroup, SubstrateGroup
  ]

  /**
   * The position in `Sections` of the group a flag belongs to, or `None` for
   * a flag in no group.
   */
  function GroupIndex(f: Flag): Option<nat> {
    match f
    case SubstrateMostlyLarge | SubstrateMostlyMedium | SubstrateMostlySmall
       | SubstrateDominatedBedrock | SubstrateMostlyVeryFine => Some(0)
    case SmotheringYes | SmotheringNo => Some(1)
    case SiltingYes | SiltingNo => Some(2)
    case CurvinessTwoPlusGoodBends | CurvinessOneTwoGoodBends
       | CurvinessMostlyStraight | CurvinessVeryStraight => Some(3)
    case NaturalMostlyNatural | NaturalMinorChanges
       | NaturalManyChanges | NaturalHeavyChanges => Some(4)
    case WidthWide | WidthNarrow | WidthNone => Some(5)
    case LanduseForestWetland | LanduseShrubs | LanduseOvergrownFields
       | LanduseFencedPasture | LandusePark | LanduseConservationTillage => Some(6)
    case ErosionUrbanIndustrial | ErosionOpenPasture
       | ErosionSuburbanRowcrop | ErosionRawCollapsing => Some(7)
    case ShadingMostly | ShadingPartly | ShadingNone => Some(8)
    case DepthChestDeep | DepthWaistDeep | DepthKneeDeep | DepthAnkleDeep => Some(9)
    case RifflesKneeDeepFast | RifflesAnkleCalfFast
       | RifflesAnkleShallowSlow | RifflesNone => Some(10)
    case SubstrateFistSize | SubstrateSmallerFist | SubstrateSmallerFingernail => Some(11)
    case _ => None
  }

  /** How many of `members` are checked (counting repeats). */
  function CountSelected(members: seq<Flag>, checked: set<Flag>): (r: nat)
    ensures r <= |members|
    ensures r == 0 <==> forall i :: 0 <= i < |members| ==> members[i] !in checked
  {
    if members == [] then 0
    else (if members[0] in checked then 1 else 0) + CountSelected(members[1..], checked)
  }

  /** A group is violated when more than one of its members is checked. */
  predicate Violated(g: Group, checked: set<Flag>) {
    CountSelected(g.members, checked) > 1
  }

  /** More than one is selected exactly when two different positions are checked. */
  lemma {:induction false} MoreThanOneSelected(members: seq<Flag>, checked: set<Flag>)
    ensures CountSelected(members, checked) > 1 <==>
      exists i, j :: 0 <= i < j < |members| && members[i] in checked && members[j] in checked
  {
    if members != [] {
      var tail := members[1..];
      MoreThanOneSelected(tail, checked);
      if CountSelected(members, checked) > 1 {
        if members[0] in checked {
          assert CountSelected(tail, checked) != 0;
          var j :| 0 <= j < |tail| && tail[j] in checked;
          assert members[0] in checked && members[j + 1] in checked;
        } else {
          var i, j :| 0 <= i < j < |tail| && tail[i] in checked && tail[j] in checked;
          assert members[i + 1] in checked && members[j + 1] in checked;
        }
      }
    }
  }

  /** Checking flags outside a group leaves its count unchanged. */
  lemma {:induction false} CountIgnoresOutsiders(members: seq<Flag>, checked: set<Flag>, extra: set<Flag>)
    requires forall i :: 0 <= i < |members| ==> members[i] !in extra
    ensures CountSelected(members, checked + extra) == CountSelected(members, checked)
  {
    if members != [] {
      CountIgnoresOutsiders(members[1..], checked, extra);
    }
  }

  /**
   * The position of the first violated group, if any: the group the check
   * reports, since it stops at the first violation.
   */
  function FirstViolation(groups: seq<Group>, checked: set<Flag>): (r: Option<nat>)
    ensures r.Some? ==> r.value < |groups| && Violated(groups[r.value], checked)
    ensures r.Some? ==> forall k :: 0 <= k < r.value ==> !Violated(groups[k], checked)
    ensures r.None? <==> forall k :: 0 <= k < |groups| ==> !Violated(groups[k], checked)
  {
    if groups == [] then None
    else if Violated(groups[0], checked) then Some(0)
    else match FirstViolation(groups[1..], checked)
      case None => None
      case Some(k) => Some(k + 1)
  }

  /** Checking flags that belong to none of the groups changes no verdict. */
  lemma {:induction false} FirstViolationIgnoresOutsiders(groups: seq<Group>, checked: set<Flag>, extra: set<Flag>)
    requires forall k, i :: 0 <= k < |groups| && 0 <= i < |groups[k].members| ==>
      groups[k].members[i] !in extra
    ensures FirstViolation(groups, checked + extra) == FirstViolation(groups, checked)
  {
    if groups != [] {
      CountIgnoresOutsiders(groups[0].members, checked, extra);
      FirstViolationIgnoresOutsiders(groups[1..], checked, extra);
    }
  }
}
