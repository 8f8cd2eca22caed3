/**
 * The survey record (`CQHEISurvey` in cqhei_app/models.py): its columns, their
 * defaults, the reach-length choices and the save-time hook `clean`, which
 * rejects an "other" reach length without a custom length and otherwise
 * normalises the custom length in place.
 */
module Models {
  import opened Results

  /** A calendar date, as its day ordinal: later dates have larger ordinals. */
  type Date = int

  /** The non-boolean columns of the record. */
  datatype Field =
    | SurveyDate | RiverCode | RiverMile | Clarity | ForestUleNumber | ClusterNumber
    | RiverSite | NameGroup | ReachLength | ReachLengthCustom

  const AllFields: set<Field> :=
    {SurveyDate, RiverCode, RiverMile, Clarity, ForestUleNumber, ClusterNumber,
     RiverSite, NameGroup, ReachLength, ReachLengthCustom}

  /** Whether the column is declared `blank=True`, i.e. may be submitted empty. */
  predicate Blank(f: Field) {
    match f
    case Clarity | ForestUleNumber | ClusterNumber | ReachLengthCustom => true
    case _ => false
  }

  /** The boolean columns of the record, section by section. */
  datatype Flag =
    // Section I
    | SubstrateMostlyLarge | SubstrateMostlyMedium | SubstrateMostlySmall
    | SubstrateDominatedBedrock | SubstrateMostlyVeryFine
    | SmotheringNo | SmotheringYes
    | SiltingNo | SiltingYes
    // Section II (cover indicators, any combination allowed)
    | CoverUnderwaterTreeRootsLarge | CoverUnderwaterTreeRootlets | CoverBoulders
    | CoverBackwaters | CoverDownedTrees | CoverDeepAreas | CoverUndercutBanks
    | CoverWaterPlants | CoverShallowSlowAreas | CoverShrubsSmallTrees
    // Section III
    | CurvinessTwoPlusGoodBends | CurvinessOneTwoGoodBends | CurvinessMostlyStraight
    | CurvinessVeryStraight
    | NaturalMostlyNatural | NaturalMinorChanges | NaturalManyChanges | NaturalHeavyChanges
    // Section IV
    | WidthWide | WidthNarrow | WidthNone
    | LanduseForestWetland | LanduseShrubs | LanduseOvergrownFields
    | LanduseFencedPasture | LandusePark | LanduseConservationTillage
    | ErosionUrbanIndustrial | ErosionOpenPasture | ErosionSuburbanRowcrop
    | ErosionRawCollapsing
    | ShadingMostly | ShadingPartly | ShadingNone
    // Section V
    | DepthChestDeep | DepthWaistDeep | DepthKneeDeep | DepthAnkleDeep
    | FlowVeryFast | FlowFast | FlowModerate | FlowSlow | FlowNone
    // Section VI
    | RifflesKneeDeepFast | RifflesAnkleCalfFast | RifflesAnkleShallowSlow | RifflesNone
    | SubstrateFistSize | SubstrateSmallerFist | SubstrateSmallerFingernail

  /** The ten Section II cover indicators. */
  predicate IsCover(f: Flag) {
    match f
    case CoverUnderwaterTreeRootsLarge | CoverUnderwaterTreeRootlets | CoverBoulders
       | CoverBackwaters | CoverDownedTrees | CoverDeepAreas | CoverUndercutBanks
       | CoverWaterPlants | CoverShallowSlowAreas | CoverShrubsSmallTrees => true
    case _ => false
  }

  /** The five Section V flow indicators. */
  predicate IsFlow(f: Flag) {
    match f
    case FlowVeryFast | FlowFast | FlowModerate | FlowSlow | FlowNone => true
    case _ => false
  }

  /** The stored key and the displayed label of each reach-length choice, in order. */
  const ReachLengthChoices: seq<(string, string)> :=
    [("50m", "50m"), ("100m", "100m"), ("150m", "150m"), ("200m", "200m"),
     ("500m", "500m"), ("750m", "750m"), ("other", "Other")]

  /** The choice key that asks for a free-text length. */
  const OtherChoice: string := "other"

  /** Whether `s` is one of the stored choice keys. */
  predicate IsReachLengthChoice(s: string) {
    exists i :: 0 <= i < |ReachLengthChoices| && ReachLengthChoices[i].0 == s
  }

  /** The value of one survey row. */
  datatype SurveyRecord = SurveyRecord(
    surveyDate: Date,
    riverCode: string,
    riverMile: int,           // in hundredths of a mile
    clarity: string,
    forestUleNumber: string,
    clusterNumber: string,
    riverSite: string,
    nameGroup: string,
    reachLength: string,
    reachLengthCustom: string,
    flags: set<Flag>)         // the boolean columns that are True

  /** The error the save-time hook raises, keyed on a field. */
  datatype ValidationError = ValidationError(field: Field, message: string)

  const OtherRequiredMessage: string := "Please specify the reach length when 'Other' is selected."

  /** What a record that passed the save-time hook satisfies. */
  predicate SavedInvariant(rec: SurveyRecord) {
    && (rec.reachLength == OtherChoice ==> rec.reachLengthCustom != "")
    && (rec.reachLength != OtherChoice ==> rec.reachLengthCustom == "")
  }

  /**
   * The save-time hook on a record value: the error it raises, or the record
   * as it stands after the hook.
   */
  function CleanRecord(rec: SurveyRecord): (r: Result<SurveyRecord, ValidationError>)
    ensures r.Err? <==> rec.reachLength == OtherChoice && rec.reachLengthCustom == ""
    ensures r.Err? ==> r.error == ValidationError(ReachLengthCustom, OtherRequiredMessage)
    ensures r.Ok? ==> SavedInvariant(r.value)
    // only the custom length may change
    ensures r.Ok? ==> r.value == rec.(reachLengthCustom := r.value.reachLengthCustom)
    ensures r.Ok? && rec.reachLength == OtherChoice ==> r.value == rec
  {
    if rec.reachLength == OtherChoice && rec.reachLengthCustom == "" then
      Err(ValidationError(ReachLengthCustom, OtherRequiredMessage))
    else if rec.reachLength != OtherChoice then
      Ok(rec.(reachLengthCustom := ""))
    else
      Ok(rec)
  }

  /** Running the hook on its own successful output changes nothing. */
  lemma CleanRecordIdempotent(rec: SurveyRecord)
    requires CleanRecord(rec).Ok?
    ensures CleanRecord(CleanRecord(rec).value) == CleanRecord(rec)
  {
  }

  /** The records the hook leaves alone are exactly those satisfying the invariant. */
  lemma CleanRecordFixedPoints(rec: SurveyRecord)
    ensures CleanRecord(rec) == Ok(rec) <==> SavedInvariant(rec)
  {
  }

  /** A survey row held in memory, whose `clean` updates it in place. */
  class Survey {
    var surveyDate: Date
    var riverCode: string
    var riverMile: int
    var clarity: string
    var forestUleNumber: string
    var clusterNumber: string
    var riverSite: string
    var nameGroup: string
    var reachLength: string
    var reachLengthCustom: string
    var flags: set<Flag>

    /** The current value of the row. */
    function Record(): SurveyRecord
      reads this
    {
      SurveyRecord(surveyDate, riverCode, riverMile, clarity, forestUleNumber, clusterNumber,
                   riverSite, nameGroup, reachLength, reachLengthCustom, flags)
    }

    /**
     * A new row from the columns that have no default; the optional text
     * columns start empty and every boolean column starts False.
     */
    constructor (surveyDate: Date, riverCode: string, riverMile: int, riverSite: string,
                 nameGroup: string, reachLength: string, reachLengthCustom: string)
      ensures Record() == SurveyRecord(surveyDate, riverCode, riverMile, "", "", "",
                                       riverSite, nameGroup, reachLength, reachLengthCustom, {})
    {
      this.surveyDate := surveyDate;
      this.riverCode := riverCode;
      this.riverMile := riverMile;
      this.clarity := "";
      this.forestUleNumber := "";
      this.clusterNumber := "";
      this.riverSite := riverSite;
      this.nameGroup := nameGroup;
      this.reachLength := reachLength;
      this.reachLengthCustom := reachLengthCustom;
      this.flags := {};
    }

    /**
     * The save-time hook: fails, changing nothing, when "other" has no custom
     * length; otherwise clears the custom length unless the choice is "other".
     */
    method Clean() returns (r: Outcome<ValidationError>)
      modifies this`reachLengthCustom
      ensures CleanRecord(old(Record())).Err? ==>
        r == Fail(CleanRecord(old(Record())).error) && Record() == old(Record())
      ensures CleanRecord(old(Record())).Ok? ==>
        r == Pass && Record() == CleanRecord(old(Record())).value
      ensures r.Pass? ==> SavedInvariant(Record())
      ensures reachLength == old(reachLength)
    {
      if reachLength == OtherChoice && reachLengthCustom == "" {
        return Fail(ValidationError(ReachLengthCustom, OtherRequiredMessage));
      }
      if reachLength != OtherChoice {
        reachLengthCustom := "";
      }
      return Pass;
    }
  }
}
