/**
 * The submission form (`CQHEISurveyForm` in cqhei_app/forms.py): its
 * required-field declaration, the single-choice section check followed by the
 * "Other" reach-length check, and the river-mile and survey-date checks.
 */
module Forms {
  import opened Results
  import opened Models
  import opened SingleChoice
  import opened Partition

  /**
   * The form's cleaned values after the per-field pass. A missing entry is
   * `None`; `checked` holds the boolean fields whose cleaned value is True
   * (an absent or False entry reads as not checked).
   */
  datatype CleanedData = CleanedData(
    surveyDate: Option<Date>,
    riverCode: Option<string>,
    riverMile: Option<int>,    // in hundredths of a mile
    clarity: Option<string>,
    forestUleNumber: Option<string>,
    clusterNumber: Option<string>,
    riverSite: Option<string>,
    nameGroup: Option<string>,
    reachLength: Option<string>,
    reachLengthCustom: Option<string>,
    checked: set<Flag>)

  /** The messages filed on each field. */
  type Errors = map<Field, seq<string>>

  /** Files `message` under `key`, after the messages already there. */
  function AddError(errors: Errors, key: Field, message: string): (r: Errors)
    ensures r.Keys == errors.Keys + {key}
    ensures r[key] == (if key in errors then errors[key] else []) + [message]
    ensures forall k :: k in errors && k != key ==> r[k] == errors[k]
  {
    errors[key := (if key in errors then errors[key] else []) + [message]]
  }

  // ---------------------------------------------------------------------------
  // Required fields

  /** The fields the form marks as required. */
  const RequiredFields: set<Field> :=
    {SurveyDate, RiverCode, RiverMile, RiverSite, NameGroup, ReachLength}

  /**
   * The requiredness each field starts with, derived from its column: a field
   * is required unless its column allows blanks.
   */
  function DefaultRequired(): (m: map<Field, bool>)
    ensures m.Keys == AllFields
    ensures forall f :: f in m ==> (m[f] <==> !Blank(f))
  {
    map[SurveyDate := true, RiverCode := true, RiverMile := true, Clarity := false,
        ForestUleNumber := false, ClusterNumber := false, RiverSite := true,
        NameGroup := true, ReachLength := true, ReachLengthCustom := false]
  }

  /**
   * The form's explicit settings agree with the columns' declarations: a
   * field is required exactly when its column does not allow blanks.
   */
  lemma RequiredFieldsMatchColumns()
    ensures forall f: Field :: f in RequiredFields <==> !Blank(f)
    ensures ReachLengthCustom !in RequiredFields
  {
  }

  // ---------------------------------------------------------------------------
  // The form-level pass

  /** Lower-cases the ASCII capital letters of `s`. */
  function Lower(s: string): (r: string)
    ensures |r| == |s|
    ensures forall i :: 0 <= i < |s| ==> r[i] == LowerChar(s[i])
  {
    if s == [] then [] else [LowerChar(s[0])] + Lower(s[1..])
  }

  /** Maps 'A'..'Z' to 'a'..'z' and leaves every other character alone. */
  function LowerChar(c: char): char {
    if 'A' <= c <= 'Z' then (c as int + 32) as char else c
  }

  /** "other" with every letter capitalised. */
  const OtherCapitals: string := "OTHER"

  /** `s` spells "other" with each of its letters in either case. */
  predicate SpellsOther(s: string) {
    |s| == |OtherChoice| &&
    forall i :: 0 <= i < |s| ==> s[i] == OtherChoice[i] || s[i] == OtherCapitals[i]
  }

  /** Lowering gives "other" exactly for the case variants of "other". */
  lemma LowerSpellsOther(s: string)
    ensures Lower(s) == OtherChoice <==> SpellsOther(s)
  {
    if |s| == |OtherChoice| {
      forall i | 0 <= i < |s|
        ensures LowerChar(s[i]) == OtherChoice[i] <==>
                (s[i] == OtherChoice[i] || s[i] == OtherCapitals[i])
      {
      }
      if SpellsOther(s) {
        assert forall i :: 0 <= i < |s| ==> Lower(s)[i] == OtherChoice[i];
      }
    }
  }

  /**
   * Every stored reach-length key is already in lower case, so lowering a
   * valid key never changes it.
   */
  lemma ChoiceKeysAreLowerCase(s: string)
    requires IsReachLengthChoice(s)
    ensures Lower(s) == s
  {
    var i :| 0 <= i < |ReachLengthChoices| && ReachLengthChoices[i].0 == s;
    assert forall j :: 0 <= j < |s| ==> !('A' <= s[j] <= 'Z') by {
      if i == 0 { assert s == "50m"; }
      else if i == 1 { assert s == "100m"; }
      else if i == 2 { assert s == "150m"; }
      else if i == 3 { assert s == "200m"; }
      else if i == 4 { assert s == "500m"; }
      else if i == 5 { assert s == "750m"; }
      else { assert s == "other"; }
    }
    assert forall j :: 0 <= j < |s| ==> Lower(s)[j] == s[j];
  }

  const OtherLengthMessage: string := "Please specify the exact length when selecting 'Other'."

  /** Whether the form reads `s` as the "other" choice: its lower-case form is "other". */
  predicate ReadsAsOther(s: string)
    ensures ReadsAsOther(s) <==> SpellsOther(s)
  {
    LowerSpellsOther(s);
    Lower(s) == OtherChoice
  }

  /**
   * The reach length reads as "other" ignoring case, and the custom length is
   * missing or empty.
   */
  predicate MissingCustomLength(data: CleanedData)
    ensures MissingCustomLength(data) <==>
      && data.reachLength.Some? && SpellsOther(data.reachLength.value)
      && (data.reachLengthCustom.None? || data.reachLengthCustom.value == "")
  {
    && data.reachLength.Some? && data.reachLength.value != ""
    && ReadsAsOther(data.reachLength.value)
    && (data.reachLengthCustom.None? || data.reachLengthCustom.value == "")
  }

  /** How the form-level pass ends: by raising an error, or by returning the data. */
  datatype CleanResult = Raised(message: string) | Returned(data: CleanedData)

  /** The pass's result together with the form's errors afterwards. */
  datatype CleanStep = CleanStep(result: CleanResult, errors: Errors)

  /**
   * The form-level pass on `data`, with `errors` filed by the earlier
   * per-field pass: the message of the first violated group is raised;
   * otherwise the "Other" error is filed when it applies and the data is
   * returned.
   */
  function FormClean(data: CleanedData, errors: Errors): (r: CleanStep)
    ensures r.result.Returned? ==> r.result.data == data
    ensures r.result.Raised? ==> r.errors == errors
    ensures r.errors.Keys <= errors.Keys + {ReachLengthCustom}
  {
    match FirstViolation(Sections, data.checked)
    case Some(k) => CleanStep(Raised(Sections[k].message), errors)
    case None =>
      var errors' := if MissingCustomLength(data)
        then AddError(errors, ReachLengthCustom, OtherLengthMessage)
        else errors;
      CleanStep(Returned(data), errors')
  }

  /**
   * The pass raises exactly when some group is violated; it then reports the
   * first violated group in table order and, since the raise comes before
   * the reach-length check, files nothing.
   */
  lemma RaisesOnFirstViolation(data: CleanedData, errors: Errors)
    ensures FormClean(data, errors).result.Raised? <==>
      exists k :: 0 <= k < |Sections| && Violated(Sections[k], data.checked)
    ensures FormClean(data, errors).result.Raised? ==>
      exists k :: 0 <= k < |Sections| && Violated(Sections[k], data.checked)
        && FormClean(data, errors).result.message == Sections[k].message
        && forall k' :: 0 <= k' < k ==> !Violated(Sections[k'], data.checked)
    ensures FormClean(data, errors).result.Raised? ==> FormClean(data, errors).errors == errors
  {
  }

  /**
   * When the pass does not raise it returns the cleaned data unchanged, and
   * it files the "Other" error on the custom length exactly when the reach
   * length reads as "other" and the custom length is empty.
   */
  lemma ReturnsDataAndFilesOtherError(data: CleanedData, errors: Errors)
    requires FormClean(data, errors).result.Returned?
    ensures FormClean(data, errors).result.data == data
    ensures !MissingCustomLength(data) ==> FormClean(data, errors).errors == errors
    ensures MissingCustomLength(data) ==>
      FormClean(data, errors).errors == AddError(errors, ReachLengthCustom, OtherLengthMessage)
  {
  }

  /** Checking cover and flow indicators, in any combination, never changes the verdict. */
  lemma CoverAndFlowIgnored(data: CleanedData, errors: Errors, extra: set<Flag>)
    requires forall f :: f in extra ==> IsCover(f) || IsFlow(f)
    ensures FormClean(data.(checked := data.checked + extra), errors).result.Raised? ==
            FormClean(data, errors).result.Raised?
    ensures FormClean(data, errors).result.Raised? ==>
            FormClean(data.(checked := data.checked + extra), errors).result ==
            FormClean(data, errors).result
    ensures FormClean(data.(checked := data.checked + extra), errors).errors ==
            FormClean(data, errors).errors
  {
    NoGroupListsCoverOrFlow();
    FirstViolationIgnoresOutsiders(Sections, data.checked, extra);
  }

  /** A submission that checks only cover and flow indicators raises no group error. */
  lemma OnlyCoverAndFlowNeverRaise(data: CleanedData, errors: Errors)
    requires forall f :: f in data.checked ==> IsCover(f) || IsFlow(f)
    ensures FormClean(data, errors).result.Returned?
  {
    var unchecked := data.(checked := {});
    CoverAndFlowIgnored(unchecked, errors, data.checked);
    assert unchecked.(checked := unchecked.checked + data.checked) == data;
    forall k | 0 <= k < |Sections|
      ensures !Violated(Sections[k], unchecked.checked)
    {
    }
  }

  /** At most one checked member per group (none included) never raises. */
  lemma AtMostOnePerGroupPasses(data: CleanedData, errors: Errors)
    requires forall k, i, j :: 0 <= k < |Sections| && 0 <= i < j < |Sections[k].members| ==>
      !(Sections[k].members[i] in data.checked && Sections[k].members[j] in data.checked)
    ensures FormClean(data, errors).result == Returned(data)
  {
    forall k | 0 <= k < |Sections|
      ensures !Violated(Sections[k], data.checked)
    {
      MoreThanOneSelected(Sections[k].members, data.checked);
    }
  }

  /**
   * Checking exactly two members of one group reports that group's message
   * and files nothing.
   */
  lemma TwoInOneGroupReportsIt(data: CleanedData, errors: Errors, k: nat, i: nat, j: nat)
    requires k < |Sections| && i < j < |Sections[k].members|
    requires data.checked == {Sections[k].members[i], Sections[k].members[j]}
    ensures FormClean(data, errors) == CleanStep(Raised(Sections[k].message), errors)
  {
    TableTagged();
    MoreThanOneSelected(Sections[k].members, data.checked);
    forall k' | 0 <= k' < k
      ensures !Violated(Sections[k'], data.checked)
    {
      forall n | 0 <= n < |Sections[k'].members|
        ensures Sections[k'].members[n] !in data.checked
      {
        assert GroupIndex(Sections[k'].members[n]) == Some(k');
        assert GroupIndex(Sections[k].members[i]) == Some(k);
        assert GroupIndex(Sections[k].members[j]) == Some(k);
      }
    }
  }

  /**
   * When several groups are violated the first one in table order is the one
   * reported, whatever the later groups hold.
   */
  lemma FirstViolatedGroupWins(data: CleanedData, errors: Errors, k: nat)
    requires k < |Sections| && Violated(Sections[k], data.checked)
    requires forall k' :: 0 <= k' < k ==> !Violated(Sections[k'], data.checked)
    ensures FormClean(data, errors).result == Raised(Sections[k].message)
  {
  }

  /**
   * On a stored choice key the form's case-insensitive test and the save-time
   * hook's exact test agree.
   */
  lemma OtherTestsAgreeOnChoices(s: string)
    requires IsReachLengthChoice(s)
    ensures Lower(s) == OtherChoice <==> s == OtherChoice
  {
    ChoiceKeysAreLowerCase(s);
  }

  /**
   * For a valid choice, the form files the "Other" error exactly when the
   * save-time hook would refuse the same values.
   */
  lemma FormAndSaveHookAgree(data: CleanedData, rec: SurveyRecord)
    requires IsReachLengthChoice(rec.reachLength)
    requires data.reachLength == Some(rec.reachLength)
    requires data.reachLengthCustom == Some(rec.reachLengthCustom)
    ensures MissingCustomLength(data) <==> CleanRecord(rec).Err?
  {
    OtherTestsAgreeOnChoices(rec.reachLength);
  }

  // ---------------------------------------------------------------------------
  // Per-field checks

  /** 999.99 miles, in hundredths. */
  const MaxRiverMile: int := 99999

  const NegativeMileMessage: string := "River mile cannot be negative."
  const MileTooLargeMessage: string := "River mile cannot exceed 999.99."

  /** The river-mile check: a missing value passes, otherwise it must lie in [0, 999.99]. */
  function CleanRiverMile(mile: Option<int>): (r: Result<Option<int>, string>)
    ensures r.Ok? <==> mile.None? || 0 <= mile.value <= MaxRiverMile
    ensures r.Ok? ==> r.value == mile
    ensures r.Err? ==>
      mile.Some? && r.error == (if mile.value < 0 then NegativeMileMessage else MileTooLargeMessage)
  {
    match mile
    case None => Ok(None)
    case Some(m) =>
      if m < 0 then Err(NegativeMileMessage)
      else if m > MaxRiverMile then Err(MileTooLargeMessage)
      else Ok(mile)
  }

  /** Both ends of the range pass; one hundredth beyond either end fails. */
  lemma RiverMileBoundaries()
    ensures CleanRiverMile(Some(0)) == Ok(Some(0))
    ensures CleanRiverMile(Some(99999)) == Ok(Some(99999))
    ensures CleanRiverMile(Some(-1)) == Err(NegativeMileMessage)
    ensures CleanRiverMile(Some(100000)) == Err(MileTooLargeMessage)
  {
  }

  const FutureDateMessage: string := "Survey date cannot be in the future."

  /** The survey-date check: a missing date passes, otherwise it must not be after `today`. */
  function CleanSurveyDate(date: Option<Date>, today: Date): (r: Result<Option<Date>, string>)
    ensures r.Ok? <==> date.None? || date.value <= today
    ensures r.Ok? ==> r.value == date
    ensures r.Err? ==> r.error == FutureDateMessage
  {
    match date
    case None => Ok(None)
    case Some(d) => if d > today then Err(FutureDateMessage) else Ok(date)
  }

  /**
   * The loop of the form-level pass: walks the groups in order and stops at
   * the first one with more than one checked member.
   */
  method ScanGroups(groups: seq<Group>, checked: set<Flag>) returns (r: Option<nat>)
    ensures r == FirstViolation(groups, checked)
  {
    for i := 0 to |groups|
      invariant forall k :: 0 <= k < i ==> !Violated(groups[k], checked)
    {
      var selected := CountSelected(groups[i].members, checked);
      if selected > 1 {
        return Some(i);
      }
    }
    return None;
  }

  // ---------------------------------------------------------------------------
  // The form object

  /** A bound form after its per-field pass, about to run its form-level pass. */
  class SurveyForm {
    var cleanedData: CleanedData
    var errors: Errors
    var required: map<Field, bool>

    /**
     * Sets up the form: each field starts with the requiredness its column
     * implies, then the six basic fields are marked required and the custom
     * length explicitly optional. `required` covers the ten text, number and
     * date fields; the boolean indicator fields are all optional and are not
     * listed.
     */
    constructor (data: CleanedData, fieldErrors: Errors)
      ensures cleanedData == data && errors == fieldErrors
      ensures required.Keys == AllFields
      ensures forall f :: f in required ==> (required[f] <==> f in RequiredFields)
    {
      cleanedData := data;
      errors := fieldErrors;
      var req := DefaultRequired();
      req := req[SurveyDate := true][RiverCode := true][RiverMile := true];
      req := req[RiverSite := true][NameGroup := true][ReachLength := true];
      req := req[ReachLengthCustom := false];
      required := req;
    }

    /**
     * The form-level pass: stops at the first violated single-choice group,
     * otherwise files the "Other" error when it applies and returns the
     * cleaned data as it was.
     */
    method Clean() returns (r: CleanResult)
      modifies this`errors
      ensures cleanedData == old(cleanedData)
      ensures CleanStep(r, errors) == FormClean(cleanedData, old(errors))
    {
      var data := cleanedData;
      var first := ScanGroups(Sections, data.checked);
      if first.Some? {
        return Raised(Sections[first.value].message);
      }
      var reachLength := data.reachLength;
      var reachLengthCustom := data.reachLengthCustom;
      if reachLength.Some? && reachLength.value != "" && ReadsAsOther(reachLength.value) {
        if reachLengthCustom.None? || reachLengthCustom.value == "" {
          errors := AddError(errors, ReachLengthCustom, OtherLengthMessage);
        }
      }
      return Returned(data);
    }
  }
}
