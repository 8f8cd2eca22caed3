# CQHEI survey validation, modelled in Dafny

The CQHEI survey app records one stream-habitat survey per row. Each row has
ten basic and reach fields (date, river code, river mile, clarity, forest/ULE
number, cluster number, river site, name/group, reach length, custom reach
length) and fifty-nine True/False habitat indicators. This project models what
the app checks before it accepts a survey.

- **The survey row** (`Models`): the columns; which text columns may be
  blank; the seven reach-length choices; and the row's `clean` hook. The hook
  refuses a row whose reach length is `"other"` and whose custom length is
  empty. Otherwise it clears the custom length unless the choice is
  `"other"`. It appears twice: `CleanRecord` on values, and `Survey.Clean` on
  an object it updates in place, proved equal to `CleanRecord`.
- **The single-choice table** (`SingleChoice`, `Partition`): twelve groups of
  indicators, such as substrate, smothering and silting, each with its own
  message. A group is violated when more than one of its members is checked.
  The ten cover and five flow indicators belong to no group.
- **The form** (`Forms`):
  - the required-field settings;
  - the river-mile and survey-date field checks;
  - the form-level pass, which raises the message of the first violated
    group. If no group is violated, it files "Please specify the exact length
    when selecting 'Other'." on the custom length when the reach length reads
    as "other" in any letter case and the custom length is missing or empty.
    It then returns the cleaned data unchanged.
  
  `FormClean` is the pass as a function. `SurveyForm.Clean` is the pass as a
  method over the form object, and its loop `ScanGroups` is proved against
  `FirstViolation`.

Representation choices:
- A river mile is an integer count of hundredths. The column holds at most
  five digits with two after the point, and the form's upper bound 999.99 is
  99999 hundredths.
- A date is an integer day number. "Today" is a parameter of the date check.
- The True indicators of a row or of cleaned data form a `set<Flag>`.
- A value absent from the cleaned data is `None`.

## Model

| member | source | states |
|---|---|---|
| Models.CleanRecord | cqhei_app/models.py:111-118 | the hook fails exactly when the length is `"other"` and the custom text is empty, and the failure is an error on the custom-length field with the hook's message; on success only the custom length may change, it is kept for `"other"` and emptied otherwise, so the result satisfies the saved invariant |
| Models.CleanRecordIdempotent | cqhei_app/models.py:111-118 | running the hook again on its successful output succeeds and changes nothing |
| Models.CleanRecordFixedPoints | cqhei_app/models.py:111-118 | the hook returns a record unchanged exactly when that record already satisfies the saved invariant ("other" has a custom length and no other choice does) |
| Models.Survey.constructor | cqhei_app/models.py:7-106 | a new row holds the given required columns, empty optional text columns, and every indicator False |
| Models.Survey.Clean | cqhei_app/models.py:111-118 | on failure the row is left exactly as it was and the error is returned; on success the row becomes the hook's result, satisfies the saved invariant, and the reach length is never changed |
| SingleChoice.CountSelected | cqhei_app/forms.py:121 | the count of checked members is at most the group's size and is zero exactly when no member is checked |
| SingleChoice.MoreThanOneSelected | cqhei_app/forms.py:121-122 | a group's count exceeds one exactly when two different positions of the group are checked |
| SingleChoice.CountIgnoresOutsiders | cqhei_app/forms.py:121 | checking flags outside a group leaves that group's count unchanged |
| SingleChoice.FirstViolation | cqhei_app/forms.py:120-123 | the result is a violated group with no violated group before it, and it is absent exactly when no group is violated |
| SingleChoice.FirstViolationIgnoresOutsiders | cqhei_app/forms.py:120-123 | checking flags listed in no group leaves the first violation unchanged |
| Partition.TableTagged | cqhei_app/forms.py:43-118 | every member of the group at position k is tagged with group k, so each indicator belongs to at most one group |
| Partition.UngroupedFlags | cqhei_app/models.py:30-106 | among all the indicator columns, the ones in no group are exactly the ten cover (models.py:43-52) and five flow (models.py:92-96) indicators, and every other indicator is listed in the group of the table that `GroupIndex` names |
| Partition.GroupsDisjoint | cqhei_app/forms.py:43-118 | no indicator is listed in two different groups |
| Partition.NoGroupListsCoverOrFlow | cqhei_app/forms.py:43-118 | no group lists a cover or a flow indicator |
| Forms.AddError | cqhei_app/forms.py:135-138 | filing a message appends it to that field's messages and leaves every other field's messages as they were |
| Forms.DefaultRequired | cqhei_app/models.py:7-27 | every field starts required exactly when its column does not allow blanks |
| Forms.RequiredFieldsMatchColumns | cqhei_app/forms.py:27-35 | the six fields the form marks as required are exactly the fields whose columns do not allow blanks, and the custom length is not among them |
| Forms.SurveyForm.constructor | cqhei_app/forms.py:23-35 | a field of the new form is required exactly when it is one of the six basic fields; the custom length is optional |
| Forms.Lower | cqhei_app/forms.py:133 | lower-casing keeps the length and lowers each letter in place |
| Forms.LowerSpellsOther | cqhei_app/forms.py:133 | lower-casing a string gives "other" exactly when the string spells "other" with each letter in either case |
| Forms.ChoiceKeysAreLowerCase | cqhei_app/models.py:17-25 | every stored reach-length key is already lower case, so lowering a valid key leaves it unchanged |
| Forms.ReadsAsOther | cqhei_app/forms.py:133 | the form's "other" test holds exactly for the case variants of "other" |
| Forms.MissingCustomLength | cqhei_app/forms.py:133-134 | the "Other" error applies exactly when a non-missing reach length spells "other" in any letter case and the custom length is missing or empty |
| Forms.FormClean | cqhei_app/forms.py:37-140 | the form-level pass as a function: when it returns, the data is the cleaned data unchanged; when it raises, no error is filed; the only field it may file an error on is the custom length (the lemmas below state the full behaviour) |
| Forms.RaisesOnFirstViolation | cqhei_app/forms.py:120-123 | the pass raises exactly when some group is violated; it raises the message of the first violated group and files no error |
| Forms.ReturnsDataAndFilesOtherError | cqhei_app/forms.py:128-140 | a pass that does not raise returns the cleaned data unchanged; it files the "Other" error on the custom length exactly when the reach length reads as "other" and the custom length is missing or empty, and otherwise leaves the errors alone |
| Forms.CoverAndFlowIgnored | cqhei_app/forms.py:43-123 | checking any cover or flow indicators never changes whether the pass raises, what it raises, or which errors it files |
| Forms.OnlyCoverAndFlowNeverRaise | cqhei_app/forms.py:43-123 | a submission checking only cover and flow indicators is never refused by the group check |
| Forms.AtMostOnePerGroupPasses | cqhei_app/forms.py:120-123 | with at most one checked member per group the pass returns the data |
| Forms.TwoInOneGroupReportsIt | cqhei_app/forms.py:43-123 | checking exactly two members of one group raises that group's message and files nothing |
| Forms.FirstViolatedGroupWins | cqhei_app/forms.py:120-123 | when several groups are violated, the first in table order is the one reported |
| Forms.OtherTestsAgreeOnChoices | cqhei_app/forms.py:133 | on a valid choice key, the form's case-insensitive test for "other" and the hook's exact test agree |
| Forms.FormAndSaveHookAgree | cqhei_app/forms.py:128-138 | on a valid choice, the form files its "Other" error exactly when the save-time hook would refuse the same values |
| Forms.CleanRiverMile | cqhei_app/forms.py:142-149 | a missing mile passes; a present mile passes exactly when it lies in [0, 999.99], and is returned unchanged; a negative mile gets the "negative" message and a mile above 999.99 the "exceed" message |
| Forms.RiverMileBoundaries | cqhei_app/forms.py:145-148 | 0 and 999.99 pass, while -0.01 and 1000.00 fail with their messages |
| Forms.CleanSurveyDate | cqhei_app/forms.py:151-157 | a missing date passes; a present date passes exactly when it is not after today, and is returned unchanged; a later date gets the future-date message |
| Forms.ScanGroups | cqhei_app/forms.py:120-123 | the loop over the groups returns exactly the first violated group, or none |
| Forms.SurveyForm.Clean | cqhei_app/forms.py:37-140 | the form-level pass leaves the cleaned data as it is, and its result and the errors it files are those of `FormClean` |

## Left out

- Framework field cleaning is not modelled: type coercion, `required`
  enforcement, choice membership and `max_length`. The model starts from the
  cleaned data the framework would hand to the form-level pass.
- When the form files an error on a field, the framework also removes that
  field from the cleaned data. The model keeps the data and records only the
  filed message.
- An error raised by the form-level pass becomes a form-wide error in the
  framework. The model returns it as `Raised(message)` instead.
- How the framework runs model validation while it saves a form is not
  modelled. The hook is modelled alone, as `CleanRecord` and `Survey.Clean`.
- The clock is not modelled: `timezone.now().date()` is the `today`
  parameter of `CleanSurveyDate`.
- Decimal and float arithmetic is not modelled. A mile is a whole number of
  hundredths, which is exact for a five-digit, two-place column.
- Forms.RiverMileBoundaries: states the outcomes of `clean_river_mile` itself. Through
  the whole form, a mile of 1000.00 or more is already refused by the
  framework's own digit-count check for a five-digit, two-place column.
  That happens before `clean_river_mile` runs, so the "exceed" message is not
  reachable that way.
- Forms.SurveyForm.constructor: `required` lists only the ten text, number
  and date fields. The 59 boolean indicator fields are on the form too
  (all fields are included), and all of them are optional.
- Choice membership of the reach length is not enforced by the model: nothing
  constrains a stored or submitted reach length to the seven keys. The lemmas
  that compare the form's test with the hook's assume a valid key.
- Forms.Lower: lowers only `A`–`Z`. Python's `str.lower` also lowers
  non-ASCII letters. None of those can lower to the ASCII letters of
  "other", except the Kelvin sign (to `k`) and the dotted capital I (to `i`
  plus a combining dot). Neither can produce "other", so the verdict is the
  same.
- Models.Survey.constructor: the indicators start False. Setting individual
  indicators afterwards is not modelled as a separate operation.
- Widgets and labels are presentation only and are not modelled.
- `__str__` is presentation only and is not modelled.
- The separate `Cover` table, settings, URL routing and database setup are
  outside the validation this project models.
