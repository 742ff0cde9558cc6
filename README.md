# Coursemology: course duplication, assessment and survey forms, staff statistics

This project models some of Coursemology's course-management logic in Dafny and proves
properties of that model:

- **Course duplication** (`CourseDuplication`, course_duplication.dfy). This is what
  `Course::DuplicationService#duplicate` must do according to its test file.
  - A course, with its lesson plan items, assessments, questions, materials, folders,
    milestones, levels, forums, skills, achievements and conditions, is copied under
    fresh ids.
  - Every start, end and bonus-end time moves by the requested start date minus the
    course's start date. Creation and update times of folders, materials and attachment
    references are kept, as below.
  - The registration key is cleared.
  - Attachment references become new rows that point at the same attachment.
  - Folders, materials and attachment references keep their audit metadata (creator,
    updater, created and updated times) verbatim. The model carries audit metadata on
    these three record types only.
  - Folder parents, skill branches and condition endpoints are re-pointed at the
    duplicates. A condition gates an achievement or an assessment, and it depends on an
    achievement, an assessment or a level.
  - `DuplicationService` is a class. It holds the id counter (the database sequence), the
    identity map from (kind, original id) to new id, and `@new_course`. Its `Duplicate`
    method works in two phases:
    1. A loop gives each owned record a fresh id.
    2. A loop re-points the conditions.

    `AllocateIds` (phase 1) is proved to build a fresh, injective identity map covering the
    course (`FreshFor`). `ResolveConditions` (phase 2) is proved to agree with the pure
    `DupConditions`. `Duplicate` is proved to set the new course to the pure
    `DuplicateUnder`, and the properties below are proved about that function.
- **Assessment form** (`AssessmentForm`, assessment_form.dfy).
  - `validate` reports the missing required fields. The required list grows with
    `tabbed_view` when not autograded, and with `password` when password protected.
  - `validate` also reports a start date that is not before the end date.
  - `onStartAtChange` moves the end and bonus-end dates along with a new start date.
- **Survey actions** (`SurveyActions`, survey_actions.dfy). `shiftEndDate` moves a survey
  form's end date by the change in the start date, as long as the old end was not before
  the old start.
- **Staff statistics** (`StaffConcern`, staff_concern.dfy).
  - The valid submissions of a staff member, with their average marking time and its
    variance.
  - The ordering of staff by average marking time, with staff who have no average last.
  - The `||=` memoisation is modelled as a class with option-typed cache fields.
- **Programming answer attempts** (`ProgrammingAnswer`, programming_answer.dfy).
  - `attempting_times_left` is 1000 when the question has no attempt limit. Otherwise it
    is the limit minus the evaluated or graded answers, floored at 0.
  - The `@times_left` cache is filled only in the limited case.
- **Virtual classroom durations** (`VirtualClassroomsHelper`,
  virtual_classrooms_helper.dfy). `duration_options` offers every multiple of 15 minutes
  up to the course's maximum, each labelled "`<n>` minutes".

`Wrappers` (wrappers.dfy) holds the `Option` and `Result` types.

The implementation of `Course::DuplicationService` (app/services/course/duplication_service.rb)
is not part of this model. The duplication model is built from the behaviour its test
file states, so the properties below are the ones that file asserts.

## Model

| member | source | states |
|---|---|---|
| CourseDuplication.DuplicationService.Duplicate | spec/services/course/duplication_service_spec.rb:9-14 | Duplicating gives every owned record a fresh id above the old counter, distinct and unused by any original record. It succeeds exactly when every condition's endpoints belong to the course. The new course it sets is the pure `DuplicateUnder` of the source under the identity map it built, and on success the outcome is that course's id. |
| CourseDuplication.DuplicationService.AllocateIds | spec/services/course/duplication_service_spec.rb:31-40 | The identity map covers exactly the records the course owns. Its ids are drawn from the counter, are pairwise distinct, and are none of the original ids. |
| CourseDuplication.DuplicationService.ResolveConditions | spec/services/course/duplication_service_spec.rb:335-347 | The loop re-points the conditions in order and agrees with `DupConditions`. On failure it names a condition of the course whose endpoint the map does not know. |
| CourseDuplication.DuplicationService.constructor | spec/services/course/duplication_service_spec.rb:9-12 | The service is created with the source course, the new start date and the new title, an empty identity map and no new course. |
| CourseDuplication.DuplicateIsNewCourse | spec/services/course/duplication_service_spec.rb:31-40 | The duplicate has an id different from the original's, the requested title and no registration key. |
| CourseDuplication.CourseTimeShifted | spec/services/course/duplication_service_spec.rb:42-45 | The duplicate starts at the requested start, and its end moves by the same shift (absent stays absent). |
| CourseDuplication.ShiftOpt | spec/services/course/duplication_service_spec.rb:42-45 | An absent timestamp stays absent, and a present one moves by exactly the shift. |
| CourseDuplication.ShiftOptInverse | spec/services/course/duplication_service_spec.rb:42-45 | Shifting back by the negated amount restores every timestamp. |
| CourseDuplication.ShiftKeepsOrder | spec/services/course/duplication_service_spec.rb:37-38 | A shift keeps `start <= end` and `start < end`, so no duplicated record violates an ordering constraint. |
| CourseDuplication.LevelsDuplicated | spec/services/course/duplication_service_spec.rb:47-52 | Levels keep their experience-point thresholds in order (hence the same multiset) and belong to the new course. |
| CourseDuplication.ForumsDuplicated | spec/services/course/duplication_service_spec.rb:54-63 | Each forum is a new record of the new course with the same name, slug and description. |
| CourseDuplication.EventsDuplicated | spec/services/course/duplication_service_spec.rb:65-88 | The i-th event of the duplicate duplicates the i-th event of the original: it belongs to the new course and has the same event type, title and description, with its start shifted. |
| CourseDuplication.FilterMapCommute | spec/services/course/duplication_service_spec.rb:66-71 | Selecting from the duplicated items gives the duplicates of the selected originals, in the same order. |
| CourseDuplication.MilestonesDuplicated | spec/services/course/duplication_service_spec.rb:90-105 | Milestones keep their order, title and description, belong to the new course, and their start is shifted. |
| CourseDuplication.AssessmentsDuplicated | spec/services/course/duplication_service_spec.rb:109-122 | The i-th assessment of the duplicate keeps the i-th original's title, description, base and time-bonus experience points, published flag and number of questions. Its start and bonus end are shifted, and an absent end date stays absent. |
| CourseDuplication.LessonPlanItemsDuplicated | spec/services/course/duplication_service_spec.rb:124-128 | Every lesson plan item is a new record (different id) of the new course, in the same place, with the same title and description, with shifted start and end and the same kind of actable. |
| CourseDuplication.QuestionsDuplicated | spec/services/course/duplication_service_spec.rb:134-155 | A duplicated assessment has as many questions, with the same multisets of title, description, actable type, staff-only-comments flag, maximum grade and weight. |
| CourseDuplication.MapKeepsAttribute | spec/services/course/duplication_service_spec.rb:143-149 | Mapping an attribute over duplicated records gives the attribute list of the originals, as a list and as a multiset. |
| CourseDuplication.QuestionReferenceShared | spec/services/course/duplication_service_spec.rb:157-174 | A programming question's duplicated attachment reference is a different row that points at the same attachment. |
| CourseDuplication.ReferenceShared | spec/services/course/duplication_service_spec.rb:180-189 | A duplicated attachment reference has an id that is neither its own nor any original record's, the same attachment and the same audit metadata. |
| CourseDuplication.FoldersDuplicated | spec/services/course/duplication_service_spec.rb:218-263 | Folders belong to the new course. They keep their name and their creator, updater and timestamps, and their start and end are shifted. Their materials keep name, description and audit metadata, and the materials' attachment references keep the attachment and audit metadata. |
| CourseDuplication.FolderParentsRepointed | spec/services/course/duplication_service_spec.rb:218-222 | A sub-folder of the duplicate hangs under the duplicate of its original parent, which is a new folder. |
| CourseDuplication.SkillsAndBranchesDuplicated | spec/services/course/duplication_service_spec.rb:266-287 | Every skill, standalone or in a branch, is a different record of the new course with the same title and description, in a branch exactly when the original is. Every branch belongs to the new course. |
| CourseDuplication.SkillBranchRepointed | spec/services/course/duplication_service_spec.rb:267-286 | A skill in a branch is in the duplicated branch, which belongs to the new course, and the duplicated skill is a different record. |
| CourseDuplication.AchievementsDuplicated | spec/services/course/duplication_service_spec.rb:308-323 | Achievements belong to the new course and keep title, description, weight and published flag, in order. |
| CourseDuplication.DupCondition | spec/services/course/duplication_service_spec.rb:335-347 | A condition can be duplicated exactly when both its endpoints are in the identity map, each looked up under its own kind (achievement or assessment for the conditional; achievement, assessment or level for the target). The duplicate keeps both types and points at the endpoints' new ids. |
| CourseDuplication.DupConditions | spec/services/course/duplication_service_spec.rb:335-347 | All conditions are duplicated, in order and one-for-one, exactly when each one can be. |
| CourseDuplication.ConditionsRepointed | spec/services/course/duplication_service_spec.rb:335-347 | Each condition of a duplicated achievement is conditional on the new achievement, and the conditions' types are those of the original achievement's conditions (same list, same multiset). |
| CourseDuplication.ConditionTargetsRepointed | spec/services/course/duplication_service_spec.rb:291-306 | When an achievement or an assessment is gated on an achievement, an assessment or a level, its duplicate is gated on that record's duplicate, never on the original. |
| CourseDuplication.DuplicationSucceedsIffResolvable | spec/services/course/duplication_service_spec.rb:291-306 | With the identity map covering the course's records, duplication produces a course exactly when both endpoints of every condition, of whichever kind, are records of the course. |
| CourseDuplication.AssessmentGatedOnLevelDuplicates | spec/services/course/duplication_service_spec.rb:303-306 | A course whose assessment is gated on its level is duplicated, under any identity map covering its records. |
| CourseDuplication.DuplicateCourse | spec/services/course/duplication_service_spec.rb:31-45 | The new course has the requested title and start, no registration key and the course's new id. Every family of records is copied one for one, and the conditions are the given re-pointed ones. |
| CourseDuplication.DuplicateUnder | spec/services/course/duplication_service_spec.rb:31-45 | Duplication under an identity map produces a course exactly when every condition resolves. That course has the requested title and start, no registration key, and as many conditions as the original. |
| CourseDuplication.DupReference | spec/services/course/duplication_service_spec.rb:180-189 | A duplicated attachment reference gets the mapped new id and keeps the attachment and the audit metadata. |
| CourseDuplication.DupFolder | spec/services/course/duplication_service_spec.rb:218-263 | A duplicated folder belongs to the given course and keeps its name and audit metadata. Its start and end are shifted, its parent (present exactly when the original has one) is the parent's new id, and it has as many materials. |
| CourseDuplication.Resolve | spec/services/course/duplication_service_spec.rb:335-347 | A reference resolves exactly when its key is in the identity map, and it resolves to the mapped id. |
| CourseDuplication.FreshIdsAreNew | spec/services/course/duplication_service_spec.rb:34 | Ids handed out from above every original id are none of the original ids. |
| AssessmentForm.Validate | client/app/bundles/course/assessment/containers/AssessmentForm.jsx:43-66 | A field has an error exactly when it is required and undefined, empty or null, or when it is `end_at` and both dates are set with the start not before the end. `end_at`'s message is the start/end error, and every other message is "required". |
| AssessmentForm.EndAtNeverRequired | client/app/bundles/course/assessment/containers/AssessmentForm.jsx:46-53 | `end_at` is never a required field, so its only possible error is the start/end one. |
| AssessmentForm.FalseAndZeroAreNotMissing | client/app/bundles/course/assessment/containers/AssessmentForm.jsx:56 | `false` and `0` count as filled in, while undefined, `''` and null are missing. |
| AssessmentForm.PresentTime | client/app/bundles/course/assessment/containers/AssessmentForm.jsx:109-111 | A present date is truthy, non-zero and its own time. A Date is present exactly when its time is not the epoch, and then it is that time. A date string is present exactly when it is non-empty and parses to a non-epoch time. Undefined and null are absent. |
| AssessmentForm.NewStartTime | client/app/bundles/course/assessment/containers/AssessmentForm.jsx:108 | The picked Date gives a new start time exactly when it is not null and not at the epoch, and that time is the Date's. |
| AssessmentForm.EndFollowsStart | client/app/bundles/course/assessment/containers/AssessmentForm.jsx:114-117 | With non-epoch Dates and the end not before the start, the end moves by exactly the change in start time. |
| AssessmentForm.ShiftedDate | client/app/bundles/course/assessment/containers/AssessmentForm.jsx:114-122 | A dependent date moves exactly when the new start, old start and old date are present and the old start is not after the old date. When it moves, the gap to the start is kept, so the new date is not before the new start. |
| AssessmentForm.OnStartAtChange | client/app/bundles/course/assessment/containers/AssessmentForm.jsx:106-124 | The end and the bonus end each follow the shift rule on their own, measured against the same old and new start. |
| AssessmentForm.ShiftedDateUndo | client/app/bundles/course/assessment/containers/AssessmentForm.jsx:114-117 | Moving the start back undoes the shift, provided the shifted date is not the epoch. |
| AssessmentForm.MisorderedEndNotMoved | client/app/bundles/course/assessment/containers/AssessmentForm.jsx:114 | An end date already before the start is not moved. |
| AssessmentForm.EpochStartIsAbsent | client/app/bundles/course/assessment/containers/AssessmentForm.jsx:108-109 | A start at time 0 reads as absent, so nothing is shifted. |
| SurveyActions.ShiftEndDate | client/app/bundles/course/survey/actions/surveys.js:21-34 | It throws exactly when the old start is missing. It dispatches a change exactly when the old end is set and not before the old start. The change is to the named form's end field only, keeps the duration, and so is not before the new start. |
| SurveyActions.DefaultFields | client/app/bundles/course/survey/actions/surveys.js:21 | Without field names, `start_at` is read and `end_at` is changed. |
| SurveyActions.ShiftEndDateUndo | client/app/bundles/course/survey/actions/surveys.js:29-31 | Shifting the start back from the new values restores the old end. |
| StaffConcern.ValidSubmissions | app/models/concerns/course_user/staff_concern.rb:53-57 | The valid submissions are a subsequence of the published ones, in order. Each is valid (both times set, published after submitted), and there are as many as valid ones. |
| StaffConcern.ValidSubmissionsExact | app/models/concerns/course_user/staff_concern.rb:56 | Every valid submission is kept as often as it occurs, and no invalid one is kept. |
| StaffConcern.MarkingTime | app/models/concerns/course_user/staff_concern.rb:38 | The marking time of a valid submission is positive. |
| StaffConcern.TotalMarkingTime | app/models/concerns/course_user/staff_concern.rb:38 | Each marking time is a positive whole number of microseconds (the stored precision), so the total, in microseconds, is at least the number of valid submissions. |
| StaffConcern.MarkingTimes | app/models/concerns/course_user/staff_concern.rb:47 | There is one marking time per valid submission, and each is positive. |
| StaffConcern.MeanProperties | app/models/concerns/course_user/staff_concern.rb:38 | The quotient times the count gives back the total, and a total at least the count gives a positive quotient. |
| StaffConcern.AverageMarkingTime | app/models/concerns/course_user/staff_concern.rb:33-40 | The average is nil exactly when there is no valid submission. Otherwise it times their number is their total marking time, and it is positive. |
| StaffConcern.SquaredDeviationsNonNegative | app/models/concerns/course_user/staff_concern.rb:72 | The sum of squared deviations is never negative. |
| StaffConcern.SampleVariance | app/models/concerns/course_user/staff_concern.rb:66-74 | The sample variance is never negative, so the square root `standard_deviation` takes of it is defined. |
| StaffConcern.MarkingTimeVariance | app/models/concerns/course_user/staff_concern.rb:45-64 | The squared standard deviation is nil exactly when there is no valid submission, and otherwise non-negative. |
| StaffConcern.StddevPresentIffAverage | app/models/concerns/course_user/staff_concern.rb:33-64 | The standard deviation exists exactly when the average does. |
| StaffConcern.CompareAgreesWithOrder | app/models/concerns/course_user/staff_concern.rb:12-18 | A comparator result of at most 0 puts x first consistently with the order (averaged before unaveraged, ascending), and a positive result puts y first. |
| StaffConcern.Insert | app/models/concerns/course_user/staff_concern.rb:12-18 | Inserting with the comparator into an ordered list keeps it ordered and adds exactly the one member. |
| StaffConcern.StaffEntry | app/models/concerns/course_user/staff_concern.rb:13-16 | The value the sort compares is the member's `average_marking_time`, and it is absent exactly when they have no valid submission. |
| StaffConcern.Compare | app/models/concerns/course_user/staff_concern.rb:12-18 | The block answers -1, 0 or 1. Two averages compare as numbers, an average sorts before no average, and a member without an average always answers 1. |
| StaffConcern.CompareAntisymmetric | app/models/concerns/course_user/staff_concern.rb:13-17 | The block is antisymmetric whenever one side has an average. Between two staff without an average it answers 1 both ways. |
| StaffConcern.OrderedByAverageMarkingTime | app/models/concerns/course_user/staff_concern.rb:11-19 | The sorted staff are a permutation of the staff. Those with an average come first, ascending by average, and those without come last. |
| StaffConcern.AveragedStaffFirst | app/models/concerns/course_user/staff_concern.rb:9-10 | After sorting, everyone with an average is placed before everyone without one. |
| StaffConcern.StaffMember.ValidSubmissionsMemo | app/models/concerns/course_user/staff_concern.rb:53-57 | The valid submissions are returned and memoised, and the memo always equals the definition. |
| StaffConcern.StaffMember.AverageMarkingTimeMemo | app/models/concerns/course_user/staff_concern.rb:33-40 | The average is returned and memoised. A nil average is stored as nil and so recomputed on the next call, while a present one is served from the memo without touching the valid-submissions memo. |
| StaffConcern.StaffMember.constructor | app/models/concerns/course_user/staff_concern.rb:22-28 | A staff member starts with their published submissions and nothing memoised. |
| ProgrammingAnswer.TimesLeft | app/models/course/assessment/answer/programming.rb:27-40 | The result is 1000 without a limit. With a limit it is the limit minus the evaluated or graded answers when that is not negative, and 0 otherwise. |
| ProgrammingAnswer.TimesLeftBounded | app/models/course/assessment/answer/programming.rb:36-37 | With a limit, the attempts left never exceed the limit, nor 0 for a negative limit. |
| ProgrammingAnswer.EachGradedAnswerUsesOneAttempt | app/models/course/assessment/answer/programming.rb:36-37 | One more evaluated or graded answer uses up exactly one attempt, until none is left. |
| ProgrammingAnswer.TimesLeftMonotone | app/models/course/assessment/answer/programming.rb:36-37 | More evaluated or graded answers never leave more attempts. |
| ProgrammingAnswer.Answer.AttemptingTimesLeft | app/models/course/assessment/answer/programming.rb:32-40 | The method returns the attempts left. It caches them in `@times_left` when the question has a limit (a count of 0 included) and leaves the cache empty otherwise, because the early `return` skips the assignment. |
| ProgrammingAnswer.Answer.constructor | app/models/course/assessment/answer/programming.rb:32-33 | A new answer has nothing cached. |
| VirtualClassroomsHelper.DurationOptions | app/helpers/course/virtual_classrooms_helper.rb:11-13 | The k-th option is 15·(k+1) minutes, labelled with its own value. No option exceeds the maximum, and the last is within 15 of it. There are no options exactly when the maximum (0 when unset) is below 15. |
| VirtualClassroomsHelper.StepFrom | app/helpers/course/virtual_classrooms_helper.rb:12 | `(from..hi).step(15)` yields `(hi - from) / 15 + 1` values (none when from > hi), the k-th being `from + 15k`. |
| VirtualClassroomsHelper.DurationOptionsAreSteps | app/helpers/course/virtual_classrooms_helper.rb:12 | Every offered value is a positive multiple of 15, the first is 15, and they rise by exactly 15. |
| VirtualClassroomsHelper.NoMaximumNoOptions | app/helpers/course/virtual_classrooms_helper.rb:12 | With no maximum duration set (`nil.to_i` is 0), no option is offered. |
| VirtualClassroomsHelper.DecimalString | app/helpers/course/virtual_classrooms_helper.rb:12 | `Integer#to_s` writes at least one character, all of them decimal digits. |
| VirtualClassroomsHelper.Label | app/helpers/course/virtual_classrooms_helper.rb:12 | The label is the duration's digits followed by " minutes", and the duration can be read back from those digits. |
| VirtualClassroomsHelper.DecimalStringWellFormed | app/helpers/course/virtual_classrooms_helper.rb:12 | A label's number is written with decimal digits only, at least one, and without a leading zero (except for 0 itself). |
| VirtualClassroomsHelper.DecimalRoundTrip | app/helpers/course/virtual_classrooms_helper.rb:12 | Reading the number back from the label gives the duration it was made from. |
| VirtualClassroomsHelper.DecimalStringInjective | app/helpers/course/virtual_classrooms_helper.rb:12 | Different durations get different labels. |

## Left out

- The duplication service's implementation, persistence and transactions are not modelled. Failure is modelled as "no new course is set". The order in which the real service saves records is not modelled.
- The achievement badge file copied on disk (duplication_service_spec.rb:325-333) is filesystem I/O and is not modelled.
- Timestamps in the duplication model are whole seconds, and the shift is exact. The test allows the shifted time to be within one second. The requested start date arrives as an ISO-8601 string, which the model takes as already parsed.
- Records other than folders, materials and attachment references carry no audit metadata in the model. The duplicator regenerates theirs, and the tests assert nothing about it.
- A condition's conditional is an achievement or an assessment. Other gated kinds are not modelled.
- An assessment's material folder is collapsed into the assessment's list of materials. Other folders are kept as a list with an optional parent.
- CourseDuplication.NewId: its default id 0 for a key outside the identity map is never reached, because every record the duplication touches is in the map. The model assumes that folder parents and skill branches are records of the same course. A foreign key only guarantees that the parent folder or branch exists, not that it belongs to this course.
- New ids are allocated from a counter for every owned record up front, in an unspecified order, before any record is built. The database assigns them at insertion.
- StaffConcern.AverageMarkingTime: the average is an exact rational (Dafny `real`). Ruby's `Float` rounding is not modelled.
- StaffConcern.TotalMarkingTime: timestamps are whole microseconds, the precision the database stores, so a marking time of 0.5 seconds is 500000. Ruby reports seconds as a `Float`; the model's times, totals and averages are in microseconds, 10^6 times the source's values.
- StaffConcern.MarkingTimeVariance: it returns the sample variance, the square of `marking_time_stddev`, because square roots and floating point are not modelled.
- StaffConcern.OrderedByAverageMarkingTime: it is specified as any correct sort with the block. Ruby's own sort algorithm is not modelled, so the relative order of staff with equal averages or with no average is left open. The block returns 1 for two staff without an average in either order, so Ruby fixes no order among them either.
- The `published_submissions` database query (staff_concern.rb:22-28) is a parameter of the staff member.
- `reset_answer` (programming.rb:18-25) is database I/O: clearing files, copying templates and saving in a transaction. It is not modelled.
- ProgrammingAnswer.Answer.AttemptingTimesLeft: the attempt limit and the number of evaluated or graded answers are constructor parameters. The database queries behind them are not modelled, so a cached count cannot go stale in the model.
- AssessmentForm: `Date.parse` is a parameter (`DateParser`) of the model, so no particular date-string format is modelled. `Date` objects are their time in milliseconds. The new start is a `Date` or null, as the date picker hands it over.
- SurveyActions.ShiftEndDate: dates are whole milliseconds. `Invalid Date` values (NaN) and JavaScript's date range limits are not modelled, and the new start is always a `Date`.
- The other survey actions (create, update, delete, fetch and so on in surveys.js), the React components and the redux store are not part of the core and are not modelled.
- `virtual_classrooms_title` and the BrainCert API service are outside the modelled core. `max_duration.to_i` is modelled for nil and integer settings only, and a string setting is not parsed.
