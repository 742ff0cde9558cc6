/**
 * The assessment form's client-side logic: `validate`, which reports missing
 * required fields and a start date not before the end date, and
 * `onStartAtChange`, which moves the end and bonus-end dates along with a new
 * start date.
 */
module AssessmentForm {
  import opened Wrappers

  /**
   * A form value as JavaScript sees it. `Time` is a Date object (milliseconds
   * since the epoch); a field missing from the values object reads as `Undefined`.
   */
  datatype FormValue =
    | Undefined
    | Null
    | Str(s: string)
    | Bool(b: bool)
    | Num(n: int)
    | Time(ms: int)

  /** The form's values object. */
  type Values = map<string, FormValue>

  /** `values[field]`. */
  function Get(values: Values, field: string): FormValue {
    if field in values then values[field] else Undefined
  }

  /** JavaScript truthiness: undefined, null, '', false and 0 are falsy; a Date object is truthy. */
  predicate Truthy(v: FormValue) {
    match v
    case Undefined => false
    case Null => false
    case Str(s) => s != ""
    case Bool(b) => b
    case Num(n) => n != 0
    case Time(_) => true
  }

  /** `values[field] === undefined || values[field] === '' || values[field] === null`. */
  predicate Missing(v: FormValue) {
    v == Undefined || v == Str("") || v == Null
  }

  /**
   * JavaScript's date-string parser, `Date.parse`: the time a string denotes,
   * or None (NaN) when it is not a date. It is a parameter of the model.
   */
  type DateParser = string -> Option<int>

  /** `new Date(v).getTime()`: None stands for NaN, an invalid date. */
  function DateValue(v: FormValue, parse: DateParser): Option<int> {
    match v
    case Time(ms) => Some(ms)
    case Num(n) => Some(n)
    case Bool(b) => Some(if b then 1 else 0)
    case Null => Some(0)
    case Str(s) => parse(s)
    case Undefined => None
  }

  /** `new Date(a) >= new Date(b)`: comparisons with NaN are false. */
  predicate DateAtLeast(a: FormValue, b: FormValue, parse: DateParser) {
    DateValue(a, parse).Some? && DateValue(b, parse).Some? && DateValue(a, parse).value >= DateValue(b, parse).value
  }

  /** The fields the form always requires. */
  const AlwaysRequired: seq<string> := ["title", "base_exp", "time_bonus_exp", "start_at"]

  /** Whether `field` is required for these values: the reference the validator is proved against. */
  predicate IsRequired(values: Values, field: string) {
    || field in AlwaysRequired
    || (field == "tabbed_view" && !Truthy(Get(values, "autograded")))
    || (field == "password" && Truthy(Get(values, "password_protected")))
  }

  /** Whether the start/end check fires: both dates set and the start not before the end. */
  predicate StartNotBeforeEnd(values: Values, parse: DateParser) {
    Truthy(Get(values, "start_at")) && Truthy(Get(values, "end_at")) &&
    DateAtLeast(Get(values, "start_at"), Get(values, "end_at"), parse)
  }

  /** The messages an error can carry. */
  datatype ErrorMessage = Required | StartEndValidationError

  /**
   * `validate`: builds the list of required fields (growing it for
   * `tabbed_view` and `password`), marks each missing one as required, then
   * flags `end_at` when the start is not before the end.
   */
  method Validate(values: Values, parse: DateParser) returns (errors: map<string, ErrorMessage>)
    ensures forall f :: f in errors <==>
      (IsRequired(values, f) && Missing(Get(values, f))) || (f == "end_at" && StartNotBeforeEnd(values, parse))
    ensures forall f :: f in errors ==>
      errors[f] == if f == "end_at" then StartEndValidationError else Required
  {
    errors := map[];
    var requiredFields := AlwaysRequired;
    if !Truthy(Get(values, "autograded")) {
      requiredFields := requiredFields + ["tabbed_view"];
    }
    if Truthy(Get(values, "password_protected")) {
      requiredFields := requiredFields + ["password"];
    }
    assert forall f :: f in requiredFields <==> IsRequired(values, f);

    var i := 0;
    while i < |requiredFields|
      invariant 0 <= i <= |requiredFields|
      invariant forall f :: f in errors <==> f in requiredFields[..i] && Missing(Get(values, f))
      invariant forall f :: f in errors ==> errors[f] == Required
    {
      var field := requiredFields[i];
      if Missing(Get(values, field)) {
        errors := errors[field := Required];
      }
      assert requiredFields[..i + 1] == requiredFields[..i] + [field];
      i := i + 1;
    }
    assert requiredFields[..i] == requiredFields;

    if StartNotBeforeEnd(values, parse) {
      errors := errors["end_at" := StartEndValidationError];
    }
  }

  /** `end_at` is never a required field, so its error is only ever the start/end one. */
  lemma EndAtNeverRequired(values: Values)
    ensures !IsRequired(values, "end_at")
  {
    assert "end_at" != AlwaysRequired[0] && "end_at" != AlwaysRequired[1];
    assert "end_at" != AlwaysRequired[2] && "end_at" != AlwaysRequired[3];
  }

  /** `false` and `0` count as filled in; only undefined, '' and null are missing. */
  lemma FalseAndZeroAreNotMissing()
    ensures !Missing(Bool(false)) && !Missing(Num(0))
    ensures Missing(Undefined) && Missing(Str("")) && Missing(Null)
  {
  }

  // ---------------------------------------------------------------------------
  // onStartAtChange
  // ---------------------------------------------------------------------------

  /**
   * `v && new Date(v).getTime()` used as a condition: present when the value
   * is truthy and its time is a number other than 0 (0 and NaN are falsy).
   */
  function PresentTime(v: FormValue, parse: DateParser): (r: Option<int>)
    ensures r.Some? ==> r.value != 0 && Truthy(v) && DateValue(v, parse) == r
    // a Date is present exactly when its time is not the epoch, and then it is that time
    ensures v.Time? ==> (r.Some? <==> v.ms != 0) && (r.Some? ==> r.value == v.ms)
    // a date string is present when it is non-empty and parses to a time other than the epoch
    ensures v.Str? ==> (r.Some? <==> v.s != "" && parse(v.s).Some? && parse(v.s).value != 0)
    ensures v == Undefined || v == Null ==> r.None?
  {
    var t := DateValue(v, parse);
    if Truthy(v) && t.Some? && t.value != 0 then t else None
  }

  /**
   * `newStartAt && newStartAt.getTime()`: the date picker hands over a Date
   * or null, and a Date at the epoch reads as absent.
   */
  function NewStartTime(newStartAt: Option<int>): (r: Option<int>)
    ensures r.Some? <==> newStartAt.Some? && newStartAt.value != 0
    ensures r.Some? ==> r == newStartAt
  {
    match newStartAt
    case Some(ms) => if ms != 0 then Some(ms) else None
    case None => None
  }

  /**
   * The shift rule for one dependent date: when the new start, the old start
   * and the old date are all present and the old start is not after the old
   * date, the date moves by the change in start time; otherwise it is left alone.
   */
  function ShiftedDate(newStart: Option<int>, oldStart: Option<int>, oldDate: Option<int>): (r: Option<int>)
    ensures r.Some? <==> newStart.Some? && oldStart.Some? && oldDate.Some? && oldStart.value <= oldDate.value
    // the gap to the start is kept, hence so is the order
    ensures r.Some? ==> r.value - newStart.value == oldDate.value - oldStart.value
    ensures r.Some? ==> newStart.value <= r.value
  {
    if newStart.Some? && oldStart.Some? && oldDate.Some? && oldStart.value <= oldDate.value
    then Some(oldDate.value + (newStart.value - oldStart.value))
    else None
  }

  /** The `change` actions `onStartAtChange` dispatches: new end_at and bonus_end_at, if any. */
  datatype StartAtChanges = StartAtChanges(endAt: Option<int>, bonusEndAt: Option<int>)

  /**
   * `onStartAtChange(_, newStartAt)` with the form's current start_at, end_at
   * and bonus_end_at; `newStartAt` is the picker's Date (its time) or null.
   */
  function OnStartAtChange(newStartAt: Option<int>, startAt: FormValue, endAt: FormValue,
                           bonusEndAt: FormValue, parse: DateParser): (r: StartAtChanges)
    // each dependent date follows the shift rule on its own, measured against its own old value
    ensures r.endAt == ShiftedDate(NewStartTime(newStartAt), PresentTime(startAt, parse), PresentTime(endAt, parse))
    ensures r.bonusEndAt ==
      ShiftedDate(NewStartTime(newStartAt), PresentTime(startAt, parse), PresentTime(bonusEndAt, parse))
  {
    var newStartTime := NewStartTime(newStartAt);
    var oldStartTime := PresentTime(startAt, parse);
    StartAtChanges(
      ShiftedDate(newStartTime, oldStartTime, PresentTime(endAt, parse)),
      ShiftedDate(newStartTime, oldStartTime, PresentTime(bonusEndAt, parse)))
  }

  /**
   * Moving the start back undoes a shift, as long as the shifted date is not
   * the epoch itself (a time of 0 reads as absent).
   */
  lemma ShiftedDateUndo(newStart: int, oldStart: int, oldDate: int)
    requires newStart != 0 && oldStart != 0 && oldDate != 0 && oldStart <= oldDate
    requires oldDate + (newStart - oldStart) != 0
    ensures var r := ShiftedDate(Some(newStart), Some(oldStart), Some(oldDate));
      r.Some? && ShiftedDate(Some(oldStart), Some(newStart), r) == Some(oldDate)
  {
  }

  /**
   * With Date values away from the epoch and the end not before the start,
   * the end moves by exactly the change in start time.
   */
  lemma EndFollowsStart(newStart: int, oldStart: int, oldEnd: int, bonusEndAt: FormValue, parse: DateParser)
    requires newStart != 0 && oldStart != 0 && oldEnd != 0 && oldStart <= oldEnd
    ensures OnStartAtChange(Some(newStart), Time(oldStart), Time(oldEnd), bonusEndAt, parse).endAt ==
      Some(oldEnd + (newStart - oldStart))
  {
  }

  /** An end date already before the start is not moved: the user has to fix it by hand. */
  lemma MisorderedEndNotMoved(newStartAt: Option<int>, startAt: FormValue, endAt: FormValue, bonusEndAt: FormValue,
                              parse: DateParser)
    requires PresentTime(startAt, parse).Some? && PresentTime(endAt, parse).Some?
    requires PresentTime(endAt, parse).value < PresentTime(startAt, parse).value
    ensures OnStartAtChange(newStartAt, startAt, endAt, bonusEndAt, parse).endAt == None
  {
  }

  /** A null new start, or a date at time 0, is taken as absent by the truthiness tests, so nothing is shifted. */
  lemma EpochStartIsAbsent(newStartAt: Option<int>, startAt: FormValue, endAt: FormValue, bonusEndAt: FormValue,
                           parse: DateParser)
    ensures OnStartAtChange(Some(0), startAt, endAt, bonusEndAt, parse) == StartAtChanges(None, None)
    ensures OnStartAtChange(None, startAt, endAt, bonusEndAt, parse) == StartAtChanges(None, None)
    ensures OnStartAtChange(newStartAt, Time(0), endAt, bonusEndAt, parse) == StartAtChanges(None, None)
  {
  }
}
