/**
 * `shiftEndDate` of the survey actions: when a survey form's start date is
 * changed, the end date moves by the same amount, keeping the survey's
 * duration, provided the old end was not before the old start.
 */
module SurveyActions {
  import opened Wrappers

  /** A redux-form `change(form, field, value)` action; dates are milliseconds since the epoch. */
  datatype Change = Change(form: string, field: string, value: int)

  /** The exception the thunk throws. */
  datatype ActionError = TypeError(field: string)

  /**
   * `shiftEndDate(formName, newStartAt, oldValues, startAtField, endAtField)`,
   * run with a dispatcher: the change it dispatches, if any. `oldValues` holds
   * the form's Date objects by field name (a missing key is undefined or null);
   * a Date object is truthy whatever its time. The old start's `getTime` is
   * called unconditionally, so a missing start throws.
   */
  function ShiftEndDate(formName: string, newStartAt: int, oldValues: map<string, int>,
                        startAtField: string := "start_at", endAtField: string := "end_at")
    : (r: Result<Option<Change>, ActionError>)
    ensures r.Failure? <==> startAtField !in oldValues
    ensures r.Success? ==>
      (r.value.Some? <==> endAtField in oldValues && oldValues[startAtField] <= oldValues[endAtField])
    // only the named end field of the named form is changed
    ensures r.Success? && r.value.Some? ==> r.value.value.form == formName && r.value.value.field == endAtField
    // the duration is kept, and with it the order of start and end
    ensures r.Success? && r.value.Some? ==>
      r.value.value.value - newStartAt == oldValues[endAtField] - oldValues[startAtField]
    ensures r.Success? && r.value.Some? ==> newStartAt <= r.value.value.value
  {
    if startAtField !in oldValues then Failure(TypeError(startAtField))
    else
      var oldStartTime := oldValues[startAtField];
      if endAtField in oldValues && oldStartTime <= oldValues[endAtField] then
        Success(Some(Change(formName, endAtField, oldValues[endAtField] + (newStartAt - oldStartTime))))
      else
        Success(None)
  }

  /** Without field names, the thunk reads `start_at` and changes `end_at`. */
  lemma DefaultFields(formName: string, newStartAt: int, oldValues: map<string, int>)
    requires "start_at" in oldValues && "end_at" in oldValues
    requires oldValues["start_at"] <= oldValues["end_at"]
    ensures ShiftEndDate(formName, newStartAt, oldValues) ==
      Success(Some(Change(formName, "end_at", oldValues["end_at"] + newStartAt - oldValues["start_at"])))
  {
  }

  /**
   * Changing the start back to what it was undoes the shift: applying the
   * dispatched change and shifting again from the new values restores the old end.
   */
  lemma ShiftEndDateUndo(formName: string, newStartAt: int, oldValues: map<string, int>,
                         startAtField: string, endAtField: string)
    requires startAtField != endAtField
    requires ShiftEndDate(formName, newStartAt, oldValues, startAtField, endAtField).Success?
    requires ShiftEndDate(formName, newStartAt, oldValues, startAtField, endAtField).value.Some?
    ensures var change := ShiftEndDate(formName, newStartAt, oldValues, startAtField, endAtField).value.value;
      var newValues := oldValues[startAtField := newStartAt][endAtField := change.value];
      ShiftEndDate(formName, oldValues[startAtField], newValues, startAtField, endAtField) ==
        Success(Some(Change(formName, endAtField, oldValues[endAtField])))
  {
  }
}
