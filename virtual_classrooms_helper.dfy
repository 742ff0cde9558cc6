/**
 * `Course::VirtualClassroomsHelper#duration_options`: the choices offered for a
 * virtual classroom's duration, every multiple of 15 minutes from 15 up to the
 * course's maximum duration, each labelled "<n> minutes".
 */
module VirtualClassroomsHelper {
  import opened Wrappers

  /** The step between two offered durations, in minutes. */
  const Step := 15

  /** One option of the select box: its label and its value in minutes. */
  datatype DurationOption = DurationOption(caption: string, minutes: int)

  /** The character of a decimal digit. */
  function DigitChar(d: nat): (c: char)
    requires d < 10
    ensures '0' <= c <= '9' && c as int - '0' as int == d
  {
    "0123456789"[d]
  }

  /** Ruby's `Integer#to_s` on a non-negative integer: its decimal digits. */
  function DecimalString(n: nat): (s: string)
    ensures |s| >= 1 && forall i :: 0 <= i < |s| ==> '0' <= s[i] <= '9'
    decreases n
  {
    if n < 10 then [DigitChar(n)] else DecimalString(n / 10) + [DigitChar(n % 10)]
  }

  predicate IsDigits(s: string) {
    forall i :: 0 <= i < |s| ==> '0' <= s[i] <= '9'
  }

  /** The number a string of decimal digits denotes (the inverse of DecimalString). */
  function DecimalValue(s: string): (n: nat)
    requires IsDigits(s)
  {
    if s == [] then 0
    else DecimalValue(s[..|s| - 1]) * 10 + (s[|s| - 1] as int - '0' as int)
  }

  /** DecimalString writes only digits, at least one, and no leading zero. */
  lemma {:induction false} DecimalStringWellFormed(n: nat)
    ensures IsDigits(DecimalString(n)) && |DecimalString(n)| >= 1
    ensures DecimalString(n)[0] == '0' <==> n == 0
    decreases n
  {
    if n >= 10 {
      DecimalStringWellFormed(n / 10);
    }
  }

  /** Reading back the label's number gives the duration it was made from. */
  lemma {:induction false} DecimalRoundTrip(n: nat)
    ensures IsDigits(DecimalString(n)) && DecimalValue(DecimalString(n)) == n
    decreases n
  {
    DecimalStringWellFormed(n);
    if n >= 10 {
      DecimalRoundTrip(n / 10);
      var s := DecimalString(n);
      assert s[..|s| - 1] == DecimalString(n / 10);
    }
  }

  /** Two different durations never get the same label. */
  lemma DecimalStringInjective(m: nat, n: nat)
    requires DecimalString(m) == DecimalString(n)
    ensures m == n
  {
    DecimalRoundTrip(m);
    DecimalRoundTrip(n);
  }

  /**
   * The label shown for a duration of `minutes`: `"#{i} minutes"`, the
   * duration's digits followed by " minutes", from which it can be read back.
   */
  function Label(minutes: nat): (r: string)
    ensures |r| > 8 && r[|r| - 8..] == " minutes"
    ensures IsDigits(r[..|r| - 8]) && DecimalValue(r[..|r| - 8]) == minutes
  {
    var digits := DecimalString(minutes);
    DecimalRoundTrip(minutes);
    assert (digits + " minutes")[..|digits|] == digits;
    digits + " minutes"
  }

  /** Ruby's `to_i` on the setting: `nil.to_i` is 0, an Integer is itself. */
  function ToI(maxDuration: Option<int>): int {
    match maxDuration
    case None => 0
    case Some(m) => m
  }

  /** The values `(from..hi).step(15)` enumerates: from, from + 15, ... while at most hi. */
  function StepFrom(from: int, hi: int): (r: seq<int>)
    ensures |r| == if from > hi then 0 else (hi - from) / Step + 1
    ensures forall k :: 0 <= k < |r| ==> r[k] == from + Step * k
    decreases hi - from
  {
    if from > hi then [] else [from] + StepFrom(from + Step, hi)
  }

  /**
   * `duration_options`: `(15..max_duration.to_i).step(15).map { |i| ["#{i} minutes", i] }`.
   */
  function DurationOptions(maxDuration: Option<int>): (r: seq<DurationOption>)
    // the k-th option is (k + 1) * 15 minutes, labelled with its own value
    ensures forall k :: 0 <= k < |r| ==>
      r[k].minutes == Step * (k + 1) && r[k].caption == Label(Step * (k + 1))
    // never more than the maximum, and nothing is skipped below it
    ensures forall k :: 0 <= k < |r| ==> r[k].minutes <= ToI(maxDuration)
    ensures |r| > 0 ==> ToI(maxDuration) - r[|r| - 1].minutes < Step
    // empty exactly when the maximum (0 when unset) is below 15
    ensures |r| == 0 <==> ToI(maxDuration) < Step
  {
    var values := StepFrom(Step, ToI(maxDuration));
    seq(|values|, k requires 0 <= k < |values| => DurationOption(Label(values[k]), values[k]))
  }

  /** Every value offered is a positive multiple of 15, and they rise strictly by 15. */
  lemma DurationOptionsAreSteps(maxDuration: Option<int>)
    ensures var r := DurationOptions(maxDuration);
      (forall k :: 0 <= k < |r| ==> r[k].minutes > 0 && r[k].minutes % Step == 0) &&
      (|r| > 0 ==> r[0].minutes == Step) &&
      (forall k :: 0 <= k < |r| - 1 ==> r[k + 1].minutes == r[k].minutes + Step)
  {
    var r := DurationOptions(maxDuration);
    forall k | 0 <= k < |r|
      ensures r[k].minutes > 0 && r[k].minutes % Step == 0
    {
      MultipleOfStep(k + 1);
    }
  }

  lemma MultipleOfStep(m: nat)
    ensures (Step * m) % Step == 0
  {
    assert Step * m == 15 * m;
  }

  /** With no maximum set, no option is offered. */
  lemma NoMaximumNoOptions()
    ensures DurationOptions(None) == []
  {
  }
}
