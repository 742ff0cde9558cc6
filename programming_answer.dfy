/**
 * `Course::Assessment::Answer::Programming#attempting_times_left`: how many
 * more times a student may run their programming answer against the tests.
 */
module ProgrammingAnswer {
  import opened Wrappers

  /** `MAX_ATTEMPTING_TIMES`, reported when the question sets no attempt limit. */
  const MaxAttemptingTimes: nat := 1000

  /**
   * The attempts left: the maximum without a limit; otherwise the limit less
   * the number of evaluated or graded answers to the question, floored at 0.
   */
  function TimesLeft(attemptLimit: Option<int>, evaluatedOrGraded: nat): (r: nat)
    ensures attemptLimit.None? ==> r == MaxAttemptingTimes
    ensures attemptLimit.Some? && evaluatedOrGraded <= attemptLimit.value ==>
      r + evaluatedOrGraded == attemptLimit.value
    ensures attemptLimit.Some? && evaluatedOrGraded >= attemptLimit.value ==> r == 0
  {
    if attemptLimit.None? then MaxAttemptingTimes
    else
      var times := attemptLimit.value - evaluatedOrGraded;
      if times < 0 then 0 else times
  }

  /** With a limit, the attempts left never exceed the limit (nor 0 for a negative one). */
  lemma TimesLeftBounded(limit: int, evaluatedOrGraded: nat)
    ensures TimesLeft(Some(limit), evaluatedOrGraded) <= if limit < 0 then 0 else limit
  {
  }

  /** Every further evaluated or graded answer uses up one attempt, until none is left. */
  lemma EachGradedAnswerUsesOneAttempt(limit: int, evaluatedOrGraded: nat)
    ensures TimesLeft(Some(limit), evaluatedOrGraded + 1) ==
      if TimesLeft(Some(limit), evaluatedOrGraded) == 0 then 0 else TimesLeft(Some(limit), evaluatedOrGraded) - 1
  {
  }

  /** More evaluated or graded answers never leave more attempts. */
  lemma TimesLeftMonotone(attemptLimit: Option<int>, m: nat, n: nat)
    requires m <= n
    ensures TimesLeft(attemptLimit, n) <= TimesLeft(attemptLimit, m)
  {
  }

  /**
   * A programming answer with what `attempting_times_left` reads: the question's
   * attempt limit and the number of evaluated or graded answers to it in the
   * submission. `timesLeft` is `@times_left`.
   */
  class Answer {
    const attemptLimit: Option<int>
    const evaluatedOrGraded: nat
    var timesLeft: Option<nat>

    /** Whatever is cached is what TimesLeft computes, and only a limited count is ever cached. */
    ghost predicate Valid()
      reads this
    {
      timesLeft.Some? ==> attemptLimit.Some? && timesLeft.value == TimesLeft(attemptLimit, evaluatedOrGraded)
    }

    constructor (attemptLimit: Option<int>, evaluatedOrGraded: nat)
      ensures Valid()
      ensures this.attemptLimit == attemptLimit && this.evaluatedOrGraded == evaluatedOrGraded
      ensures timesLeft == None
    {
      this.attemptLimit := attemptLimit;
      this.evaluatedOrGraded := evaluatedOrGraded;
      timesLeft := None;
    }

    /**
     * `attempting_times_left`: served from `@times_left` once set. The early
     * `return` for a question without a limit leaves the `||=` before it
     * assigns, so only a limited count is cached; 0 is truthy in Ruby, so a
     * count of 0 is cached too.
     */
    method AttemptingTimesLeft() returns (r: nat)
      requires Valid()
      modifies this`timesLeft
      ensures Valid()
      ensures r == TimesLeft(attemptLimit, evaluatedOrGraded)
      ensures timesLeft == if attemptLimit.None? then None else Some(r)
    {
      if timesLeft.Some? {
        return timesLeft.value;
      }
      if attemptLimit.None? {
        return MaxAttemptingTimes;
      }
      var times := attemptLimit.value - evaluatedOrGraded;
      if times < 0 {
        times := 0;
      }
      timesLeft := Some(times);
      r := times;
    }
  }
}
