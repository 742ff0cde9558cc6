/**
 * `CourseUser::StaffConcern`: a staff member's marking-time statistics over the
 * submissions they published, and the ordering of staff by average marking
 * time with staff who have no average last.
 */
module StaffConcern {
  import opened Wrappers

  /**
   * A published submission's two timestamps, in whole microseconds (the
   * precision the database stores); either may be unset.
   */
  datatype Submission = Submission(submittedAt: Option<int>, publishedAt: Option<int>)

  /** `s.submitted_at && s.published_at && s.published_at > s.submitted_at`. */
  predicate IsValid(s: Submission) {
    s.submittedAt.Some? && s.publishedAt.Some? && s.publishedAt.value > s.submittedAt.value
  }

  /** How many of the submissions satisfy IsValid. */
  function CountValid(subs: seq<Submission>): nat {
    if subs == [] then 0 else CountValid(subs[..|subs| - 1]) + (if IsValid(subs[|subs| - 1]) then 1 else 0)
  }

  /** `a` is `b` with some elements left out, order kept. */
  predicate IsSubsequence<T(==)>(a: seq<T>, b: seq<T>)
    decreases |b|
  {
    if a == [] then true
    else if b == [] then false
    else if a[|a| - 1] == b[|b| - 1] then IsSubsequence(a[..|a| - 1], b[..|b| - 1])
    else IsSubsequence(a, b[..|b| - 1])
  }

  /**
   * `valid_submissions`: the published submissions with both timestamps set
   * and published strictly after submitted, in their original order.
   */
  function ValidSubmissions(subs: seq<Submission>): (r: seq<Submission>)
    ensures forall s :: s in r ==> s in subs && IsValid(s)
    ensures |r| == CountValid(subs)
    ensures IsSubsequence(r, subs)
  {
    if subs == [] then []
    else
      var init, last := subs[..|subs| - 1], subs[|subs| - 1];
      assert subs == init + [last];
      if IsValid(last) then ValidSubmissions(init) + [last] else ValidSubmissions(init)
  }

  /**
   * Every valid submission is kept as often as it occurs, and nothing else is:
   * the selection is exact, not merely a subset.
   */
  lemma {:induction false} ValidSubmissionsExact(subs: seq<Submission>)
    ensures forall s :: multiset(ValidSubmissions(subs))[s] == if IsValid(s) then multiset(subs)[s] else 0
  {
    if subs != [] {
      var init, last := subs[..|subs| - 1], subs[|subs| - 1];
      assert subs == init + [last];
      ValidSubmissionsExact(init);
    }
  }

  /** `published_at - submitted_at` of a valid submission. */
  function MarkingTime(s: Submission): (t: int)
    requires IsValid(s)
    ensures t > 0
  {
    s.publishedAt.value - s.submittedAt.value
  }

  /**
   * `valid_submissions.sum { |s| s.published_at - s.submitted_at }`. Each term
   * is positive, so the total is at least the number of terms.
   */
  function TotalMarkingTime(valid: seq<Submission>): (t: int)
    requires forall s :: s in valid ==> IsValid(s)
    ensures t >= |valid|
  {
    if valid == [] then 0 else TotalMarkingTime(valid[..|valid| - 1]) + MarkingTime(valid[|valid| - 1])
  }

  /** `total / count`, the exact quotient. */
  function Mean(total: int, count: nat): real
    requires count > 0
  {
    total as real / count as real
  }

  /** `mean * count`. */
  function Scale(mean: real, count: nat): real {
    mean * count as real
  }

  /** The mean times the count gives back the total; a total at least the count gives a positive mean. */
  lemma MeanProperties(total: int, count: nat)
    requires count > 0
    ensures Scale(Mean(total, count), count) == total as real
    ensures total >= count ==> Mean(total, count) > 0.0
  {
  }

  /**
   * `average_marking_time`: nil with no valid submission, otherwise the total
   * marking time divided by their number (exact division here).
   */
  function AverageMarkingTime(subs: seq<Submission>): (r: Option<real>)
    ensures r.None? <==> CountValid(subs) == 0
    ensures r.Some? ==> Scale(r.value, CountValid(subs)) == TotalMarkingTime(ValidSubmissions(subs)) as real
    ensures r.Some? ==> r.value > 0.0
  {
    var valid := ValidSubmissions(subs);
    var count := CountValid(subs);
    if count == 0 then None
    else
      var total := TotalMarkingTime(valid);
      MeanProperties(total, count);
      Some(Mean(total, count))
  }

  /** `time_diff`: the marking times of the valid submissions, in order. */
  function MarkingTimes(subs: seq<Submission>): (r: seq<int>)
    ensures |r| == CountValid(subs)
    ensures forall k :: 0 <= k < |r| ==> r[k] > 0
  {
    var valid := ValidSubmissions(subs);
    seq(|valid|, k requires 0 <= k < |valid| => MarkingTime(valid[k]))
  }

  /** `array.reduce(0) { |a, e| a + (e - m)**2 }`. */
  function SquaredDeviations(xs: seq<int>, m: real): real {
    if xs == [] then 0.0
    else
      var d := xs[|xs| - 1] as real - m;
      SquaredDeviations(xs[..|xs| - 1], m) + d * d
  }

  function IntSum(xs: seq<int>): int {
    if xs == [] then 0 else IntSum(xs[..|xs| - 1]) + xs[|xs| - 1]
  }

  /** A sum of squares is never negative. */
  lemma {:induction false} SquaredDeviationsNonNegative(xs: seq<int>, m: real)
    ensures SquaredDeviations(xs, m) >= 0.0
  {
    if xs != [] {
      SquaredDeviationsNonNegative(xs[..|xs| - 1], m);
      var d := xs[|xs| - 1] as real - m;
      assert d * d >= 0.0;
    }
  }

  /**
   * `sample_variance`: the mean squared deviation from the mean. It is never
   * negative, so the `Math.sqrt` that `standard_deviation` applies to it is
   * always defined.
   */
  function SampleVariance(xs: seq<int>): (v: real)
    requires |xs| > 0
    ensures v >= 0.0
  {
    var m := IntSum(xs) as real / |xs| as real;
    SquaredDeviationsNonNegative(xs, m);
    SquaredDeviations(xs, m) / |xs| as real
  }

  /**
   * `marking_time_stddev`, squared: nil when there is no valid submission,
   * otherwise the sample variance of the marking times (the square root is
   * not modelled).
   */
  function MarkingTimeVariance(subs: seq<Submission>): (r: Option<real>)
    ensures r.None? <==> CountValid(subs) == 0
    ensures r.Some? ==> r.value >= 0.0
  {
    var times := MarkingTimes(subs);
    if |times| == 0 then None else Some(SampleVariance(times))
  }

  /** The standard deviation exists exactly when the average does. */
  lemma StddevPresentIffAverage(subs: seq<Submission>)
    ensures MarkingTimeVariance(subs).Some? <==> AverageMarkingTime(subs).Some?
  {
  }

  // ---------------------------------------------------------------------------
  // ordered_by_average_marking_time
  // ---------------------------------------------------------------------------

  /**
   * A staff member as the sort sees them: an identity and the value of their
   * `average_marking_time`, as StaffEntry computes it.
   */
  datatype Staff = Staff(id: nat, average: Option<real>)

  /** The sort's view of the staff member `id` with these published submissions. */
  function StaffEntry(id: nat, publishedSubmissions: seq<Submission>): (r: Staff)
    ensures r.id == id && r.average == AverageMarkingTime(publishedSubmissions)
    ensures r.average.None? <==> CountValid(publishedSubmissions) == 0
  {
    Staff(id, AverageMarkingTime(publishedSubmissions))
  }

  /** Ruby's `<=>` on two averages. */
  function Spaceship(a: real, b: real): int {
    if a < b then -1 else if a == b then 0 else 1
  }

  /**
   * The sort block: both averages set, compare them; otherwise -1 when x has
   * an average (and so y has none), 1 when x has none.
   */
  function Compare(x: Staff, y: Staff): (r: int)
    ensures -1 <= r <= 1
    // two averages compare as numbers, antisymmetrically
    ensures x.average.Some? && y.average.Some? ==>
      (r < 0 <==> x.average.value < y.average.value) && (r == 0 <==> x.average.value == y.average.value)
    // an average sorts before no average
    ensures x.average.Some? && y.average.None? ==> r == -1
    ensures x.average.None? ==> r == 1
  {
    if x.average.Some? && y.average.Some? then Spaceship(x.average.value, y.average.value)
    else if x.average.Some? then -1
    else 1
  }

  /**
   * The block is antisymmetric except between two staff without an average,
   * where it answers 1 both ways: it fixes no order among them.
   */
  lemma CompareAntisymmetric(x: Staff, y: Staff)
    ensures x.average.Some? || y.average.Some? ==> Compare(x, y) == -Compare(y, x)
    ensures x.average.None? && y.average.None? ==> Compare(x, y) == 1 && Compare(y, x) == 1
  {
  }

  /** The order the sort establishes between two positions: y does not come before x. */
  predicate InOrder(x: Staff, y: Staff) {
    y.average.Some? ==> x.average.Some? && x.average.value <= y.average.value
  }

  /** Staff with an average first, ascending by average; staff without an average last. */
  predicate Ordered(s: seq<Staff>) {
    forall i, j :: 0 <= i < j < |s| ==> InOrder(s[i], s[j])
  }

  /** Whether x may be placed before y: the comparator does not put y first. */
  lemma CompareAgreesWithOrder(x: Staff, y: Staff)
    ensures Compare(x, y) <= 0 ==> InOrder(x, y)
    ensures Compare(x, y) > 0 ==> InOrder(y, x)
  {
  }

  /** Insert x into an ordered list before the first member it does not compare after. */
  function Insert(x: Staff, s: seq<Staff>): (r: seq<Staff>)
    requires Ordered(s)
    ensures multiset(r) == multiset(s) + multiset{x}
    ensures Ordered(r)
  {
    if s == [] then [x]
    else if Compare(x, s[0]) <= 0 then
      CompareAgreesWithOrder(x, s[0]);
      [x] + s
    else
      CompareAgreesWithOrder(x, s[0]);
      var rest := Insert(x, s[1..]);
      assert multiset(s) == multiset{s[0]} + multiset(s[1..]) by { assert s == [s[0]] + s[1..]; }
      assert forall z :: z in rest ==> z in s[1..] || z == x by {
        forall z | z in rest ensures z in s[1..] || z == x {
          assert z in multiset(rest);
        }
      }
      assert forall k :: 0 <= k < |rest| ==> InOrder(s[0], rest[k]) by {
        forall k | 0 <= k < |rest| ensures InOrder(s[0], rest[k]) {
          assert rest[k] in rest;
          if rest[k] != x {
            var m :| 0 <= m < |s[1..]| && s[1..][m] == rest[k];
            assert s[m + 1] == rest[k];
          }
        }
      }
      [s[0]] + rest
  }

  /**
   * `ordered_by_average_marking_time`: the staff sorted with the block above.
   * The result holds the same staff, those with an average come first in
   * ascending order, and those without come last.
   */
  function OrderedByAverageMarkingTime(staff: seq<Staff>): (r: seq<Staff>)
    ensures multiset(r) == multiset(staff)
    ensures Ordered(r)
  {
    if staff == [] then []
    else
      assert staff == [staff[0]] + staff[1..];
      Insert(staff[0], OrderedByAverageMarkingTime(staff[1..]))
  }

  /** After sorting, everyone with an average comes before everyone without one. */
  lemma AveragedStaffFirst(staff: seq<Staff>, i: nat, j: nat)
    requires var r := OrderedByAverageMarkingTime(staff);
      i < |r| && j < |r| && r[i].average.Some? && r[j].average.None?
    ensures i < j
  {
  }

  // ---------------------------------------------------------------------------
  // Memoised accessors
  // ---------------------------------------------------------------------------

  /**
   * A staff member's memoised statistics: `@valid_submissions` and
   * `@average_marking_time`, each filled by `||=` on first use.
   * `publishedSubmissions` is the result of the `published_submissions` query.
   */
  class StaffMember {
    const publishedSubmissions: seq<Submission>
    var validSubmissions: Option<seq<Submission>>
    var averageMarkingTime: Option<real>

    /** Whatever is memoised is what the definitions compute. */
    ghost predicate Valid()
      reads this
    {
      && (validSubmissions.Some? ==> validSubmissions.value == ValidSubmissions(publishedSubmissions))
      && (averageMarkingTime.Some? ==> averageMarkingTime == AverageMarkingTime(publishedSubmissions))
    }

    constructor (publishedSubmissions: seq<Submission>)
      ensures Valid() && this.publishedSubmissions == publishedSubmissions
      ensures validSubmissions == None && averageMarkingTime == None
    {
      this.publishedSubmissions := publishedSubmissions;
      validSubmissions := None;
      averageMarkingTime := None;
    }

    /** `valid_submissions`: computed once, then served from `@valid_submissions`. */
    method ValidSubmissionsMemo() returns (r: seq<Submission>)
      requires Valid()
      modifies this`validSubmissions
      ensures Valid()
      ensures r == ValidSubmissions(publishedSubmissions) && validSubmissions == Some(r)
    {
      if validSubmissions.None? {
        validSubmissions := Some(ValidSubmissions(publishedSubmissions));
      }
      r := validSubmissions.value;
    }

    /**
     * `average_marking_time`: a nil average is stored as nil, so `||=`
     * recomputes it on every call; a present average is computed once.
     */
    method AverageMarkingTimeMemo() returns (r: Option<real>)
      requires Valid()
      modifies this
      ensures Valid()
      ensures r == AverageMarkingTime(publishedSubmissions) && averageMarkingTime == r
      ensures validSubmissions == if old(averageMarkingTime).Some? then old(validSubmissions)
                                  else Some(ValidSubmissions(publishedSubmissions))
    {
      if averageMarkingTime.Some? {
        return averageMarkingTime;
      }
      var valid := ValidSubmissionsMemo();
      if |valid| == 0 {
        averageMarkingTime := None;
      } else {
        averageMarkingTime := AverageMarkingTime(publishedSubmissions);
      }
      r := averageMarkingTime;
    }
  }
}
