/** Duration lanes: how a task's lane follows the active time it reports, and when completed
    samples are agreed enough to become a learned prior. */
module Durations {
  import opened Basics
  import opened Sorting

  const LABELS := ["seconds", "5m", "10m", "15m", "20m", "30m", "45m", "60m+"]
  const LIMITS := [60, 450, 750, 1_050, 1_500, 2_250, 3_150, 2_147_483_647]

  /** A lane is an index into LABELS. */
  type Lane = i: nat | i < 8

  const LAST: Lane := 7

  predicate Heavy(lane: Lane) { lane >= 6 }
  predicate Short(lane: Lane) { lane <= 2 }

  /** The first lane at or after `from` whose limit lies above `seconds`; the last one catches
      the rest. */
  function LaneFrom(from: Lane, seconds: nat): (lane: Lane)
    ensures from <= lane
    ensures lane < LAST ==> seconds < LIMITS[lane]
    ensures forall k | from <= k < lane :: LIMITS[k] <= seconds
    decreases 8 - from
  {
    if seconds < LIMITS[from] || from == LAST then from else LaneFrom(from + 1, seconds)
  }

  function LaneOf(seconds: nat): Lane {
    LaneFrom(0, seconds)
  }

  /** Longer work never lands in an earlier lane. */
  lemma LaneMonotone(a: nat, b: nat)
    requires a <= b
    ensures LaneOf(a) <= LaneOf(b)
  {
  }

  // ---------- reclassification ----------

  datatype Actual = Actual(
    active: nat,
    queue: Option<nat>,
    setup: Option<nat>,
    toolWait: Option<nat>,
    externalWait: Option<nat>,
    totalWall: Option<nat>,
    firstEvidence: Option<nat>,
    safeClose: Option<nat>)

  datatype Runtime = Running | BlockedOrWaiting

  datatype Timing = Timing(version: nat, lane: Lane, expectedActive: Option<nat>, actual: Option<Actual>)

  datatype Report = Report(runtime: Runtime, actual: Actual)

  datatype Progress = NonMonotonic | Progressed(timing: Timing, reclassified: bool, reasons: set<string>)

  predicate NotBefore(before: Option<nat>, after: Option<nat>) {
    before.Some? && after.Some? ==> before.value <= after.value
  }

  /** Every clock but the safe-close one may only grow; a clock may also go missing. */
  predicate Monotonic(before: Option<Actual>, after: Actual) {
    before.Some? ==>
      && before.value.active <= after.active
      && NotBefore(before.value.queue, after.queue)
      && NotBefore(before.value.setup, after.setup)
      && NotBefore(before.value.toolWait, after.toolWait)
      && NotBefore(before.value.externalWait, after.externalWait)
      && NotBefore(before.value.totalWall, after.totalWall)
      && NotBefore(before.value.firstEvidence, after.firstEvidence)
  }

  function Max(a: int, b: int): int { if a < b then b else a }

  predicate OverTwice(timing: Timing, active: nat) {
    timing.expectedActive.Some? && active > Max(1, timing.expectedActive.value) * 2 && timing.lane < LAST
  }

  /** The lane after a report: the measured one when it is later, and at least one step on when
      the estimate was off by more than a factor of two. */
  function NextLane(timing: Timing, report: Report): Lane {
    if report.runtime != Running then timing.lane
    else
      var measured := Max(timing.lane, LaneOf(report.actual.active));
      if OverTwice(timing, report.actual.active) then Max(measured, timing.lane + 1) else measured
  }

  function Reasons(timing: Timing, report: Report): set<string> {
    if report.runtime != Running then {"NON_RUNTIME_WAIT_EXCLUDED"}
    else
      var measured := LaneOf(report.actual.active);
      (if measured > timing.lane then {"NEXT_BUCKET_CROSSED"} else {})
      + (if measured >= timing.lane + 2 then {"TWO_BUCKETS_SKIPPED"} else {})
      + (if OverTwice(timing, report.actual.active) then {"ESTIMATE_ERROR_OVER_2X"} else {})
  }

  function ReplacementExpected(lane: Lane, active: nat): nat {
    Max(active, if lane != LAST then LIMITS[lane] else active * 2)
  }

  /** `record_duration_progress` on the timing row. */
  function Advance(timing: Timing, report: Report): Progress {
    if !Monotonic(timing.actual, report.actual) then NonMonotonic
    else
      var lane := NextLane(timing, report);
      if lane != timing.lane then
        Progressed(
          Timing(timing.version + 1, lane, Some(ReplacementExpected(lane, report.actual.active)), Some(report.actual)),
          true, Reasons(timing, report))
      else
        Progressed(timing.(actual := Some(report.actual)), false, Reasons(timing, report))
  }

  /** One report: the lane never falls, covers the measured time of an active report, and the
      version counts the change. */
  lemma AdvanceStep(timing: Timing, report: Report)
    requires Advance(timing, report).Progressed?
    ensures var next := Advance(timing, report);
      && timing.lane <= next.timing.lane
      && (report.runtime == Running ==> LaneOf(report.actual.active) <= next.timing.lane)
      && (next.reclassified <==> next.timing.lane != timing.lane)
      && next.timing.version == timing.version + (if next.reclassified then 1 else 0)
  {
  }

  /** Lanes only rise, and the version by at most one a lane. */
  predicate Grew(before: Timing, after: Timing) {
    before.lane <= after.lane && 0 <= after.version - before.version <= after.lane - before.lane
  }

  lemma AdvanceGrows(timing: Timing, report: Report)
    requires Advance(timing, report).Progressed?
    ensures Grew(timing, Advance(timing, report).timing)
  {
    AdvanceStep(timing, report);
  }

  /** Presenting the reading that was just recorded once more never moves the lane again. */
  lemma RepeatedReadingIsQuiet(timing: Timing, report: Report)
    requires Advance(timing, report).Progressed?
    ensures var next := Advance(timing, report).timing;
      Advance(next, report).Progressed? && !Advance(next, report).reclassified && Advance(next, report).timing == next
  {
    var next := Advance(timing, report).timing;
    if next.lane != timing.lane {
      assert report.actual.active <= next.expectedActive.value;
    }
  }

  /** A run of reports; one that goes backwards in time changes nothing. */
  function RunReports(timing: Timing, reports: seq<Report>): Timing
    decreases |reports|
  {
    if reports == [] then timing
    else
      var before := RunReports(timing, reports[..|reports| - 1]);
      var step := Advance(before, reports[|reports| - 1]);
      if step.Progressed? then step.timing else before
  }

  /** How often the lane moved during the run. */
  function LaneChanges(timing: Timing, reports: seq<Report>): nat
    decreases |reports|
  {
    if reports == [] then 0
    else
      var shorter := reports[..|reports| - 1];
      LaneChanges(timing, shorter)
      + if RunReports(timing, reports).lane != RunReports(timing, shorter).lane then 1 else 0
  }

  /** Over any run the version rises by the number of lane changes, each change costs at least
      one lane, and so there are at most seven. */
  lemma {:induction false} LaneChangesAreCounted(timing: Timing, reports: seq<Report>)
    ensures var end := RunReports(timing, reports);
      && timing.lane <= end.lane
      && end.version == timing.version + LaneChanges(timing, reports)
      && LaneChanges(timing, reports) <= end.lane - timing.lane <= 7
    decreases |reports|
  {
    if reports != [] {
      LaneChangesAreCounted(timing, reports[..|reports| - 1]);
    }
  }

  /** Whenever a run ends in an accepted active report, the final lane covers it. */
  lemma LaneCoversLastReport(timing: Timing, reports: seq<Report>)
    requires reports != [] && reports[|reports| - 1].runtime == Running
    requires Advance(RunReports(timing, reports[..|reports| - 1]), reports[|reports| - 1]).Progressed?
    ensures LaneOf(reports[|reports| - 1].actual.active) <= RunReports(timing, reports).lane
  {
    AdvanceStep(RunReports(timing, reports[..|reports| - 1]), reports[|reports| - 1]);
  }

  // ---------- learned prior ----------

  /** A completed sample as it is stored: the bucket was computed when it was recorded. */
  datatype Sample = Sample(
    id: string, recordedAt: int, family: string, tool: string, environment: string, active: nat, bucket: Lane)

  datatype Prior = Sparse | Conflicting | Learned(bucket: Lane, median: nat, high: bool)

  const MIN_SAMPLES := 5
  const MAX_SAMPLES := 20

  function InLane(lane: Lane): Sample -> bool { (row: Sample) => row.bucket == lane }

  function Votes(rows: seq<Sample>, lane: Lane): nat {
    |Filter(rows, InLane(lane))|
  }

  function Highest(rows: seq<Sample>, upTo: nat): (h: nat)
    requires 1 <= upTo <= 8
    ensures forall lane: Lane | lane < upTo :: Votes(rows, lane) <= h
    ensures exists lane: Lane | lane < upTo :: Votes(rows, lane) == h
  {
    var here := Votes(rows, upTo - 1);
    if upTo == 1 then here else
      var h := Highest(rows, upTo - 1);
      if here < h then h else here
  }

  function MostVotes(rows: seq<Sample>): (h: nat)
    ensures forall lane: Lane :: Votes(rows, lane) <= h
    ensures exists lane: Lane :: Votes(rows, lane) == h
  {
    Highest(rows, |LABELS|)
  }

  function Leaders(rows: seq<Sample>): set<Lane> {
    set lane: Lane | lane < 8 && Votes(rows, lane) == MostVotes(rows)
  }

  function ActiveOf(): Sample -> nat { (row: Sample) => row.active }

  predicate AtMost(a: nat, b: nat) { a <= b }

  function Median(rows: seq<Sample>): nat
    requires rows != []
  {
    Sort(Map(rows, ActiveOf()), AtMost)[|rows| / 2]
  }

  /** `duration_estimate` over the rows the query returned. */
  function LearnedPrior(rows: seq<Sample>): Prior {
    if |rows| < MIN_SAMPLES then Sparse
    else if |Leaders(rows)| != 1 || MostVotes(rows) * 5 < |rows| * 3 then Conflicting
    else Learned(LaneOf(Median(rows)), Median(rows), |rows| >= 10)
  }

  /** Every stored bucket is the one its active seconds fall into. */
  ghost predicate Calibrated(rows: seq<Sample>) {
    forall row | row in rows :: row.bucket == LaneOf(row.active)
  }

  function SecondsIn(lane: Lane): nat -> bool { (seconds: nat) => LaneOf(seconds) == lane }

  lemma {:induction false} VotesAreSeconds(rows: seq<Sample>, lane: Lane)
    requires Calibrated(rows)
    ensures Votes(rows, lane) == |Filter(Map(rows, ActiveOf()), SecondsIn(lane))|
  {
    if rows != [] {
      VotesAreSeconds(rows[1..], lane);
      MapHead(rows, ActiveOf());
    }
  }

  /** Counting splits at any point, and a part outside the lane counts nothing. */
  lemma CountSplits(seconds: seq<nat>, lane: Lane, k: nat)
    requires k <= |seconds|
    ensures |Filter(seconds, SecondsIn(lane))|
         == |Filter(seconds[..k], SecondsIn(lane))| + |Filter(seconds[k..], SecondsIn(lane))|
  {
    assert seconds == seconds[..k] + seconds[k..];
    FilterAppend(seconds[..k], seconds[k..], SecondsIn(lane));
  }

  /** Nothing up to the middle lies in a lane above it. */
  lemma NoneUpTo(sorted: seq<nat>, lane: Lane, m: nat)
    requires Sorted(sorted, AtMost) && m < |sorted| && LaneOf(sorted[m]) < lane
    ensures |Filter(sorted, SecondsIn(lane))| <= |sorted| - m - 1
  {
    forall x | x in sorted[..m + 1] ensures !SecondsIn(lane)(x) {
      var i :| 0 <= i <= m && sorted[i] == x;
      LaneMonotone(x, sorted[m]);
    }
    FilterNone(sorted[..m + 1], SecondsIn(lane));
    CountSplits(sorted, lane, m + 1);
  }

  /** Nothing from the middle on lies in a lane below it. */
  lemma NoneFrom(sorted: seq<nat>, lane: Lane, m: nat)
    requires Sorted(sorted, AtMost) && m < |sorted| && lane < LaneOf(sorted[m])
    ensures |Filter(sorted, SecondsIn(lane))| <= m
  {
    forall x | x in sorted[m..] ensures !SecondsIn(lane)(x) {
      var i :| m <= i < |sorted| && sorted[i] == x;
      LaneMonotone(sorted[m], x);
    }
    FilterNone(sorted[m..], SecondsIn(lane));
    CountSplits(sorted, lane, m);
  }

  /** A lane that holds more than half of a sorted list holds its middle element: everything on
      one side of the middle would otherwise lie outside the lane. */
  lemma MajorityHoldsMiddle(sorted: seq<nat>, lane: Lane)
    requires Sorted(sorted, AtMost) && sorted != []
    requires 2 * |Filter(sorted, SecondsIn(lane))| > |sorted|
    ensures LaneOf(sorted[|sorted| / 2]) == lane
  {
    var m := |sorted| / 2;
    if LaneOf(sorted[m]) < lane {
      NoneUpTo(sorted, lane, m);
    } else if lane < LaneOf(sorted[m]) {
      NoneFrom(sorted, lane, m);
    }
  }

  lemma DisjointVotes(rows: seq<Sample>, a: Lane, b: Lane)
    requires a != b
    ensures Votes(rows, a) + Votes(rows, b) <= |rows|
  {
    if rows != [] {
      DisjointVotes(rows[1..], a, b);
    }
  }

  /** A lane has three fifths of the votes. */
  ghost predicate Carries(rows: seq<Sample>, lane: Lane) {
    Votes(rows, lane) * 5 >= |rows| * 3
  }

  /** Whenever a prior is learned, the lane of the median, computed from the seconds alone, is
      the one and only lane that carries three fifths of the stored buckets. */
  lemma LearnedBucketCarries(rows: seq<Sample>)
    requires Calibrated(rows) && LearnedPrior(rows).Learned?
    ensures forall lane: Lane :: Carries(rows, lane) <==> lane == LearnedPrior(rows).bucket
  {
    var top: Lane :| Votes(rows, top) == MostVotes(rows);
    var seconds := Map(rows, ActiveOf());
    var sorted := Sort(seconds, AtMost);
    SortSorted(seconds, AtMost);
    FilterPermutes(seconds, sorted, SecondsIn(top));
    VotesAreSeconds(rows, top);
    assert |Filter(sorted, SecondsIn(top))| == |multiset(Filter(sorted, SecondsIn(top)))|;
    assert |Filter(seconds, SecondsIn(top))| == |multiset(Filter(seconds, SecondsIn(top)))|;
    MajorityHoldsMiddle(sorted, top);
    forall lane: Lane | lane != top ensures !Carries(rows, lane) {
      DisjointVotes(rows, lane, top);
    }
  }

  lemma CarriedLeadsAlone(rows: seq<Sample>, lane: Lane)
    requires rows != [] && Carries(rows, lane)
    ensures Leaders(rows) == {lane} && MostVotes(rows) * 5 >= |rows| * 3
  {
    forall other: Lane | other != lane ensures Votes(rows, other) < Votes(rows, lane) {
      DisjointVotes(rows, other, lane);
    }
    var top: Lane :| Votes(rows, top) == MostVotes(rows);
    assert Votes(rows, lane) <= MostVotes(rows);
    assert top == lane;
    assert lane in Leaders(rows);
    forall other | other in Leaders(rows) ensures other == lane {
      assert Votes(rows, other) == Votes(rows, lane);
    }
  }

  /** The exact condition: with five rows or more a prior is learned if and only if some lane
      carries three fifths; the separate check for a single leader never decides. */
  lemma LearnedExactlyWhenCarried(rows: seq<Sample>)
    requires |rows| >= MIN_SAMPLES
    ensures LearnedPrior(rows).Learned? <==> exists lane: Lane :: Carries(rows, lane)
  {
    if lane: Lane :| Carries(rows, lane) {
      CarriedLeadsAlone(rows, lane);
    }
    if LearnedPrior(rows).Learned? {
      var top: Lane :| Votes(rows, top) == MostVotes(rows);
      assert Carries(rows, top);
    }
  }
}
