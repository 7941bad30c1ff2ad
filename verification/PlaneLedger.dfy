/** What every reachable state says about its stored rules, duration samples and lease
    expirations, so that the laws about policy, learned priors and leases apply to it. */
module PlaneLedger {
  import opened Basics
  import opened Sorting
  import opened PlaneModel
  import opened PlaneRuns
  import opened PlaneReplay
  import Durations
  import Policy

  // ---------- the invariant ----------

  ghost predicate DistinctRevisions(rules: seq<Policy.Rule>) {
    forall i, j | 0 <= i < j < |rules| :: rules[i].id != rules[j].id || rules[i].revision != rules[j].revision
  }

  ghost predicate ExpiredForGood(s: State) {
    forall k | k in s.handled && k.table == LeaseExpirations && s.handled[k].op.ExpireLease? ::
      s.handled[k].op.fence.task in s.tasks && s.tasks[s.handled[k].op.fence.task].state == Expired
  }

  ghost predicate Ledger(s: State) {
    DistinctRevisions(s.rules) && Durations.Calibrated(s.samples) && ExpiredForGood(s)
  }

  lemma LeavesLedger(s: State, s': State)
    requires Ledger(s) && Leaves(s, s')
    ensures Ledger(s')
  {
    forall k | k in s'.handled && k.table == LeaseExpirations && s'.handled[k].op.ExpireLease?
      ensures s'.handled[k].op.fence.task in s'.tasks && s'.tasks[s'.handled[k].op.fence.task].state == Expired
    {
      assert s.tasks[s.handled[k].op.fence.task].state == Expired;
    }
  }

  lemma RuleLedger(s: State, s': State, expected: nat, rule: Policy.Rule)
    requires Ledger(s) && TryRecordRule(s, expected, rule) == Ok(s')
    ensures Ledger(s')
  {
    assert forall r | r in s.rules :: r.id != rule.id || r.revision < rule.revision;
  }

  lemma SampleLedger(s: State, s': State, id: string, f: Fence, external: string, actual: Durations.Actual, now: int)
    requires Ledger(s) && TrySample(s, id, f, external, actual, now) == Ok(s')
    ensures Ledger(s')
  {
    forall t | t in s.tasks ensures t in s'.tasks && s'.tasks[t].state == s.tasks[t].state {}
    forall k | k in s'.handled && k.table == LeaseExpirations && s'.handled[k].op.ExpireLease?
      ensures s'.handled[k].op.fence.task in s'.tasks && s'.tasks[s'.handled[k].op.fence.task].state == Expired
    {
      assert s.tasks[s.handled[k].op.fence.task].state == Expired;
    }
  }

  lemma AttemptLedger(s: State, s': State, op: Op, now: int)
    requires Ledger(s) && Attempt(s, op, now) == Ok(s')
    ensures Ledger(s')
    ensures op.ExpireLease? ==> op.fence.task in s'.tasks && s'.tasks[op.fence.task].state == Expired
  {
    match op
    case RecordRule(_, expected, rule) => RuleLedger(s, s', expected, rule);
    case RecordSample(id, f, external, actual) => SampleLedger(s, s', id, f, external, actual, now);
    case _ =>
      AttemptLeaves(s, s', op, now);
      LeavesLedger(s, s');
  }

  lemma RememberLedger(s: State, req: Request)
    requires Ledger(s)
    requires req.op.ExpireLease? ==> req.op.fence.task in s.tasks && s.tasks[req.op.fence.task].state == Expired
    ensures Ledger(Remember(s, req))
  {
  }

  lemma StepLedger(s: State, req: Request)
    requires Ledger(s)
    ensures Ledger(Apply(s, req).state)
  {
    ApplyCases(s, req);
    if Apply(s, req).outcome.Committed? {
      var next := Attempt(s, req.op, req.now).value;
      AttemptLedger(s, next, req.op, req.now);
      RememberLedger(next, req);
    }
  }

  /** The stored rules never repeat a revision, every stored sample sits in the bucket of its
      seconds, and an expired task stays expired, in every reachable state. */
  lemma {:induction false} RunLedger(s: State, reqs: seq<Request>)
    requires Ledger(s)
    ensures Ledger(Exec(s, reqs))
    decreases |reqs|
  {
    if reqs != [] {
      RunLedger(s, reqs[..|reqs| - 1]);
      StepLedger(Exec(s, reqs[..|reqs| - 1]), reqs[|reqs| - 1]);
    }
  }

  // ---------- lanes ----------

  ghost predicate LanesGrew(s: State, s': State) {
    forall t | t in s.tasks :: t in s'.tasks && Durations.Grew(s.tasks[t].timing, s'.tasks[t].timing)
  }

  lemma SampleKeepsLanes(s: State, s': State, id: string, f: Fence, external: string, actual: Durations.Actual, now: int)
    requires TrySample(s, id, f, external, actual, now) == Ok(s')
    ensures LanesGrew(s, s')
  {
  }

  lemma StepKeepsLanes(s: State, req: Request)
    ensures LanesGrew(s, Apply(s, req).state)
  {
    ApplyCases(s, req);
    if Apply(s, req).outcome.Committed? {
      var next := Attempt(s, req.op, req.now).value;
      match req.op
      case RecordRule(_, _, _) =>
      case RecordSample(id, f, external, actual) => SampleKeepsLanes(s, next, id, f, external, actual, req.now);
      case _ => AttemptLeaves(s, next, req.op, req.now);
    }
  }

  /** Whatever happens to an authority, no task's lane ever falls, and its estimate version
      rises by at most the lanes it gained: seven at most. */
  lemma {:induction false} LanesNeverFall(s: State, reqs: seq<Request>)
    ensures LanesGrew(s, Exec(s, reqs))
    ensures forall t | t in s.tasks :: Exec(s, reqs).tasks[t].timing.version <= s.tasks[t].timing.version + 7
    decreases |reqs|
  {
    if reqs != [] {
      LanesNeverFall(s, reqs[..|reqs| - 1]);
      StepKeepsLanes(Exec(s, reqs[..|reqs| - 1]), reqs[|reqs| - 1]);
    }
  }

  // ---------- policy ----------

  lemma {:induction false} FilterDistinct(rules: seq<Policy.Rule>, keep: Policy.Rule -> bool)
    requires DistinctRevisions(rules)
    ensures DistinctRevisions(Filter(rules, keep))
  {
    if rules != [] {
      FilterDistinct(rules[1..], keep);
      forall j | 0 <= j < |Filter(rules[1..], keep)|
        ensures rules[0].id != Filter(rules[1..], keep)[j].id || rules[0].revision != Filter(rules[1..], keep)[j].revision
      {
        assert Filter(rules[1..], keep)[j] in rules[1..];
      }
    }
  }

  lemma UniqueIsOnce(rules: seq<Policy.Rule>, id: string)
    requires Policy.UniqueIds(rules)
    ensures multiset(Map(rules, Policy.RuleId()))[id] <= 1
  {
    if r :| r in rules && r.id == id {
      Policy.UniqueCount(rules, r);
    } else {
      assert id !in Map(rules, Policy.RuleId());
    }
  }

  lemma TwiceIsCounted(rules: seq<Policy.Rule>, i: nat, j: nat)
    requires i < j < |rules| && rules[i].id == rules[j].id
    ensures multiset(Map(rules, Policy.RuleId()))[rules[i].id] >= 2
  {
    var ids := Map(rules, Policy.RuleId());
    assert ids == ids[..i] + [ids[i]] + ids[i + 1..j] + [ids[j]] + ids[j + 1..];
  }

  /** The rules a launch is resolved against carry each id once, in every reachable state: the
      laws of policy resolution hold there without a condition. */
  lemma CurrentRulesAreUnique(s: State)
    requires Ledger(s)
    ensures Policy.UniqueIds(CurrentRules(s.rules))
  {
    var newest := Filter(s.rules, Latest(s.rules));
    FilterDistinct(s.rules, Latest(s.rules));
    forall i, j | 0 <= i < j < |newest| ensures newest[i].id != newest[j].id {
      assert newest[i] in newest && newest[j] in newest;
      assert Latest(s.rules)(newest[i]) && Latest(s.rules)(newest[j]);
    }
    var current := CurrentRules(s.rules);
    MapPermutes(newest, current, Policy.RuleId());
    forall i, j | 0 <= i < j < |current| ensures current[i].id != current[j].id {
      if current[i].id == current[j].id {
        TwiceIsCounted(current, i, j);
        UniqueIsOnce(newest, current[i].id);
      }
    }
  }

  // ---------- learned priors ----------

  function Comparable(family: string, tool: string, environment: string): Durations.Sample -> bool {
    (row: Durations.Sample) => row.family == family && row.tool == tool && row.environment == environment
  }

  predicate NewerFirst(x: Durations.Sample, y: Durations.Sample) {
    if x.recordedAt != y.recordedAt then x.recordedAt > y.recordedAt else IdLeq(y.id, x.id)
  }

  /** The rows the estimate is learned from: the newest twenty of the same kind. */
  function RecentSamples(s: State, family: string, tool: string, environment: string): (rows: seq<Durations.Sample>)
    ensures forall row | row in rows :: row in s.samples
  {
    var ordered := Sort(Filter(s.samples, Comparable(family, tool, environment)), NewerFirst);
    assert forall row | row in ordered :: row in multiset(ordered);
    if |ordered| <= Durations.MAX_SAMPLES then ordered else ordered[..Durations.MAX_SAMPLES]
  }

  lemma PriorCarries(s: State, family: string, tool: string, environment: string)
    requires Ledger(s)
    ensures var rows := RecentSamples(s, family, tool, environment);
      Durations.LearnedPrior(rows).Learned? ==>
        forall lane: Durations.Lane :: Durations.Carries(rows, lane) <==> lane == Durations.LearnedPrior(rows).bucket
  {
    var rows := RecentSamples(s, family, tool, environment);
    assert Durations.Calibrated(rows) by {
      forall row | row in rows ensures row in s.samples {}
    }
    if Durations.LearnedPrior(rows).Learned? {
      Durations.LearnedBucketCarries(rows);
    }
  }

  /** In every reachable state a learned prior's bucket, computed from the median alone, is the
      one lane that carries three fifths of the rows the query returned. */
  lemma ReachablePriorsCarry(s: State, reqs: seq<Request>, family: string, tool: string, environment: string)
    requires Ledger(s)
    ensures var rows := RecentSamples(Exec(s, reqs), family, tool, environment);
      Durations.LearnedPrior(rows).Learned? ==>
        forall lane: Durations.Lane :: Durations.Carries(rows, lane) <==> lane == Durations.LearnedPrior(rows).bucket
  {
    RunLedger(s, reqs);
    PriorCarries(Exec(s, reqs), family, tool, environment);
  }

  // ---------- expirations ----------

  /** A running or blocked task has no recorded expiration. */
  lemma HoldersNeverExpired(s: State, t: string)
    requires Ledger(s) && t in s.tasks && s.tasks[t].state != Expired
    ensures !AlreadyExpired(s, t)
  {
  }
}
