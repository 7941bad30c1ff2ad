/** The resource-aware scheduler (`duration_schedule`): which candidates may run beside the
    present holders, in which order, and why the others wait. */
module Scheduler {
  import opened Basics
  import opened Sorting
  import Durations

  datatype Class = Light | Heavy

  datatype Profile = Profile(class_: Class, group: Option<string>, weight: nat, cap: nat)

  datatype HoldState = Active | QueuedSetup

  datatype Hold = Hold(id: string, state: HoldState, profile: Profile)

  datatype Setup = Ready | Queued | Failed

  datatype Runtime = Running | BlockedState | WaitingState

  datatype Candidate = Candidate(
    id: string, lane: Durations.Lane, runtime: Runtime, setup: Setup, priority: nat, queueSeconds: nat, profile: Profile)

  datatype Request = Request(
    activeHeavy: nat, heavyCap: nat, shortLane: bool, deficit: bool, holds: seq<Hold>, candidates: seq<Candidate>)

  datatype Reason = QueuedSetupReserved | SetupRolledBack | NonRuntime | HeavyweightCap | HeavyGroupHeld | WeightCap

  datatype Deferral = Deferral(id: string, reason: Reason)

  datatype Summary = Summary(
    queuedSetup: nat, failedSetup: nat, heldQueued: nat, heldQueuedWeight: nat, activeWeight: nat, heavy: nat)

  datatype Schedule = Schedule(
    ranked: seq<Candidate>, deferred: seq<Deferral>, selected: Option<Candidate>, summary: Summary)

  // ---------- pools ----------

  /** Profiles without an exclusive group share their class's pool. */
  function Pool(p: Profile): string {
    if p.group.Some? && p.group.value != "" then p.group.value
    else if p.class_ == Heavy then "class-heavy" else "class-light"
  }

  function Reserving(): Candidate -> bool { (c: Candidate) => c.setup == Queued }

  function AsHold(): Candidate -> Hold { (c: Candidate) => Hold(c.id, QueuedSetup, c.profile) }

  /** The holders, and the candidates whose setup is under way. */
  function AllHolds(req: Request): seq<Hold> {
    req.holds + Map(Filter(req.candidates, Reserving()), AsHold())
  }

  function WeightIn(holds: seq<Hold>, pool: string): nat {
    if holds == [] then 0
    else (if Pool(holds[0].profile) == pool then holds[0].profile.weight else 0) + WeightIn(holds[1..], pool)
  }

  function Least(a: nat, b: nat): nat { if a <= b then a else b }

  /** The least cap any holder of the pool asks for, and at most `own`. */
  function CapIn(holds: seq<Hold>, pool: string, own: nat): nat {
    if holds == [] then own
    else
      var rest := CapIn(holds[1..], pool, own);
      if Pool(holds[0].profile) == pool then Least(holds[0].profile.cap, rest) else rest
  }

  predicate IsHeavy(h: Hold) { h.profile.class_ == Heavy }

  function HeavyHold(): Hold -> bool { (h: Hold) => IsHeavy(h) }

  function HeavyCount(holds: seq<Hold>): nat { |Filter(holds, HeavyHold())| }

  predicate GroupHeld(holds: seq<Hold>, g: string) {
    exists h | h in holds :: IsHeavy(h) && h.profile.group == Some(g)
  }

  function InState(state: HoldState): Hold -> bool { (h: Hold) => h.state == state }

  function TotalWeight(holds: seq<Hold>): nat {
    if holds == [] then 0 else holds[0].profile.weight + TotalWeight(holds[1..])
  }

  // ---------- eligibility ----------

  predicate WantsHeavy(c: Candidate) { Durations.Heavy(c.lane) || c.profile.class_ == Heavy }

  function Max(a: nat, b: nat): nat { if a <= b then b else a }

  /** Why a candidate has to wait beside these holders; None when it may run. */
  function WaitsFor(holds: seq<Hold>, activeHeavy: nat, heavyCap: nat, c: Candidate): Option<Reason> {
    if c.setup == Queued then Some(QueuedSetupReserved)
    else if c.setup == Failed then Some(SetupRolledBack)
    else if c.runtime != Running then Some(NonRuntime)
    else if WantsHeavy(c) && Max(activeHeavy, HeavyCount(holds)) >= heavyCap then Some(HeavyweightCap)
    else if c.profile.class_ == Heavy && c.profile.group.Some? && GroupHeld(holds, c.profile.group.value) then
      Some(HeavyGroupHeld)
    else if WeightIn(holds, Pool(c.profile)) + c.profile.weight > CapIn(holds, Pool(c.profile), c.profile.cap) then
      Some(WeightCap)
    else None
  }

  function ReasonOf(req: Request, c: Candidate): Option<Reason> {
    WaitsFor(AllHolds(req), req.activeHeavy, req.heavyCap, c)
  }

  function Eligible(req: Request): Candidate -> bool { (c: Candidate) => ReasonOf(req, c).None? }

  function Waiting(req: Request): Candidate -> bool { (c: Candidate) => ReasonOf(req, c).Some? }

  function AsDeferral(req: Request): Candidate -> Deferral {
    (c: Candidate) => Deferral(c.id, if ReasonOf(req, c).Some? then ReasonOf(req, c).value else NonRuntime)
  }

  // ---------- ranking ----------

  function Score(c: Candidate): nat {
    c.priority * 100 + Least(c.queueSeconds / 60, 100_000)
  }

  /** Higher score first, then longer queued, then smaller id. */
  predicate RanksBefore(x: Candidate, y: Candidate) {
    if Score(x) != Score(y) then Score(x) > Score(y)
    else if x.queueSeconds != y.queueSeconds then x.queueSeconds > y.queueSeconds
    else IdLeq(x.id, y.id)
  }

  predicate DeferralLeq(x: Deferral, y: Deferral) { IdLeq(x.id, y.id) }

  function InShortLane(): Candidate -> bool { (c: Candidate) => Durations.Short(c.lane) }

  function FailedSetup(): Candidate -> bool { (c: Candidate) => c.setup == Failed }

  function Ranked(req: Request): seq<Candidate> { Sort(Filter(req.candidates, Eligible(req)), RanksBefore) }

  function Deferred(req: Request): seq<Deferral> {
    Sort(Map(Filter(req.candidates, Waiting(req)), AsDeferral(req)), DeferralLeq)
  }

  function Choose(req: Request, ranked: seq<Candidate>): Option<Candidate> {
    var short := Filter(ranked, InShortLane());
    if !req.deficit then None
    else if req.shortLane && short != [] then Some(short[0])
    else if ranked != [] then Some(ranked[0]) else None
  }

  function Summarize(req: Request): Summary {
    Summary(|Filter(req.candidates, Reserving())|, |Filter(req.candidates, FailedSetup())|,
      |Filter(AllHolds(req), InState(QueuedSetup))|, TotalWeight(Filter(AllHolds(req), InState(QueuedSetup))),
      TotalWeight(Filter(AllHolds(req), InState(Active))), HeavyCount(AllHolds(req)))
  }

  function Scheduled(req: Request): Schedule {
    Schedule(Ranked(req), Deferred(req), Choose(req, Ranked(req)), Summarize(req))
  }

  // ---------- as a program ----------

  lemma {:induction false} HoldsAppend(a: seq<Hold>, b: seq<Hold>, pool: string, own: nat)
    ensures WeightIn(a + b, pool) == WeightIn(a, pool) + WeightIn(b, pool)
    ensures CapIn(a + b, pool, own) == CapIn(a, pool, CapIn(b, pool, own))
    decreases |a|
  {
    if a == [] {
      assert a + b == b;
    } else {
      assert (a + b)[1..] == a[1..] + b;
      HoldsAppend(a[1..], b, pool, own);
    }
  }

  predicate PoolUsed(holds: seq<Hold>, pool: string) {
    exists h | h in holds :: Pool(h.profile) == pool
  }

  lemma {:induction false} UnusedPool(holds: seq<Hold>, pool: string, own: nat)
    requires !PoolUsed(holds, pool)
    ensures WeightIn(holds, pool) == 0 && CapIn(holds, pool, own) == own
  {
    if holds != [] {
      assert holds[0] in holds;
      assert forall h | h in holds[1..] :: h in holds;
      UnusedPool(holds[1..], pool, own);
    }
  }

  /** The cap dictionary and the caller's own cap together. */
  lemma {:induction false} CapSplits(holds: seq<Hold>, pool: string, a: nat, b: nat)
    ensures CapIn(holds, pool, Least(a, b)) == Least(CapIn(holds, pool, a), b)
  {
    if holds != [] {
      CapSplits(holds[1..], pool, a, b);
    }
  }

  /** What the two dictionaries hold after some of the holds. */
  ghost predicate Tabulated(holds: seq<Hold>, weights: map<string, nat>, caps: map<string, nat>) {
    && weights.Keys == caps.Keys
    && (forall p :: p in weights <==> PoolUsed(holds, p))
    && (forall p | p in weights :: weights[p] == WeightIn(holds, p))
    && (forall p, own | p in caps :: Least(caps[p], own) == CapIn(holds, p, own))
  }

  lemma OneMore(holds: seq<Hold>, h: Hold, q: string, own: nat)
    ensures PoolUsed(holds + [h], q) <==> PoolUsed(holds, q) || q == Pool(h.profile)
    ensures WeightIn(holds + [h], q) == WeightIn(holds, q) + (if q == Pool(h.profile) then h.profile.weight else 0)
    ensures CapIn(holds + [h], q, own) == CapIn(holds, q, if q == Pool(h.profile) then Least(h.profile.cap, own) else own)
  {
    assert h in holds + [h];
    HoldsAppend(holds, [h], q, own);
  }

  lemma TabulateStep(holds: seq<Hold>, h: Hold, weights: map<string, nat>, caps: map<string, nat>)
    requires Tabulated(holds, weights, caps)
    ensures var p := Pool(h.profile);
      var w := if p in weights then weights[p] else 0;
      var c := if p in caps then caps[p] else h.profile.cap;
      Tabulated(holds + [h], weights[p := w + h.profile.weight], caps[p := Least(c, h.profile.cap)])
  {
    var p := Pool(h.profile);
    var w := if p in weights then weights[p] else 0;
    var c := if p in caps then caps[p] else h.profile.cap;
    var weights', caps' := weights[p := w + h.profile.weight], caps[p := Least(c, h.profile.cap)];
    forall q ensures q in weights' <==> PoolUsed(holds + [h], q) {
      OneMore(holds, h, q, 0);
    }
    forall q | q in weights' ensures weights'[q] == WeightIn(holds + [h], q) {
      OneMore(holds, h, q, 0);
      if q !in weights {
        UnusedPool(holds, q, 0);
      }
    }
    forall q, own: nat | q in caps' ensures Least(caps'[q], own) == CapIn(holds + [h], q, own) {
      OneMore(holds, h, q, own);
      if q !in caps {
        UnusedPool(holds, q, Least(h.profile.cap, own));
      } else {
        assert Least(caps[q], Least(h.profile.cap, own)) == CapIn(holds, q, Least(h.profile.cap, own));
      }
    }
  }

  /** The first loop of `duration_schedule`: weight and least cap of every pool in use. */
  method TabulatePools(holds: seq<Hold>) returns (weights: map<string, nat>, caps: map<string, nat>)
    ensures Tabulated(holds, weights, caps)
  {
    weights, caps := map[], map[];
    for i := 0 to |holds|
      invariant Tabulated(holds[..i], weights, caps)
    {
      var h := holds[i];
      var p := Pool(h.profile);
      TabulateStep(holds[..i], h, weights, caps);
      assert holds[..i + 1] == holds[..i] + [h];
      weights := weights[p := (if p in weights then weights[p] else 0) + h.profile.weight];
      caps := caps[p := Least(if p in caps then caps[p] else h.profile.cap, h.profile.cap)];
    }
    assert holds[..|holds|] == holds;
  }

  /** One candidate against the tables. */
  method Judge(req: Request, weights: map<string, nat>, caps: map<string, nat>, heavyGroups: set<string>, heavy: nat,
               c: Candidate) returns (reason: Option<Reason>)
    requires Tabulated(AllHolds(req), weights, caps) && heavy == HeavyCount(AllHolds(req))
    requires forall g :: g in heavyGroups <==> GroupHeld(AllHolds(req), g)
    ensures reason == ReasonOf(req, c)
  {
    if c.setup == Queued {
      return Some(QueuedSetupReserved);
    }
    if c.setup == Failed {
      return Some(SetupRolledBack);
    }
    if c.runtime != Running {
      return Some(NonRuntime);
    }
    if (Durations.Heavy(c.lane) || c.profile.class_ == Heavy) && Max(req.activeHeavy, heavy) >= req.heavyCap {
      return Some(HeavyweightCap);
    }
    if c.profile.class_ == Heavy && c.profile.group.Some? && c.profile.group.value in heavyGroups {
      return Some(HeavyGroupHeld);
    }
    var p := Pool(c.profile);
    if p !in weights {
      UnusedPool(AllHolds(req), p, c.profile.cap);
    }
    var effective := Least(if p in caps then caps[p] else c.profile.cap, c.profile.cap);
    if (if p in weights then weights[p] else 0) + c.profile.weight > effective {
      return Some(WeightCap);
    }
    reason := None;
  }

  /** Groups that a heavy holder has for itself. */
  function HeavyGroups(holds: seq<Hold>): (groups: set<string>)
    ensures forall g :: g in groups <==> GroupHeld(holds, g)
  {
    set h | h in holds && IsHeavy(h) && h.profile.group.Some? :: h.profile.group.value
  }

  /** `duration_schedule`. */
  method DurationSchedule(req: Request) returns (schedule: Schedule)
    ensures schedule == Scheduled(req)
  {
    var holds := AllHolds(req);
    var weights, caps := TabulatePools(holds);
    var eligible: seq<Candidate>, deferred: seq<Deferral> := [], [];
    for i := 0 to |req.candidates|
      invariant eligible == Filter(req.candidates[..i], Eligible(req))
      invariant deferred == Map(Filter(req.candidates[..i], Waiting(req)), AsDeferral(req))
    {
      var c := req.candidates[i];
      FilterStep(req.candidates, i, Eligible(req));
      FilterMapStep(req.candidates, i, Waiting(req), AsDeferral(req));
      var reason := Judge(req, weights, caps, HeavyGroups(holds), HeavyCount(holds), c);
      if reason.Some? {
        deferred := deferred + [Deferral(c.id, reason.value)];
      } else {
        eligible := eligible + [c];
      }
    }
    assert req.candidates[..|req.candidates|] == req.candidates;
    var ranked := Sort(eligible, RanksBefore);
    schedule := Schedule(ranked, Sort(deferred, DeferralLeq), Choose(req, ranked), Summarize(req));
  }

  // ---------- every candidate once ----------

  function CandidateId(): Candidate -> string { (c: Candidate) => c.id }

  function DeferralId(): Deferral -> string { (d: Deferral) => d.id }

  /** Ranked and deferred candidates are exactly the candidates, each as often as it came. */
  lemma EveryCandidateOnce(req: Request)
    ensures var s := Scheduled(req);
      multiset(Map(s.ranked, CandidateId())) + multiset(Map(s.deferred, DeferralId()))
      == multiset(Map(req.candidates, CandidateId()))
  {
    var eligible, waiting := Filter(req.candidates, Eligible(req)), Filter(req.candidates, Waiting(req));
    FilterSplits(req.candidates, Eligible(req), Waiting(req), CandidateId());
    MapPermutes(Ranked(req), eligible, CandidateId());
    MapPermutes(Deferred(req), Map(waiting, AsDeferral(req)), DeferralId());
    assert Map(Map(waiting, AsDeferral(req)), DeferralId()) == Map(waiting, CandidateId());
  }

  // ---------- order ----------

  lemma RankingTotal()
    ensures TotalPreorder(RanksBefore) && TotalPreorder(DeferralLeq)
  {
    IdOrder();
  }

  /** Ranked candidates come in rank order. */
  lemma RankedInOrder(req: Request)
    ensures Sorted(Ranked(req), RanksBefore)
  {
    RankingTotal();
    SortSorted(Filter(req.candidates, Eligible(req)), RanksBefore);
  }

  lemma AgedBeatsFresh(aged: Candidate, young: Candidate)
    requires young.priority <= 1000 && aged.queueSeconds >= 6_000_000 && young.queueSeconds < 60
    ensures !RanksBefore(young, aged)
  {
    assert Score(aged) >= 100_000 && Score(young) <= 100_000;
  }

  /** A candidate that has queued 6,000,000 seconds ranks before every one that has queued less
      than a minute, whatever their priorities. */
  lemma AgedOutranksFresh(req: Request, i: nat, j: nat)
    requires i < |Ranked(req)| && j < |Ranked(req)|
    requires forall c | c in req.candidates :: c.priority <= 1000
    requires Ranked(req)[i].queueSeconds >= 6_000_000 && Ranked(req)[j].queueSeconds < 60
    ensures i < j
  {
    RankedInOrder(req);
    SortMembers(Filter(req.candidates, Eligible(req)), RanksBefore);
    assert Ranked(req)[j] in Ranked(req);
    AgedBeatsFresh(Ranked(req)[i], Ranked(req)[j]);
  }

  /** The bound is exact: at priority zero it takes 6,000,000 seconds, no less, to outrank a
      fresh candidate of the highest priority. */
  lemma AgingBoundIsExact(aged: Candidate, young: Candidate)
    requires aged.priority == 0 && young.priority == 1000 && young.queueSeconds < 60
    ensures !RanksBefore(young, aged) <==> aged.queueSeconds >= 6_000_000
  {
    assert Score(young) == 100_000;
  }

  // ---------- input order ----------

  lemma {:induction false} WeightDropAt(holds: seq<Hold>, i: nat, pool: string)
    requires i < |holds|
    ensures WeightIn(holds, pool)
         == WeightIn(holds[..i] + holds[i + 1..], pool) + (if Pool(holds[i].profile) == pool then holds[i].profile.weight else 0)
  {
    assert holds == holds[..i] + ([holds[i]] + holds[i + 1..]);
    HoldsAppend(holds[..i], [holds[i]] + holds[i + 1..], pool, 0);
    HoldsAppend([holds[i]], holds[i + 1..], pool, 0);
    HoldsAppend(holds[..i], holds[i + 1..], pool, 0);
  }

  lemma {:induction false} WeightPermutes(a: seq<Hold>, b: seq<Hold>, pool: string)
    requires multiset(a) == multiset(b)
    ensures WeightIn(a, pool) == WeightIn(b, pool)
    decreases |a|
  {
    if a == [] {
      assert |b| == |multiset(b)|;
    } else {
      assert a[0] in multiset(b);
      var i :| 0 <= i < |b| && b[i] == a[0];
      RestsPermute(a, b, i);
      assert a[..0] + a[1..] == a[1..];
      WeightDropAt(b, i, pool);
      WeightPermutes(a[1..], b[..i] + b[i + 1..], pool);
    }
  }

  /** The cap of a pool is the greatest number that no holder of it, nor `own`, lies below. */
  lemma {:induction false} CapIsLeast(holds: seq<Hold>, pool: string, own: nat)
    ensures CapIn(holds, pool, own) <= own
    ensures forall h | h in holds && Pool(h.profile) == pool :: CapIn(holds, pool, own) <= h.profile.cap
    ensures CapIn(holds, pool, own) == own
         || exists h | h in holds :: Pool(h.profile) == pool && h.profile.cap == CapIn(holds, pool, own)
  {
    if holds != [] {
      CapIsLeast(holds[1..], pool, own);
      assert holds == [holds[0]] + holds[1..];
    }
  }

  lemma CapPermutes(a: seq<Hold>, b: seq<Hold>, pool: string, own: nat)
    requires multiset(a) == multiset(b)
    ensures CapIn(a, pool, own) == CapIn(b, pool, own)
  {
    CapIsLeast(a, pool, own);
    CapIsLeast(b, pool, own);
    SameHolds(a, b);
  }

  lemma SameHolds(a: seq<Hold>, b: seq<Hold>)
    requires multiset(a) == multiset(b)
    ensures forall h :: h in a <==> h in b
  {
    forall h ensures h in a <==> h in b {
      assert h in a <==> h in multiset(a);
      assert h in b <==> h in multiset(b);
    }
  }

  lemma HeavyPermutes(a: seq<Hold>, b: seq<Hold>)
    requires multiset(a) == multiset(b)
    ensures HeavyCount(a) == HeavyCount(b) && forall g :: GroupHeld(a, g) <==> GroupHeld(b, g)
  {
    FilterPermutes(a, b, HeavyHold());
    assert |Filter(a, HeavyHold())| == |multiset(Filter(a, HeavyHold()))|;
    assert |Filter(b, HeavyHold())| == |multiset(Filter(b, HeavyHold()))|;
    SameHolds(a, b);
  }

  /** Two requests that differ in the order of their lists only. */
  ghost predicate Shuffled(a: Request, b: Request) {
    && a.activeHeavy == b.activeHeavy && a.heavyCap == b.heavyCap && a.shortLane == b.shortLane && a.deficit == b.deficit
    && multiset(a.holds) == multiset(b.holds) && multiset(a.candidates) == multiset(b.candidates)
  }

  lemma ShuffledHolds(a: Request, b: Request)
    requires Shuffled(a, b)
    ensures multiset(AllHolds(a)) == multiset(AllHolds(b))
  {
    FilterPermutes(a.candidates, b.candidates, Reserving());
    MapPermutes(Filter(a.candidates, Reserving()), Filter(b.candidates, Reserving()), AsHold());
  }

  lemma ShuffledReason(a: Request, b: Request, c: Candidate)
    requires Shuffled(a, b)
    ensures ReasonOf(a, c) == ReasonOf(b, c)
  {
    ShuffledHolds(a, b);
    HeavyPermutes(AllHolds(a), AllHolds(b));
    WeightPermutes(AllHolds(a), AllHolds(b), Pool(c.profile));
    CapPermutes(AllHolds(a), AllHolds(b), Pool(c.profile), c.profile.cap);
  }

  ghost predicate UniqueCandidates(req: Request) {
    forall x, y | x in req.candidates && y in req.candidates && x.id == y.id :: x == y
  }

  lemma ShuffledRanked(a: Request, b: Request)
    requires Shuffled(a, b) && UniqueCandidates(a)
    ensures Ranked(a) == Ranked(b)
  {
    forall c | c in b.candidates ensures Eligible(a)(c) == Eligible(b)(c) { ShuffledReason(a, b, c); }
    FilterSame(b.candidates, Eligible(a), Eligible(b));
    FilterPermutes(a.candidates, b.candidates, Eligible(a));
    RankingTotal();
    IdOrder();
    SortOrderIndependent(Filter(a.candidates, Eligible(a)), Filter(b.candidates, Eligible(a)), RanksBefore);
  }

  lemma ShuffledDeferred(a: Request, b: Request)
    requires Shuffled(a, b) && UniqueCandidates(a)
    ensures Deferred(a) == Deferred(b)
  {
    forall c ensures Waiting(a)(c) == Waiting(b)(c) && AsDeferral(a)(c) == AsDeferral(b)(c) { ShuffledReason(a, b, c); }
    FilterSame(b.candidates, Waiting(a), Waiting(b));
    FilterPermutes(a.candidates, b.candidates, Waiting(a));
    var waiting, waiting' := Filter(a.candidates, Waiting(a)), Filter(b.candidates, Waiting(a));
    MapPermutes(waiting, waiting', AsDeferral(a));
    assert Map(waiting', AsDeferral(a)) == Map(waiting', AsDeferral(b));
    RankingTotal();
    DeferralsDecided(a);
    SortOrderIndependent(Map(waiting, AsDeferral(a)), Map(waiting', AsDeferral(a)), DeferralLeq);
  }

  lemma DeferralsDecided(req: Request)
    requires UniqueCandidates(req)
    ensures Decided(Map(Filter(req.candidates, Waiting(req)), AsDeferral(req)), DeferralLeq)
  {
    var waiting := Filter(req.candidates, Waiting(req));
    var entries := Map(waiting, AsDeferral(req));
    IdOrder();
    forall x, y | x in entries && y in entries && x.id == y.id ensures x == y {
      MapMember(waiting, AsDeferral(req), x);
      MapMember(waiting, AsDeferral(req), y);
      var i :| 0 <= i < |waiting| && AsDeferral(req)(waiting[i]) == x;
      var j :| 0 <= j < |waiting| && AsDeferral(req)(waiting[j]) == y;
      assert waiting[i] in waiting && waiting[j] in waiting;
    }
  }

  lemma {:induction false} TotalDropAt(holds: seq<Hold>, i: nat)
    requires i < |holds|
    ensures TotalWeight(holds) == TotalWeight(holds[..i] + holds[i + 1..]) + holds[i].profile.weight
  {
    if i == 0 {
      assert holds[..0] + holds[1..] == holds[1..];
    } else {
      TotalDropAt(holds[1..], i - 1);
      assert holds[1..][..i - 1] == holds[1..i] && holds[1..][i..] == holds[i + 1..];
      assert (holds[..i] + holds[i + 1..])[1..] == holds[1..i] + holds[i + 1..];
    }
  }

  lemma {:induction false} TotalPermutes(a: seq<Hold>, b: seq<Hold>)
    requires multiset(a) == multiset(b)
    ensures TotalWeight(a) == TotalWeight(b)
    decreases |a|
  {
    if a == [] {
      assert |b| == |multiset(b)|;
    } else {
      assert a[0] in multiset(b);
      var i :| 0 <= i < |b| && b[i] == a[0];
      RestsPermute(a, b, i);
      assert a[..0] + a[1..] == a[1..];
      TotalDropAt(b, i);
      TotalPermutes(a[1..], b[..i] + b[i + 1..]);
    }
  }

  lemma CountPermutes<T(!new)>(a: seq<T>, b: seq<T>, keep: T -> bool)
    requires multiset(a) == multiset(b)
    ensures |Filter(a, keep)| == |Filter(b, keep)|
  {
    FilterPermutes(a, b, keep);
    assert |Filter(a, keep)| == |multiset(Filter(a, keep))|;
    assert |Filter(b, keep)| == |multiset(Filter(b, keep))|;
  }

  lemma ShuffledSummary(a: Request, b: Request)
    requires Shuffled(a, b)
    ensures Summarize(a) == Summarize(b)
  {
    ShuffledHolds(a, b);
    CountPermutes(a.candidates, b.candidates, Reserving());
    CountPermutes(a.candidates, b.candidates, FailedSetup());
    CountPermutes(AllHolds(a), AllHolds(b), InState(QueuedSetup));
    CountPermutes(AllHolds(a), AllHolds(b), HeavyHold());
    FilterPermutes(AllHolds(a), AllHolds(b), InState(QueuedSetup));
    FilterPermutes(AllHolds(a), AllHolds(b), InState(Active));
    TotalPermutes(Filter(AllHolds(a), InState(QueuedSetup)), Filter(AllHolds(b), InState(QueuedSetup)));
    TotalPermutes(Filter(AllHolds(a), InState(Active)), Filter(AllHolds(b), InState(Active)));
  }

  /** The whole answer does not depend on the order of holds and candidates. */
  lemma OrderIndependent(a: Request, b: Request)
    requires Shuffled(a, b) && UniqueCandidates(a)
    ensures Scheduled(a) == Scheduled(b)
  {
    ShuffledRanked(a, b);
    ShuffledDeferred(a, b);
    ShuffledSummary(a, b);
  }

  // ---------- repeated admission ----------

  /** Every pool's weight is within the least cap of its holders, heavy holders are within the
      heavyweight cap, and no group has two heavy holders. */
  ghost predicate WithinCaps(holds: seq<Hold>, heavyCap: nat) {
    && (forall h | h in holds :: WeightIn(holds, Pool(h.profile)) <= h.profile.cap)
    && HeavyCount(holds) <= heavyCap
    && (forall i, j | 0 <= i < j < |holds| && IsHeavy(holds[i]) && IsHeavy(holds[j]) && holds[i].profile.group.Some? ::
          holds[i].profile.group != holds[j].profile.group)
  }

  lemma AdmissionKeepsWeights(holds: seq<Hold>, activeHeavy: nat, heavyCap: nat, c: Candidate, h: Hold, x: Hold)
    requires WithinCaps(holds, heavyCap) && WaitsFor(holds, activeHeavy, heavyCap, c).None? && h.profile == c.profile
    requires x in holds + [h]
    ensures WeightIn(holds + [h], Pool(x.profile)) <= x.profile.cap
  {
    CapIsLeast(holds, Pool(c.profile), c.profile.cap);
    OneMore(holds, h, Pool(x.profile), 0);
  }

  lemma AdmissionCountsHeavies(holds: seq<Hold>, activeHeavy: nat, heavyCap: nat, c: Candidate, h: Hold)
    requires WithinCaps(holds, heavyCap) && WaitsFor(holds, activeHeavy, heavyCap, c).None? && h.profile == c.profile
    ensures HeavyCount(holds + [h]) <= heavyCap
  {
    FilterAppend(holds, [h], HeavyHold());
  }

  lemma AdmissionKeepsHeavies(holds: seq<Hold>, activeHeavy: nat, heavyCap: nat, c: Candidate, h: Hold)
    requires WithinCaps(holds, heavyCap) && WaitsFor(holds, activeHeavy, heavyCap, c).None? && h.profile == c.profile
    ensures HeavyCount(holds + [h]) <= heavyCap
    ensures forall i | 0 <= i < |holds| && IsHeavy(holds[i]) && IsHeavy(h) && holds[i].profile.group.Some? ::
              holds[i].profile.group != h.profile.group
  {
    AdmissionCountsHeavies(holds, activeHeavy, heavyCap, c, h);
    forall i | 0 <= i < |holds| && IsHeavy(holds[i]) && IsHeavy(h) && h.profile.group.Some?
      ensures holds[i].profile.group != h.profile.group
    {
      assert holds[i] in holds;
    }
  }

  lemma AdmissionKeepsCaps(holds: seq<Hold>, activeHeavy: nat, heavyCap: nat, c: Candidate, h: Hold)
    requires WithinCaps(holds, heavyCap) && WaitsFor(holds, activeHeavy, heavyCap, c).None? && h.profile == c.profile
    ensures WithinCaps(holds + [h], heavyCap)
  {
    forall x | x in holds + [h] ensures WeightIn(holds + [h], Pool(x.profile)) <= x.profile.cap {
      AdmissionKeepsWeights(holds, activeHeavy, heavyCap, c, h, x);
    }
    AdmissionKeepsHeavies(holds, activeHeavy, heavyCap, c, h);
  }

  function NotId(id: string): Candidate -> bool { (c: Candidate) => c.id != id }

  /** Admitting an answer: the selected candidate becomes a holder. */
  function Admitted(req: Request): Request {
    var selected := Scheduled(req).selected;
    if selected.None? then req
    else req.(holds := req.holds + [Hold(selected.value.id, Active, selected.value.profile)],
              candidates := Filter(req.candidates, NotId(selected.value.id)))
  }

  lemma SelectedIsEligible(req: Request)
    requires Scheduled(req).selected.Some?
    ensures Scheduled(req).selected.value in req.candidates && ReasonOf(req, Scheduled(req).selected.value).None?
  {
    SortMembers(Filter(req.candidates, Eligible(req)), RanksBefore);
    assert forall c | c in Ranked(req) :: c in req.candidates && Eligible(req)(c);
    var c := Scheduled(req).selected.value;
    assert c in Ranked(req);
  }

  lemma {:induction false} ReservingUnmoved(candidates: seq<Candidate>, id: string)
    requires forall c | c in candidates && c.id == id :: c.setup != Queued
    ensures Filter(Filter(candidates, NotId(id)), Reserving()) == Filter(candidates, Reserving())
  {
    if candidates != [] {
      ReservingUnmoved(candidates[1..], id);
      var rest := Filter(candidates[1..], NotId(id));
      if candidates[0].id == id {
        assert Filter(candidates, NotId(id)) == rest;
      } else {
        assert Filter(candidates, NotId(id)) == [candidates[0]] + rest && ([candidates[0]] + rest)[1..] == rest;
      }
    }
  }

  lemma WithinCapsPermutes(a: seq<Hold>, b: seq<Hold>, heavyCap: nat)
    requires WithinCaps(a, heavyCap) && multiset(a) == multiset(b)
    ensures WithinCaps(b, heavyCap)
  {
    SameHolds(a, b);
    HeavyPermutes(a, b);
    forall h | h in b ensures WeightIn(b, Pool(h.profile)) <= h.profile.cap {
      WeightPermutes(a, b, Pool(h.profile));
    }
    forall i, j | 0 <= i < j < |b| && IsHeavy(b[i]) && IsHeavy(b[j]) && b[i].profile.group.Some?
      ensures b[i].profile.group != b[j].profile.group
    {
      if b[i].profile.group == b[j].profile.group {
        TwoHeavies(a, b, i, j);
      }
    }
  }

  /** Two heavy holders of one group survive any reordering. */
  lemma TwoHeavies(a: seq<Hold>, b: seq<Hold>, i: nat, j: nat)
    requires multiset(a) == multiset(b) && i < j < |b|
    requires IsHeavy(b[i]) && IsHeavy(b[j]) && b[i].profile.group == b[j].profile.group && b[i].profile.group.Some?
    ensures exists k, l :: 0 <= k < l < |a| && IsHeavy(a[k]) && IsHeavy(a[l])
              && a[k].profile.group.Some? && a[k].profile.group == a[l].profile.group
  {
    var g := b[i].profile.group;
    var mine := (h: Hold) => IsHeavy(h) && h.profile.group == g;
    CountPermutes(a, b, mine);
    CountsTwo(b, mine, i, j);
    var k, l := TwoCounted(a, mine);
  }

  lemma CountsTwo<T(!new)>(s: seq<T>, keep: T -> bool, i: nat, j: nat)
    requires i < j < |s| && keep(s[i]) && keep(s[j])
    ensures |Filter(s, keep)| >= 2
  {
    assert s == s[..j] + s[j..];
    FilterAppend(s[..j], s[j..], keep);
    assert s[i] in s[..j] && s[j] in s[j..];
    assert s[i] in Filter(s[..j], keep) && s[j] in Filter(s[j..], keep);
  }

  lemma {:induction false} TwoCounted<T(!new)>(s: seq<T>, keep: T -> bool) returns (k: nat, l: nat)
    requires |Filter(s, keep)| >= 2
    ensures k < l < |s| && keep(s[k]) && keep(s[l])
  {
    if keep(s[0]) {
      assert |Filter(s[1..], keep)| >= 1;
      var x := Filter(s[1..], keep)[0];
      assert x in Filter(s[1..], keep);
      var m :| 0 <= m < |s[1..]| && s[1..][m] == x;
      k, l := 0, m + 1;
    } else {
      k, l := TwoCounted(s[1..], keep);
      k, l := k + 1, l + 1;
    }
  }

  /** A request whose holders, present and in setup, are within every cap. */
  ghost predicate Fits(req: Request, heavyCap: nat) {
    UniqueCandidates(req) && req.heavyCap == heavyCap && WithinCaps(AllHolds(req), heavyCap)
  }

  lemma HoldsAfter(req: Request, c: Candidate)
    requires UniqueCandidates(req) && c in req.candidates && c.setup != Queued
    ensures var h := Hold(c.id, Active, c.profile);
      multiset(AllHolds(req.(holds := req.holds + [h], candidates := Filter(req.candidates, NotId(c.id)))))
      == multiset(AllHolds(req) + [h])
  {
    ReservingUnmoved(req.candidates, c.id);
  }

  lemma AdmittedFits(req: Request, heavyCap: nat)
    requires Fits(req, heavyCap)
    ensures Fits(Admitted(req), heavyCap)
  {
    if Scheduled(req).selected.Some? {
      var c := Scheduled(req).selected.value;
      var h := Hold(c.id, Active, c.profile);
      SelectedIsEligible(req);
      HoldsAfter(req, c);
      AdmissionKeepsCaps(AllHolds(req), req.activeHeavy, heavyCap, c, h);
      WithinCapsPermutes(AllHolds(req) + [h], AllHolds(Admitted(req)), heavyCap);
    }
  }

  /** The next request: the answer was admitted as a holder, nothing else took or reserved a
      resource. Candidates, flags and order may have changed. */
  ghost predicate Follows(a: Request, b: Request) {
    b.heavyCap == a.heavyCap && UniqueCandidates(b) && multiset(AllHolds(b)) == multiset(AllHolds(Admitted(a)))
  }

  lemma NextFits(a: Request, b: Request, heavyCap: nat)
    requires Fits(a, heavyCap) && Follows(a, b)
    ensures Fits(b, heavyCap)
  {
    AdmittedFits(a, heavyCap);
    WithinCapsPermutes(AllHolds(Admitted(a)), AllHolds(b), heavyCap);
  }

  /** However often the scheduler's answer is admitted as a holder, every pool stays within the
      least cap of its holders and heavy holders stay within the heavyweight cap. */
  lemma {:induction false} RoundsFit(rounds: seq<Request>, i: nat, heavyCap: nat)
    requires i < |rounds| && Fits(rounds[0], heavyCap)
    requires forall k | 0 <= k < |rounds| - 1 :: Follows(rounds[k], rounds[k + 1])
    ensures Fits(rounds[i], heavyCap)
  {
    if i > 0 {
      RoundsFit(rounds, i - 1, heavyCap);
      assert Follows(rounds[i - 1], rounds[i - 1 + 1]);
      NextFits(rounds[i - 1], rounds[i], heavyCap);
    }
  }
}
