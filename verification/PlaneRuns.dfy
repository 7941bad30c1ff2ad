/** Whole runs of one authority: what every reachable state satisfies, exactly which requests
    break it or take occupancy past capacity, and how a freed slot is refilled. */
module PlaneRuns {
  import opened Basics
  import opened Sorting
  import opened Histories
  import opened PlaneModel
  import opened PlaneInvariants
  import opened PlaneSteps
  import opened PlaneAudits
  import Policy

  // ---------- one step ----------

  lemma LaunchGood(s: State, s': State, l: Launch)
    requires Inv(s) && TryLaunch(s, l) == Ok(s')
    ensures Good(s, s', 0)
  {
    ReserveKeeps(s, l, {});
    ReservedTokens(s, s', {});
  }

  lemma RecycleGood(s: State, s': State, audits: seq<Audit>)
    requires Inv(s) && TryRecycle(s, audits) == Ok(s') && ResumeIntact(s, audits, {})
    ensures Good(s, s', if Selected(s, audits).Some? then 1 else 0)
  {
    AuditsGood(s, audits);
  }

  lemma CoreOpGood(s: State, s': State, op: Op, now: int)
    requires Inv(s) && Attempt(s, op, now) == Ok(s')
    requires op.RecordRule? || op.ConfigureCapacity? || op.Observe? || op.Note?
    ensures Good(s, s', 0)
  {
    GoodCore(s, s');
  }

  lemma SetupGood(s: State, s': State, op: Op, now: int)
    requires Inv(s) && Attempt(s, op, now) == Ok(s') && Intact(s, op) && op.SetupFailure?
    ensures Good(s, s', Debt(s, op))
  {
    SetupFailureGood(s, s', op.fence, op.refill, op.candidates, op.evidenceOk);
  }

  lemma WatchGood(s: State, s': State, op: Op, now: int)
    requires Inv(s) && Attempt(s, op, now) == Ok(s') && Intact(s, op) && op.CapacityWatchdog?
    ensures Good(s, s', Debt(s, op))
  {
    WatchdogGood(s, s', op.refill, op.chosen, op.evidenceOk);
  }

  lemma QueueGood(s: State, s': State, op: Op, now: int)
    requires Inv(s) && Attempt(s, op, now) == Ok(s') && Intact(s, op)
    requires op.SetupFailure? || op.Recycle? || op.CapacityWatchdog?
    ensures Good(s, s', Debt(s, op))
  {
    if op.SetupFailure? {
      SetupGood(s, s', op, now);
    } else if op.Recycle? {
      RecycleGood(s, s', op.audits);
    } else {
      WatchGood(s, s', op, now);
    }
  }

  lemma TerminalGood(s: State, s': State, op: Op, now: int)
    requires Inv(s) && Attempt(s, op, now) == Ok(s') && Intact(s, op)
    requires op.Handback? || op.Interrupt?
    ensures Good(s, s', Debt(s, op))
  {
    match op
    case Handback(_, f, external, refill, ok) =>
      HandbackGood(s, s', f, external, refill, ok);
    case Interrupt(_, f, external, refill, ok) =>
      InterruptGood(s, s', f, external, refill, ok);
  }

  lemma LeaseGood(s: State, s': State, op: Op, now: int)
    requires Inv(s) && Attempt(s, op, now) == Ok(s')
    requires op.Takeover? || op.ExpireLease? || op.Heartbeat?
    ensures Good(s, s', 0)
  {
    match op
    case Takeover(_, id, epoch, token, expires) => TakeoverGood(s, s', id, epoch, token, expires, now);
    case ExpireLease(_, f, external, claim, expires) => ExpireGood(s, s', f, external, claim, expires, now);
    case Heartbeat(_, f, external, expires) => HeartbeatGood(s, s', f, external, expires, now);
  }

  lemma LaunchingGood(s: State, s': State, op: Op, now: int)
    requires Inv(s) && Attempt(s, op, now) == Ok(s')
    requires op.PrepareLaunch? || op.LaunchReceipt? || op.ReportProgress?
    ensures Good(s, s', 0)
  {
    match op
    case PrepareLaunch(l) => LaunchGood(s, s', l);
    case LaunchReceipt(_, f, external, ruleIds, settles) => LaunchReceiptGood(s, s', f, external, ruleIds, settles);
    case ReportProgress(_, f, external, report, successor, ok) =>
      ProgressGood(s, s', f, external, report, successor, ok);
  }

  lemma RowGood(s: State, s': State, op: Op, now: int)
    requires Inv(s) && Attempt(s, op, now) == Ok(s')
    requires op.BlockTask? || op.RecordSample? || op.ArchiveReceipt?
    ensures Good(s, s', 0)
  {
    match op
    case BlockTask(_, f, external, ok) => BlockGood(s, s', f, external, ok);
    case RecordSample(id, f, external, actual) => SampleGood(s, s', id, f, external, actual, now);
    case ArchiveReceipt(_, f, ok) => ArchiveGood(s, s', f, ok);
  }

  lemma AttemptGood(s: State, s': State, op: Op, now: int)
    requires Inv(s) && Attempt(s, op, now) == Ok(s') && Intact(s, op)
    ensures Good(s, s', Debt(s, op))
  {
    if op.RecordRule? || op.ConfigureCapacity? || op.Observe? || op.Note? {
      CoreOpGood(s, s', op, now);
    } else if op.SetupFailure? || op.Recycle? || op.CapacityWatchdog? {
      QueueGood(s, s', op, now);
    } else if op.Handback? || op.Interrupt? {
      TerminalGood(s, s', op, now);
    } else if op.Takeover? || op.ExpireLease? || op.Heartbeat? {
      LeaseGood(s, s', op, now);
    } else if op.PrepareLaunch? || op.LaunchReceipt? || op.ReportProgress? {
      LaunchingGood(s, s', op, now);
    } else {
      RowGood(s, s', op, now);
    }
  }

  /** A slot taken while the authority was already full, in debt to a blocked resume. */
  function Overdraft(s: State, req: Request): nat {
    if Apply(s, req).outcome.Committed? && Occupancy(s) >= s.capacity then Debt(s, req.op) else 0
  }

  lemma CommittedGood(s: State, next: State, s': State, req: Request)
    requires Inv(s) && Intact(s, req.op) && Attempt(s, req.op, req.now) == Ok(next) && s' == Remember(next, req)
    ensures Good(s, s', Debt(s, req.op))
  {
    AttemptGood(s, next, req.op, req.now);
    GoodBump(s, next, s', Debt(s, req.op));
  }

  lemma DebtIsPaid(s: State, s': State, debt: nat)
    requires Good(s, s', debt) && debt <= 1
    ensures Good(s, s', if Occupancy(s) >= s.capacity then debt else 0)
  {
  }

  lemma ApplyCases(s: State, req: Request)
    ensures Apply(s, req).outcome.Committed? ==>
      Attempt(s, req.op, req.now).Ok? && Apply(s, req).state == Remember(Attempt(s, req.op, req.now).value, req)
    ensures !Apply(s, req).outcome.Committed? ==>
      SameRows(s, Apply(s, req).state) && Apply(s, req).state == Bump(s, Apply(s, req).state.revision - s.revision)
  {
  }

  /** If the request commits, its audits cut no task loose. */
  predicate IntactAt(s: State, req: Request) {
    Apply(s, req).outcome.Committed? ==> Intact(s, req.op)
  }

  /** One transaction, committed or not, keeps the invariant and pays for its slots. */
  lemma StepGood(s: State, req: Request)
    requires Inv(s) && IntactAt(s, req)
    ensures Good(s, Apply(s, req).state, Overdraft(s, req))
  {
    ApplyCases(s, req);
    if Apply(s, req).outcome.Committed? {
      CommittedGood(s, Attempt(s, req.op, req.now).value, Apply(s, req).state, req);
      DebtIsOneSlot(s, req.op);
      DebtIsPaid(s, Apply(s, req).state, Debt(s, req.op));
    } else {
      GoodCore(s, Apply(s, req).state);
    }
  }

  lemma RememberedBreaks(s: State, next: State, req: Request)
    requires !Inv(next)
    ensures !Inv(Remember(next, req))
  {
    if Inv(Remember(next, req)) {
      CoreKeeps(Remember(next, req), next, {});
    }
  }

  /** Claims and states agree after a transaction if and only if it was refused, or the task its
      audits resumed was not archived by them too, unless the request ended that task anyway. */
  lemma StepConsistentExactly(s: State, req: Request)
    requires Inv(s)
    ensures Inv(Apply(s, req).state) <==> IntactAt(s, req)
  {
    if IntactAt(s, req) {
      StepGood(s, req);
    } else {
      ApplyCases(s, req);
      AttemptBreaks(s, Attempt(s, req.op, req.now).value, req.op, req.now);
      RememberedBreaks(s, Attempt(s, req.op, req.now).value, req);
    }
  }

  lemma RememberedOccupies(next: State, req: Request)
    ensures Remember(next, req).capacity == next.capacity && Occupancy(Remember(next, req)) == Occupancy(next)
  {
    assert Occupants(Remember(next, req)) == Occupants(next);
  }

  /** Occupancy stays within capacity in one transaction if and only if it commits no unpaid
      resume while the authority is full. */
  lemma StepFitsExactly(s: State, req: Request)
    requires Inv(s) && IntactAt(s, req) && Occupancy(s) <= s.capacity
    ensures Occupancy(Apply(s, req).state) <= Apply(s, req).state.capacity <==> Overdraft(s, req) == 0
    ensures Apply(s, req).outcome.Committed? ==>
      (Overdraft(s, req) == 0 <==> Occupancy(s) < s.capacity || Debt(s, req.op) == 0)
  {
    StepGood(s, req);
    if Overdraft(s, req) > 0 {
      ApplyCases(s, req);
      var next := Attempt(s, req.op, req.now).value;
      DebtOverfills(s, next, req.op, req.now);
      RememberedOccupies(next, req);
    }
  }

  /** Recycling never looks at capacity: whenever the audits cover the blocked queue it
      commits, and the resumed task takes one more slot. */
  lemma RecycleIgnoresCapacity(s: State, audits: seq<Audit>)
    requires Inv(s) && AuditsComplete(s, audits) && ResumeIntact(s, audits, {})
    ensures TryRecycle(s, audits).Ok?
    ensures Occupancy(TryRecycle(s, audits).value)
         == Occupancy(s) + (if AuditedAs(audits, Resume) == {} then 0 else 1)
  {
    AuditsCount(s, audits);
    SelectedExists(s, audits);
  }

  /** A capacity change leaves all work running within the new capacity; and a request that names
      the current revision and capacity is accepted exactly when all work fits. */
  lemma CapacityCoversWork(s: State, requested: nat)
    requires requested != s.capacity
    ensures TryConfigureCapacity(s, s.revision, s.capacity, requested).Ok?
       <==> 1 <= requested <= 64 && Occupancy(s) <= requested
    ensures forall s' :: TryConfigureCapacity(s, s.revision, s.capacity, requested) == Ok(s') ==>
      && s'.capacity == requested && Occupancy(s') == Occupancy(s) <= s'.capacity
      && s'.tasks == s.tasks && s'.claims == s.claims
  {
    forall s' | TryConfigureCapacity(s, s.revision, s.capacity, requested) == Ok(s')
      ensures Occupancy(s') == Occupancy(s)
    {
      assert Occupants(s') == Occupants(s);
    }
  }

  lemma ResumableRanked(s: State, audits: seq<Audit>, t: string)
    requires t in AuditedAs(audits, Resume)
    ensures t in ResumeRanking(s, audits)
  {
    var resumable := Filter(audits, HasVerdict(Resume));
    var a :| a in audits && a.verdict == Resume && a.task == t;
    FilterMultiplicity(audits, HasVerdict(Resume), a);
    assert a in multiset(resumable);
    var i :| 0 <= i < |resumable| && resumable[i] == a;
    MapMember(resumable, AuditTask(), t);
    SortMembers(Map(resumable, AuditTask()), ResumeOrder(s.tasks));
  }

  lemma SelectedExists(s: State, audits: seq<Audit>)
    ensures Selected(s, audits).Some? <==> AuditedAs(audits, Resume) != {}
  {
    if AuditedAs(audits, Resume) != {} {
      var x :| x in AuditedAs(audits, Resume);
      ResumableRanked(s, audits, x);
      var ranking := ResumeRanking(s, audits);
      assert ranking != [];
    }
    if Selected(s, audits).Some? {
      SelectedIsResumable(s, audits);
      assert Selected(s, audits).value in AuditedAs(audits, Resume);
    }
  }

  // ---------- runs ----------

  function Exec(s: State, reqs: seq<Request>): State
    decreases |reqs|
  {
    if reqs == [] then s else Apply(Exec(s, reqs[..|reqs| - 1]), reqs[|reqs| - 1]).state
  }

  lemma ExecStep(s: State, reqs: seq<Request>, j: nat)
    requires j < |reqs|
    ensures Exec(s, reqs[..j + 1]) == Apply(Exec(s, reqs[..j]), reqs[j]).state
  {
    assert reqs[..j + 1][..j] == reqs[..j];
  }

  function Overdrafts(s: State, reqs: seq<Request>): nat
    decreases |reqs|
  {
    if reqs == [] then 0
    else Overdrafts(s, reqs[..|reqs| - 1]) + Overdraft(Exec(s, reqs[..|reqs| - 1]), reqs[|reqs| - 1])
  }

  /** Every request of the run that commits is intact in the state it meets. */
  predicate AllIntact(s: State, reqs: seq<Request>)
    decreases |reqs|
  {
    reqs == [] || (AllIntact(s, reqs[..|reqs| - 1]) && IntactAt(Exec(s, reqs[..|reqs| - 1]), reqs[|reqs| - 1]))
  }

  predicate AllClean(reqs: seq<Request>) {
    forall i | 0 <= i < |reqs| :: Clean(reqs[i].op)
  }

  /** A condition on the requests alone that is enough. */
  lemma {:induction false} CleanRunsAreIntact(s: State, reqs: seq<Request>)
    requires AllClean(reqs)
    ensures AllIntact(s, reqs)
    decreases |reqs|
  {
    if reqs != [] {
      CleanRunsAreIntact(s, reqs[..|reqs| - 1]);
      CleanIsIntact(Exec(s, reqs[..|reqs| - 1]), reqs[|reqs| - 1].op);
    }
  }

  /** Every reachable state: claims and states in step, live claims disjoint, tokens fresh; and
      occupancy stays within capacity plus the resumes that were made while already full. */
  lemma {:induction false} EveryRunIsSafe(s: State, reqs: seq<Request>)
    requires Inv(s) && Occupancy(s) <= s.capacity && AllIntact(s, reqs)
    ensures Inv(Exec(s, reqs)) && TokensGrow(s, Exec(s, reqs))
    ensures Occupancy(Exec(s, reqs)) <= Exec(s, reqs).capacity + Overdrafts(s, reqs)
    decreases |reqs|
  {
    if reqs != [] {
      var before := Exec(s, reqs[..|reqs| - 1]);
      EveryRunIsSafe(s, reqs[..|reqs| - 1]);
      StepGood(before, reqs[|reqs| - 1]);
      TokensGrowOn(s, before, Exec(s, reqs));
    }
  }

  lemma {:induction false} RunTokens(s: State, reqs: seq<Request>)
    requires Inv(s) && AllIntact(s, reqs)
    ensures Inv(Exec(s, reqs)) && TokensGrow(s, Exec(s, reqs))
    decreases |reqs|
  {
    if reqs != [] {
      var before := Exec(s, reqs[..|reqs| - 1]);
      RunTokens(s, reqs[..|reqs| - 1]);
      StepGood(before, reqs[|reqs| - 1]);
      TokensGrowOn(s, before, Exec(s, reqs));
    }
  }

  // ---------- the exact conditions over runs ----------

  ghost function ConsistentFrom(s: State): seq<Request> -> bool { (reqs: seq<Request>) => Inv(Exec(s, reqs)) }

  function FittingFrom(s: State): seq<Request> -> bool {
    (reqs: seq<Request>) => Occupancy(Exec(s, reqs)) <= Exec(s, reqs).capacity
  }

  /** Claims and states agree at every boundary of a run if and only if every request that
      commits is intact when it does. */
  lemma {:induction false} RunConsistentExactly(s: State, reqs: seq<Request>)
    requires Inv(s)
    ensures Throughout(reqs, ConsistentFrom(s)) <==> AllIntact(s, reqs)
    decreases |reqs|
  {
    if reqs == [] {
      assert forall i | 0 <= i <= |reqs| :: reqs[..i] == [];
    } else {
      var init := reqs[..|reqs| - 1];
      RunConsistentExactly(s, init);
      ThroughoutSplits(reqs, ConsistentFrom(s));
      if AllIntact(s, init) {
        ThroughoutLast(init, ConsistentFrom(s));
        StepConsistentExactly(Exec(s, init), reqs[|reqs| - 1]);
      }
    }
  }

  /** Occupancy is within capacity at every boundary of a run if and only if the run makes no
      overdraft. */
  lemma {:induction false} RunFitsExactly(s: State, reqs: seq<Request>)
    requires Inv(s) && Occupancy(s) <= s.capacity && AllIntact(s, reqs)
    ensures Throughout(reqs, FittingFrom(s)) <==> Overdrafts(s, reqs) == 0
    decreases |reqs|
  {
    if reqs == [] {
      assert forall i | 0 <= i <= |reqs| :: reqs[..i] == [];
    } else {
      var init := reqs[..|reqs| - 1];
      RunFitsExactly(s, init);
      ThroughoutSplits(reqs, FittingFrom(s));
      if Overdrafts(s, init) == 0 {
        EveryRunIsSafe(s, init);
        StepFitsExactly(Exec(s, init), reqs[|reqs| - 1]);
      }
    }
  }

  lemma InitialSafe(capacity: nat, rules: seq<Policy.Rule>, policyRevision: nat)
    ensures Inv(Initial(capacity, rules, policyRevision)) && Occupancy(Initial(capacity, rules, policyRevision)) == 0
  {
    assert Occupants(Initial(capacity, rules, policyRevision)) == {};
  }

  lemma InvMeans(s: State)
    requires Inv(s)
    ensures forall t | t in s.tasks :: Live(s, Own(s, t)) <==> s.tasks[t].state in {LaunchPending, Running, Blocked}
    ensures forall c, d, p | Live(s, c) && Live(s, d) && Targets.Covers(s.claims[c].target, p)
                             && Targets.Covers(s.claims[d].target, p) :: c == d
  {
    forall c, d, p | Live(s, c) && Live(s, d) && Targets.Covers(s.claims[c].target, p)
                     && Targets.Covers(s.claims[d].target, p)
      ensures c == d
    {
      Targets.OverlapIsSharedPlace(s.claims[c].target, s.claims[d].target);
    }
  }

  /** From an empty authority: in every reachable state a task is pending, running or blocked
      exactly when its claim is live, and two live claims never cover a common place. */
  lemma ReachableStates(capacity: nat, rules: seq<Policy.Rule>, policyRevision: nat, reqs: seq<Request>)
    requires AllIntact(Initial(capacity, rules, policyRevision), reqs)
    ensures var s := Exec(Initial(capacity, rules, policyRevision), reqs);
      && Linked(s)
      && (forall t | t in s.tasks :: Live(s, Own(s, t)) <==> s.tasks[t].state in {LaunchPending, Running, Blocked})
      && (forall c, d, p | Live(s, c) && Live(s, d) && Targets.Covers(s.claims[c].target, p)
                           && Targets.Covers(s.claims[d].target, p) :: c == d)
      && Occupancy(s) <= s.capacity + Overdrafts(Initial(capacity, rules, policyRevision), reqs)
  {
    InitialSafe(capacity, rules, policyRevision);
    EveryRunIsSafe(Initial(capacity, rules, policyRevision), reqs);
    InvMeans(Exec(Initial(capacity, rules, policyRevision), reqs));
  }

  // ---------- refill ----------

  lemma HandbackFrame(s: State, s': State, f: Fence, external: string, refill: Refill, ok: bool)
    requires Inv(s) && TryHandback(s, f, external, refill, ok) == Ok(s')
    ensures f.task in s.tasks && f.task in s'.tasks && s'.tasks[f.task].state == ArchivePending
    ensures s.tasks[f.task].state == Running ==> SlotOf(s, f.task) == 1
    ensures refill.runnable > 0 ==> Occupancy(s') == RefillTarget(s, f.task, refill)
  {
    var filled := HandbackTurnover(s, s', f, external, refill, ok);
    FenceHolds(s, f, {Running, Blocked, Failed});
    OccupantsAreOwn(s, f.task);
  }

  lemma HandedBackIsNotResumed(s: State, t: string, audits: seq<Audit>)
    requires t in s.tasks && s.tasks[t].state == Running && AuditsComplete(s, audits)
    ensures ResumesOther(s, audits, t) == if Selected(s, audits).Some? then 1 else 0
  {
    if Selected(s, audits).Some? {
      SelectedIsResumable(s, audits);
    }
  }

  lemma HandbackAudits(s: State, s': State, f: Fence, external: string, refill: Refill, ok: bool)
    requires TryHandback(s, f, external, refill, ok) == Ok(s')
    ensures AuditsComplete(s, refill.audits)
  {
    var filled := HandbackTurnover(s, s', f, external, refill, ok);
    assert BlockedTasks(Release(s, f.task)) == BlockedTasks(s);
  }

  /** A handback from RUNNING with runnable work and a requested capacity of at least the prior
      occupancy fills the freed slot: exactly one of a resume and a successor, never both. */
  lemma HandbackRefillsTheSlot(s: State, s': State, f: Fence, external: string, refill: Refill, ok: bool)
    requires Inv(s) && TryHandback(s, f, external, refill, ok) == Ok(s')
    requires ResumeIntact(s, refill.audits, {f.task})
    requires f.task in s.tasks && s.tasks[f.task].state == Running
    requires refill.runnable > 0 && refill.capacity >= Occupancy(s)
    ensures Occupancy(s') == Occupancy(s)
    ensures refill.successor.Some? <==> Selected(s, refill.audits).None?
  {
    HandbackGood(s, s', f, external, refill, ok);
    HandbackFrame(s, s', f, external, refill, ok);
    HandbackAudits(s, s', f, external, refill, ok);
    HandedBackIsNotResumed(s, f.task, refill.audits);
  }

  lemma ResumeOrderTotal(tasks: map<string, Task>)
    ensures TotalPreorder(ResumeOrder(tasks))
  {
    IdOrder();
    forall x: string, y: string ensures ResumesBefore(tasks, x, y) || ResumesBefore(tasks, y, x) {
      IdTotal(x, y);
    }
    forall x: string, y: string, z: string | ResumesBefore(tasks, x, y) && ResumesBefore(tasks, y, z)
      ensures ResumesBefore(tasks, x, z)
    {
      if IdLeq(x, y) && IdLeq(y, z) {
        IdTransitive(x, y, z);
      }
    }
  }

  /** The resumed task outranks every other task the audits would let resume. */
  lemma SelectedIsBest(s: State, audits: seq<Audit>, other: string)
    requires other in AuditedAs(audits, Resume)
    ensures Selected(s, audits).Some? && ResumesBefore(s.tasks, Selected(s, audits).value, other)
  {
    ResumableRanked(s, audits, other);
    ResumeOrderTotal(s.tasks);
    SortSorted(Map(Filter(audits, HasVerdict(Resume)), AuditTask()), ResumeOrder(s.tasks));
    var ranking := ResumeRanking(s, audits);
    var j :| 0 <= j < |ranking| && ranking[j] == other;
    assert ResumeOrder(s.tasks)(other, other);
    assert ResumeOrder(s.tasks)(ranking[0], ranking[j]);
  }

  // ---------- setup recovery ----------

  ghost predicate HasRoom(s: State, l: Launch) { Reserve(s, l).Reserved? }

  /** Reservation in a fixed state; the search below looks no further into it. */
  function ReserveIn(s: State): Launch -> Reservation { (l: Launch) => Reserve(s, l) }

  function FirstOf(row: seq<Launch>, reserve: Launch -> Reservation): Pick {
    if row == [] then NonePicked
    else match reserve(row[0])
      case Reserved(s') => Picked(s', row[0].task)
      case Declined(code) => if code == IntegrityError then Broken else FirstOf(row[1..], reserve)
  }

  lemma {:induction false} FirstReservableIsFirst(s: State, row: seq<Launch>)
    ensures FirstReservable(s, row) == FirstOf(row, ReserveIn(s))
  {
    if row != [] {
      FirstReservableIsFirst(s, row[1..]);
    }
  }

  /** `row[k]` is the first launch that is reserved, and its reservation is the pick. */
  ghost predicate PickedAt(row: seq<Launch>, reserve: Launch -> Reservation, pick: Pick, k: nat) {
    && k < |row| && pick.Picked? && row[k].task == pick.task && reserve(row[k]) == Reserved(pick.state)
    && forall j | 0 <= j < k :: reserve(row[j]).Declined?
  }

  lemma {:induction false} FirstIndex(row: seq<Launch>, reserve: Launch -> Reservation) returns (k: nat)
    requires FirstOf(row, reserve).Picked?
    ensures PickedAt(row, reserve, FirstOf(row, reserve), k)
  {
    if reserve(row[0]).Reserved? {
      k := 0;
    } else {
      var rest := FirstIndex(row[1..], reserve);
      forall j | 0 <= j < rest + 1 ensures reserve(row[j]).Declined? {
        assert j > 0 ==> row[j] == row[1..][j - 1];
      }
      k := rest + 1;
    }
  }

  lemma {:induction false} NoneOf(row: seq<Launch>, reserve: Launch -> Reservation)
    ensures FirstOf(row, reserve).NonePicked? <==>
      forall c | c in row :: reserve(c).Declined? && reserve(c).code != IntegrityError
  {
    if row != [] {
      NoneOf(row[1..], reserve);
      assert row == [row[0]] + row[1..];
    }
  }

  lemma CandidatesTotal()
    ensures TotalPreorder(CandidateLeq)
  {
    IdOrder();
  }

  lemma LaterRanksBehind(row: seq<Launch>, reserve: Launch -> Reservation, pick: Pick, k: nat, c: Launch)
    requires PickedAt(row, reserve, pick, k) && Sorted(row, CandidateLeq) && c in row && reserve(c).Reserved?
    ensures CandidateLeq(row[k], c)
  {
    var j :| 0 <= j < |row| && row[j] == c;
    IdTotal(c.task, c.task);
  }

  lemma BestOf(candidates: seq<Launch>, reserve: Launch -> Reservation) returns (best: Launch)
    requires FirstOf(Sort(candidates, CandidateLeq), reserve).Picked?
    ensures best in candidates && reserve(best) == Reserved(FirstOf(Sort(candidates, CandidateLeq), reserve).state)
    ensures forall c | c in candidates && reserve(c).Reserved? :: CandidateLeq(best, c)
  {
    var row := Sort(candidates, CandidateLeq);
    var k := FirstIndex(row, reserve);
    best := row[k];
    CandidatesTotal();
    SortSorted(candidates, CandidateLeq);
    SortMembers(candidates, CandidateLeq);
    assert best in row;
    forall c | c in candidates && reserve(c).Reserved? ensures CandidateLeq(best, c) {
      LaterRanksBehind(row, reserve, FirstOf(row, reserve), k, c);
    }
  }

  /** The successor of a failed setup is the best candidate there is room for: every other one
      that could be reserved ranks behind it. */
  lemma BestCandidateIsPicked(s: State, candidates: seq<Launch>) returns (best: Launch)
    requires FirstReservable(s, Sort(candidates, CandidateLeq)).Picked?
    ensures best in candidates && Reserve(s, best) == Reserved(FirstReservable(s, Sort(candidates, CandidateLeq)).state)
    ensures forall c | c in candidates && HasRoom(s, c) :: CandidateLeq(best, c)
  {
    FirstReservableIsFirst(s, Sort(candidates, CandidateLeq));
    best := BestOf(candidates, ReserveIn(s));
    forall c | c in candidates && HasRoom(s, c) ensures CandidateLeq(best, c) {
      assert ReserveIn(s)(c).Reserved?;
    }
  }

  /** No candidate is picked only when none of them can be reserved. */
  lemma NoneMeansNone(s: State, row: seq<Launch>)
    ensures FirstReservable(s, row).NonePicked? <==>
      forall c | c in row :: Reserve(s, c).Declined? && Reserve(s, c).code != IntegrityError
  {
    FirstReservableIsFirst(s, row);
    NoneOf(row, ReserveIn(s));
    forall c | c in row ensures ReserveIn(s)(c) == Reserve(s, c) {}
  }
}
