/** Idempotency over whole runs: an accepted request is remembered for ever, sending it again
    changes nothing, and another body under its id is refused. */
module PlaneReplay {
  import opened Basics
  import opened Sorting
  import opened Histories
  import opened PlaneModel
  import opened PlaneInvariants
  import opened PlaneRuns
  import Durations

  // ---------- what an operation leaves alone ----------

  lemma ReserveCore(s: State, l: Launch)
    requires Reserve(s, l).Reserved?
    ensures var s' := Reserve(s, l).state;
      s'.capacity == s.capacity && s'.handled == s.handled && s'.rules == s.rules && s'.samples == s.samples
      && s.tasks.Keys <= s'.tasks.Keys && forall t | t in s.tasks :: s'.tasks[t] == s.tasks[t]
  {
    LaunchChecks(s, l);
    AdmitCore(s, l, LaunchRules(s, l));
  }

  lemma AdmitCore(s: State, l: Launch, ids: seq<string>)
    requires l.task !in s.tasks
    ensures var s' := Admit(s, l, ids);
      s'.capacity == s.capacity && s'.handled == s.handled && s'.rules == s.rules && s'.samples == s.samples
      && s.tasks.Keys <= s'.tasks.Keys && forall t | t in s.tasks :: s'.tasks[t] == s.tasks[t]
  {
  }

  lemma OptionalReserveCore(s: State, successor: Option<Launch>)
    requires OptionalReserve(s, successor).Reserved?
    ensures var s' := OptionalReserve(s, successor).state;
      s'.capacity == s.capacity && s'.handled == s.handled && s'.rules == s.rules && s'.samples == s.samples
      && s.tasks.Keys <= s'.tasks.Keys && forall t | t in s.tasks :: s'.tasks[t] == s.tasks[t]
  {
    if successor.Some? {
      ReserveCore(s, successor.value);
    }
  }

  lemma {:induction false} FirstReservableCore(s: State, candidates: seq<Launch>)
    requires FirstReservable(s, candidates).Picked?
    ensures var s' := FirstReservable(s, candidates).state;
      s'.capacity == s.capacity && s'.handled == s.handled && s'.rules == s.rules && s'.samples == s.samples
      && s.tasks.Keys <= s'.tasks.Keys && forall t | t in s.tasks :: s'.tasks[t] == s.tasks[t]
  {
    if Reserve(s, candidates[0]).Reserved? {
      ReserveCore(s, candidates[0]);
    } else {
      FirstReservableCore(s, candidates[1..]);
    }
  }

  /** Rows outside the task and claim tables are as they were, no finished task moved, no task's
      lane fell, and the capacity is the old one or a legal one. */
  ghost predicate Leaves(s: State, s': State) {
    && (s'.capacity == s.capacity || 1 <= s'.capacity <= 64)
    && s'.handled == s.handled && s'.rules == s.rules && s'.samples == s.samples
    && s.tasks.Keys <= s'.tasks.Keys
    && (forall t | t in s.tasks && Final(s.tasks[t].state) :: s'.tasks[t].state == s.tasks[t].state)
    && (forall t | t in s.tasks :: Durations.Grew(s.tasks[t].timing, s'.tasks[t].timing))
  }

  predicate Final(state: TaskState) { state == Expired || state == Archived }

  lemma LeavesOn(a: State, b: State, c: State)
    requires Leaves(a, b) && Leaves(b, c)
    ensures Leaves(a, c)
  {
  }

  lemma AuditsLeave(s: State, audits: seq<Audit>)
    requires AuditsComplete(s, audits)
    ensures Leaves(s, AfterAudits(s, audits))
  {
    if Selected(s, audits).Some? {
      SelectedIsResumable(s, audits);
    }
  }

  lemma TurnoverLeaves(s: State, t: string, refill: Refill)
    requires t in s.tasks && !Final(s.tasks[t].state) && AuditsComplete(Release(s, t), refill.audits)
    requires OptionalReserve(AfterAudits(Release(s, t), refill.audits), refill.successor).Reserved?
    ensures var filled := OptionalReserve(AfterAudits(Release(s, t), refill.audits), refill.successor).state;
      t in filled.tasks && Leaves(s, Close(filled, t))
  {
    var freed := Release(s, t);
    var audited := AfterAudits(freed, refill.audits);
    AuditsLeave(freed, refill.audits);
    OptionalReserveCore(audited, refill.successor);
    LeavesOn(s, freed, audited);
    LeavesOn(s, audited, OptionalReserve(audited, refill.successor).state);
  }

  lemma HandbackLeaves(s: State, s': State, f: Fence, external: string, refill: Refill, ok: bool)
    requires TryHandback(s, f, external, refill, ok) == Ok(s')
    ensures Leaves(s, s')
  {
    TurnoverLeaves(s, f.task, refill);
  }

  lemma InterruptLeaves(s: State, s': State, f: Fence, external: string, refill: Refill, ok: bool)
    requires TryInterrupt(s, f, external, refill, ok) == Ok(s')
    ensures Leaves(s, s')
  {
    TurnoverLeaves(s, f.task, refill);
  }

  lemma FailLeaves(s: State, t: string, audits: seq<Audit>)
    requires t in s.tasks && !Final(s.tasks[t].state) && AuditsComplete(s, audits)
    requires s.tasks[t].state == LaunchPending
    ensures Leaves(s, FailSetup(AfterAudits(s, audits), t))
  {
    AuditsLeave(s, audits);
    if Selected(s, audits).Some? {
      SelectedIsResumable(s, audits);
    }
  }

  lemma PickLeaves(failed: State, candidates: seq<Launch>)
    ensures FirstReservable(failed, candidates).Picked? ==> Leaves(failed, FirstReservable(failed, candidates).state)
  {
    if FirstReservable(failed, candidates).Picked? {
      FirstReservableCore(failed, candidates);
    }
  }

  lemma SetupFailureLeaves(s: State, s': State, f: Fence, refill: Refill, candidates: seq<Launch>, ok: bool)
    requires TrySetupFailure(s, f, refill, candidates, ok) == Ok(s')
    ensures Leaves(s, s')
  {
    FailLeaves(s, f.task, refill.audits);
    PickLeaves(FailSetup(AfterAudits(s, refill.audits), f.task), Sort(candidates, CandidateLeq));
  }

  lemma WatchdogLeaves(s: State, s': State, refill: Refill, chosen: Option<string>, ok: bool)
    requires TryWatchdog(s, refill, chosen, ok) == Ok(s')
    ensures Leaves(s, s')
  {
    AuditsLeave(s, refill.audits);
    OptionalReserveCore(AfterAudits(s, refill.audits), if chosen.Some? then None else refill.successor);
  }

  lemma TimedLeaves(s: State, id: string, report: Durations.Report, timed: State)
    requires id in s.tasks && Durations.Advance(s.tasks[id].timing, report).Progressed?
    requires timed == SetTask(s, id, s.tasks[id].(timing := Durations.Advance(s.tasks[id].timing, report).timing))
    ensures Leaves(s, timed)
  {
    Durations.AdvanceGrows(s.tasks[id].timing, report);
  }

  lemma ReservedLeaves(s: State, successor: Option<Launch>, s': State)
    requires OptionalReserve(s, successor) == Reserved(s')
    ensures Leaves(s, s')
  {
    OptionalReserveCore(s, successor);
  }

  lemma ProgressLeaves(
      s: State, s': State, f: Fence, external: string, report: Durations.Report, successor: Option<Launch>, ok: bool)
    requires TryProgress(s, f, external, report, successor, ok) == Ok(s')
    ensures Leaves(s, s')
  {
    var progress := Durations.Advance(s.tasks[f.task].timing, report);
    var timed := SetTask(s, f.task, s.tasks[f.task].(timing := progress.timing));
    TimedLeaves(s, f.task, report, timed);
    if progress.reclassified {
      var filled := OptionalReserve(timed, successor).state;
      ReservedLeaves(timed, successor, filled);
      LeavesOn(s, timed, filled);
    }
  }

  lemma QueueOpLeaves(s: State, s': State, op: Op, now: int)
    requires Attempt(s, op, now) == Ok(s')
    requires op.Handback? || op.SetupFailure? || op.Interrupt? || op.Recycle? || op.CapacityWatchdog?
             || op.ReportProgress? || op.PrepareLaunch?
    ensures Leaves(s, s')
  {
    match op
    case PrepareLaunch(l) => ReserveCore(s, l);
    case Handback(_, f, external, refill, ok) => HandbackLeaves(s, s', f, external, refill, ok);
    case Interrupt(_, f, external, refill, ok) => InterruptLeaves(s, s', f, external, refill, ok);
    case SetupFailure(_, f, refill, candidates, ok) => SetupFailureLeaves(s, s', f, refill, candidates, ok);
    case Recycle(_, audits) => AuditsLeave(s, audits);
    case CapacityWatchdog(_, refill, chosen, ok) => WatchdogLeaves(s, s', refill, chosen, ok);
    case ReportProgress(_, f, external, report, successor, ok) =>
      ProgressLeaves(s, s', f, external, report, successor, ok);
  }

  lemma LeaseOpLeaves(s: State, s': State, op: Op, now: int)
    requires Attempt(s, op, now) == Ok(s')
    requires op.ConfigureCapacity? || op.Takeover? || op.ExpireLease? || op.Heartbeat? || op.Note?
    ensures Leaves(s, s')
  {
  }

  lemma RetaskLeaves(s: State, s': State, t: string, task: Task, n: nat)
    requires t in s.tasks && task.timing == s.tasks[t].timing
    requires Final(s.tasks[t].state) ==> task.state == s.tasks[t].state
    requires s' == Bump(SetTask(s, t, task), n)
    ensures Leaves(s, s')
  {
  }

  lemma ReceiptLeaves(s: State, s': State, f: Fence, external: string, ruleIds: seq<string>, settles: bool)
    requires TryLaunchReceipt(s, f, external, ruleIds, settles) == Ok(s')
    ensures Leaves(s, s')
  {
    var extra := if settles then 1 else 0;
    if f.task in s.tasks && SameLaunch(s.tasks[f.task], f, external, ruleIds) {
      RetaskLeaves(s, s', f.task, s.tasks[f.task], extra);
    } else {
      var task := s.tasks[f.task].(state := Running, external := Some(external), outbox := Completed);
      RetaskLeaves(s, s', f.task, task, 1 + extra);
    }
  }

  lemma BlockLeaves(s: State, s': State, f: Fence, external: string, ok: bool)
    requires TryBlock(s, f, external, ok) == Ok(s')
    ensures Leaves(s, s')
  {
    RetaskLeaves(s, s', f.task, s.tasks[f.task].(state := Blocked, auditDue := true), 1);
  }

  lemma ArchiveLeaves(s: State, s': State, f: Fence, ok: bool)
    requires TryArchive(s, f, ok) == Ok(s')
    ensures Leaves(s, s')
  {
  }

  lemma RowOpLeaves(s: State, s': State, op: Op, now: int)
    requires Attempt(s, op, now) == Ok(s')
    requires op.LaunchReceipt? || op.BlockTask? || op.Observe? || op.ArchiveReceipt?
    ensures Leaves(s, s')
  {
    match op
    case LaunchReceipt(_, f, external, ruleIds, settles) => ReceiptLeaves(s, s', f, external, ruleIds, settles);
    case BlockTask(_, f, external, ok) => BlockLeaves(s, s', f, external, ok);
    case ArchiveReceipt(_, f, ok) => ArchiveLeaves(s, s', f, ok);
    case Observe(_, _, _, _) =>
  }

  /** Only recording a rule or a sample touches those tables, and no operation rewrites what
      was handled or moves a finished task. */
  lemma AttemptLeaves(s: State, s': State, op: Op, now: int)
    requires Attempt(s, op, now) == Ok(s') && !op.RecordRule? && !op.RecordSample?
    ensures Leaves(s, s')
  {
    if op.Handback? || op.SetupFailure? || op.Interrupt? || op.Recycle? || op.CapacityWatchdog?
       || op.ReportProgress? || op.PrepareLaunch? {
      QueueOpLeaves(s, s', op, now);
    } else if op.LaunchReceipt? || op.BlockTask? || op.Observe? || op.ArchiveReceipt? {
      RowOpLeaves(s, s', op, now);
    } else {
      LeaseOpLeaves(s, s', op, now);
    }
  }

  lemma AttemptForgetsNothing(s: State, s': State, op: Op, now: int)
    requires Attempt(s, op, now) == Ok(s')
    ensures s'.handled == s.handled
  {
    if !op.RecordRule? && !op.RecordSample? {
      AttemptLeaves(s, s', op, now);
    }
  }

  // ---------- replay ----------

  /** Whatever is remembered stays, and a committed request is remembered. */
  lemma StepRemembers(s: State, req: Request)
    ensures forall k | k in s.handled :: k in Apply(s, req).state.handled && Apply(s, req).state.handled[k] == s.handled[k]
    ensures Apply(s, req).outcome.Committed? && KeyOf(req.op).Some? ==>
      var s' := Apply(s, req).state;
      KeyOf(req.op).value in s'.handled && s'.handled[KeyOf(req.op).value] == Semantic(req)
  {
    ApplyCases(s, req);
    if Apply(s, req).outcome.Committed? {
      AttemptForgetsNothing(s, Attempt(s, req.op, req.now).value, req.op, req.now);
    }
  }

  lemma SemanticKey(req: Request)
    ensures KeyOf(Semantic(req).op) == KeyOf(req.op)
  {
  }

  lemma {:induction false} RunRemembers(s: State, reqs: seq<Request>, k: Key)
    requires k in s.handled
    ensures k in Exec(s, reqs).handled && Exec(s, reqs).handled[k] == s.handled[k]
    decreases |reqs|
  {
    if reqs != [] {
      RunRemembers(s, reqs[..|reqs| - 1], k);
      StepRemembers(Exec(s, reqs[..|reqs| - 1]), reqs[|reqs| - 1]);
    }
  }

  lemma {:induction false} ExecSplits(s: State, a: seq<Request>, b: seq<Request>)
    ensures Exec(s, a + b) == Exec(Exec(s, a), b)
    decreases |b|
  {
    if b == [] {
      assert a + b == a;
    } else {
      assert (a + b)[..|a + b| - 1] == a + b[..|b| - 1];
      ExecSplits(s, a, b[..|b| - 1]);
    }
  }

  /** `req` was committed at position `j` of the run. */
  ghost predicate AcceptedAt(s: State, reqs: seq<Request>, j: nat, req: Request) {
    && j < |reqs| && Semantic(reqs[j]) == Semantic(req) && KeyOf(reqs[j].op).Some?
    && Apply(Exec(s, reqs[..j]), reqs[j]).outcome.Committed?
  }

  lemma SameKey(a: Request, b: Request)
    requires Semantic(a) == Semantic(b)
    ensures KeyOf(a.op) == KeyOf(b.op)
  {
    SemanticKey(a);
    SemanticKey(b);
  }

  lemma CommitRemembers(s: State, req: Request, k: Key)
    requires Apply(s, req).outcome.Committed? && KeyOf(req.op) == Some(k)
    ensures k in Apply(s, req).state.handled && Apply(s, req).state.handled[k] == Semantic(req)
  {
    StepRemembers(s, req);
  }

  lemma PrefixRemembers(s: State, reqs: seq<Request>, i: nat, k: Key)
    requires i <= |reqs| && k in Exec(s, reqs[..i]).handled
    ensures k in Exec(s, reqs).handled && Exec(s, reqs).handled[k] == Exec(s, reqs[..i]).handled[k]
  {
    assert reqs == reqs[..i] + reqs[i..];
    ExecSplits(s, reqs[..i], reqs[i..]);
    RunRemembers(Exec(s, reqs[..i]), reqs[i..], k);
  }

  lemma AcceptedIsRemembered(s: State, reqs: seq<Request>, j: nat, req: Request)
    requires AcceptedAt(s, reqs, j, req)
    ensures KeyOf(req.op).Some? && KeyOf(req.op).value in Exec(s, reqs).handled
    ensures Exec(s, reqs).handled[KeyOf(req.op).value] == Semantic(req)
  {
    SameKey(reqs[j], req);
    CommitRemembers(Exec(s, reqs[..j]), reqs[j], KeyOf(req.op).value);
    ExecStep(s, reqs, j);
    PrefixRemembers(s, reqs, j + 1, KeyOf(req.op).value);
  }

  /** Sending an accepted request again, at any later point, is answered from memory; a changed
      body under the same id is refused. Neither changes the state. */
  lemma RetransmissionIsQuiet(s: State, reqs: seq<Request>, j: nat, original: Request, again: Request)
    requires AcceptedAt(s, reqs, j, original) && KeyOf(again.op) == KeyOf(original.op)
    ensures Apply(Exec(s, reqs), again).state == Exec(s, reqs)
    ensures Apply(Exec(s, reqs), again).outcome
         == if Semantic(again) == Semantic(original) then Replayed else Refused(IdempotencyConflict)
  {
    AcceptedIsRemembered(s, reqs, j, original);
  }

  /** The request was accepted before. */
  ghost function AcceptedBefore(s: State): (seq<Request>, Request) -> bool {
    (reqs: seq<Request>, req: Request) => exists j :: AcceptedAt(s, reqs, j, req)
  }

  function ExecFrom(s: State): seq<Request> -> State { (reqs: seq<Request>) => Exec(s, reqs) }

  lemma ExecLast(s: State, reqs: seq<Request>, req: Request)
    ensures Exec(s, reqs + [req]) == Apply(Exec(s, reqs), req).state
  {
    assert (reqs + [req])[..|reqs|] == reqs;
  }

  lemma ExecFolds(s: State)
    ensures Folds(ExecFrom(s))
  {
    forall a, b, req | Exec(s, a) == Exec(s, b) ensures Exec(s, a + [req]) == Exec(s, b + [req]) {
      ExecLast(s, a, req);
      ExecLast(s, b, req);
    }
  }

  lemma AcceptedIsQuiet(s: State)
    ensures Quiet(ExecFrom(s), AcceptedBefore(s))
  {
    forall reqs, req | AcceptedBefore(s)(reqs, req) ensures Exec(s, reqs + [req]) == Exec(s, reqs) {
      var j :| AcceptedAt(s, reqs, j, req);
      RetransmissionIsQuiet(s, reqs, j, req, req);
      ExecLast(s, reqs, req);
    }
  }

  /** A run with any number of retransmissions of accepted requests, at any later points, reaches
      the same state as the run without them. */
  lemma RetransmissionsVanish(s: State, ds: seq<Delivery<Request>>)
    requires Faithful(ds, AcceptedBefore(s))
    ensures Exec(s, Items(ds)) == Exec(s, Items(Firsts(ds)))
  {
    ExecFolds(s);
    AcceptedIsQuiet(s);
    RepetitionsVanish(ds, ExecFrom(s), AcceptedBefore(s));
  }
}
