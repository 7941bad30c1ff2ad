/** The blocked-queue audits that come with a request: which of them leave a task running
    without a claim, and how every such request ends. */
module PlaneAudits {
  import opened Basics
  import opened Sorting
  import opened PlaneModel
  import opened PlaneInvariants
  import opened PlaneSteps

  function RefillOf(op: Op): Option<Refill> {
    match op
    case Handback(_, _, _, refill, _) => Some(refill)
    case SetupFailure(_, _, refill, _, _) => Some(refill)
    case Interrupt(_, _, _, refill, _) => Some(refill)
    case CapacityWatchdog(_, refill, _, _) => Some(refill)
    case _ => None
  }

  /** The blocked-queue audits that come with a request. */
  function AuditsOf(op: Op): seq<Audit> {
    if op.Recycle? then op.audits
    else if RefillOf(op).Some? then RefillOf(op).value.audits
    else []
  }

  /** The task whose claim a request releases before it looks at the audits. */
  function FreedBy(op: Op): set<string> {
    if op.Handback? || op.Interrupt? then {op.fence.task} else {}
  }

  /** The task the audits resume is not archived by them too, unless the request ends it anyway. */
  predicate Intact(s: State, op: Op) {
    ResumeIntact(s, AuditsOf(op), FreedBy(op))
  }

  /** No task is both resumed and archived by the audits of one request. */
  predicate Clean(op: Op) {
    AuditedAs(AuditsOf(op), Resume) !! AuditedAs(AuditsOf(op), Archive)
  }

  /** Clean requests are intact in every state. */
  lemma CleanIsIntact(s: State, op: Op)
    requires Clean(op)
    ensures Intact(s, op)
  {
    if Selected(s, AuditsOf(op)).Some? {
      SelectedIsResumable(s, AuditsOf(op));
    }
  }

  // ---------- a task adrift ----------

  /** A running task without a live claim. */
  ghost predicate Adrift(s: State, x: string) {
    x in s.tasks && s.tasks[x].state == Running && !Live(s, Own(s, x))
  }

  lemma AdriftBreaks(s: State, x: string)
    requires Adrift(s, x)
    ensures !Inv(s)
  {
    assert x !in {} && Holding(s.tasks[x].state);
  }

  lemma AuditsCutLoose(s: State, audits: seq<Audit>, free: set<string>) returns (x: string)
    requires Linked(s) && AuditsComplete(s, audits) && !ResumeIntact(s, audits, free)
    ensures Selected(s, audits) == Some(x) && x !in free && x in s.tasks && s.tasks[x].state == Blocked
    ensures Adrift(AfterAudits(s, audits), x)
  {
    x := Selected(s, audits).value;
    SelectedIsResumable(s, audits);
    AuditsRewrite(s, audits);
  }

  lemma ReserveLeavesAdrift(s: State, l: Launch, x: string)
    requires Adrift(s, x) && Reserve(s, l).Reserved?
    ensures Adrift(Reserve(s, l).state, x)
  {
    LaunchChecks(s, l);
    AdmitLeavesAdrift(s, l, LaunchRules(s, l), x);
  }

  lemma AdmitLeavesAdrift(s: State, l: Launch, ids: seq<string>, x: string)
    requires Adrift(s, x) && l.task !in s.tasks
    ensures Adrift(Admit(s, l, ids), x)
  {
  }

  lemma OptionalLeavesAdrift(s: State, successor: Option<Launch>, x: string)
    requires Adrift(s, x) && OptionalReserve(s, successor).Reserved?
    ensures Adrift(OptionalReserve(s, successor).state, x)
  {
    if successor.Some? {
      ReserveLeavesAdrift(s, successor.value, x);
    }
  }

  lemma {:induction false} FirstLeavesAdrift(s: State, candidates: seq<Launch>, x: string)
    requires Adrift(s, x) && FirstReservable(s, candidates).Picked?
    ensures Adrift(FirstReservable(s, candidates).state, x)
  {
    if Reserve(s, candidates[0]).Reserved? {
      ReserveLeavesAdrift(s, candidates[0], x);
    } else {
      FirstLeavesAdrift(s, candidates[1..], x);
    }
  }

  lemma RetaskLeavesAdrift(s: State, t: string, task: Task, x: string)
    requires Adrift(s, x) && t != x
    ensures Adrift(SetTask(s, t, task), x)
  {
  }

  lemma ReleaseLeavesAdrift(s: State, t: string, x: string)
    requires Adrift(s, x)
    ensures Adrift(Release(s, t), x)
  {
  }

  lemma RowsLeaveAdrift(s: State, s': State, x: string)
    requires Adrift(s, x) && SameRows(s, s')
    ensures !Inv(s')
  {
    AdriftBreaks(s', x);
  }

  // ---------- requests that cut a task loose ----------

  lemma RecycleBreaks(s: State, s': State, audits: seq<Audit>)
    requires Inv(s) && TryRecycle(s, audits) == Ok(s') && !ResumeIntact(s, audits, {})
    ensures !Inv(s')
  {
    var x := AuditsCutLoose(s, audits, {});
    RowsLeaveAdrift(s', s', x);
  }

  lemma WatchdogBreaks(s: State, s': State, refill: Refill, chosen: Option<string>, ok: bool)
    requires Inv(s) && TryWatchdog(s, refill, chosen, ok) == Ok(s') && !ResumeIntact(s, refill.audits, {})
    ensures !Inv(s')
  {
    var successor, filled := WatchdogStages(s, s', refill, chosen, ok);
    var x := AuditsCutLoose(s, refill.audits, {});
    OptionalLeavesAdrift(AfterAudits(s, refill.audits), successor, x);
    RowsLeaveAdrift(filled, s', x);
  }

  lemma TurnoverBreaks(s: State, s': State, t: string, refill: Refill, filled: State)
    requires Inv(s) && Turnover(s, t, refill, filled) && t in filled.tasks && SameRows(Close(filled, t), s')
    requires !ResumeIntact(s, refill.audits, {t})
    ensures !Inv(s')
  {
    var freed := Release(s, t);
    ReleaseTracks(s, t, {});
    RewriteLinks(s, freed);
    SelectedByTasks(s, freed, refill.audits, t);
    var x := AuditsCutLoose(freed, refill.audits, {t});
    OptionalLeavesAdrift(AfterAudits(freed, refill.audits), refill.successor, x);
    RetaskLeavesAdrift(filled, t, filled.tasks[t].(state := ArchivePending), x);
    RowsLeaveAdrift(Close(filled, t), s', x);
  }

  lemma HandbackBreaks(s: State, s': State, f: Fence, external: string, refill: Refill, ok: bool)
    requires Inv(s) && TryHandback(s, f, external, refill, ok) == Ok(s') && !ResumeIntact(s, refill.audits, {f.task})
    ensures !Inv(s')
  {
    var filled := HandbackTurnover(s, s', f, external, refill, ok);
    TurnoverBreaks(s, s', f.task, refill, filled);
  }

  lemma InterruptBreaks(s: State, s': State, f: Fence, external: string, refill: Refill, ok: bool)
    requires Inv(s) && TryInterrupt(s, f, external, refill, ok) == Ok(s') && !ResumeIntact(s, refill.audits, {f.task})
    ensures !Inv(s')
  {
    var filled := InterruptTurnover(s, s', f, external, refill, ok);
    TurnoverBreaks(s, s', f.task, refill, filled);
  }

  lemma FailLeavesAdrift(s: State, t: string, x: string)
    requires Adrift(s, x) && t in s.tasks && t != x
    ensures Adrift(FailSetup(s, t), x)
  {
    ReleaseLeavesAdrift(s, t, x);
    RetaskLeavesAdrift(Release(s, t), t, s.tasks[t].(state := Failed, outbox := Poisoned), x);
  }

  lemma SetupFailureBreaks(s: State, s': State, f: Fence, refill: Refill, candidates: seq<Launch>, ok: bool)
    requires Inv(s) && TrySetupFailure(s, f, refill, candidates, ok) == Ok(s') && !ResumeIntact(s, refill.audits, {})
    ensures !Inv(s')
  {
    var last := SetupFailureStages(s, s', f, refill, candidates, ok);
    FenceHolds(s, f, {LaunchPending});
    var x := AuditsCutLoose(s, refill.audits, {});
    var failed := FailSetup(AfterAudits(s, refill.audits), f.task);
    FailLeavesAdrift(AfterAudits(s, refill.audits), f.task, x);
    if FirstReservable(failed, Sort(candidates, CandidateLeq)).Picked? {
      FirstLeavesAdrift(failed, Sort(candidates, CandidateLeq), x);
    }
    RowsLeaveAdrift(last, s', x);
  }

  lemma NoAuditsAreIntact(s: State, op: Op)
    requires AuditsOf(op) == []
    ensures Intact(s, op)
  {
    CleanIsIntact(s, op);
  }

  lemma QueueBreaks(s: State, s': State, op: Op, now: int)
    requires Inv(s) && Attempt(s, op, now) == Ok(s') && !Intact(s, op)
    requires op.Recycle? || op.CapacityWatchdog? || op.SetupFailure?
    ensures !Inv(s')
  {
    if op.Recycle? {
      RecycleBreaks(s, s', op.audits);
    } else if op.CapacityWatchdog? {
      WatchdogBreaks(s, s', op.refill, op.chosen, op.evidenceOk);
    } else {
      SetupFailureBreaks(s, s', op.fence, op.refill, op.candidates, op.evidenceOk);
    }
  }

  lemma TerminalBreaks(s: State, s': State, op: Op, now: int)
    requires Inv(s) && Attempt(s, op, now) == Ok(s') && !Intact(s, op)
    requires op.Handback? || op.Interrupt?
    ensures !Inv(s')
  {
    if op.Handback? {
      HandbackBreaks(s, s', op.fence, op.external, op.refill, op.evidenceOk);
    } else {
      InterruptBreaks(s, s', op.fence, op.external, op.refill, op.evidenceOk);
    }
  }

  /** A committed request that is not intact leaves a task running without a claim. */
  lemma AttemptBreaks(s: State, s': State, op: Op, now: int)
    requires Inv(s) && Attempt(s, op, now) == Ok(s') && !Intact(s, op)
    ensures !Inv(s')
  {
    if op.Recycle? || op.CapacityWatchdog? || op.SetupFailure? {
      QueueBreaks(s, s', op, now);
    } else if op.Handback? || op.Interrupt? {
      TerminalBreaks(s, s', op, now);
    } else {
      NoAuditsAreIntact(s, op);
    }
  }

  // ---------- slots ----------

  /** A resume that no slot freed in the same transaction pays for. */
  function Debt(s: State, op: Op): nat {
    match op
    case Recycle(_, audits) => if Selected(s, audits).Some? then 1 else 0
    case CapacityWatchdog(_, refill, _, _) => if Selected(s, refill.audits).Some? then 1 else 0
    case Handback(_, f, _, refill, _) => if f.task in s.tasks then HandbackDebt(s, f.task, refill) else 0
    case _ => 0
  }

  lemma DebtIsOneSlot(s: State, op: Op)
    ensures Debt(s, op) <= 1
  {
  }

  lemma ResumedOne(s: State, audits: seq<Audit>)
    requires AuditsComplete(s, audits)
    ensures |Resumed(s, audits, {})| == if Selected(s, audits).Some? then 1 else 0
  {
    if Selected(s, audits).Some? {
      SelectedIsResumable(s, audits);
      assert Selected(s, audits).value in BlockedTasks(s);
    }
  }

  lemma AuditsCount(s: State, audits: seq<Audit>)
    requires Inv(s) && AuditsComplete(s, audits) && ResumeIntact(s, audits, {})
    ensures Occupancy(AfterAudits(s, audits)) == Occupancy(s) + (if Selected(s, audits).Some? then 1 else 0)
  {
    AuditsOccupy(s, audits, {});
    ResumedOne(s, audits);
    DisjointCounts(Occupants(s), Resumed(s, audits, {}));
  }

  /** A full authority has no room for a successor, so the resume alone takes it past capacity. */
  lemma WatchdogOverfills(s: State, s': State, refill: Refill, chosen: Option<string>, ok: bool)
    requires Inv(s) && TryWatchdog(s, refill, chosen, ok) == Ok(s') && ResumeIntact(s, refill.audits, {})
    requires Selected(s, refill.audits).Some? && Occupancy(s) >= s.capacity
    ensures Occupancy(s') > s'.capacity
  {
    var successor, filled := WatchdogStages(s, s', refill, chosen, ok);
    AuditsKeep(s, refill.audits, {});
    AuditsCount(s, refill.audits);
    if successor.Some? {
      ReserveKeeps(AfterAudits(s, refill.audits), successor.value, {});
    }
    CoreKeeps(filled, s', {});
  }

  lemma HandbackOverfills(s: State, s': State, f: Fence, external: string, refill: Refill, ok: bool)
    requires Inv(s) && TryHandback(s, f, external, refill, ok) == Ok(s') && ResumeIntact(s, refill.audits, {f.task})
    requires f.task in s.tasks && HandbackDebt(s, f.task, refill) == 1 && Occupancy(s) >= s.capacity
    ensures Occupancy(s') > s'.capacity
  {
    var filled := HandbackTurnover(s, s', f, external, refill, ok);
    TurnoverFills(s, f.task, refill, filled);
    HandbackGood(s, s', f, external, refill, ok);
  }

  /** An unpaid resume in a full authority takes it past capacity. */
  lemma DebtOverfills(s: State, s': State, op: Op, now: int)
    requires Inv(s) && Attempt(s, op, now) == Ok(s') && Intact(s, op) && Debt(s, op) > 0 && Occupancy(s) >= s.capacity
    ensures Occupancy(s') > s'.capacity
  {
    match op
    case Recycle(_, audits) => AuditsCount(s, audits);
    case CapacityWatchdog(_, refill, chosen, ok) => WatchdogOverfills(s, s', refill, chosen, ok);
    case Handback(_, f, external, refill, ok) => HandbackOverfills(s, s', f, external, refill, ok);
    case _ =>
  }
}
