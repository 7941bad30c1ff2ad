/** Fencing tokens and leases over whole runs: a token names one task for ever, a retired token
    never acts again, and the clock alone decides between extending and taking over. */
module PlaneTokens {
  import opened Basics
  import opened PlaneModel
  import opened PlaneInvariants
  import opened PlaneSteps
  import opened PlaneAudits
  import opened PlaneRuns
  import opened PlaneLedger
  import Durations

  datatype Presented = Presented(task: string, token: nat)

  function FenceOf(op: Op): Option<Fence> {
    match op
    case LaunchReceipt(_, f, _, _, _) => Some(f)
    case BlockTask(_, f, _, _) => Some(f)
    case Handback(_, f, _, _, _) => Some(f)
    case SetupFailure(_, f, _, _, _) => Some(f)
    case Observe(_, f, _, _) => Some(f)
    case Interrupt(_, f, _, _, _) => Some(f)
    case ExpireLease(_, f, _, _, _) => Some(f)
    case Heartbeat(_, f, _, _) => Some(f)
    case ReportProgress(_, f, _, _, _, _) => Some(f)
    case RecordSample(_, f, _, _) => Some(f)
    case ArchiveReceipt(_, f, _) => Some(f)
    case _ => None
  }

  /** The task and token a mutation presents. */
  function TokenOf(op: Op): Option<Presented> {
    if op.Takeover? then Some(Presented(op.task, op.token))
    else if FenceOf(op).Some? then Some(Presented(FenceOf(op).value.task, FenceOf(op).value.token))
    else None
  }

  lemma TerminalNeedsToken(s: State, op: Op, now: int)
    requires Attempt(s, op, now).Ok?
    requires op.Handback? || op.SetupFailure? || op.Interrupt? || op.BlockTask? || op.Observe?
    ensures op.fence.task in s.tasks && s.tasks[op.fence.task].fence == op.fence.token
  {
  }

  lemma LeaseNeedsToken(s: State, op: Op, now: int)
    requires Attempt(s, op, now).Ok? && (op.ExpireLease? || op.Heartbeat? || op.Takeover?)
    ensures TokenOf(op).Some?
    ensures TokenOf(op).value.task in s.tasks && s.tasks[TokenOf(op).value.task].fence == TokenOf(op).value.token
  {
  }

  lemma WorkNeedsToken(s: State, op: Op, now: int)
    requires Attempt(s, op, now).Ok?
    requires op.LaunchReceipt? || op.ReportProgress? || op.RecordSample? || op.ArchiveReceipt?
    ensures op.fence.task in s.tasks && s.tasks[op.fence.task].fence == op.fence.token
  {
  }

  /** No fenced operation commits without the task's current token. */
  lemma CommitNeedsCurrentToken(s: State, op: Op, now: int)
    requires Attempt(s, op, now).Ok? && TokenOf(op).Some?
    ensures TokenOf(op).value.task in s.tasks && s.tasks[TokenOf(op).value.task].fence == TokenOf(op).value.token
  {
    if op.ExpireLease? || op.Heartbeat? || op.Takeover? {
      LeaseNeedsToken(s, op, now);
    } else if op.LaunchReceipt? || op.ReportProgress? || op.RecordSample? || op.ArchiveReceipt? {
      WorkNeedsToken(s, op, now);
    } else {
      TerminalNeedsToken(s, op, now);
    }
  }

  /** A token that was handed out and is no longer the task's current one. */
  ghost predicate Retired(s: State, p: Presented) {
    p.task in s.tasks && s.tasks[p.task].fence != p.token && p.token < s.nextFence
  }

  /** Once retired, a token stays retired over any run, and no request presenting it ever
      commits or changes anything. */
  lemma RetiredForever(s: State, p: Presented, reqs: seq<Request>, req: Request)
    requires Inv(s) && Retired(s, p) && AllIntact(s, reqs) && TokenOf(req.op) == Some(p)
    ensures Retired(Exec(s, reqs), p)
    ensures !Apply(Exec(s, reqs), req).outcome.Committed?
    ensures Apply(Exec(s, reqs), req).state == Exec(s, reqs)
  {
    RunTokens(s, reqs);
    StaleIsRefused(Exec(s, reqs), p, req);
  }

  lemma StaleIsRefused(s: State, p: Presented, req: Request)
    requires Retired(s, p) && TokenOf(req.op) == Some(p)
    ensures !Apply(s, req).outcome.Committed? && Apply(s, req).state == s
  {
    if Attempt(s, req.op, req.now).Ok? {
      CommitNeedsCurrentToken(s, req.op, req.now);
    }
  }

  lemma TakeoverRetires(s: State, id: string, epoch: nat, token: nat, expires: int, now: int)
    requires Fenced(s) && TryTakeover(s, id, epoch, token, expires, now).Ok?
    ensures Retired(TryTakeover(s, id, epoch, token, expires, now).value, Presented(id, token))
  {
  }

  lemma ExpiryRetires(s: State, f: Fence, external: string, claim: ClaimId, expires: int, now: int)
    requires Fenced(s) && TryExpireLease(s, f, external, claim, expires, now).Ok?
    ensures Retired(TryExpireLease(s, f, external, claim, expires, now).value, Presented(f.task, f.token))
  {
  }

  /** Takeover and expiry retire the token they were given. */
  lemma TakeoverAndExpiryRetire(s: State, op: Op, now: int)
    requires Inv(s) && (op.Takeover? || op.ExpireLease?) && Attempt(s, op, now).Ok?
    ensures TokenOf(op).Some? && Retired(Attempt(s, op, now).value, TokenOf(op).value)
  {
    if op.Takeover? {
      TakeoverRetires(s, op.task, op.epoch, op.token, op.leaseExpiresAt, now);
    } else {
      ExpiryRetires(s, op.fence, op.external, op.claim, op.leaseExpiresAt, now);
    }
  }

  /** The whole story: after a committed takeover or expiry the old worker is locked out, in
      every later state of every run. */
  lemma OldWorkerIsLockedOut(s: State, retiring: Request, reqs: seq<Request>, late: Request)
    requires Inv(s) && (retiring.op.Takeover? || retiring.op.ExpireLease?) && Apply(s, retiring).outcome.Committed?
    requires AllIntact(Apply(s, retiring).state, reqs) && TokenOf(late.op) == TokenOf(retiring.op)
    ensures var later := Exec(Apply(s, retiring).state, reqs);
      !Apply(later, late).outcome.Committed? && Apply(later, late).state == later
  {
    ApplyCases(s, retiring);
    TakeoverAndExpiryRetire(s, retiring.op, retiring.now);
    NoAuditsAreIntact(s, retiring.op);
    StepGood(s, retiring);
    RetiredForever(Apply(s, retiring).state, TokenOf(retiring.op).value, reqs, late);
  }

  /** A token never passes from one task to another, at any distance in time. */
  lemma TokenNamesOneTask(s: State, reqs: seq<Request>, t: string, u: string)
    requires Inv(s) && AllIntact(s, reqs) && t in s.tasks
    requires u in Exec(s, reqs).tasks && Exec(s, reqs).tasks[u].fence == s.tasks[t].fence
    ensures t == u
  {
    RunTokens(s, reqs);
  }

  // ---------- leases ----------

  lemma LeaseIsOwnClaim(s: State, t: string, now: int)
    requires Inv(s) && t in s.tasks && Holding(s.tasks[t].state)
    ensures Live(s, Own(s, t)) && s.claims[Own(s, t)].task == t
    ensures LeaseOver(s, t, now) <==> s.claims[Own(s, t)].expiresAt <= now
    ensures s.claims[Own(s, t)].fence == s.tasks[t].fence && s.claims[Own(s, t)].epoch == s.tasks[t].epoch
  {
    assert Live(s, Own(s, t));
    LinkedClaims(s, Own(s, t), t);
    if LeaseOver(s, t, now) {
      var c :| c in s.claims && s.claims[c].task == t && s.claims[c].status == Active && s.claims[c].expiresAt <= now;
      LinkedClaims(s, c, t);
    }
  }

  lemma HeartbeatWhenLive(s: State, f: Fence, external: string, extension: int, now: int)
    requires Inv(s) && WorkerError(s, f, {Running, Blocked}, external).None? && extension > now
    ensures TryHeartbeat(s, f, external, extension, now).Ok? <==> now < s.claims[Own(s, f.task)].expiresAt
  {
    FenceHolds(s, f, {Running, Blocked});
    LeaseIsOwnClaim(s, f.task, now);
  }

  lemma TakeoverWhenOver(s: State, f: Fence, external: string, extension: int, now: int)
    requires Inv(s) && WorkerError(s, f, {Running, Blocked}, external).None? && extension > now
    ensures TryTakeover(s, f.task, f.epoch, f.token, extension, now).Ok? <==> s.claims[Own(s, f.task)].expiresAt <= now
  {
    FenceHolds(s, f, {Running, Blocked});
    LeaseIsOwnClaim(s, f.task, now);
  }

  lemma ExpiryWhenOver(s: State, f: Fence, external: string, now: int)
    requires Inv(s) && Ledger(s) && WorkerError(s, f, {Running, Blocked}, external).None?
    ensures TryExpireLease(s, f, external, Own(s, f.task), s.claims[Own(s, f.task)].expiresAt, now).Ok?
       <==> s.claims[Own(s, f.task)].expiresAt <= now
  {
    FenceHolds(s, f, {Running, Blocked});
    LeaseIsOwnClaim(s, f.task, now);
    HoldersNeverExpired(s, f.task);
  }

  /** For a running or blocked task with the right receipt, the lease decides: while it lies
      ahead of `now` it can be extended and neither taken over nor expired, and from then on it
      can be taken over and expired and not extended. */
  lemma LeaseDecides(s: State, f: Fence, external: string, extension: int, now: int)
    requires Inv(s) && Ledger(s) && WorkerError(s, f, {Running, Blocked}, external).None?
    requires extension > now
    ensures f.task in s.tasks && Own(s, f.task) in s.claims
    ensures TryHeartbeat(s, f, external, extension, now).Ok?
       <==> !TryTakeover(s, f.task, f.epoch, f.token, extension, now).Ok?
    ensures TryTakeover(s, f.task, f.epoch, f.token, extension, now).Ok?
       <==> TryExpireLease(s, f, external, Own(s, f.task), s.claims[Own(s, f.task)].expiresAt, now).Ok?
    ensures TryHeartbeat(s, f, external, extension, now).Ok? <==> now < s.claims[Own(s, f.task)].expiresAt
  {
    HeartbeatWhenLive(s, f, external, extension, now);
    TakeoverWhenOver(s, f, external, extension, now);
    ExpiryWhenOver(s, f, external, now);
  }

  /** A heartbeat moves the end of its own task's lease to the time asked for, and nothing else:
      tasks, tokens and every other claim stay. */
  lemma HeartbeatMovesOneLease(s: State, s': State, f: Fence, external: string, extension: int, now: int)
    requires Inv(s) && TryHeartbeat(s, f, external, extension, now) == Ok(s')
    ensures f.task in s.tasks && s'.tasks == s.tasks && s'.claims.Keys == s.claims.Keys && s'.nextFence == s.nextFence
    ensures Own(s, f.task) in s.claims
         && s'.claims[Own(s, f.task)] == s.claims[Own(s, f.task)].(heartbeatAt := now, expiresAt := extension)
    ensures forall c | c in s.claims && c != Own(s, f.task) :: s'.claims[c] == s.claims[c]
  {
    FenceHolds(s, f, {Running, Blocked});
    LeaseIsOwnClaim(s, f.task, now);
    forall c | c in s.claims ensures s.claims[c].task == f.task <==> c == Own(s, f.task) {
      LinkedClaims(s, c, f.task);
    }
  }

  /** The task's one claim goes to the next token and epoch with the lease asked for, and every
      other task and claim stays. */
  ghost predicate HandedOver(s: State, s': State, id: string, extension: int, now: int)
    requires id in s.tasks && Own(s, id) in s.claims
  {
    var epoch := s.tasks[id].epoch + 1;
    && s'.tasks == s.tasks[id := s.tasks[id].(epoch := epoch, fence := s.nextFence)] && s'.nextFence == s.nextFence + 1
    && s'.claims == s.claims[Own(s, id) := s.claims[Own(s, id)].(
         epoch := epoch, fence := s.nextFence, heartbeatAt := now, expiresAt := extension)]
  }

  lemma RefenceHandsOver(s: State, id: string, extension: int, now: int)
    requires Linked(s) && id in s.tasks && Live(s, Own(s, id))
    ensures HandedOver(s, Refence(s, id, extension, now), id, extension, now)
  {
    forall c | c in s.claims ensures s.claims[c].task == id <==> c == Own(s, id) {
      LinkedClaims(s, c, id);
    }
  }

  lemma TakeoverMovesOneLease(s: State, s': State, id: string, epoch: nat, token: nat, extension: int, now: int)
    requires Inv(s) && TryTakeover(s, id, epoch, token, extension, now) == Ok(s')
    ensures id in s.tasks && Own(s, id) in s.claims && HandedOver(s, s', id, extension, now)
  {
    LeaseIsOwnClaim(s, id, now);
    RefenceHandsOver(s, id, extension, now);
  }

  /** An expiry ends the task and its one claim for good: the state is final and the token it
      leaves behind belongs to nobody. */
  lemma ExpiryEndsTheTask(s: State, s': State, f: Fence, external: string, claim: ClaimId, expires: int, now: int)
    requires Inv(s) && TryExpireLease(s, f, external, claim, expires, now) == Ok(s')
    ensures f.task in s'.tasks && s'.tasks[f.task].state == Expired && s'.tasks[f.task].fence == s.nextFence
    ensures claim == Own(s, f.task) && claim in s'.claims && s'.claims[claim].status == Lapsed
    ensures forall t | t in s.tasks && t != f.task :: t in s'.tasks && s'.tasks[t] == s.tasks[t]
    ensures forall c | c in s.claims && c != claim :: c in s'.claims && s'.claims[c] == s.claims[c]
  {
    LinkedClaims(s, claim, f.task);
  }

  /** Every row of `s` is still there as it was, `moved` aside. */
  ghost predicate RowsKept(s: State, s': State, moved: set<string>) {
    && (forall t | t in s.tasks && t !in moved :: t in s'.tasks && s'.tasks[t] == s.tasks[t])
    && (forall c | c in s.claims :: c in s'.claims && s'.claims[c] == s.claims[c])
  }

  lemma AdmitKeepsRows(s: State, l: Launch, s': State)
    requires Admitted(s, l, s')
    ensures RowsKept(s, s', {})
  {
  }

  lemma ReserveKeepsRows(s: State, successor: Option<Launch>, s': State)
    requires Inv(s) && OptionalReserve(s, successor) == Reserved(s')
    ensures RowsKept(s, s', {})
  {
    if successor.Some? {
      ReserveAdmits(s, successor.value);
      AdmitKeepsRows(s, successor.value, s');
    }
  }

  lemma ReserveCounts(s: State, successor: Option<Launch>, s': State)
    requires Inv(s) && OptionalReserve(s, successor) == Reserved(s')
    ensures Occupancy(s') == Occupancy(s) + (if successor.Some? then 1 else 0)
    ensures successor.Some? ==> Occupancy(s') <= s.capacity
  {
    if successor.Some? {
      ReserveKeeps(s, successor.value, {});
    }
  }

  lemma TimedCounts(s: State, t: string, task: Task)
    requires Inv(s) && t in s.tasks && SameTaskHold(s.tasks[t], task) && task.state == s.tasks[t].state
    ensures Occupancy(SetTask(s, t, task)) == Occupancy(s)
  {
    RetaskOccupies(s, t, task);
    OccupantsAreOwn(s, t);
    assert Occupants(SetTask(s, t, task)) == Occupants(s);
  }

  lemma TimedRow(s: State, timed: State, t: string, timing: Durations.Timing)
    requires Inv(s) && t in s.tasks && timed == SetTask(s, t, s.tasks[t].(timing := timing))
    ensures Inv(timed) && Occupancy(timed) == Occupancy(s)
  {
    RetaskTracks(s, t, s.tasks[t].(timing := timing), {});
    TimedCounts(s, t, s.tasks[t].(timing := timing));
  }

  /** A report first moves the task's timing, then lets a successor in. */
  lemma ProgressStages(
      s: State, s': State, f: Fence, external: string, report: Durations.Report, successor: Option<Launch>, ok: bool)
      returns (timing: Durations.Timing, filled: State)
    requires TryProgress(s, f, external, report, successor, ok) == Ok(s')
    ensures f.task in s.tasks && f.token == s.tasks[f.task].fence && Durations.Grew(s.tasks[f.task].timing, timing)
    ensures OptionalReserve(SetTask(s, f.task, s.tasks[f.task].(timing := timing)), successor) == Reserved(filled)
    ensures SameRows(filled, s')
  {
    var progress := Durations.Advance(s.tasks[f.task].timing, report);
    Durations.AdvanceGrows(s.tasks[f.task].timing, report);
    timing := progress.timing;
    filled := OptionalReserve(SetTask(s, f.task, s.tasks[f.task].(timing := timing)), successor).state;
  }

  lemma ProgressRows(s: State, filled: State, t: string, timing: Durations.Timing, successor: Option<Launch>)
    requires Inv(s) && t in s.tasks
    requires OptionalReserve(SetTask(s, t, s.tasks[t].(timing := timing)), successor) == Reserved(filled)
    ensures t in filled.tasks && filled.tasks[t] == s.tasks[t].(timing := timing) && RowsKept(s, filled, {t})
  {
    var timed := SetTask(s, t, s.tasks[t].(timing := timing));
    TimedRow(s, timed, t, timing);
    ReserveKeepsRows(timed, successor, filled);
  }

  lemma ProgressCounts(s: State, filled: State, t: string, timing: Durations.Timing, successor: Option<Launch>)
    requires Inv(s) && t in s.tasks
    requires OptionalReserve(SetTask(s, t, s.tasks[t].(timing := timing)), successor) == Reserved(filled)
    ensures Occupancy(filled) == Occupancy(s) + (if successor.Some? then 1 else 0)
    ensures successor.Some? ==> Occupancy(filled) <= s.capacity
  {
    var timed := SetTask(s, t, s.tasks[t].(timing := timing));
    TimedRow(s, timed, t, timing);
    ReserveCounts(timed, successor, filled);
  }

  /** Only the task's timing moved. */
  ghost predicate OnlyTimed(s: State, s': State, t: string) {
    && t in s.tasks && t in s'.tasks && s'.tasks[t] == s.tasks[t].(timing := s'.tasks[t].timing)
    && Durations.Grew(s.tasks[t].timing, s'.tasks[t].timing) && RowsKept(s, s', {t})
  }

  lemma ProgressTimes(
      s: State, s': State, t: string, timing: Durations.Timing, filled: State, successor: Option<Launch>)
    requires Inv(s) && t in s.tasks && Durations.Grew(s.tasks[t].timing, timing) && SameRows(filled, s')
    requires OptionalReserve(SetTask(s, t, s.tasks[t].(timing := timing)), successor) == Reserved(filled)
    ensures OnlyTimed(s, s', t)
  {
    ProgressRows(s, filled, t, timing, successor);
  }

  lemma SameRowsOccupy(a: State, b: State)
    requires SameRows(a, b)
    ensures Occupancy(a) == Occupancy(b)
  {
    assert Occupants(a) == Occupants(b);
  }

  /** A progress report moves nothing but its own task's timing, which only grows: the task keeps
      its state, token, epoch and claim, every other task and claim is as it was, and a successor
      that is let in finds room of its own. */
  lemma ProgressKeepsTheHold(
      s: State, s': State, f: Fence, external: string, report: Durations.Report, successor: Option<Launch>, ok: bool)
    requires Inv(s) && TryProgress(s, f, external, report, successor, ok) == Ok(s')
    ensures OnlyTimed(s, s', f.task) && f.token == s.tasks[f.task].fence
    ensures Occupancy(s') == Occupancy(s) + (if successor.Some? then 1 else 0)
    ensures successor.Some? ==> Occupancy(s') <= s.capacity
  {
    var timing, filled := ProgressStages(s, s', f, external, report, successor, ok);
    ProgressTimes(s, s', f.task, timing, filled, successor);
    ProgressCounts(s, filled, f.task, timing, successor);
    SameRowsOccupy(filled, s');
  }
}
