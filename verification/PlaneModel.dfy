/** One authority of the orchestrator control plane: its stored state and what each operation
    does to it. Every operation is one transaction, so `Apply` maps a state and a request to
    the committed state, or to the old state when the request is refused. */
module PlaneModel {
  import opened Basics
  import opened Sorting
  import opened Targets
  import Durations
  import Policy

  // ---------- stored rows ----------

  datatype TaskState = LaunchPending | Running | Blocked | Expired | ArchivePending | Archived | Failed

  datatype Outbox = Pending | Completed | Poisoned

  datatype Task = Task(
    sourceKey: string,
    idempotencyKey: string,
    outcomeKey: string,
    external: Option<string>,
    state: TaskState,
    priority: nat,
    fanout: nat,
    target: Target,
    policyRevision: nat,
    ruleIds: seq<string>,
    epoch: nat,
    fence: nat,
    createdAt: int,
    auditDue: bool,
    outbox: Outbox,
    family: string,
    tool: string,
    environment: string,
    timing: Durations.Timing)

  datatype ClaimStatus = Active | Released | Lapsed

  /** The claim key digests the task and the canonical resource key. */
  datatype ClaimId = ClaimId(task: string, remote: string, root: string, path: seq<string>)

  datatype Claim = Claim(
    target: Target, task: string, epoch: nat, fence: nat, status: ClaimStatus, heartbeatAt: int, expiresAt: int)

  datatype Table = PolicyUpdates | CapacityChanges | Handbacks | SetupFailures | Watchdogs | LeaseExpirations
                 | DurationProgress | DurationSamples

  datatype Key = Key(table: Table, id: string)

  datatype State = State(
    revision: nat,
    policyRevision: nat,
    nextFence: nat,
    capacity: nat,
    rules: seq<Policy.Rule>,
    tasks: map<string, Task>,
    claims: map<ClaimId, Claim>,
    launches: map<string, string>,
    samples: seq<Durations.Sample>,
    sampledTasks: set<string>,
    handled: map<Key, Request>)

  // ---------- requests ----------

  /** What a worker presents to prove it still holds the task. */
  datatype Fence = Fence(task: string, policyRevision: nat, epoch: nat, token: nat)

  datatype Estimate = Estimate(
    version: nat, lane: Durations.Lane, fallback: bool, expectedActive: Option<nat>, heavyCap: nat,
    family: string, tool: string, environment: string)

  datatype Launch = Launch(
    id: string, task: string, sourceKey: string, idempotencyKey: string, outcomeKey: string, priority: nat,
    fanout: nat, target: Target, context: Policy.Context, estimate: Estimate, leaseExpiresAt: int, now: int)

  datatype Verdict = Resume | Archive | Remain | OwnerGate

  datatype Audit = Audit(task: string, verdict: Verdict)

  /** Capacity evidence that comes with a terminal request. */
  datatype Refill = Refill(
    capacity: nat, runnable: nat, ownerGated: bool, audits: seq<Audit>, successor: Option<Launch>)

  /** Requests that only leave an audit event behind. */
  datatype NoteKind = ClassifyDecision | MigrateDecisions | AdoptDispatcher | WorkNote

  /** `evidenceOk` stands for the checks whose tables and files are not modelled; `settles` says
      that a capacity saga was waiting for the launch receipt, which writes one more event. */
  datatype Op =
    | RecordRule(id: string, expectedPolicyRevision: nat, rule: Policy.Rule)
    | ConfigureCapacity(id: string, expectedRevision: nat, expectedCapacity: nat, requested: nat)
    | PrepareLaunch(launch: Launch)
    | LaunchReceipt(id: string, fence: Fence, external: string, ruleIds: seq<string>, settles: bool)
    | BlockTask(id: string, fence: Fence, external: string, evidenceOk: bool)
    | Handback(id: string, fence: Fence, external: string, refill: Refill, evidenceOk: bool)
    | SetupFailure(id: string, fence: Fence, refill: Refill, candidates: seq<Launch>, evidenceOk: bool)
    | Observe(id: string, fence: Fence, external: string, evidenceOk: bool)
    | Interrupt(id: string, fence: Fence, external: string, refill: Refill, evidenceOk: bool)
    | Takeover(id: string, task: string, epoch: nat, token: nat, leaseExpiresAt: int)
    | ExpireLease(id: string, fence: Fence, external: string, claim: ClaimId, leaseExpiresAt: int)
    | Heartbeat(id: string, fence: Fence, external: string, leaseExpiresAt: int)
    | Recycle(id: string, audits: seq<Audit>)
    | CapacityWatchdog(id: string, refill: Refill, chosen: Option<string>, evidenceOk: bool)
    | ReportProgress(id: string, fence: Fence, external: string, report: Durations.Report,
                     successor: Option<Launch>, evidenceOk: bool)
    | RecordSample(id: string, fence: Fence, external: string, actual: Durations.Actual)
    | ArchiveReceipt(id: string, fence: Fence, evidenceOk: bool)
    | Note(id: string, kind: NoteKind)

  /** A request is an operation and the clock reading the caller sends along. */
  datatype Request = Request(op: Op, now: int)

  datatype Code =
    | IdempotencyConflict | PolicyRevisionConflict | PolicyRuleRevisionConflict | StateRevisionConflict
    | CapacityConfigurationConflict | CapacityBelowOccupancy | HeavyweightCap | DuplicateStop | CapacityFull
    | BlockedReauditRequired | OwnershipConflict | PolicyConflict | TaskNotFound | TaskStateInvalid | StaleFence
    | RuleReceiptMismatch | ExternalReceiptRequired | ExternalReceiptMismatch | BlockedAuditIncomplete
    | RefillProofRequired | RefillEvidenceConflict | CapacityEvidenceConflict | OwnerGateEvidenceRequired
    | SetupOutboxInvalid | SetupClaimInvalid | SetupClaimMismatch | LeaseNotExpired | LeaseExpired
    | LeaseAlreadyReconciled | DurationNonMonotonic | SuccessorNotAllowed | DurationSampleExists
    | EvidenceRefused | IntegrityError | SchemaInvalid

  datatype Outcome = Committed | Replayed | Refused(code: Code)

  datatype Step = Step(state: State, outcome: Outcome)

  function Initial(capacity: nat, rules: seq<Policy.Rule>, policyRevision: nat): State {
    State(0, policyRevision, 1, capacity, rules, map[], map[], map[], [], {}, map[])
  }

  // ---------- queries ----------

  predicate Busy(state: TaskState) { state == LaunchPending || state == Running }

  /** States in which a task still owns its target. */
  predicate Holding(state: TaskState) { Busy(state) || state == Blocked }

  function ClaimFor(id: string, target: Target): ClaimId {
    ClaimId(id, target.remote, target.root, target.path)
  }

  /** The join of live claims with busy tasks. */
  function Occupants(s: State): set<ClaimId> {
    set c | c in s.claims && s.claims[c].status == Active && s.claims[c].task in s.tasks
            && Busy(s.tasks[s.claims[c].task].state)
  }

  function Occupancy(s: State): nat { |Occupants(s)| }

  function HeavyTasks(s: State): set<string> {
    set t | t in s.tasks && Busy(s.tasks[t].state) && Durations.Heavy(s.tasks[t].timing.lane)
  }

  function BlockedTasks(s: State): set<string> {
    set t | t in s.tasks && s.tasks[t].state == Blocked
  }

  function Bump(s: State, n: nat): State { s.(revision := s.revision + n) }

  function SetTask(s: State, id: string, task: Task): State { s.(tasks := s.tasks[id := task]) }

  /** Releases every live claim of a task. */
  function Release(s: State, id: string): State {
    s.(claims := map c | c in s.claims ::
         if s.claims[c].task == id && s.claims[c].status == Active then s.claims[c].(status := Released) else s.claims[c])
  }

  // ---------- launching ----------

  datatype Reservation = Reserved(state: State) | Declined(code: Code)

  predicate IsLatest(rules: seq<Policy.Rule>, r: Policy.Rule) {
    forall other | other in rules && other.id == r.id :: other.revision <= r.revision
  }

  function Latest(rules: seq<Policy.Rule>): Policy.Rule -> bool { (r: Policy.Rule) => IsLatest(rules, r) }

  /** The newest revision of every rule, by id. */
  function CurrentRules(rules: seq<Policy.Rule>): seq<Policy.Rule> {
    Sort(Filter(rules, Latest(rules)), Policy.ById)
  }

  predicate KnownIdentity(s: State, l: Launch) {
    exists t | t in s.tasks ::
      || s.tasks[t].sourceKey == l.sourceKey
      || s.tasks[t].idempotencyKey == l.idempotencyKey
      || s.tasks[t].outcomeKey == l.outcomeKey
  }

  predicate AuditOwed(s: State, l: Launch) {
    exists t | t in s.tasks :: s.tasks[t].state == Blocked && s.tasks[t].auditDue && s.tasks[t].priority >= l.priority
  }

  predicate Contested(s: State, target: Target) {
    exists c | c in s.claims :: s.claims[c].status == Active && Overlap(target, s.claims[c].target)
  }

  function NewTask(s: State, l: Launch, ruleIds: seq<string>): Task {
    Task(l.sourceKey, l.idempotencyKey, l.outcomeKey, None, LaunchPending, l.priority, l.fanout, l.target,
      s.policyRevision, ruleIds, 1, s.nextFence, l.now, false, Pending,
      l.estimate.family, l.estimate.tool, l.estimate.environment,
      Durations.Timing(l.estimate.version, l.estimate.lane, l.estimate.expectedActive, None))
  }

  function NewClaim(s: State, l: Launch): Claim {
    Claim(l.target, l.task, 1, s.nextFence, Active, l.now, l.leaseExpiresAt)
  }

  function Admit(s: State, l: Launch, ruleIds: seq<string>): State {
    s.(tasks := s.tasks[l.task := NewTask(s, l, ruleIds)],
       claims := s.claims[ClaimFor(l.task, l.target) := NewClaim(s, l)],
       launches := s.launches[l.id := l.task],
       nextFence := s.nextFence + 1,
       revision := s.revision + 3)
  }

  function LaunchPolicy(s: State, l: Launch): Policy.Resolution {
    Policy.Resolve(CurrentRules(s.rules), l.context, l.now)
  }

  /** The checks of `reserve_launch` in their order; None when the launch may go ahead. */
  function LaunchError(s: State, l: Launch): Option<Code> {
    if Durations.Heavy(l.estimate.lane) && !l.estimate.fallback && |HeavyTasks(s)| >= l.estimate.heavyCap then
      Some(HeavyweightCap)
    else if KnownIdentity(s, l) then Some(DuplicateStop)
    else if Occupancy(s) >= s.capacity then Some(CapacityFull)
    else if AuditOwed(s, l) then Some(BlockedReauditRequired)
    else if Contested(s, l.target) then Some(OwnershipConflict)
    else if LaunchPolicy(s, l).PolicyConflict? then Some(Code.PolicyConflict)
    else if l.task in s.tasks || l.id in s.launches then Some(IntegrityError)
    else None
  }

  function LaunchRules(s: State, l: Launch): seq<string> {
    match LaunchPolicy(s, l)
    case PolicyConflict => []
    case Resolved(included, _) => Map(included, Policy.RuleId())
  }

  /** `reserve_launch`: once every check has passed, the task, claim and launch rows. */
  function Reserve(s: State, l: Launch): (r: Reservation)
    ensures r.Reserved? ==> s.tasks.Keys <= r.state.tasks.Keys
  {
    var e := LaunchError(s, l);
    if e.Some? then Declined(e.value) else Reserved(Admit(s, l, LaunchRules(s, l)))
  }

  /** The first candidate that can be reserved; each refused one leaves no trace. A database
      error, unlike a refusal, is not survived by the loop. */
  datatype Pick = Picked(state: State, task: string) | NonePicked | Broken

  function FirstReservable(s: State, candidates: seq<Launch>): (p: Pick) {
    if candidates == [] then NonePicked
    else match Reserve(s, candidates[0])
      case Reserved(s') => Picked(s', candidates[0].task)
      case Declined(code) => if code == IntegrityError then Broken else FirstReservable(s, candidates[1..])
  }

  predicate CandidateLeq(x: Launch, y: Launch) {
    if x.priority != y.priority then x.priority > y.priority else IdLeq(x.task, y.task)
  }

  function OptionalReserve(s: State, successor: Option<Launch>): (r: Reservation)
    ensures r.Reserved? ==> s.tasks.Keys <= r.state.tasks.Keys
  {
    if successor.Some? then Reserve(s, successor.value) else Reserved(s)
  }

  // ---------- blocked queue ----------

  function Audited(audits: seq<Audit>): set<string> { set a | a in audits :: a.task }

  function AuditedAs(audits: seq<Audit>, verdict: Verdict): set<string> {
    set a | a in audits && a.verdict == verdict :: a.task
  }

  function HasVerdict(verdict: Verdict): Audit -> bool { (a: Audit) => a.verdict == verdict }

  function AuditTask(): Audit -> string { (a: Audit) => a.task }

  function ResumeRank(tasks: map<string, Task>, id: string): (int, int, int) {
    if id in tasks then (0 - tasks[id].priority as int, 0 - tasks[id].fanout as int, tasks[id].createdAt) else (0, 0, 0)
  }

  /** Highest priority, then largest fan-out, then oldest, then smallest id. */
  predicate ResumesBefore(tasks: map<string, Task>, x: string, y: string) {
    var a, b := ResumeRank(tasks, x), ResumeRank(tasks, y);
    if a.0 != b.0 then a.0 < b.0
    else if a.1 != b.1 then a.1 < b.1
    else if a.2 != b.2 then a.2 < b.2
    else IdLeq(x, y)
  }

  function ResumeOrder(tasks: map<string, Task>): (string, string) -> bool {
    (x: string, y: string) => ResumesBefore(tasks, x, y)
  }

  function ResumeRanking(s: State, audits: seq<Audit>): seq<string> {
    Sort(Map(Filter(audits, HasVerdict(Resume)), AuditTask()), ResumeOrder(s.tasks))
  }

  function Selected(s: State, audits: seq<Audit>): Option<string> {
    var ranking := ResumeRanking(s, audits);
    if ranking == [] then None else Some(ranking[0])
  }

  function AuditedState(s: State, audits: seq<Audit>, id: string): TaskState
    requires id in s.tasks
  {
    if Selected(s, audits) == Some(id) then Running
    else if id in AuditedAs(audits, Archive) then Archived
    else s.tasks[id].state
  }

  /** Every audit is written; archived tasks lose their claims; the best resumable one runs. */
  function AfterAudits(s: State, audits: seq<Audit>): (r: State)
    ensures r.tasks.Keys == s.tasks.Keys
  {
    s.(tasks := map t | t in s.tasks ::
         if t in Audited(audits) then s.tasks[t].(state := AuditedState(s, audits, t), auditDue := false) else s.tasks[t],
       claims := map c | c in s.claims ::
         if s.claims[c].task in AuditedAs(audits, Archive) then s.claims[c].(status := Released) else s.claims[c],
       revision := s.revision + 1)
  }

  predicate AuditsComplete(s: State, audits: seq<Audit>) {
    Audited(audits) == BlockedTasks(s)
  }

  // ---------- fencing ----------

  predicate ClaimLive(s: State, id: string, token: nat) {
    exists c | c in s.claims :: s.claims[c].task == id && s.claims[c].status == Active && s.claims[c].fence == token
  }

  predicate FenceMatches(task: Task, f: Fence) {
    f.policyRevision == task.policyRevision && f.epoch == task.epoch && f.token == task.fence
  }

  /** `checked_task`: None when the fence holds. */
  function FenceError(s: State, f: Fence, states: set<TaskState>): Option<Code> {
    if f.task !in s.tasks then Some(TaskNotFound)
    else if s.tasks[f.task].state !in states then Some(TaskStateInvalid)
    else if !FenceMatches(s.tasks[f.task], f) then Some(StaleFence)
    else if !ClaimLive(s, f.task, f.token) then Some(StaleFence)
    else None
  }

  function ExternalError(s: State, id: string, external: string): Option<Code>
    requires id in s.tasks
  {
    if s.tasks[id].external.None? then Some(ExternalReceiptRequired)
    else if s.tasks[id].external != Some(external) then Some(ExternalReceiptMismatch)
    else None
  }

  /** A fenced request from the worker the launch receipt named. */
  function WorkerError(s: State, f: Fence, states: set<TaskState>, external: string): Option<Code> {
    var e := FenceError(s, f, states);
    if e.Some? then e else ExternalError(s, f.task, external)
  }

  // ---------- the operations ----------

  type Try = Result<State, Code>

  predicate NewestOf(rules: seq<Policy.Rule>, rule: Policy.Rule) {
    forall r | r in rules && r.id == rule.id :: r.revision < rule.revision
  }

  function TryRecordRule(s: State, expected: nat, rule: Policy.Rule): Try {
    if expected != s.policyRevision then Err(PolicyRevisionConflict)
    else if !NewestOf(s.rules, rule) then Err(PolicyRuleRevisionConflict)
    else Ok(s.(rules := s.rules + [rule], policyRevision := s.policyRevision + 1, revision := s.revision + 1))
  }

  function TryLaunch(s: State, l: Launch): Try {
    match Reserve(s, l)
    case Reserved(s') => Ok(s')
    case Declined(code) => Err(code)
  }

  function TryConfigureCapacity(s: State, expectedRevision: nat, expectedCapacity: nat, requested: nat): Try {
    if !(1 <= requested <= 64) || requested == expectedCapacity then Err(SchemaInvalid)
    else if expectedRevision != s.revision then Err(StateRevisionConflict)
    else if expectedCapacity != s.capacity then Err(CapacityConfigurationConflict)
    else if requested < Occupancy(s) then Err(CapacityBelowOccupancy)
    else Ok(s.(capacity := requested, revision := s.revision + 1))
  }

  predicate SameLaunch(task: Task, f: Fence, external: string, ruleIds: seq<string>) {
    && task.state == Running && task.external == Some(external)
    && FenceMatches(task, f)
    && multiset(ruleIds) == multiset(task.ruleIds)
  }

  function TryLaunchReceipt(s: State, f: Fence, external: string, ruleIds: seq<string>, settles: bool): Try {
    var extra := if settles then 1 else 0;
    if f.task in s.tasks && SameLaunch(s.tasks[f.task], f, external, ruleIds) then Ok(Bump(s, extra))
    else
      var e := FenceError(s, f, {LaunchPending});
      if e.Some? then Err(e.value)
      else if multiset(ruleIds) != multiset(s.tasks[f.task].ruleIds) then Err(RuleReceiptMismatch)
      else
        var task := s.tasks[f.task].(state := Running, external := Some(external), outbox := Completed);
        Ok(Bump(SetTask(s, f.task, task), 1 + extra))
  }

  function TryBlock(s: State, f: Fence, external: string, evidenceOk: bool): Try {
    var e := WorkerError(s, f, {Running, Blocked, Failed}, external);
    if e.Some? then Err(e.value)
    else if !evidenceOk then Err(EvidenceRefused)
    else Ok(Bump(SetTask(s, f.task, s.tasks[f.task].(state := Blocked, auditDue := true)), 1))
  }

  function Min(a: int, b: int): int { if a < b then a else b }

  predicate GatedUnproved(refill: Refill) {
    refill.ownerGated && AuditedAs(refill.audits, OwnerGate) == {}
  }

  /** The occupancy a terminal handback must leave behind. */
  function RefillTarget(s: State, id: string, refill: Refill): int
    requires id in s.tasks
  {
    Min(refill.capacity, Occupancy(s) - (if s.tasks[id].state == Running then 1 else 0) + 1)
  }

  function Close(s: State, id: string): State
    requires id in s.tasks
  {
    SetTask(s, id, s.tasks[id].(state := ArchivePending))
  }

  /** The proofs a handback owes once its slot has been turned over. */
  function SettleHandback(s: State, filled: State, id: string, refill: Refill): Try
    requires id in s.tasks && id in filled.tasks
  {
    var closed := Close(filled, id);
    if refill.runnable > 0 && Occupancy(closed) != RefillTarget(s, id, refill) then Err(RefillProofRequired)
    else if refill.runnable == 0 && refill.successor.Some? then Err(CapacityEvidenceConflict)
    else if GatedUnproved(refill) then Err(OwnerGateEvidenceRequired)
    else Ok(Bump(closed, 2))
  }

  function TryHandback(s: State, f: Fence, external: string, refill: Refill, evidenceOk: bool): Try {
    var e := WorkerError(s, f, {Running, Blocked, Failed}, external);
    if e.Some? then Err(e.value)
    else
      var freed := Release(s, f.task);
      if !AuditsComplete(freed, refill.audits) then Err(BlockedAuditIncomplete)
      else match OptionalReserve(AfterAudits(freed, refill.audits), refill.successor)
        case Declined(code) => Err(code)
        case Reserved(filled) =>
          if !evidenceOk then Err(EvidenceRefused) else SettleHandback(s, filled, f.task, refill)
  }

  /** The proofs an interruption owes; its refill must reach the capacity it names. */
  function SettleInterrupt(filled: State, id: string, refill: Refill, resumed: bool): Try
    requires id in filled.tasks
  {
    if refill.runnable > 0 && !resumed && refill.successor.None? then Err(RefillProofRequired)
    else if refill.runnable == 0 && refill.successor.Some? then Err(CapacityEvidenceConflict)
    else if GatedUnproved(refill) then Err(OwnerGateEvidenceRequired)
    else if refill.runnable > 0 && Occupancy(filled) != refill.capacity then Err(RefillProofRequired)
    else Ok(Bump(Close(filled, id), 1))
  }

  function TryInterrupt(s: State, f: Fence, external: string, refill: Refill, evidenceOk: bool): Try {
    var e := WorkerError(s, f, {Running}, external);
    if e.Some? then Err(e.value)
    else if !evidenceOk then Err(EvidenceRefused)
    else
      var freed := Release(s, f.task);
      if !AuditsComplete(freed, refill.audits) then Err(BlockedAuditIncomplete)
      else
        var resumed := Selected(freed, refill.audits);
        if resumed.Some? && refill.successor.Some? then Err(RefillEvidenceConflict)
        else match OptionalReserve(AfterAudits(freed, refill.audits), refill.successor)
          case Declined(code) => Err(code)
          case Reserved(filled) => SettleInterrupt(filled, f.task, refill, resumed.Some?)
  }

  function LiveClaims(s: State, id: string): set<ClaimId> {
    set c | c in s.claims && s.claims[c].task == id && s.claims[c].status == Active
  }

  /** Failed, claim released, outbox poisoned. */
  function FailSetup(s: State, id: string): State
    requires id in s.tasks
  {
    SetTask(Release(s, id), id, s.tasks[id].(state := Failed, outbox := Poisoned))
  }

  /** Audits, the failure itself, and the first candidate that fits the freed slot. */
  function FailAndRefill(s: State, id: string, refill: Refill, candidates: seq<Launch>): Try
    requires id in s.tasks
  {
    if !AuditsComplete(s, refill.audits) then Err(BlockedAuditIncomplete)
    else
      var failed := FailSetup(AfterAudits(s, refill.audits), id);
      match FirstReservable(failed, Sort(candidates, CandidateLeq))
      case Broken => Err(IntegrityError)
      case NonePicked =>
        if refill.runnable == 0 && GatedUnproved(refill) then Err(OwnerGateEvidenceRequired) else Ok(Bump(failed, 2))
      case Picked(filled, _) =>
        if Occupancy(filled) != refill.capacity && refill.runnable == 0 && GatedUnproved(refill) then
          Err(OwnerGateEvidenceRequired)
        else Ok(Bump(filled, 2))
  }

  function TrySetupFailure(s: State, f: Fence, refill: Refill, candidates: seq<Launch>, evidenceOk: bool): Try {
    var e := FenceError(s, f, {LaunchPending});
    if e.Some? then Err(e.value)
    else if s.tasks[f.task].outbox != Pending then Err(SetupOutboxInvalid)
    else if |LiveClaims(s, f.task)| != 1 then Err(SetupClaimInvalid)
    else if exists c | c in LiveClaims(s, f.task) :: s.claims[c].epoch != f.epoch || s.claims[c].fence != f.token then
      Err(SetupClaimMismatch)
    else if !evidenceOk then Err(EvidenceRefused)
    else FailAndRefill(s, f.task, refill, candidates)
  }

  function TryObserve(s: State, f: Fence, external: string, evidenceOk: bool): Try {
    var e := WorkerError(s, f, {Running}, external);
    if e.Some? then Err(e.value) else if !evidenceOk then Err(EvidenceRefused) else Ok(Bump(s, 1))
  }

  /** The lease of a task's live claim lies at or before `now`. */
  predicate LeaseOver(s: State, id: string, now: int) {
    exists c | c in s.claims :: s.claims[c].task == id && s.claims[c].status == Active && s.claims[c].expiresAt <= now
  }

  function Refence(s: State, id: string, leaseExpiresAt: int, now: int): State
    requires id in s.tasks
  {
    var epoch := s.tasks[id].epoch + 1;
    s.(tasks := s.tasks[id := s.tasks[id].(epoch := epoch, fence := s.nextFence)],
       claims := map c | c in s.claims ::
         if s.claims[c].task == id && s.claims[c].status == Active then
           s.claims[c].(epoch := epoch, fence := s.nextFence, heartbeatAt := now, expiresAt := leaseExpiresAt)
         else s.claims[c],
       nextFence := s.nextFence + 1,
       revision := s.revision + 1)
  }

  function TryTakeover(s: State, id: string, epoch: nat, token: nat, leaseExpiresAt: int, now: int): Try {
    if leaseExpiresAt <= now then Err(SchemaInvalid)
    else if id !in s.tasks || s.tasks[id].state !in {Running, Blocked} then Err(TaskStateInvalid)
    else if s.tasks[id].epoch != epoch || s.tasks[id].fence != token then Err(StaleFence)
    else if !LeaseOver(s, id, now) then Err(LeaseNotExpired)
    else Ok(Refence(s, id, leaseExpiresAt, now))
  }

  predicate AlreadyExpired(s: State, id: string) {
    exists k | k in s.handled :: k.table == LeaseExpirations && s.handled[k].op.ExpireLease? && s.handled[k].op.fence.task == id
  }

  function Tombstone(s: State, id: string, claim: ClaimId): State
    requires id in s.tasks && claim in s.claims
  {
    s.(tasks := s.tasks[id := s.tasks[id].(state := Expired, fence := s.nextFence)],
       claims := s.claims[claim := s.claims[claim].(status := Lapsed)],
       nextFence := s.nextFence + 1,
       revision := s.revision + 1)
  }

  function TryExpireLease(s: State, f: Fence, external: string, claim: ClaimId, leaseExpiresAt: int, now: int): Try {
    if AlreadyExpired(s, f.task) then Err(LeaseAlreadyReconciled)
    else if f.task !in s.tasks || s.tasks[f.task].state !in {Running, Blocked} then Err(TaskStateInvalid)
    else if !FenceMatches(s.tasks[f.task], f) then Err(StaleFence)
    else if s.tasks[f.task].external != Some(external) then Err(ExternalReceiptMismatch)
    else if claim !in s.claims || s.claims[claim].task != f.task || s.claims[claim].status != Active then Err(StaleFence)
    else if s.claims[claim].epoch != f.epoch || s.claims[claim].fence != f.token
            || s.claims[claim].expiresAt != leaseExpiresAt then Err(StaleFence)
    else if leaseExpiresAt > now then Err(LeaseNotExpired)
    else Ok(Tombstone(s, f.task, claim))
  }

  function Extend(s: State, f: Fence, leaseExpiresAt: int, now: int): State {
    s.(claims := map c | c in s.claims ::
         if s.claims[c].task == f.task && s.claims[c].status == Active && s.claims[c].fence == f.token then
           s.claims[c].(heartbeatAt := now, expiresAt := leaseExpiresAt)
         else s.claims[c],
       revision := s.revision + 1)
  }

  function TryHeartbeat(s: State, f: Fence, external: string, leaseExpiresAt: int, now: int): Try {
    if leaseExpiresAt <= now then Err(SchemaInvalid)
    else
      var e := WorkerError(s, f, {Running, Blocked}, external);
      if e.Some? then Err(e.value)
      else if LeaseOver(s, f.task, now) then Err(LeaseExpired)
      else Ok(Extend(s, f, leaseExpiresAt, now))
  }

  function TryRecycle(s: State, audits: seq<Audit>): Try {
    if !AuditsComplete(s, audits) then Err(BlockedAuditIncomplete) else Ok(AfterAudits(s, audits))
  }

  /** `chosen` is the successor the saga already names. */
  function TryWatchdog(s: State, refill: Refill, chosen: Option<string>, evidenceOk: bool): Try {
    if !evidenceOk then Err(EvidenceRefused)
    else if !AuditsComplete(s, refill.audits) then Err(BlockedAuditIncomplete)
    else
      var audited := AfterAudits(s, refill.audits);
      if refill.successor.Some? && chosen.Some? && chosen != Some(refill.successor.value.task) then Err(IdempotencyConflict)
      else match OptionalReserve(audited, if chosen.Some? then None else refill.successor)
        case Declined(code) => Err(code)
        case Reserved(filled) =>
          if chosen.None? && refill.successor.None? && refill.runnable == 0 && GatedUnproved(refill) then
            Err(OwnerGateEvidenceRequired)
          else Ok(Bump(filled, 1))
  }

  function TryProgress(
      s: State, f: Fence, external: string, report: Durations.Report, successor: Option<Launch>, evidenceOk: bool): Try {
    var e := WorkerError(s, f, {Running, Blocked}, external);
    if e.Some? then Err(e.value)
    else if !evidenceOk then Err(EvidenceRefused)
    else match Durations.Advance(s.tasks[f.task].timing, report)
      case NonMonotonic => Err(DurationNonMonotonic)
      case Progressed(timing, reclassified, _) =>
        var timed := SetTask(s, f.task, s.tasks[f.task].(timing := timing));
        if !reclassified then (if successor.Some? then Err(SuccessorNotAllowed) else Ok(timed))
        else match OptionalReserve(timed, successor)
          case Declined(code) => Err(code)
          case Reserved(filled) => Ok(Bump(filled, 1))
  }

  /** A sample takes its families from the task and its bucket from the measured seconds. */
  function TrySample(s: State, id: string, f: Fence, external: string, actual: Durations.Actual, now: int): Try {
    if f.task in s.sampledTasks then Err(DurationSampleExists)
    else if f.task !in s.tasks then Err(TaskNotFound)
    else if !FenceMatches(s.tasks[f.task], f) then Err(StaleFence)
    else
      var e := ExternalError(s, f.task, external);
      if e.Some? then Err(e.value)
      else
        var row := Durations.Sample(id, now, s.tasks[f.task].family, s.tasks[f.task].tool,
          s.tasks[f.task].environment, actual.active, Durations.LaneOf(actual.active));
        var task := s.tasks[f.task].(timing := s.tasks[f.task].timing.(actual := Some(actual)));
        Ok(Bump(SetTask(s.(samples := s.samples + [row], sampledTasks := s.sampledTasks + {f.task}), f.task, task), 1))
  }

  function TryArchive(s: State, f: Fence, evidenceOk: bool): Try {
    if f.task in s.tasks && s.tasks[f.task].state == Archived && FenceMatches(s.tasks[f.task], f) then Ok(s)
    else if f.task !in s.tasks || s.tasks[f.task].state != ArchivePending then Err(TaskStateInvalid)
    else if !FenceMatches(s.tasks[f.task], f) then Err(StaleFence)
    else if !evidenceOk then Err(EvidenceRefused)
    else Ok(Bump(SetTask(s, f.task, s.tasks[f.task].(state := Archived)), 1))
  }

  // ---------- idempotency ----------

  /** The table and id under which a request is remembered, if it is. */
  function KeyOf(op: Op): Option<Key> {
    match op
    case RecordRule(id, _, _) => Some(Key(PolicyUpdates, id))
    case ConfigureCapacity(id, _, _, _) => Some(Key(CapacityChanges, id))
    case BlockTask(id, _, _, _) => Some(Key(Handbacks, id))
    case Handback(id, _, _, _, _) => Some(Key(Handbacks, id))
    case SetupFailure(id, _, _, _, _) => Some(Key(SetupFailures, id))
    case Observe(id, _, _, _) => Some(Key(Watchdogs, id))
    case Interrupt(id, _, _, _, _) => Some(Key(Watchdogs, id))
    case ExpireLease(id, _, _, _, _) => Some(Key(LeaseExpirations, id))
    case ReportProgress(id, _, _, _, _, _) => Some(Key(DurationProgress, id))
    case RecordSample(id, _, _, _) => Some(Key(DurationSamples, id))
    case _ => None
  }

  /** Of a progress report's successor only the five identifying keys are hashed. */
  function IdentityOf(l: Launch): Launch {
    l.(priority := 0, fanout := 0, target := Target("", "", [], false), context := map[],
       estimate := Estimate(0, 0, false, None, 0, "", "", ""), leaseExpiresAt := 0, now := 0)
  }

  /** The request itself, without what the surrounding checks answer. */
  function Content(op: Op): Op {
    match op
    case BlockTask(id, f, external, _) => BlockTask(id, f, external, true)
    case Handback(id, f, external, refill, _) => Handback(id, f, external, refill, true)
    case SetupFailure(id, f, refill, candidates, _) => SetupFailure(id, f, refill, candidates, true)
    case Observe(id, f, external, _) => Observe(id, f, external, true)
    case Interrupt(id, f, external, refill, _) => Interrupt(id, f, external, refill, true)
    case ReportProgress(id, f, external, report, successor, _) =>
      ReportProgress(id, f, external, report, if successor.Some? then Some(IdentityOf(successor.value)) else None, true)
    case _ => op
  }

  /** The part of a request its stored hash covers: handbacks, setup failures and watchdog
      requests leave the clock out, so a refreshed retry is the same request. */
  function Semantic(req: Request): Request {
    match KeyOf(req.op)
    case Some(Key(Handbacks, _)) => Request(Content(req.op), 0)
    case Some(Key(SetupFailures, _)) => Request(Content(req.op), 0)
    case Some(Key(Watchdogs, _)) => Request(Content(req.op), 0)
    case _ => Request(Content(req.op), req.now)
  }

  function Attempt(s: State, op: Op, now: int): Try {
    match op
    case RecordRule(_, expected, rule) => TryRecordRule(s, expected, rule)
    case ConfigureCapacity(_, revision, capacity, requested) => TryConfigureCapacity(s, revision, capacity, requested)
    case PrepareLaunch(l) => TryLaunch(s, l)
    case LaunchReceipt(_, f, external, ruleIds, settles) => TryLaunchReceipt(s, f, external, ruleIds, settles)
    case BlockTask(_, f, external, ok) => TryBlock(s, f, external, ok)
    case Handback(_, f, external, refill, ok) => TryHandback(s, f, external, refill, ok)
    case SetupFailure(_, f, refill, candidates, ok) => TrySetupFailure(s, f, refill, candidates, ok)
    case Observe(_, f, external, ok) => TryObserve(s, f, external, ok)
    case Interrupt(_, f, external, refill, ok) => TryInterrupt(s, f, external, refill, ok)
    case Takeover(_, id, epoch, token, expires) => TryTakeover(s, id, epoch, token, expires, now)
    case ExpireLease(_, f, external, claim, expires) => TryExpireLease(s, f, external, claim, expires, now)
    case Heartbeat(_, f, external, expires) => TryHeartbeat(s, f, external, expires, now)
    case Recycle(_, audits) => TryRecycle(s, audits)
    case CapacityWatchdog(_, refill, chosen, ok) => TryWatchdog(s, refill, chosen, ok)
    case ReportProgress(_, f, external, report, successor, ok) => TryProgress(s, f, external, report, successor, ok)
    case RecordSample(id, f, external, actual) => TrySample(s, id, f, external, actual, now)
    case ArchiveReceipt(_, f, ok) => TryArchive(s, f, ok)
    case Note(_, _) => Ok(Bump(s, 1))
  }

  function Remember(s: State, req: Request): State {
    if KeyOf(req.op).Some? then s.(handled := s.handled[KeyOf(req.op).value := Semantic(req)]) else s
  }

  /** A duplicate launch is refused but leaves its audit event behind. */
  function Apply(s: State, req: Request): Step {
    if KeyOf(req.op).Some? && KeyOf(req.op).value in s.handled then
      Step(s, if s.handled[KeyOf(req.op).value] == Semantic(req) then Replayed else Refused(IdempotencyConflict))
    else match Attempt(s, req.op, req.now)
      case Ok(s') => Step(Remember(s', req), Committed)
      case Err(code) => Step(if req.op.PrepareLaunch? && code == DuplicateStop then Bump(s, 1) else s, Refused(code))
  }
}
