/** Where the control plane does not keep what one might expect: inputs on which a blocked
    resume overfills the authority, and on which the audits of one request lose a claim. */
module PlaneLimits {
  import opened Basics
  import opened Identifiers
  import opened Sorting
  import opened Targets
  import opened PlaneModel
  import opened PlaneInvariants
  import opened PlaneAudits
  import opened PlaneRuns
  import Durations
  import Policy

  /** Auditing the one blocked task twice, to resume and to archive it, leaves it running with
      no live claim, from every consistent state. */
  lemma DuplicateAuditLosesTheClaim(s: State, x: string)
    requires Inv(s) && BlockedTasks(s) == {x}
    ensures var audits := [Audit(x, Resume), Audit(x, Archive)];
      && TryRecycle(s, audits).Ok?
      && x in TryRecycle(s, audits).value.tasks
      && TryRecycle(s, audits).value.tasks[x].state == Running
      && !Live(TryRecycle(s, audits).value, Own(s, x))
      && !Inv(TryRecycle(s, audits).value)
  {
    var audits := [Audit(x, Resume), Audit(x, Archive)];
    assert x in BlockedTasks(s);
    BothVerdicts(x, audits);
    SelectedExists(s, audits);
    SelectedIsResumable(s, audits);
    AuditsRewrite(s, audits);
    RecycleBreaks(s, TryRecycle(s, audits).value, audits);
  }

  lemma BothVerdicts(x: string, audits: seq<Audit>)
    requires audits == [Audit(x, Resume), Audit(x, Archive)]
    ensures Audited(audits) == {x} && AuditedAs(audits, Resume) == {x} && AuditedAs(audits, Archive) == {x}
  {
    assert audits[0] in audits && audits[1] in audits;
  }

  // ---------- what a launch request may be ----------

  function PathText(path: seq<string>): string {
    if path == [] then "/" else if |path| == 1 then "/" + path[0] else "/" + path[0] + PathText(path[1..])
  }

  ghost predicate EstimateValid(e: Estimate) {
    && 1 <= e.version <= 1_000_000 && 1 <= e.heavyCap <= 64
    && CoarseLabel(e.family) && CoarseLabel(e.tool) && CoarseLabel(e.environment)
  }

  /** `validate_prepare`, for a path that is its own case-folding. */
  ghost predicate LaunchValid(l: Launch) {
    && Identifier(l.id) && Identifier(l.task) && Identifier(l.sourceKey) && Identifier(l.idempotencyKey)
    && Identifier(l.outcomeKey) && l.priority <= 1000 && l.fanout <= 100 && l.target.remote != "" && l.target.root != ""
    && Policy.ContextValid(l.context) && l.context["repo"] == l.target.remote
    && l.context["path"] == PathText(l.target.path) && EstimateValid(l.estimate)
  }

  // ---------- a run that overfills ----------

  /** An authority with one slot, its ledger, two launches and the rules that apply to them. */
  datatype Scene = Scene(
    rules: seq<Policy.Rule>, policyRevision: nat, first: Launch, second: Launch, worker: string,
    firstRules: seq<string>, secondRules: seq<string>)

  function Opening(c: Scene): State { Initial(1, c.rules, c.policyRevision) }

  ghost predicate Apart(x: Launch, y: Launch) {
    && x.id != y.id && x.task != y.task && x.sourceKey != y.sourceKey && x.idempotencyKey != y.idempotencyKey
    && x.outcomeKey != y.outcomeKey && !Overlap(y.target, x.target)
  }

  /** The two tasks get along, and the second is the more urgent. */
  ghost predicate Matched(c: Scene) {
    && Apart(c.first, c.second) && c.first.priority < c.second.priority
    && 1 <= c.first.estimate.heavyCap && 1 <= c.second.estimate.heavyCap
  }

  ghost predicate LetThrough(s: State, l: Launch, ruleIds: seq<string>) {
    LaunchPolicy(s, l).Resolved? && LaunchRules(s, l) == ruleIds
  }

  /** The ledger lets both through. */
  ghost predicate Admitted(c: Scene) {
    LetThrough(Opening(c), c.first, c.firstRules) && LetThrough(Opening(c), c.second, c.secondRules)
  }

  /** What is sent passes validation. */
  ghost predicate Playable(c: Scene) {
    && Policy.LedgerValid(c.rules, c.policyRevision) && LaunchValid(c.first) && LaunchValid(c.second)
    && Identifier(c.worker) && |c.firstRules| <= 100 && Matched(c) && Admitted(c)
  }

  function FirstFence(c: Scene): Fence { Fence(c.first.task, c.policyRevision, 1, 1) }

  /** Launch one task, let it run and block, launch a more urgent one into its slot, resume. */
  function Overfilling(c: Scene): seq<Request> {
    [Request(PrepareLaunch(c.first), 0),
     Request(LaunchReceipt("receipt", FirstFence(c), c.worker, c.firstRules, false), 0),
     Request(BlockTask("block", FirstFence(c), c.worker, true), 0),
     Request(PrepareLaunch(c.second), 0),
     Request(Recycle("recycle", [Audit(c.first.task, Resume)]), 0)]
  }

  lemma LaunchesFreely(s: State, l: Launch, ruleIds: seq<string>)
    requires 1 <= l.estimate.heavyCap && HeavyTasks(s) == {} && !KnownIdentity(s, l) && Occupancy(s) < s.capacity
    requires !AuditOwed(s, l) && !Contested(s, l.target) && l.task !in s.tasks && l.id !in s.launches
    requires LetThrough(s, l, ruleIds)
    ensures Reserve(s, l) == Reserved(Admit(s, l, ruleIds))
  {
  }

  function Launched(c: Scene): State { Admit(Opening(c), c.first, c.firstRules) }

  function FirstTask(c: Scene): Task { NewTask(Opening(c), c.first, c.firstRules) }

  function FirstClaim(c: Scene): ClaimId { ClaimFor(c.first.task, c.first.target) }

  function RunningTask(c: Scene): Task {
    FirstTask(c).(state := Running, external := Some(c.worker), outbox := Completed)
  }

  function Working(c: Scene): State { Bump(SetTask(Launched(c), c.first.task, RunningTask(c)), 1) }

  function WaitingTask(c: Scene): Task { RunningTask(c).(state := Blocked, auditDue := true) }

  function Waiting(c: Scene): State {
    Remember(Bump(SetTask(Working(c), c.first.task, WaitingTask(c)), 1), Overfilling(c)[2])
  }

  function Refilled(c: Scene): State { Admit(Waiting(c), c.second, c.secondRules) }

  lemma LaunchAttempt(s: State, l: Launch, now: int)
    ensures KeyOf(PrepareLaunch(l)).None? && Attempt(s, PrepareLaunch(l), now) == TryLaunch(s, l)
  {
  }

  lemma ReservedLaunches(s: State, l: Launch, next: State)
    requires Reserve(s, l) == Reserved(next)
    ensures TryLaunch(s, l) == Ok(next)
  {
  }

  lemma UnkeyedApplies(s: State, op: Op, next: State, now: int)
    requires KeyOf(op).None? && Attempt(s, op, now) == Ok(next)
    ensures Apply(s, Request(op, now)).state == next
  {
  }

  lemma LaunchApplies(s: State, l: Launch, next: State, now: int)
    requires Reserve(s, l) == Reserved(next)
    ensures Apply(s, Request(PrepareLaunch(l), now)).state == next
  {
    LaunchAttempt(s, l, now);
    ReservedLaunches(s, l, next);
    UnkeyedApplies(s, PrepareLaunch(l), next, now);
  }

  lemma LaunchesFirst(c: Scene)
    requires Matched(c) && Admitted(c)
    ensures Apply(Opening(c), Overfilling(c)[0]).state == Launched(c)
  {
    assert Occupants(Opening(c)) == {};
    assert HeavyTasks(Opening(c)) == {};
    LaunchesFreely(Opening(c), c.first, c.firstRules);
    LaunchApplies(Opening(c), c.first, Launched(c), 0);
  }

  /** The one task and its one claim. */
  ghost predicate Holds(s: State, c: Scene, task: Task) {
    s.tasks == map[c.first.task := task] && s.claims == map[FirstClaim(c) := NewClaim(Opening(c), c.first)]
  }

  lemma LaunchedHolds(c: Scene)
    ensures Holds(Launched(c), c, FirstTask(c)) && Holds(Working(c), c, RunningTask(c))
  {
  }

  lemma FenceOfFirst(c: Scene, s: State, task: Task)
    requires Holds(s, c, task) && task.policyRevision == c.policyRevision && task.epoch == 1 && task.fence == 1
    ensures FenceError(s, FirstFence(c), {task.state}) == None
    ensures task.state in {Running, Blocked, Failed} ==>
              FenceError(s, FirstFence(c), {Running, Blocked, Failed}) == None
  {
    assert s.claims[FirstClaim(c)].fence == 1;
    assert ClaimLive(s, c.first.task, 1);
  }

  lemma Starts(s: State, f: Fence, worker: string, ruleIds: seq<string>)
    requires f.task in s.tasks && s.tasks[f.task].state == LaunchPending && s.tasks[f.task].ruleIds == ruleIds
    requires FenceError(s, f, {LaunchPending}) == None
    ensures var task := s.tasks[f.task].(state := Running, external := Some(worker), outbox := Completed);
      TryLaunchReceipt(s, f, worker, ruleIds, false) == Ok(Bump(SetTask(s, f.task, task), 1))
  {
  }

  lemma StartsWorking(c: Scene)
    ensures Apply(Launched(c), Overfilling(c)[1]).state == Working(c)
  {
    LaunchedHolds(c);
    FenceOfFirst(c, Launched(c), FirstTask(c));
    Starts(Launched(c), FirstFence(c), c.worker, c.firstRules);
    UnkeyedApplies(Launched(c), Overfilling(c)[1].op, Working(c), 0);
  }

  lemma BlocksWorker(s: State, f: Fence, worker: string)
    requires f.task in s.tasks && FenceError(s, f, {Running, Blocked, Failed}) == None
    requires s.tasks[f.task].external == Some(worker)
    ensures var task := s.tasks[f.task].(state := Blocked, auditDue := true);
      TryBlock(s, f, worker, true) == Ok(Bump(SetTask(s, f.task, task), 1))
  {
  }

  lemma NewKeyApplies(s: State, op: Op, next: State, now: int)
    requires KeyOf(op).Some? && s.handled == map[] && Attempt(s, op, now) == Ok(next)
    ensures Apply(s, Request(op, now)).state == Remember(next, Request(op, now))
  {
  }

  lemma Blocks(c: Scene)
    ensures Apply(Working(c), Overfilling(c)[2]).state == Waiting(c)
  {
    LaunchedHolds(c);
    FenceOfFirst(c, Working(c), RunningTask(c));
    BlocksWorker(Working(c), FirstFence(c), c.worker);
    NewKeyApplies(Working(c), Overfilling(c)[2].op, Bump(SetTask(Working(c), c.first.task, WaitingTask(c)), 1), 0);
  }

  lemma WaitingHolds(c: Scene)
    ensures Holds(Waiting(c), c, WaitingTask(c)) && Waiting(c).launches == map[c.first.id := c.first.task]
    ensures Waiting(c).rules == c.rules && Waiting(c).capacity == 1
    ensures WaitingTask(c).state == Blocked && WaitingTask(c).priority == c.first.priority
    ensures WaitingTask(c).sourceKey == c.first.sourceKey && WaitingTask(c).idempotencyKey == c.first.idempotencyKey
    ensures WaitingTask(c).outcomeKey == c.first.outcomeKey
  {
    LaunchedHolds(c);
  }

  lemma RoomAndRights(s: State, c: Scene, task: Task)
    requires Holds(s, c, task) && task.state == Blocked && task.priority == c.first.priority && Matched(c)
    requires task.sourceKey == c.first.sourceKey && task.idempotencyKey == c.first.idempotencyKey
    requires task.outcomeKey == c.first.outcomeKey
    ensures Occupancy(s) == 0 && HeavyTasks(s) == {} && !KnownIdentity(s, c.second) && !AuditOwed(s, c.second)
    ensures !Contested(s, c.second.target) && c.second.task !in s.tasks
  {
    assert Occupants(s) == {};
  }

  lemma SameRules(s: State, s': State, l: Launch, ruleIds: seq<string>)
    requires s.rules == s'.rules && LetThrough(s, l, ruleIds)
    ensures LetThrough(s', l, ruleIds)
  {
  }

  lemma SecondIsReserved(c: Scene)
    requires Matched(c) && Admitted(c)
    ensures Reserve(Waiting(c), c.second) == Reserved(Refilled(c))
  {
    WaitingHolds(c);
    RoomAndRights(Waiting(c), c, WaitingTask(c));
    SameRules(Opening(c), Waiting(c), c.second, c.secondRules);
    LaunchesFreely(Waiting(c), c.second, c.secondRules);
  }

  lemma LaunchesSecond(c: Scene)
    requires Matched(c) && Admitted(c)
    ensures Apply(Waiting(c), Overfilling(c)[3]).state == Refilled(c)
  {
    SecondIsReserved(c);
    LaunchApplies(Waiting(c), c.second, Refilled(c), 0);
  }

  lemma OneMoreRuns(s: State, c: Scene, task: Task)
    requires Holds(s, c, task) && task.state == Blocked && Matched(c)
    ensures var s' := Admit(s, c.second, c.secondRules); Occupancy(s') == 1 && BlockedTasks(s') == {c.first.task}
  {
    var s', second := Admit(s, c.second, c.secondRules), ClaimFor(c.second.task, c.second.target);
    assert s'.tasks.Keys == {c.first.task, c.second.task} && s'.claims.Keys == {FirstClaim(c), second};
    assert s'.tasks[c.first.task] == task && s'.tasks[c.second.task].state == LaunchPending;
    assert s'.claims[FirstClaim(c)].task == c.first.task && s'.claims[second] == NewClaim(s, c.second);
    assert Occupants(s') == {second};
  }

  lemma RefilledIsFull(c: Scene)
    requires Matched(c)
    ensures Occupancy(Refilled(c)) == 1 && BlockedTasks(Refilled(c)) == {c.first.task} && Refilled(c).capacity == 1
  {
    WaitingHolds(c);
    OneMoreRuns(Waiting(c), c, WaitingTask(c));
  }

  lemma RunOfOne(c: Scene)
    requires Matched(c) && Admitted(c)
    ensures Exec(Opening(c), Overfilling(c)[..1]) == Launched(c)
  {
    assert Overfilling(c)[..0] == [];
    LaunchesFirst(c);
    ExecStep(Opening(c), Overfilling(c), 0);
  }

  lemma RunOfTwo(c: Scene)
    requires Matched(c) && Admitted(c)
    ensures Exec(Opening(c), Overfilling(c)[..2]) == Working(c)
  {
    RunOfOne(c);
    StartsWorking(c);
    ExecStep(Opening(c), Overfilling(c), 1);
  }

  lemma RunOfFour(c: Scene)
    requires Matched(c) && Admitted(c)
    ensures Exec(Opening(c), Overfilling(c)[..4]) == Refilled(c)
  {
    RunOfTwo(c);
    Blocks(c);
    ExecStep(Opening(c), Overfilling(c), 2);
    LaunchesSecond(c);
    ExecStep(Opening(c), Overfilling(c), 3);
  }

  lemma OverfillingIsClean(c: Scene)
    ensures AllClean(Overfilling(c))
  {
    var run := Overfilling(c);
    forall i | 0 <= i < |run| ensures Clean(run[i].op) {}
  }

  lemma RefilledIsConsistent(c: Scene)
    requires Matched(c) && Admitted(c)
    ensures Inv(Refilled(c))
  {
    OverfillingIsClean(c);
    InitialSafe(1, c.rules, c.policyRevision);
    CleanRunsAreIntact(Opening(c), Overfilling(c)[..4]);
    EveryRunIsSafe(Opening(c), Overfilling(c)[..4]);
    RunOfFour(c);
  }

  /** The bound on occupancy is met: from an empty authority of capacity one, whatever its ledger and
      whatever the two tasks, five clean requests end with both running. */
  lemma QueueCanOverfill(c: Scene)
    requires Playable(c)
    ensures AllClean(Overfilling(c))
    ensures var s := Exec(Opening(c), Overfilling(c)); s.capacity == 1 && Occupancy(s) == 2
  {
    OverfillingIsClean(c);
    RefilledIsConsistent(c);
    RunOfFour(c);
    assert Overfilling(c)[..|Overfilling(c)| - 1] == Overfilling(c)[..4];
    RefilledIsFull(c);
    LastResumes(c, Refilled(c));
  }

  lemma OneResume(s: State, id: string)
    requires Inv(s) && BlockedTasks(s) == {id}
    ensures TryRecycle(s, [Audit(id, Resume)]).Ok?
    ensures TryRecycle(s, [Audit(id, Resume)]).value.capacity == s.capacity
    ensures Occupancy(TryRecycle(s, [Audit(id, Resume)]).value) == Occupancy(s) + 1
  {
    var audits := [Audit(id, Resume)];
    assert audits[0] in audits;
    assert id in AuditedAs(audits, Resume) && Audited(audits) == {id} && AuditedAs(audits, Archive) == {};
    RecycleIgnoresCapacity(s, audits);
  }

  lemma RecycleApplies(s: State, id: string, audits: seq<Audit>)
    requires TryRecycle(s, audits).Ok?
    ensures Apply(s, Request(Recycle(id, audits), 0)).state == TryRecycle(s, audits).value
  {
  }

  lemma LastResumes(c: Scene, s: State)
    requires Inv(s) && BlockedTasks(s) == {c.first.task}
    ensures Apply(s, Overfilling(c)[4]).state.capacity == s.capacity
    ensures Occupancy(Apply(s, Overfilling(c)[4]).state) == Occupancy(s) + 1
  {
    OneResume(s, c.first.task);
    RecycleApplies(s, "recycle", [Audit(c.first.task, Resume)]);
  }

  // ---------- such runs exist ----------

  /** A ledger without conflict groups lets every launch through. */
  lemma UngroupedLetsThrough(s: State, l: Launch)
    requires forall r | r in s.rules :: r.group.None?
    ensures LaunchPolicy(s, l).Resolved?
  {
    var rules := CurrentRules(s.rules);
    SortMembers(Filter(s.rules, Latest(s.rules)), Policy.ById);
    Policy.ConflictsExactly(rules, l.context, l.now);
  }

  function SomeContext(path: string): Policy.Context {
    map["owner" := "owner", "org" := "org", "repo" := "org/repo", "path" := "/" + path, "environment" := "local",
        "data_class" := "internal", "action" := "task-launch", "task_kind" := "fix"]
  }

  function SomeLaunch(name: string, priority: nat): Launch {
    Launch(name, name, name, name, name, priority, 0, Target("org/repo", "/work", [name], false), SomeContext(name),
      Estimate(1, 0, false, None, 1, "fix", "editor", "local"), 3600, 0)
  }

  lemma SomeContextIsValid(path: string)
    requires 1 <= |path| <= 128
    ensures Policy.ContextValid(SomeContext(path))
  {
  }

  lemma SomeLaunchIsValid(name: string, priority: nat)
    requires Identifier(name) && priority <= 1000
    ensures LaunchValid(SomeLaunch(name, priority))
  {
    SomeContextIsValid(name);
  }

  lemma UngroupedRulesAreFew(s: State, l: Launch)
    requires forall r | r in s.rules :: r.group.None?
    ensures LetThrough(s, l, LaunchRules(s, l)) && |LaunchRules(s, l)| <= |s.rules|
  {
    UngroupedLetsThrough(s, l);
    Policy.IncludedAreFew(CurrentRules(s.rules), l.context, l.now);
  }

  lemma NamesOfTwo()
    ensures Identifier("a") && Identifier("b") && "a" != "b"
    ensures !Overlap(Target("org/repo", "/work", ["b"], false), Target("org/repo", "/work", ["a"], false))
  {
    assert "a"[0] == 'a' && "b"[0] == 'b';
    assert ["b"][..1][0] != ["a"][..1][0];
  }

  /** Every ledger of at most a hundred rules, none of them in a conflict group, lets any two launches
      that get along play. */
  lemma SceneFor(rules: seq<Policy.Rule>, version: nat, first: Launch, second: Launch) returns (c: Scene)
    requires Policy.LedgerValid(rules, version) && |rules| <= 100 && forall r | r in rules :: r.group.None?
    requires LaunchValid(first) && LaunchValid(second) && Apart(first, second) && first.priority < second.priority
    ensures Playable(c) && c.rules == rules && c.policyRevision == version && c.first == first && c.second == second
  {
    var start := Initial(1, rules, version);
    UngroupedRulesAreFew(start, first);
    UngroupedRulesAreFew(start, second);
    c := Scene(rules, version, first, second, first.task, LaunchRules(start, first), LaunchRules(start, second));
  }

  /** Two tasks in two directories of one repository, under a ledger of one rule. */
  lemma SomeScene() returns (c: Scene)
    ensures Playable(c)
  {
    Policy.SmallLedgerIsValid();
    NamesOfTwo();
    SomeLaunchIsValid("a", 0);
    SomeLaunchIsValid("b", 1);
    c := SceneFor(Policy.SmallLedger(), 1, SomeLaunch("a", 0), SomeLaunch("b", 1));
  }
}
