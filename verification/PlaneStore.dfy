/** The control plane as it runs: one object per authority whose tables are rewritten row by
    row inside transactions. Each public method is proved to do what `Apply` says. */
module PlaneStore {
  import opened Basics
  import opened Sorting
  import opened Targets
  import opened PlaneModel
  import Durations
  import Policy

  /** What a method that ran to `s'` and answered `code` must have done. */
  ghost predicate Did(attempt: Try, s': State, code: Option<Code>) {
    match attempt
    case Ok(t) => code.None? && s' == t
    case Err(c) => code == Some(c)
  }

  // ---------- row by row views of the blocked-queue audits ----------

  /** The tables once the rows in `written` have their audit recorded and those in `archived`
      are archived. */
  function Marked(s: State, written: set<string>, archived: set<string>): State {
    s.(tasks := map t | t in s.tasks ::
         if t in archived then s.tasks[t].(state := Archived, auditDue := false)
         else if t in written then s.tasks[t].(auditDue := false)
         else s.tasks[t],
       claims := map c | c in s.claims ::
         if s.claims[c].task in archived then s.claims[c].(status := Released) else s.claims[c])
  }

  function NotResumed(audits: seq<Audit>): set<string> {
    set a | a in audits && a.verdict != Resume :: a.task
  }

  function Resumable(audits: seq<Audit>): seq<string> {
    Map(Filter(audits, HasVerdict(Resume)), AuditTask())
  }

  /** The tables once the first `k` ranked tasks have been written: the first runs. */
  function Ranked(s: State, ranking: seq<string>, k: nat): State
    requires k <= |ranking|
  {
    s.(tasks := map t | t in s.tasks ::
         if k > 0 && t == ranking[0] then s.tasks[t].(state := Running, auditDue := false)
         else if t in ranking[..k] then s.tasks[t].(auditDue := false)
         else s.tasks[t])
  }

  lemma AuditSets(audits: seq<Audit>, i: nat)
    requires i < |audits|
    ensures NotResumed(audits[..i + 1])
         == NotResumed(audits[..i]) + (if audits[i].verdict == Resume then {} else {audits[i].task})
    ensures AuditedAs(audits[..i + 1], Archive)
         == AuditedAs(audits[..i], Archive) + (if audits[i].verdict == Archive then {audits[i].task} else {})
    ensures Resumable(audits[..i + 1])
         == Resumable(audits[..i]) + (if audits[i].verdict == Resume then [audits[i].task] else [])
  {
    assert audits[..i + 1] == audits[..i] + [audits[i]];
    FilterAppend(audits[..i], [audits[i]], HasVerdict(Resume));
    MapAppend(Filter(audits[..i], HasVerdict(Resume)), Filter([audits[i]], HasVerdict(Resume)), AuditTask());
  }

  lemma RankedMembers(s: State, audits: seq<Audit>)
    ensures forall t :: t in ResumeRanking(s, audits) <==> t in AuditedAs(audits, Resume)
  {
    var chosen := Filter(audits, HasVerdict(Resume));
    SortMembers(Resumable(audits), ResumeOrder(s.tasks));
    forall t ensures t in Resumable(audits) <==> t in AuditedAs(audits, Resume) {
      MapMember(chosen, AuditTask(), t);
      if t in Resumable(audits) {
        var i :| 0 <= i < |chosen| && AuditTask()(chosen[i]) == t;
        assert chosen[i] in audits;
      }
      if a :| a in audits && a.verdict == Resume && a.task == t {
        FilterMultiplicity(audits, HasVerdict(Resume), a);
        assert a in multiset(chosen);
        var i :| 0 <= i < |chosen| && chosen[i] == a;
      }
    }
  }

  /** One audit that does not resume. */
  function MarkOne(s: State, t: string, archive: bool): State {
    s.(tasks := if t !in s.tasks then s.tasks
         else if archive then s.tasks[t := s.tasks[t].(state := Archived, auditDue := false)]
         else s.tasks[t := s.tasks[t].(auditDue := false)],
       claims := if !archive then s.claims
         else map c | c in s.claims :: if s.claims[c].task == t then s.claims[c].(status := Released) else s.claims[c])
  }

  lemma MarkStep(s: State, written: set<string>, archived: set<string>, t: string, archive: bool)
    ensures Marked(s, written + {t}, if archive then archived + {t} else archived)
         == MarkOne(Marked(s, written, archived), t, archive)
  {
    var m := MarkOne(Marked(s, written, archived), t, archive);
    var m' := Marked(s, written + {t}, if archive then archived + {t} else archived);
    assert m.tasks == m'.tasks;
    assert m.claims == m'.claims;
  }

  lemma MarkAudit(s: State, audits: seq<Audit>, i: nat)
    requires i < |audits|
    ensures var m := Marked(s, NotResumed(audits[..i]), AuditedAs(audits[..i], Archive));
      Marked(s, NotResumed(audits[..i + 1]), AuditedAs(audits[..i + 1], Archive))
      == if audits[i].verdict == Resume then m else MarkOne(m, audits[i].task, audits[i].verdict == Archive)
  {
    AuditSets(audits, i);
    MarkStep(s, NotResumed(audits[..i]), AuditedAs(audits[..i], Archive), audits[i].task, audits[i].verdict == Archive);
    assert AuditedAs(audits[..i], Archive) + {} == AuditedAs(audits[..i], Archive);
    assert NotResumed(audits[..i]) + {} == NotResumed(audits[..i]);
  }

  lemma RankStep(s: State, ranking: seq<string>, i: nat)
    requires i < |ranking|
    ensures var m, t := Ranked(s, ranking, i), ranking[i];
      Ranked(s, ranking, i + 1) ==
        if t !in m.tasks then m
        else m.(tasks := m.tasks[t := if i == 0 then m.tasks[t].(state := Running, auditDue := false)
                                      else m.tasks[t].(auditDue := false)])
  {
    assert ranking[..i + 1] == ranking[..i] + [ranking[i]];
  }

  /** Recording audits does not disturb the order in which tasks would resume. */
  lemma MarkedOrder(s: State, written: set<string>, archived: set<string>)
    ensures forall items :: Sort(items, ResumeOrder(Marked(s, written, archived).tasks)) == Sort(items, ResumeOrder(s.tasks))
  {
    forall items ensures Sort(items, ResumeOrder(Marked(s, written, archived).tasks)) == Sort(items, ResumeOrder(s.tasks)) {
      forall x, y ensures ResumesBefore(Marked(s, written, archived).tasks, x, y) == ResumesBefore(s.tasks, x, y) {}
      SortAgrees(items, ResumeOrder(Marked(s, written, archived).tasks), ResumeOrder(s.tasks));
    }
  }

  lemma AuditKinds(audits: seq<Audit>, t: string)
    ensures t in Audited(audits) <==> t in NotResumed(audits) || t in AuditedAs(audits, Resume)
    ensures t in AuditedAs(audits, Archive) ==> t in NotResumed(audits)
  {
  }

  lemma RankedFirst(s: State, audits: seq<Audit>, t: string)
    ensures var ranking := ResumeRanking(s, audits);
      && (Selected(s, audits) == Some(t) <==> ranking != [] && ranking[0] == t)
      && (t in ranking[..|ranking|] <==> t in AuditedAs(audits, Resume))
  {
    var ranking := ResumeRanking(s, audits);
    assert ranking[..|ranking|] == ranking;
    RankedMembers(s, audits);
  }

  lemma PassOneTask(s: State, audits: seq<Audit>, t: string)
    requires t in s.tasks
    ensures var ranking := ResumeRanking(s, audits);
      Ranked(Marked(s, NotResumed(audits), AuditedAs(audits, Archive)), ranking, |ranking|).tasks[t]
      == AfterAudits(s, audits).tasks[t]
  {
    RankedFirst(s, audits, t);
    AuditKinds(audits, t);
  }

  /** The two passes together are what the specification says in one. */
  lemma PassesAreAudits(s: State, audits: seq<Audit>)
    ensures var ranking := ResumeRanking(s, audits);
      Ranked(Marked(s, NotResumed(audits), AuditedAs(audits, Archive)), ranking, |ranking|).(revision := s.revision + 1)
      == AfterAudits(s, audits)
  {
    PassedTasks(s, audits);
    PassedClaims(s, audits);
  }

  lemma PassedTasks(s: State, audits: seq<Audit>)
    ensures var ranking := ResumeRanking(s, audits);
      Ranked(Marked(s, NotResumed(audits), AuditedAs(audits, Archive)), ranking, |ranking|).tasks
      == AfterAudits(s, audits).tasks
  {
    forall t | t in s.tasks
      ensures var ranking := ResumeRanking(s, audits);
        Ranked(Marked(s, NotResumed(audits), AuditedAs(audits, Archive)), ranking, |ranking|).tasks[t]
        == AfterAudits(s, audits).tasks[t]
    {
      PassOneTask(s, audits, t);
    }
  }

  lemma PassedClaims(s: State, audits: seq<Audit>)
    ensures Marked(s, NotResumed(audits), AuditedAs(audits, Archive)).claims == AfterAudits(s, audits).claims
  {
  }

  class Plane {
    var revision: nat
    var policyRevision: nat
    var nextFence: nat
    var capacity: nat
    var rules: seq<Policy.Rule>
    var tasks: map<string, Task>
    var claims: map<ClaimId, Claim>
    var launches: map<string, string>
    var samples: seq<Durations.Sample>
    var sampledTasks: set<string>
    var handled: map<Key, Request>

    constructor (capacity: nat, rules: seq<Policy.Rule>, policyRevision: nat)
      ensures Stored() == Initial(capacity, rules, policyRevision)
    {
      this.revision, this.policyRevision, this.nextFence, this.capacity := 0, policyRevision, 1, capacity;
      this.rules, tasks, claims, launches, samples, sampledTasks, handled := rules, map[], map[], map[], [], {}, map[];
    }

    /** The committed contents of the database. */
    function Stored(): State
      reads this
    {
      State(revision, policyRevision, nextFence, capacity, rules, tasks, claims, launches, samples, sampledTasks, handled)
    }

    // ---------- transactions ----------

    /** ROLLBACK, or ROLLBACK TO a savepoint. */
    method Restore(saved: State)
      modifies this
      ensures Stored() == saved
    {
      revision, policyRevision, nextFence, capacity := saved.revision, saved.policyRevision, saved.nextFence, saved.capacity;
      rules, tasks, claims, launches := saved.rules, saved.tasks, saved.claims, saved.launches;
      samples, sampledTasks, handled := saved.samples, saved.sampledTasks, saved.handled;
    }

    /** The answer already on record, if the request's id was used before. */
    method Recall(req: Request) returns (answer: Option<Outcome>)
      ensures answer.Some? ==> Apply(Stored(), req) == Step(Stored(), answer.value)
      ensures answer.None? ==> KeyOf(req.op).None? || KeyOf(req.op).value !in handled
    {
      var key := KeyOf(req.op);
      if key.None? || key.value !in handled {
        return None;
      }
      answer := Some(if handled[key.value] == Semantic(req) then Replayed else Refused(IdempotencyConflict));
    }

    /** COMMIT with the request put on record, or ROLLBACK. Only a refused duplicate launch
        commits: its audit event stays. */
    method Finish(saved: State, req: Request, code: Option<Code>) returns (out: Outcome)
      requires KeyOf(req.op).None? || KeyOf(req.op).value !in saved.handled
      requires Did(Attempt(saved, req.op, req.now), Stored(), code)
      requires req.op.PrepareLaunch? && code == Some(DuplicateStop) ==> Stored() == Bump(saved, 1)
      modifies this
      ensures Step(Stored(), out) == Apply(saved, req)
    {
      if code.Some? {
        if !req.op.PrepareLaunch? || code.value != DuplicateStop {
          Restore(saved);
        }
        return Refused(code.value);
      }
      var key := KeyOf(req.op);
      if key.Some? {
        handled := handled[key.value := Semantic(req)];
      }
      out := Committed;
    }

    /** `next_fence`. */
    method TakeFence() returns (fence: nat)
      modifies `nextFence
      ensures fence == old(nextFence) && nextFence == fence + 1
    {
      fence := nextFence;
      nextFence := fence + 1;
    }

    // ---------- launching ----------

    /** Whether a live claim overlaps the target; the rows come in any order. */
    method FindOverlap(target: Target) returns (found: bool)
      ensures found <==> Contested(Stored(), target)
    {
      var rest := claims.Keys;
      while rest != {}
        invariant rest <= claims.Keys
        invariant forall c | c in claims && c !in rest :: !(claims[c].status == Active && Overlap(target, claims[c].target))
        decreases |rest|
      {
        var c :| c in rest;
        if claims[c].status == Active && Overlap(target, claims[c].target) {
          return true;
        }
        rest := rest - {c};
      }
      found := false;
    }

    /** The checks that come before any row is written. */
    method CheckLaunch(l: Launch) returns (code: Option<Code>, ruleIds: seq<string>)
      ensures code.Some? ==> code == LaunchError(Stored(), l)
      ensures code.None? ==> ruleIds == LaunchRules(Stored(), l)
      ensures code.None? ==>
        LaunchError(Stored(), l) == (if l.task in tasks || l.id in launches then Some(IntegrityError) else None)
    {
      ruleIds := [];
      if Durations.Heavy(l.estimate.lane) && !l.estimate.fallback && |HeavyTasks(Stored())| >= l.estimate.heavyCap {
        return Some(HeavyweightCap), [];
      }
      if KnownIdentity(Stored(), l) {
        return Some(DuplicateStop), [];
      }
      if Occupancy(Stored()) >= capacity {
        return Some(CapacityFull), [];
      }
      if AuditOwed(Stored(), l) {
        return Some(BlockedReauditRequired), [];
      }
      var contested := FindOverlap(l.target);
      if contested {
        return Some(OwnershipConflict), [];
      }
      var resolution := Policy.ResolveRules(CurrentRules(rules), l.context, l.now);
      assert LaunchPolicy(Stored(), l) == resolution;
      if resolution.PolicyConflict? {
        return Some(Code.PolicyConflict), [];
      }
      code, ruleIds := None, Map(resolution.included, Policy.RuleId());
    }

    /** `reserve_launch`. On a refusal the tables may hold a part of the launch: the caller's
        transaction or savepoint is rolled back. */
    method ReserveLaunch(l: Launch) returns (code: Option<Code>)
      modifies this
      ensures match Reserve(old(Stored()), l)
        case Reserved(s') => code.None? && Stored() == s'
        case Declined(c) => code == Some(c) && (c == DuplicateStop ==> Stored() == Bump(old(Stored()), 1))
    {
      var ruleIds;
      code, ruleIds := CheckLaunch(l);
      if code == Some(DuplicateStop) {
        revision := revision + 1;
      }
      if code.None? {
        code := InsertLaunch(l, ruleIds);
      }
    }

    method InsertLaunch(l: Launch, ruleIds: seq<string>) returns (code: Option<Code>)
      modifies this
      ensures code == if l.task in old(tasks) || l.id in old(launches) then Some(IntegrityError) else None
      ensures code.None? ==> Stored() == Admit(old(Stored()), l, ruleIds)
    {
      var fence := TakeFence();
      if l.task in tasks {
        return Some(IntegrityError);
      }
      var timing := Durations.Timing(l.estimate.version, l.estimate.lane, l.estimate.expectedActive, None);
      tasks := tasks[l.task :=
        Task(l.sourceKey, l.idempotencyKey, l.outcomeKey, None, LaunchPending, l.priority, l.fanout, l.target,
          policyRevision, ruleIds, 1, fence, l.now, false, Pending,
          l.estimate.family, l.estimate.tool, l.estimate.environment, timing)];
      claims := claims[ClaimFor(l.task, l.target) := Claim(l.target, l.task, 1, fence, Active, l.now, l.leaseExpiresAt)];
      if l.id in launches {
        return Some(IntegrityError);
      }
      launches := launches[l.id := l.task];
      revision := revision + 3;
      code := None;
    }

    // ---------- blocked queue ----------

    method WriteAudit(t: string, archive: bool)
      modifies this
      ensures Stored() == MarkOne(old(Stored()), t, archive)
    {
      if t in tasks {
        tasks := tasks[t := if archive then tasks[t].(state := Archived, auditDue := false) else tasks[t].(auditDue := false)];
      }
      if archive {
        claims := map c | c in claims :: if claims[c].task == t then claims[c].(status := Released) else claims[c];
      }
    }

    /** Writes every audit that does not resume, as it comes. */
    method WriteAudits(audits: seq<Audit>) returns (resumable: seq<string>)
      modifies this
      ensures Stored() == Marked(old(Stored()), NotResumed(audits), AuditedAs(audits, Archive))
      ensures resumable == Resumable(audits)
    {
      ghost var before := Stored();
      resumable := [];
      for i := 0 to |audits|
        invariant Stored() == Marked(before, NotResumed(audits[..i]), AuditedAs(audits[..i], Archive))
        invariant resumable == Resumable(audits[..i])
      {
        AuditSets(audits, i);
        MarkAudit(before, audits, i);
        if audits[i].verdict == Resume {
          resumable := resumable + [audits[i].task];
        } else {
          WriteAudit(audits[i].task, audits[i].verdict == Archive);
        }
      }
      assert audits[..|audits|] == audits;
    }

    /** The best of the resumable tasks runs again, the others keep waiting. */
    method ResumeFirst(ranking: seq<string>)
      modifies `tasks
      ensures Stored() == Ranked(old(Stored()), ranking, |ranking|)
    {
      ghost var before := Stored();
      assert Stored() == Ranked(before, ranking, 0);
      for i := 0 to |ranking|
        invariant Stored() == Ranked(before, ranking, i)
      {
        RankStep(before, ranking, i);
        var t := ranking[i];
        if t in tasks {
          tasks := tasks[t := if i == 0 then tasks[t].(state := Running, auditDue := false) else tasks[t].(auditDue := false)];
        }
      }
    }

    /** `recycle_blocked_in_transaction`. */
    method RecycleBlocked(audits: seq<Audit>) returns (code: Option<Code>, selected: Option<string>)
      modifies this
      ensures code == if AuditsComplete(old(Stored()), audits) then None else Some(BlockedAuditIncomplete)
      ensures code.None? ==> Stored() == AfterAudits(old(Stored()), audits)
      ensures selected == if code.None? then Selected(old(Stored()), audits) else None
    {
      ghost var before := Stored();
      if Audited(audits) != BlockedTasks(Stored()) {
        return Some(BlockedAuditIncomplete), None;
      }
      var resumable := WriteAudits(audits);
      var ranking := Sort(resumable, ResumeOrder(tasks));
      MarkedOrder(before, NotResumed(audits), AuditedAs(audits, Archive));
      ResumeFirst(ranking);
      revision := revision + 1;
      PassesAreAudits(before, audits);
      code, selected := None, if ranking == [] then None else Some(ranking[0]);
    }

    // ---------- fences ----------

    /** `checked_task` followed by `require_external_receipt`. */
    method CheckWorker(f: Fence, states: set<TaskState>, external: string) returns (code: Option<Code>)
      ensures code == WorkerError(Stored(), f, states, external)
    {
      code := FenceError(Stored(), f, states);
      if code.None? {
        if tasks[f.task].external.None? {
          code := Some(ExternalReceiptRequired);
        } else if tasks[f.task].external.value != external {
          code := Some(ExternalReceiptMismatch);
        }
      }
    }

    /** UPDATE owner_claims SET status='released' for the live claims of a task. */
    method ReleaseClaims(id: string)
      modifies `claims
      ensures Stored() == Release(old(Stored()), id)
    {
      claims := map c | c in claims ::
        if claims[c].task == id && claims[c].status == Active then claims[c].(status := Released) else claims[c];
    }

    method Reserving(successor: Option<Launch>) returns (code: Option<Code>)
      modifies this
      ensures match OptionalReserve(old(Stored()), successor)
        case Reserved(s') => code.None? && Stored() == s'
        case Declined(c) => code == Some(c)
    {
      code := None;
      if successor.Some? {
        code := ReserveLaunch(successor.value);
      }
    }

    // ---------- terminal handback ----------

    /** Release, audit, optionally reserve. */
    method TurnOver(id: string, refill: Refill) returns (code: Option<Code>, selected: Option<string>)
      modifies this
      ensures var freed := Release(old(Stored()), id);
        if !AuditsComplete(freed, refill.audits) then code == Some(BlockedAuditIncomplete)
        else selected == Selected(freed, refill.audits)
             && match OptionalReserve(AfterAudits(freed, refill.audits), refill.successor)
                case Reserved(s') => code.None? && Stored() == s' && old(tasks).Keys <= tasks.Keys
                case Declined(c) => code == Some(c)
    {
      ReleaseClaims(id);
      code, selected := RecycleBlocked(refill.audits);
      if code.None? {
        code := Reserving(refill.successor);
      }
    }

    /** Closes the task and demands the refill proofs. */
    method CloseHandback(id: string, refill: Refill, activeBefore: int, occupied: bool) returns (code: Option<Code>)
      requires id in tasks
      modifies this
      ensures forall s: State | id in s.tasks && activeBefore == Occupancy(s) && occupied == (s.tasks[id].state == Running) ::
                Did(SettleHandback(s, old(Stored()), id, refill), Stored(), code)
    {
      tasks := tasks[id := tasks[id].(state := ArchivePending)];
      assert Stored() == Close(old(Stored()), id);
      if refill.runnable > 0
         && Occupancy(Stored()) != Min(refill.capacity, activeBefore - (if occupied then 1 else 0) + 1) {
        return Some(RefillProofRequired);
      }
      if refill.runnable == 0 && refill.successor.Some? {
        return Some(CapacityEvidenceConflict);
      }
      if refill.ownerGated && AuditedAs(refill.audits, OwnerGate) == {} {
        return Some(OwnerGateEvidenceRequired);
      }
      revision := revision + 2;
      code := None;
    }

    /** `record_handback` with a terminal disposition. */
    method RecordHandback(f: Fence, external: string, refill: Refill, evidenceOk: bool) returns (code: Option<Code>)
      modifies this
      ensures Did(TryHandback(old(Stored()), f, external, refill, evidenceOk), Stored(), code)
    {
      ghost var before := Stored();
      code := CheckWorker(f, {Running, Blocked, Failed}, external);
      if code.Some? {
        return;
      }
      var activeBefore, occupied := Occupancy(Stored()), tasks[f.task].state == Running;
      var selected;
      code, selected := TurnOver(f.task, refill);
      if code.Some? {
        return;
      }
      if !evidenceOk {
        return Some(EvidenceRefused);
      }
      ghost var filled := Stored();
      code := CloseHandback(f.task, refill, activeBefore, occupied);
      assert Did(SettleHandback(before, filled, f.task, refill), Stored(), code);
    }


    // ---------- setup failure ----------

    /** Tries the candidates in order, each behind a savepoint; a refusal is rolled back and
        the next one tried, a database error ends the transaction. */
    method ReserveFirst(candidates: seq<Launch>) returns (code: Option<Code>, picked: Option<string>)
      modifies this
      ensures match FirstReservable(old(Stored()), candidates)
        case Picked(s', task) => code.None? && picked == Some(task) && Stored() == s'
        case NonePicked => code.None? && picked.None? && Stored() == old(Stored())
        case Broken => code == Some(IntegrityError)
    {
      var savepoint := Stored();
      var i := 0;
      while i < |candidates|
        invariant 0 <= i <= |candidates|
        invariant Stored() == savepoint
        invariant FirstReservable(savepoint, candidates) == FirstReservable(savepoint, candidates[i..])
      {
        assert candidates[i..][0] == candidates[i] && candidates[i..][1..] == candidates[i + 1..];
        var refusal := ReserveLaunch(candidates[i]);
        if refusal.None? {
          return None, Some(candidates[i].task);
        }
        if refusal == Some(IntegrityError) {
          return refusal, None;
        }
        Restore(savepoint);
        i := i + 1;
      }
      code, picked := None, None;
    }

    /** The task fails, its claim is released, its outbox row is poisoned. */
    method MarkFailed(id: string)
      requires id in tasks
      modifies this
      ensures Stored() == FailSetup(old(Stored()), id)
    {
      tasks := tasks[id := tasks[id].(state := Failed, outbox := Poisoned)];
      ReleaseClaims(id);
    }

    /** The checks of `record_setup_failure` before anything is written. */
    method CheckSetup(f: Fence, evidenceOk: bool) returns (code: Option<Code>)
      ensures forall refill, candidates :: code.Some? ==>
                TrySetupFailure(Stored(), f, refill, candidates, evidenceOk) == Err(code.value)
      ensures code.None? ==> f.task in tasks
      ensures forall refill, candidates :: code.None? ==>
                TrySetupFailure(Stored(), f, refill, candidates, evidenceOk) == FailAndRefill(Stored(), f.task, refill, candidates)
    {
      code := FenceError(Stored(), f, {LaunchPending});
      if code.Some? {
        return;
      }
      if tasks[f.task].outbox != Pending {
        return Some(SetupOutboxInvalid);
      }
      if |LiveClaims(Stored(), f.task)| != 1 {
        return Some(SetupClaimInvalid);
      }
      if exists c | c in LiveClaims(Stored(), f.task) :: claims[c].epoch != f.epoch || claims[c].fence != f.token {
        return Some(SetupClaimMismatch);
      }
      if !evidenceOk {
        return Some(EvidenceRefused);
      }
    }

    method FailAndReserve(id: string, refill: Refill, candidates: seq<Launch>) returns (code: Option<Code>)
      requires id in tasks
      modifies this
      ensures Did(FailAndRefill(old(Stored()), id, refill, candidates), Stored(), code)
    {
      var selected;
      code, selected := RecycleBlocked(refill.audits);
      if code.Some? {
        return;
      }
      MarkFailed(id);
      var picked;
      code, picked := ReserveFirst(Sort(candidates, CandidateLeq));
      if code.Some? {
        return;
      }
      if !(picked.Some? && Occupancy(Stored()) == refill.capacity) && refill.runnable == 0 && GatedUnproved(refill) {
        return Some(OwnerGateEvidenceRequired);
      }
      revision := revision + 2;
    }

    /** `record_setup_failure`. */
    method RecordSetupFailure(f: Fence, refill: Refill, candidates: seq<Launch>, evidenceOk: bool) returns (code: Option<Code>)
      modifies this
      ensures Did(TrySetupFailure(old(Stored()), f, refill, candidates, evidenceOk), Stored(), code)
    {
      code := CheckSetup(f, evidenceOk);
      if code.None? {
        code := FailAndReserve(f.task, refill, candidates);
      }
    }


    // ---------- leases ----------

    /** `takeover_lease`. */
    method TakeoverLease(id: string, epoch: nat, token: nat, leaseExpiresAt: int, now: int) returns (code: Option<Code>)
      modifies this
      ensures Did(TryTakeover(old(Stored()), id, epoch, token, leaseExpiresAt, now), Stored(), code)
    {
      if leaseExpiresAt <= now {
        return Some(SchemaInvalid);
      }
      if id !in tasks || tasks[id].state !in {Running, Blocked} {
        return Some(TaskStateInvalid);
      }
      if tasks[id].epoch != epoch || tasks[id].fence != token {
        return Some(StaleFence);
      }
      if !LeaseOver(Stored(), id, now) {
        return Some(LeaseNotExpired);
      }
      var newEpoch := tasks[id].epoch + 1;
      var newFence := TakeFence();
      tasks := tasks[id := tasks[id].(epoch := newEpoch, fence := newFence)];
      claims := map c | c in claims ::
        if claims[c].task == id && claims[c].status == Active then
          claims[c].(epoch := newEpoch, fence := newFence, heartbeatAt := now, expiresAt := leaseExpiresAt)
        else claims[c];
      revision := revision + 1;
      code := None;
    }


    /** `reconcile_expired_lease`. */
    method ReconcileExpiredLease(f: Fence, external: string, claim: ClaimId, leaseExpiresAt: int, now: int) returns (code: Option<Code>)
      modifies this
      ensures Did(TryExpireLease(old(Stored()), f, external, claim, leaseExpiresAt, now), Stored(), code)
    {
      if AlreadyExpired(Stored(), f.task) {
        return Some(LeaseAlreadyReconciled);
      }
      if f.task !in tasks || tasks[f.task].state !in {Running, Blocked} {
        return Some(TaskStateInvalid);
      }
      if !FenceMatches(tasks[f.task], f) {
        return Some(StaleFence);
      }
      if tasks[f.task].external != Some(external) {
        return Some(ExternalReceiptMismatch);
      }
      if claim !in claims || claims[claim].task != f.task || claims[claim].status != Active
         || claims[claim].epoch != f.epoch || claims[claim].fence != f.token || claims[claim].expiresAt != leaseExpiresAt {
        return Some(StaleFence);
      }
      if claims[claim].expiresAt > now {
        return Some(LeaseNotExpired);
      }
      var tombstone := TakeFence();
      tasks := tasks[f.task := tasks[f.task].(state := Expired, fence := tombstone)];
      claims := claims[claim := claims[claim].(status := Lapsed)];
      revision := revision + 1;
      code := None;
    }


    /** `heartbeat`. */
    method RecordHeartbeat(f: Fence, external: string, leaseExpiresAt: int, now: int) returns (code: Option<Code>)
      modifies this
      ensures Did(TryHeartbeat(old(Stored()), f, external, leaseExpiresAt, now), Stored(), code)
    {
      if leaseExpiresAt <= now {
        return Some(SchemaInvalid);
      }
      code := CheckWorker(f, {Running, Blocked}, external);
      if code.Some? {
        return;
      }
      if LeaseOver(Stored(), f.task, now) {
        return Some(LeaseExpired);
      }
      claims := map c | c in claims ::
        if claims[c].task == f.task && claims[c].status == Active && claims[c].fence == f.token then
          claims[c].(heartbeatAt := now, expiresAt := leaseExpiresAt)
        else claims[c];
      revision := revision + 1;
    }


    // ---------- worker receipts ----------

    /** `launch_receipt`. */
    method RecordLaunchReceipt(f: Fence, external: string, ruleIds: seq<string>, settles: bool) returns (code: Option<Code>)
      modifies this
      ensures Did(TryLaunchReceipt(old(Stored()), f, external, ruleIds, settles), Stored(), code)
    {
      var extra := if settles then 1 else 0;
      if f.task in tasks && SameLaunch(tasks[f.task], f, external, ruleIds) {
        revision := revision + extra;
        return None;
      }
      code := FenceError(Stored(), f, {LaunchPending});
      if code.Some? {
        return;
      }
      if multiset(ruleIds) != multiset(tasks[f.task].ruleIds) {
        return Some(RuleReceiptMismatch);
      }
      tasks := tasks[f.task := tasks[f.task].(state := Running, external := Some(external), outbox := Completed)];
      revision := revision + 1 + extra;
    }


    /** `record_handback` with the blocked disposition. */
    method RecordBlocked(f: Fence, external: string, evidenceOk: bool) returns (code: Option<Code>)
      modifies this
      ensures Did(TryBlock(old(Stored()), f, external, evidenceOk), Stored(), code)
    {
      code := CheckWorker(f, {Running, Blocked, Failed}, external);
      if code.Some? {
        return;
      }
      if !evidenceOk {
        return Some(EvidenceRefused);
      }
      tasks := tasks[f.task := tasks[f.task].(state := Blocked, auditDue := true)];
      revision := revision + 1;
    }


    /** `record_duration_progress`. */
    method RecordDurationProgress(f: Fence, external: string, report: Durations.Report, successor: Option<Launch>, evidenceOk: bool)
      returns (code: Option<Code>)
      modifies this
      ensures Did(TryProgress(old(Stored()), f, external, report, successor, evidenceOk), Stored(), code)
    {
      code := CheckWorker(f, {Running, Blocked}, external);
      if code.Some? {
        return;
      }
      if !evidenceOk {
        return Some(EvidenceRefused);
      }
      var progress := Durations.Advance(tasks[f.task].timing, report);
      if progress.NonMonotonic? {
        return Some(DurationNonMonotonic);
      }
      tasks := tasks[f.task := tasks[f.task].(timing := progress.timing)];
      assert Stored() == SetTask(old(Stored()), f.task, old(tasks[f.task]).(timing := progress.timing));
      if !progress.reclassified {
        return if successor.Some? then Some(SuccessorNotAllowed) else None;
      }
      code := Reserving(successor);
      if code.None? {
        revision := revision + 1;
      }
    }

    // ---------- queue and capacity ----------

    /** `capacity_watchdog`. */
    method RunCapacityWatchdog(refill: Refill, chosen: Option<string>, evidenceOk: bool) returns (code: Option<Code>)
      modifies this
      ensures Did(TryWatchdog(old(Stored()), refill, chosen, evidenceOk), Stored(), code)
    {
      if !evidenceOk {
        return Some(EvidenceRefused);
      }
      var selected;
      code, selected := RecycleBlocked(refill.audits);
      if code.Some? {
        return;
      }
      if refill.successor.Some? && chosen.Some? && chosen.value != refill.successor.value.task {
        return Some(IdempotencyConflict);
      }
      if chosen.None? {
        code := Reserving(refill.successor);
        if code.Some? {
          return;
        }
        if refill.successor.None? && refill.runnable == 0 && GatedUnproved(refill) {
          return Some(OwnerGateEvidenceRequired);
        }
      }
      revision := revision + 1;
    }


    method SettleStop(id: string, refill: Refill, resumed: bool) returns (code: Option<Code>)
      requires id in tasks
      modifies this
      ensures Did(SettleInterrupt(old(Stored()), id, refill, resumed), Stored(), code)
    {
      if refill.runnable > 0 && !resumed && refill.successor.None? {
        return Some(RefillProofRequired);
      }
      if refill.runnable == 0 && refill.successor.Some? {
        return Some(CapacityEvidenceConflict);
      }
      if GatedUnproved(refill) {
        return Some(OwnerGateEvidenceRequired);
      }
      if refill.runnable > 0 && Occupancy(Stored()) != refill.capacity {
        return Some(RefillProofRequired);
      }
      tasks := tasks[id := tasks[id].(state := ArchivePending)];
      revision := revision + 1;
      code := None;
    }

    /** The interruption of `lifecycle_watchdog`. */
    method InterruptTask(f: Fence, external: string, refill: Refill, evidenceOk: bool) returns (code: Option<Code>)
      modifies this
      ensures Did(TryInterrupt(old(Stored()), f, external, refill, evidenceOk), Stored(), code)
    {
      code := CheckWorker(f, {Running}, external);
      if code.Some? {
        return;
      }
      if !evidenceOk {
        return Some(EvidenceRefused);
      }
      ReleaseClaims(f.task);
      var selected;
      code, selected := RecycleBlocked(refill.audits);
      if code.Some? {
        return;
      }
      if selected.Some? && refill.successor.Some? {
        return Some(RefillEvidenceConflict);
      }
      code := Reserving(refill.successor);
      if code.None? {
        code := SettleStop(f.task, refill, selected.Some?);
      }
    }


    /** `configure_capacity`. */
    method ResizeCapacity(expectedRevision: nat, expectedCapacity: nat, requested: nat) returns (code: Option<Code>)
      modifies this
      ensures Did(TryConfigureCapacity(old(Stored()), expectedRevision, expectedCapacity, requested), Stored(), code)
    {
      if !(1 <= requested <= 64) || requested == expectedCapacity {
        return Some(SchemaInvalid);
      }
      if expectedRevision != revision {
        return Some(StateRevisionConflict);
      }
      if expectedCapacity != capacity {
        return Some(CapacityConfigurationConflict);
      }
      if requested < Occupancy(Stored()) {
        return Some(CapacityBelowOccupancy);
      }
      capacity := requested;
      revision := revision + 1;
      code := None;
    }

    // ---------- rules, samples, archive ----------

    /** `record_rule`. */
    method RecordPolicyRule(expected: nat, rule: Policy.Rule) returns (code: Option<Code>)
      modifies this
      ensures Did(TryRecordRule(old(Stored()), expected, rule), Stored(), code)
    {
      if expected != policyRevision {
        return Some(PolicyRevisionConflict);
      }
      if !NewestOf(rules, rule) {
        return Some(PolicyRuleRevisionConflict);
      }
      rules := rules + [rule];
      policyRevision, revision := policyRevision + 1, revision + 1;
      code := None;
    }

    /** `record_duration_observation`. */
    method RecordDurationSample(id: string, f: Fence, external: string, actual: Durations.Actual, now: int)
      returns (code: Option<Code>)
      modifies this
      ensures Did(TrySample(old(Stored()), id, f, external, actual, now), Stored(), code)
    {
      if f.task in sampledTasks {
        return Some(DurationSampleExists);
      }
      if f.task !in tasks {
        return Some(TaskNotFound);
      }
      if !FenceMatches(tasks[f.task], f) {
        return Some(StaleFence);
      }
      code := ExternalError(Stored(), f.task, external);
      if code.Some? {
        return;
      }
      var task := tasks[f.task];
      samples := samples + [Durations.Sample(id, now, task.family, task.tool, task.environment, actual.active,
                                             Durations.LaneOf(actual.active))];
      sampledTasks := sampledTasks + {f.task};
      tasks := tasks[f.task := task.(timing := task.timing.(actual := Some(actual)))];
      revision := revision + 1;
    }

    /** `archive_receipt`. */
    method RecordArchive(f: Fence, evidenceOk: bool) returns (code: Option<Code>)
      modifies this
      ensures Did(TryArchive(old(Stored()), f, evidenceOk), Stored(), code)
    {
      if f.task in tasks && tasks[f.task].state == Archived && FenceMatches(tasks[f.task], f) {
        return None;
      }
      if f.task !in tasks || tasks[f.task].state != ArchivePending {
        return Some(TaskStateInvalid);
      }
      if !FenceMatches(tasks[f.task], f) {
        return Some(StaleFence);
      }
      if !evidenceOk {
        return Some(EvidenceRefused);
      }
      tasks := tasks[f.task := tasks[f.task].(state := Archived)];
      revision := revision + 1;
      code := None;
    }

    // ---------- one request ----------

    method RunTerminal(op: Op) returns (code: Option<Code>)
      requires op.Handback? || op.SetupFailure? || op.Interrupt? || op.BlockTask? || op.Recycle? || op.CapacityWatchdog?
      modifies this
      ensures forall now :: Did(Attempt(old(Stored()), op, now), Stored(), code)
    {
      match op
      case BlockTask(_, f, external, ok) => code := RecordBlocked(f, external, ok);
      case Handback(_, f, external, refill, ok) => code := RecordHandback(f, external, refill, ok);
      case SetupFailure(_, f, refill, candidates, ok) => code := RecordSetupFailure(f, refill, candidates, ok);
      case Interrupt(_, f, external, refill, ok) => code := InterruptTask(f, external, refill, ok);
      case CapacityWatchdog(_, refill, chosen, ok) => code := RunCapacityWatchdog(refill, chosen, ok);
      case Recycle(_, audits) =>
        var selected;
        code, selected := RecycleBlocked(audits);
    }

    method RunLease(op: Op, now: int) returns (code: Option<Code>)
      requires op.Takeover? || op.ExpireLease? || op.Heartbeat?
      modifies this
      ensures Did(Attempt(old(Stored()), op, now), Stored(), code)
    {
      match op
      case Takeover(_, id, epoch, token, expires) => code := TakeoverLease(id, epoch, token, expires, now);
      case ExpireLease(_, f, external, claim, expires) => code := ReconcileExpiredLease(f, external, claim, expires, now);
      case Heartbeat(_, f, external, expires) => code := RecordHeartbeat(f, external, expires, now);
    }

    method RunWorker(op: Op, now: int) returns (code: Option<Code>)
      requires op.LaunchReceipt? || op.ReportProgress? || op.RecordSample? || op.ArchiveReceipt?
      modifies this
      ensures Did(Attempt(old(Stored()), op, now), Stored(), code)
    {
      match op
      case LaunchReceipt(_, f, external, ids, settles) => code := RecordLaunchReceipt(f, external, ids, settles);
      case ReportProgress(_, f, external, report, successor, ok) =>
        code := RecordDurationProgress(f, external, report, successor, ok);
      case RecordSample(id, f, external, actual) => code := RecordDurationSample(id, f, external, actual, now);
      case ArchiveReceipt(_, f, ok) => code := RecordArchive(f, ok);
    }

    /** The observation of `lifecycle_watchdog`: an event and nothing else. */
    method RecordObservation(f: Fence, external: string, evidenceOk: bool) returns (code: Option<Code>)
      modifies this
      ensures Did(TryObserve(old(Stored()), f, external, evidenceOk), Stored(), code)
    {
      code := CheckWorker(f, {Running}, external);
      if code.Some? {
        return;
      }
      if !evidenceOk {
        return Some(EvidenceRefused);
      }
      revision := revision + 1;
    }

    method RunRecord(op: Op, now: int) returns (code: Option<Code>)
      requires op.RecordRule? || op.ConfigureCapacity? || op.Observe? || op.Note?
      modifies this
      ensures Did(Attempt(old(Stored()), op, now), Stored(), code)
    {
      match op
      case RecordRule(_, expected, rule) => code := RecordPolicyRule(expected, rule);
      case ConfigureCapacity(_, expected, current, requested) => code := ResizeCapacity(expected, current, requested);
      case Observe(_, f, external, ok) => code := RecordObservation(f, external, ok);
      case Note(_, _) =>
        revision := revision + 1;
        code := None;
    }

    /** One request from BEGIN to COMMIT or ROLLBACK. */
    method Perform(req: Request) returns (out: Outcome)
      modifies this
      ensures Step(Stored(), out) == Apply(old(Stored()), req)
    {
      var answer := Recall(req);
      if answer.Some? {
        return answer.value;
      }
      var saved := Stored();
      var code;
      if req.op.PrepareLaunch? {
        code := ReserveLaunch(req.op.launch);
      } else if req.op.Takeover? || req.op.ExpireLease? || req.op.Heartbeat? {
        code := RunLease(req.op, req.now);
      } else if req.op.Handback? || req.op.SetupFailure? || req.op.Interrupt? || req.op.BlockTask?
                || req.op.Recycle? || req.op.CapacityWatchdog? {
        code := RunTerminal(req.op);
      } else if req.op.LaunchReceipt? || req.op.ReportProgress? || req.op.RecordSample? || req.op.ArchiveReceipt? {
        code := RunWorker(req.op, req.now);
      } else {
        code := RunRecord(req.op, req.now);
      }
      out := Finish(saved, req, code);
    }
  }
}
