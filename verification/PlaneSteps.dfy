/** One lemma per operation: it keeps the invariant, never moves a token backwards, and
    accounts for the worker slots it takes and frees. */
module PlaneSteps {
  import opened Basics
  import opened Sorting
  import opened PlaneModel
  import opened PlaneInvariants
  import Durations

  // ---------- tokens ----------

  /** No task is lost, no token is reissued, no epoch falls. */
  ghost predicate TokensGrow(s: State, s': State) {
    && s.nextFence <= s'.nextFence
    && (forall t | t in s.tasks :: t in s'.tasks && s.tasks[t].epoch <= s'.tasks[t].epoch
          && (s'.tasks[t].fence == s.tasks[t].fence || s.nextFence <= s'.tasks[t].fence))
    && (forall t | t in s'.tasks && t !in s.tasks :: s.nextFence <= s'.tasks[t].fence)
  }

  lemma TokensGrowOn(a: State, b: State, c: State)
    requires TokensGrow(a, b) && TokensGrow(b, c)
    ensures TokensGrow(a, c)
  {
  }

  lemma RewriteTokens(s: State, s': State)
    requires Rewrites(s, s')
    ensures TokensGrow(s, s')
  {
    forall t | t in s.tasks ensures SameTaskHold(s.tasks[t], s'.tasks[t]) {}
  }

  lemma ReservedTokens(s: State, s': State, free: set<string>)
    requires ReservedFrom(s, s', free)
    ensures TokensGrow(s, s')
  {
  }

  // ---------- slots ----------

  /** The step adds at most `debt` occupants beyond what capacity allows. */
  ghost predicate Accounted(s: State, s': State, debt: nat) {
    && (Occupancy(s') <= Occupancy(s) + debt || Occupancy(s') <= s'.capacity)
    && (s'.capacity == s.capacity || Occupancy(s') <= s'.capacity)
  }

  /** What each committed operation guarantees. */
  ghost predicate Good(s: State, s': State, debt: nat) {
    Inv(s') && TokensGrow(s, s') && Accounted(s, s', debt)
  }

  ghost predicate SameRows(a: State, b: State) {
    a.tasks == b.tasks && a.claims == b.claims && a.nextFence == b.nextFence && a.capacity == b.capacity
  }

  lemma GoodCore(s: State, s': State)
    requires Inv(s) && s.tasks == s'.tasks && s.claims == s'.claims && s.nextFence == s'.nextFence
    requires s'.capacity == s.capacity || Occupancy(s) <= s'.capacity
    ensures Good(s, s', 0)
  {
    CoreKeeps(s, s', {});
  }

  lemma GoodBump(s: State, s': State, s'': State, debt: nat)
    requires Good(s, s', debt) && SameRows(s', s'')
    ensures Good(s, s'', debt)
  {
    CoreKeeps(s', s'', {});
  }

  // ---------- fences ----------

  /** A fence that is accepted names a holding task with its current token, and the task's
      one claim is live. */
  lemma FenceHolds(s: State, f: Fence, states: set<TaskState>)
    requires Inv(s) && FenceError(s, f, states).None?
    ensures f.task in s.tasks && s.tasks[f.task].state in states && Holding(s.tasks[f.task].state)
    ensures f.token == s.tasks[f.task].fence && f.epoch == s.tasks[f.task].epoch
    ensures Live(s, Own(s, f.task))
  {
    var c :| c in s.claims && s.claims[c].task == f.task && s.claims[c].status == Active && s.claims[c].fence == f.token;
    LinkedClaims(s, c, f.task);
  }

  // ---------- single-row steps ----------

  lemma {:induction false} SmallerSet<T>(a: set<T>, b: set<T>)
    requires a <= b
    ensures |a| <= |b|
  {
    if a != {} {
      var x :| x in a;
      SmallerSet(a - {x}, b - {x});
    }
  }

  lemma RetaskAccounts(s: State, t: string, task: Task)
    requires Linked(s) && t in s.tasks && SameTaskHold(s.tasks[t], task)
    requires Busy(task.state) ==> Busy(s.tasks[t].state)
    ensures Occupancy(SetTask(s, t, task)) <= Occupancy(s)
  {
    OccupantsAreOwn(s, t);
    RetaskOccupies(s, t, task);
    SmallerSet(Occupants(SetTask(s, t, task)), Occupants(s));
  }

  /** One task row was rewritten without giving up or gaining its target or a slot. */
  ghost predicate Retasked(s: State, s': State, t: string) {
    && t in s.tasks && t in s'.tasks && s'.tasks == s.tasks[t := s'.tasks[t]]
    && s'.claims == s.claims && s'.nextFence == s.nextFence && s'.capacity == s.capacity
    && SameTaskHold(s.tasks[t], s'.tasks[t])
    && Holding(s.tasks[t].state) == Holding(s'.tasks[t].state)
    && (Busy(s'.tasks[t].state) ==> Busy(s.tasks[t].state))
  }

  lemma RetaskedGood(s: State, s': State, t: string)
    requires Inv(s) && Retasked(s, s', t)
    ensures Good(s, s', 0)
  {
    var set_ := SetTask(s, t, s'.tasks[t]);
    RetaskTracks(s, t, s'.tasks[t], {});
    RetaskRewrites(s, t, s'.tasks[t]);
    RewriteTokens(s, set_);
    RetaskAccounts(s, t, s'.tasks[t]);
    CoreKeeps(set_, s', {});
  }

  lemma LaunchReceiptGood(s: State, s': State, f: Fence, external: string, ruleIds: seq<string>, settles: bool)
    requires Inv(s) && TryLaunchReceipt(s, f, external, ruleIds, settles) == Ok(s')
    ensures Good(s, s', 0)
  {
    if f.task in s.tasks && SameLaunch(s.tasks[f.task], f, external, ruleIds) {
      GoodCore(s, s');
    } else {
      assert Retasked(s, s', f.task);
      RetaskedGood(s, s', f.task);
    }
  }

  lemma BlockGood(s: State, s': State, f: Fence, external: string, ok: bool)
    requires Inv(s) && TryBlock(s, f, external, ok) == Ok(s')
    ensures Good(s, s', 0)
  {
    FenceHolds(s, f, {Running, Blocked, Failed});
    RetaskedGood(s, s', f.task);
  }

  lemma ArchiveCases(s: State, s': State, f: Fence, ok: bool)
    requires TryArchive(s, f, ok) == Ok(s')
    ensures s' == s || Retasked(s, s', f.task)
  {
  }

  lemma ArchiveGood(s: State, s': State, f: Fence, ok: bool)
    requires Inv(s) && TryArchive(s, f, ok) == Ok(s')
    ensures Good(s, s', 0)
  {
    ArchiveCases(s, s', f, ok);
    if s' == s {
      GoodCore(s, s');
    } else {
      RetaskedGood(s, s', f.task);
    }
  }

  lemma SampleGood(s: State, s': State, id: string, f: Fence, external: string, actual: Durations.Actual, now: int)
    requires Inv(s) && TrySample(s, id, f, external, actual, now) == Ok(s')
    ensures Good(s, s', 0)
  {
    RetaskedGood(s, s', f.task);
  }

  // ---------- leases ----------

  lemma ExtendRewrites(s: State, f: Fence, expires: int, now: int)
    ensures Rewrites(s, Extend(s, f, expires, now))
    ensures forall c :: Live(Extend(s, f, expires, now), c) <==> Live(s, c)
    ensures Occupants(Extend(s, f, expires, now)) == Occupants(s)
  {
  }

  lemma ExtendGood(s: State, f: Fence, expires: int, now: int)
    requires Inv(s)
    ensures Good(s, Extend(s, f, expires, now), 0)
  {
    var s' := Extend(s, f, expires, now);
    ExtendRewrites(s, f, expires, now);
    RewriteTokens(s, s');
    RewriteLinks(s, s');
    RewriteKeeps(s, s', {}, {});
  }

  lemma HeartbeatExtends(s: State, s': State, f: Fence, external: string, expires: int, now: int)
    requires TryHeartbeat(s, f, external, expires, now) == Ok(s')
    ensures s' == Extend(s, f, expires, now)
  {
  }

  lemma HeartbeatGood(s: State, s': State, f: Fence, external: string, expires: int, now: int)
    requires Inv(s) && TryHeartbeat(s, f, external, expires, now) == Ok(s')
    ensures Good(s, s', 0)
  {
    HeartbeatExtends(s, s', f, external, expires, now);
    ExtendGood(s, f, expires, now);
  }

  /** The task row moved to a fresh token and its live claim followed or left. */
  ghost predicate Retokened(s: State, s': State, t: string) {
    && t in s.tasks && Own(s, t) in s.claims
    && s'.tasks.Keys == s.tasks.Keys && s'.claims.Keys == s.claims.Keys
    && s'.nextFence == s.nextFence + 1 && s'.capacity == s.capacity
    && (forall u | u in s.tasks && u != t :: s'.tasks[u] == s.tasks[u])
    && s'.tasks[t].target == s.tasks[t].target && s'.tasks[t].fence == s.nextFence
    && s.tasks[t].epoch <= s'.tasks[t].epoch
    && (forall c | c in s.claims && c != Own(s, t) :: s'.claims[c] == s.claims[c])
    && s'.claims[Own(s, t)].task == t && s'.claims[Own(s, t)].target == s.tasks[t].target
    && (Live(s', Own(s, t)) <==> Holding(s'.tasks[t].state))
    && (Live(s', Own(s, t)) ==> Live(s, Own(s, t)))
    && (Live(s', Own(s, t)) ==> s'.claims[Own(s, t)].fence == s.nextFence)
    && (Live(s', Own(s, t)) ==> s'.claims[Own(s, t)].epoch == s'.tasks[t].epoch)
    && (Busy(s'.tasks[t].state) ==> Busy(s.tasks[t].state))
  }

  lemma RetokenedLinks(s: State, s': State, t: string)
    requires Linked(s) && Retokened(s, s', t)
    ensures Linked(s')
    ensures forall u | u in s.tasks :: Own(s', u) == Own(s, u)
  {
    forall u | u in s.tasks ensures Own(s', u) == Own(s, u) {}
    forall c | c in s'.claims ensures ClaimOk(s', c) {
      assert ClaimOk(s, c);
    }
  }

  lemma RetokenedTracks(s: State, s': State, t: string)
    requires Linked(s) && Tracked(s, {}) && Retokened(s, s', t)
    ensures Tracked(s', {})
  {
    RetokenedLinks(s, s', t);
    forall u | u in s.tasks && u != t ensures Own(s, u) != Own(s, t) {}
  }

  lemma RetokenedDisjoint(s: State, s': State, t: string)
    requires Linked(s) && Disjoint(s) && Retokened(s, s', t)
    ensures Disjoint(s')
  {
    LinkedClaims(s, Own(s, t), t);
    FewerDisjoint(s, s');
  }

  lemma RetokenedTokens(s: State, s': State, t: string)
    requires Retokened(s, s', t)
    ensures TokensGrow(s, s')
  {
  }

  lemma RetokenedFences(s: State, s': State, t: string)
    requires Linked(s) && Fenced(s) && Retokened(s, s', t)
    ensures Fenced(s')
  {
    forall c | Live(s', c) ensures FenceCarried(s', c) {
      LinkedClaims(s, c, t);
      if c != Own(s, t) {
        assert Live(s, c);
      }
    }
    RetokenedUnique(s, s', t);
  }

  ghost predicate FenceCarried(s: State, c: ClaimId) {
    && c in s.claims && s.claims[c].task in s.tasks
    && s.claims[c].fence == s.tasks[s.claims[c].task].fence && s.claims[c].epoch == s.tasks[s.claims[c].task].epoch
  }

  lemma RetokenedUnique(s: State, s': State, t: string)
    requires Fenced(s) && Retokened(s, s', t)
    ensures forall u | u in s'.tasks :: 1 <= s'.tasks[u].fence < s'.nextFence
    ensures forall u, v | u in s'.tasks && v in s'.tasks && u != v :: s'.tasks[u].fence != s'.tasks[v].fence
  {
  }

  lemma RetokenedOccupies(s: State, s': State, t: string)
    requires Linked(s) && Retokened(s, s', t)
    ensures Occupancy(s') <= Occupancy(s)
  {
    forall c | c in Occupants(s') ensures c in Occupants(s) {
      LinkedClaims(s, c, t);
    }
    SmallerSet(Occupants(s'), Occupants(s));
  }

  lemma RetokenedGood(s: State, s': State, t: string)
    requires Inv(s) && Retokened(s, s', t)
    ensures Good(s, s', 0)
  {
    RetokenedLinks(s, s', t);
    RetokenedTracks(s, s', t);
    RetokenedDisjoint(s, s', t);
    RetokenedFences(s, s', t);
    RetokenedTokens(s, s', t);
    RetokenedOccupies(s, s', t);
  }

  lemma TakeoverRetokens(s: State, id: string, expires: int, now: int)
    requires Linked(s) && id in s.tasks && Holding(s.tasks[id].state) && Live(s, Own(s, id))
    ensures Retokened(s, Refence(s, id, expires, now), id)
  {
    forall c | c in s.claims ensures s.claims[c].task == id <==> c == Own(s, id) {
      LinkedClaims(s, c, id);
    }
    LinkedClaims(s, Own(s, id), id);
  }

  lemma TakeoverShape(s: State, s': State, id: string, epoch: nat, token: nat, expires: int, now: int)
    requires TryTakeover(s, id, epoch, token, expires, now) == Ok(s')
    ensures id in s.tasks && Holding(s.tasks[id].state) && s' == Refence(s, id, expires, now)
  {
  }

  lemma TakeoverGood(s: State, s': State, id: string, epoch: nat, token: nat, expires: int, now: int)
    requires Inv(s) && TryTakeover(s, id, epoch, token, expires, now) == Ok(s')
    ensures Good(s, s', 0)
  {
    TakeoverShape(s, s', id, epoch, token, expires, now);
    assert Live(s, Own(s, id));
    TakeoverRetokens(s, id, expires, now);
    RetokenedGood(s, s', id);
  }

  lemma TombstoneRetokens(s: State, t: string)
    requires t in s.tasks && Own(s, t) in s.claims && s.claims[Own(s, t)].task == t
    requires s.claims[Own(s, t)].target == s.tasks[t].target
    ensures Retokened(s, Tombstone(s, t, Own(s, t)), t)
  {
  }

  lemma ExpireRetokens(s: State, t: string, claim: ClaimId)
    requires Linked(s) && t in s.tasks && claim in s.claims && s.claims[claim].task == t
    ensures Retokened(s, Tombstone(s, t, claim), t)
  {
    LinkedClaims(s, claim, t);
    TombstoneRetokens(s, t);
  }

  lemma ExpireShape(s: State, s': State, f: Fence, external: string, claim: ClaimId, expires: int, now: int)
    requires TryExpireLease(s, f, external, claim, expires, now) == Ok(s')
    ensures f.task in s.tasks && claim in s.claims && s.claims[claim].task == f.task && s' == Tombstone(s, f.task, claim)
  {
  }

  lemma ExpireGood(s: State, s': State, f: Fence, external: string, claim: ClaimId, expires: int, now: int)
    requires Inv(s) && TryExpireLease(s, f, external, claim, expires, now) == Ok(s')
    ensures Good(s, s', 0)
  {
    ExpireShape(s, s', f, external, claim, expires, now);
    ExpireRetokens(s, f.task, claim);
    RetokenedGood(s, s', f.task);
  }

  // ---------- transactions over several rows ----------

  lemma AuditsGood(s: State, audits: seq<Audit>)
    requires Inv(s) && AuditsComplete(s, audits) && ResumeIntact(s, audits, {})
    ensures Good(s, AfterAudits(s, audits), if Selected(s, audits).Some? then 1 else 0)
  {
    AuditsKeep(s, audits, {});
    AuditsOccupy(s, audits, {});
    AuditsRewrite(s, audits);
    RewriteTokens(s, AfterAudits(s, audits));
  }

  /** A reservation on top of a good step stays good: it needs a free slot. */
  lemma ReserveOnTop(s: State, mid: State, s': State, successor: Option<Launch>, debt: nat)
    requires Good(s, mid, debt) && OptionalReserve(mid, successor) == Reserved(s')
    ensures Good(s, s', debt)
  {
    if successor.Some? {
      ReserveKeeps(mid, successor.value, {});
      ReservedTokens(mid, s', {});
      TokensGrowOn(s, mid, s');
    }
  }

  lemma ProgressGood(
      s: State, s': State, f: Fence, external: string, report: Durations.Report, successor: Option<Launch>, ok: bool)
    requires Inv(s) && TryProgress(s, f, external, report, successor, ok) == Ok(s')
    ensures Good(s, s', 0)
  {
    var progress := Durations.Advance(s.tasks[f.task].timing, report);
    var timed := SetTask(s, f.task, s.tasks[f.task].(timing := progress.timing));
    RetaskedGood(s, timed, f.task);
    if progress.reclassified {
      var filled := OptionalReserve(timed, successor).state;
      ReserveOnTop(s, timed, filled, successor, 0);
      GoodBump(s, filled, s', 0);
    }
  }

  lemma WatchdogStages(s: State, s': State, refill: Refill, chosen: Option<string>, ok: bool)
      returns (successor: Option<Launch>, filled: State)
    requires TryWatchdog(s, refill, chosen, ok) == Ok(s')
    ensures AuditsComplete(s, refill.audits)
    ensures OptionalReserve(AfterAudits(s, refill.audits), successor) == Reserved(filled) && SameRows(filled, s')
  {
    successor := if chosen.Some? then None else refill.successor;
    filled := OptionalReserve(AfterAudits(s, refill.audits), successor).state;
  }

  lemma WatchdogGood(s: State, s': State, refill: Refill, chosen: Option<string>, ok: bool)
    requires Inv(s) && TryWatchdog(s, refill, chosen, ok) == Ok(s') && ResumeIntact(s, refill.audits, {})
    ensures Good(s, s', if Selected(s, refill.audits).Some? then 1 else 0)
  {
    var debt := if Selected(s, refill.audits).Some? then 1 else 0;
    var successor, filled := WatchdogStages(s, s', refill, chosen, ok);
    AuditsGood(s, refill.audits);
    ReserveOnTop(s, AfterAudits(s, refill.audits), filled, successor, debt);
    GoodBump(s, filled, s', debt);
  }

  /** The slot a task gives back when it leaves. */
  function SlotOf(s: State, t: string): nat
    requires t in s.tasks
  {
    if Own(s, t) in Occupants(s) then 1 else 0
  }

  lemma ReleaseTokens(s: State, t: string)
    ensures TokensGrow(s, Release(s, t))
  {
  }

  lemma ReleaseCounts(s: State, t: string)
    requires Linked(s) && t in s.tasks
    ensures Occupancy(Release(s, t)) == Occupancy(s) - SlotOf(s, t)
  {
    ReleaseOccupies(s, t);
  }

  lemma ReleaseSlot(s: State, t: string)
    requires Inv(s) && t in s.tasks
    ensures MidInv(Release(s, t), {t})
    ensures Occupancy(Release(s, t)) == Occupancy(s) - SlotOf(s, t)
    ensures TokensGrow(s, Release(s, t))
  {
    ReleaseKeeps(s, t, {});
    assert {} + {t} == {t};
    ReleaseCounts(s, t);
    ReleaseTokens(s, t);
  }

  /** One when the audits resume some other task. */
  function ResumesOther(s: State, audits: seq<Audit>, t: string): nat {
    if Selected(s, audits).Some? && Selected(s, audits) != Some(t) then 1 else 0
  }

  /** Release, audit, optionally reserve: the state just before the task is closed. */
  ghost predicate Turnover(s: State, t: string, refill: Refill, filled: State)
  {
    && t in s.tasks
    && AuditsComplete(Release(s, t), refill.audits)
    && OptionalReserve(AfterAudits(Release(s, t), refill.audits), refill.successor) == Reserved(filled)
  }

  /** The state in the middle of a transaction that releases `t`. */
  ghost predicate Mid(s: State, mid: State, t: string) {
    && t in s.tasks && t in mid.tasks
    && MidInv(mid, {t}) && TokensGrow(s, mid) && mid.capacity == s.capacity
    && SameTaskHold(s.tasks[t], mid.tasks[t])
  }

  lemma ReleaseMid(s: State, t: string)
    requires Inv(s) && t in s.tasks
    ensures Mid(s, Release(s, t), t)
  {
    ReleaseSlot(s, t);
  }

  lemma AuditsMid(s: State, mid: State, t: string, audits: seq<Audit>)
    requires Mid(s, mid, t) && AuditsComplete(mid, audits) && ResumeIntact(mid, audits, {t})
    ensures Mid(s, AfterAudits(mid, audits), t)
  {
    AuditsKeep(mid, audits, {t});
    AuditsRewrite(mid, audits);
    RewriteTokens(mid, AfterAudits(mid, audits));
    TokensGrowOn(s, mid, AfterAudits(mid, audits));
  }

  lemma ResumedCounts(mid: State, t: string, audits: seq<Audit>)
    requires AuditsComplete(mid, audits)
    ensures |Resumed(mid, audits, {t})| == ResumesOther(mid, audits, t)
  {
    if Selected(mid, audits).Some? {
      SelectedIsResumable(mid, audits);
      assert Selected(mid, audits).value in mid.tasks;
    }
  }

  lemma DisjointCounts<T>(a: set<T>, b: set<T>)
    requires a !! b
    ensures |a + b| == |a| + |b|
  {
  }

  lemma AuditsMidCount(mid: State, t: string, audits: seq<Audit>)
    requires MidInv(mid, {t}) && AuditsComplete(mid, audits) && ResumeIntact(mid, audits, {t})
    ensures Occupancy(AfterAudits(mid, audits)) == Occupancy(mid) + ResumesOther(mid, audits, t)
  {
    AuditsOccupy(mid, audits, {t});
    ResumedCounts(mid, t, audits);
    DisjointCounts(Occupants(mid), Resumed(mid, audits, {t}));
  }

  lemma ReserveMid(s: State, mid: State, filled: State, t: string, successor: Option<Launch>)
    requires Mid(s, mid, t) && OptionalReserve(mid, successor) == Reserved(filled)
    ensures Mid(s, filled, t)
    ensures Occupancy(filled) == Occupancy(mid) + (if successor.Some? then 1 else 0)
    ensures successor.Some? ==> Occupancy(filled) <= s.capacity
  {
    if successor.Some? {
      ReserveKeeps(mid, successor.value, {t});
      ReservedTokens(mid, filled, {t});
      TokensGrowOn(s, mid, filled);
    }
  }

  lemma SelectedByTasks(a: State, b: State, audits: seq<Audit>, t: string)
    requires a.tasks == b.tasks
    ensures Selected(a, audits) == Selected(b, audits) && ResumesOther(a, audits, t) == ResumesOther(b, audits, t)
    ensures ResumeIntact(a, audits, {t}) == ResumeIntact(b, audits, {t})
  {
  }

  lemma AuditsMidFull(s: State, mid: State, audited: State, t: string, audits: seq<Audit>)
    requires Mid(s, mid, t) && AuditsComplete(mid, audits) && ResumeIntact(mid, audits, {t}) && audited == AfterAudits(mid, audits)
    ensures Mid(s, audited, t)
    ensures Occupancy(audited) == Occupancy(mid) + ResumesOther(mid, audits, t)
  {
    AuditsMid(s, mid, t, audits);
    AuditsMidCount(mid, t, audits);
  }

  lemma ReleaseMidFull(s: State, freed: State, t: string)
    requires Inv(s) && t in s.tasks && freed == Release(s, t)
    ensures Mid(s, freed, t) && Occupancy(freed) == Occupancy(s) - SlotOf(s, t) && freed.tasks == s.tasks
  {
    ReleaseMid(s, t);
    ReleaseSlot(s, t);
  }

  lemma TurnoverFills(s: State, t: string, refill: Refill, filled: State)
    requires Inv(s) && Turnover(s, t, refill, filled) && ResumeIntact(s, refill.audits, {t})
    ensures Mid(s, filled, t)
    ensures Occupancy(filled)
         == Occupancy(s) - SlotOf(s, t) + ResumesOther(s, refill.audits, t) + (if refill.successor.Some? then 1 else 0)
    ensures refill.successor.Some? ==> Occupancy(filled) <= s.capacity
  {
    var freed := Release(s, t);
    var audited := AfterAudits(freed, refill.audits);
    ReleaseMidFull(s, freed, t);
    SelectedByTasks(s, freed, refill.audits, t);
    AuditsMidFull(s, freed, audited, t, refill.audits);
    ReserveMid(s, audited, filled, t, refill.successor);
  }

  /** The released task leaves the holding states and the transaction is whole again. */
  lemma LeaveMid(s: State, mid: State, t: string, task: Task)
    requires Mid(s, mid, t) && SameTaskHold(mid.tasks[t], task) && !Holding(task.state)
    ensures Inv(SetTask(mid, t, task)) && TokensGrow(s, SetTask(mid, t, task))
    ensures Occupancy(SetTask(mid, t, task)) == Occupancy(mid)
  {
    CloseKeeps(mid, t, task, {t});
    CloseOccupies(mid, t, task, {t});
    assert {t} - {t} == {};
    RetaskRewrites(mid, t, task);
    RewriteTokens(mid, SetTask(mid, t, task));
    TokensGrowOn(s, mid, SetTask(mid, t, task));
  }

  lemma CloseMid(s: State, mid: State, t: string)
    requires Mid(s, mid, t)
    ensures Inv(Close(mid, t)) && TokensGrow(s, Close(mid, t)) && Occupancy(Close(mid, t)) == Occupancy(mid)
    ensures Close(mid, t).capacity == s.capacity
  {
    LeaveMid(s, mid, t, mid.tasks[t].(state := ArchivePending));
  }

  lemma ClosesGood(s: State, mid: State, t: string, s': State, debt: nat)
    requires Inv(s) && Mid(s, mid, t) && SameRows(Close(mid, t), s')
    requires Occupancy(mid) <= Occupancy(s) + debt || Occupancy(mid) <= s.capacity
    ensures Good(s, s', debt) && Occupancy(s') == Occupancy(mid)
  {
    CloseMid(s, mid, t);
    RowsGood(s, Close(mid, t), s', debt);
  }

  lemma RowsGood(s: State, a: State, b: State, debt: nat)
    requires Inv(a) && TokensGrow(s, a) && SameRows(a, b) && a.capacity == s.capacity
    requires Occupancy(a) <= Occupancy(s) + debt || Occupancy(a) <= s.capacity
    ensures Good(s, b, debt) && Occupancy(b) == Occupancy(a)
  {
    CoreKeeps(a, b, {});
  }

  /** The debt of a handback: a resume that no freed slot pays for. */
  function HandbackDebt(s: State, t: string, refill: Refill): nat
    requires t in s.tasks
  {
    if SlotOf(s, t) == 0 then ResumesOther(s, refill.audits, t) else 0
  }

  lemma HandbackTurnover(s: State, s': State, f: Fence, external: string, refill: Refill, ok: bool) returns (filled: State)
    requires TryHandback(s, f, external, refill, ok) == Ok(s')
    ensures FenceError(s, f, {Running, Blocked, Failed}).None?
    ensures Turnover(s, f.task, refill, filled) && SameRows(Close(filled, f.task), s')
    ensures refill.runnable > 0 ==> Occupancy(Close(filled, f.task)) == RefillTarget(s, f.task, refill)
    ensures refill.runnable == 0 ==> refill.successor.None?
  {
    filled := OptionalReserve(AfterAudits(Release(s, f.task), refill.audits), refill.successor).state;
  }

  lemma DebtCovers(s: State, t: string, refill: Refill, filled: State)
    requires t in s.tasks
    requires Occupancy(filled)
          == Occupancy(s) - SlotOf(s, t) + ResumesOther(s, refill.audits, t) + (if refill.successor.Some? then 1 else 0)
    requires refill.successor.Some? ==> Occupancy(filled) <= s.capacity
    ensures Occupancy(filled) <= Occupancy(s) + HandbackDebt(s, t, refill) || Occupancy(filled) <= s.capacity
  {
  }

  lemma HandbackGood(s: State, s': State, f: Fence, external: string, refill: Refill, ok: bool)
    requires Inv(s) && TryHandback(s, f, external, refill, ok) == Ok(s') && ResumeIntact(s, refill.audits, {f.task})
    ensures f.task in s.tasks && Good(s, s', HandbackDebt(s, f.task, refill))
    ensures Occupancy(s') == Occupancy(s) - SlotOf(s, f.task) + ResumesOther(s, refill.audits, f.task)
                           + (if refill.successor.Some? then 1 else 0)
  {
    var filled := HandbackTurnover(s, s', f, external, refill, ok);
    TurnoverFills(s, f.task, refill, filled);
    DebtCovers(s, f.task, refill, filled);
    ClosesGood(s, filled, f.task, s', HandbackDebt(s, f.task, refill));
  }

  lemma InterruptTurnover(s: State, s': State, f: Fence, external: string, refill: Refill, ok: bool) returns (filled: State)
    requires TryInterrupt(s, f, external, refill, ok) == Ok(s')
    ensures FenceError(s, f, {Running}).None?
    ensures Turnover(s, f.task, refill, filled) && SameRows(Close(filled, f.task), s')
  {
    filled := OptionalReserve(AfterAudits(Release(s, f.task), refill.audits), refill.successor).state;
  }

  lemma RunningSlot(s: State, f: Fence)
    requires Inv(s) && FenceError(s, f, {Running}).None?
    ensures f.task in s.tasks && SlotOf(s, f.task) == 1
  {
    FenceHolds(s, f, {Running});
    OccupantsAreOwn(s, f.task);
  }

  /** A freed slot pays for one resume, and a successor found room of its own. */
  lemma FreedSlotPays(s: State, t: string, refill: Refill, filled: State)
    requires Inv(s) && Turnover(s, t, refill, filled) && ResumeIntact(s, refill.audits, {t}) && SlotOf(s, t) == 1
    ensures Mid(s, filled, t) && (Occupancy(filled) <= Occupancy(s) || Occupancy(filled) <= s.capacity)
  {
    TurnoverFills(s, t, refill, filled);
  }

  lemma InterruptGood(s: State, s': State, f: Fence, external: string, refill: Refill, ok: bool)
    requires Inv(s) && TryInterrupt(s, f, external, refill, ok) == Ok(s') && ResumeIntact(s, refill.audits, {f.task})
    ensures Good(s, s', 0)
  {
    var filled := InterruptTurnover(s, s', f, external, refill, ok);
    RunningSlot(s, f);
    FreedSlotPays(s, f.task, refill, filled);
    ClosesGood(s, filled, f.task, s', 0);
  }

  lemma AuditsLeavePending(s: State, audits: seq<Audit>, t: string)
    requires Inv(s) && t in s.tasks && s.tasks[t].state == LaunchPending
    requires AuditsComplete(s, audits) && ResumeIntact(s, audits, {})
    ensures t in AfterAudits(s, audits).tasks && AfterAudits(s, audits).tasks[t].state == LaunchPending
    ensures SlotOf(AfterAudits(s, audits), t) == 1
  {
    AuditsGood(s, audits);
    AuditedTask(s, audits, t);
    OccupantsAreOwn(AfterAudits(s, audits), t);
  }

  lemma FailGood(s: State, t: string, audits: seq<Audit>)
    requires Inv(s) && t in s.tasks && s.tasks[t].state == LaunchPending
    requires AuditsComplete(s, audits) && ResumeIntact(s, audits, {})
    ensures Good(s, FailSetup(AfterAudits(s, audits), t), 0)
  {
    var audited := AfterAudits(s, audits);
    AuditsGood(s, audits);
    AuditsLeavePending(s, audits, t);
    FailFrom(audited, t);
    TokensGrowOn(s, audited, FailSetup(audited, t));
  }

  lemma FailFreed(s: State, freed: State, t: string)
    requires Mid(s, freed, t) && freed == Release(s, t)
    ensures Inv(FailSetup(s, t)) && TokensGrow(s, FailSetup(s, t)) && Occupancy(FailSetup(s, t)) == Occupancy(freed)
  {
    LeaveMid(s, freed, t, s.tasks[t].(state := Failed, outbox := Poisoned));
  }

  lemma FailFrom(s: State, t: string)
    requires Inv(s) && t in s.tasks
    ensures Inv(FailSetup(s, t)) && TokensGrow(s, FailSetup(s, t))
    ensures Occupancy(FailSetup(s, t)) == Occupancy(s) - SlotOf(s, t)
  {
    ReleaseMidFull(s, Release(s, t), t);
    FailFreed(s, Release(s, t), t);
  }

  lemma SetupFailureStages(
      s: State, s': State, f: Fence, refill: Refill, candidates: seq<Launch>, ok: bool) returns (last: State)
    requires TrySetupFailure(s, f, refill, candidates, ok) == Ok(s')
    ensures FenceError(s, f, {LaunchPending}).None? && AuditsComplete(s, refill.audits)
    ensures var failed := FailSetup(AfterAudits(s, refill.audits), f.task);
      var pick := FirstReservable(failed, Sort(candidates, CandidateLeq));
      SameRows(last, s') && (if pick.Picked? then last == pick.state else last == failed)
  {
    var failed := FailSetup(AfterAudits(s, refill.audits), f.task);
    var pick := FirstReservable(failed, Sort(candidates, CandidateLeq));
    last := if pick.Picked? then pick.state else failed;
  }

  lemma SetupFailureGood(s: State, s': State, f: Fence, refill: Refill, candidates: seq<Launch>, ok: bool)
    requires Inv(s) && TrySetupFailure(s, f, refill, candidates, ok) == Ok(s') && ResumeIntact(s, refill.audits, {})
    ensures Good(s, s', 0)
  {
    var last := SetupFailureStages(s, s', f, refill, candidates, ok);
    FenceHolds(s, f, {LaunchPending});
    FailGood(s, f.task, refill.audits);
    PickGood(s, FailSetup(AfterAudits(s, refill.audits), f.task), last, Sort(candidates, CandidateLeq));
    GoodBump(s, last, s', 0);
  }

  lemma PickGood(s: State, failed: State, last: State, candidates: seq<Launch>)
    requires Good(s, failed, 0)
    requires var pick := FirstReservable(failed, candidates); if pick.Picked? then last == pick.state else last == failed
    ensures Good(s, last, 0)
  {
    if FirstReservable(failed, candidates).Picked? {
      FirstReservableKeeps(failed, candidates, {});
      ReservedTokens(failed, last, {});
      TokensGrowOn(s, failed, last);
    }
  }
}
