/** What every operation of an authority keeps: each task has one claim, the claim is live
    exactly while the task holds its target, live claims never share a place, and fencing
    tokens are fresh and unique. */
module PlaneInvariants {
  import opened Basics
  import opened Sorting
  import opened Targets
  import opened PlaneModel

  function Own(s: State, t: string): ClaimId
    requires t in s.tasks
  {
    ClaimFor(t, s.tasks[t].target)
  }

  ghost predicate ClaimOk(s: State, c: ClaimId)
    requires c in s.claims
  {
    && s.claims[c].task == c.task
    && c.task in s.tasks
    && s.claims[c].target == s.tasks[c.task].target
    && c == ClaimFor(c.task, s.tasks[c.task].target)
  }

  /** Every task has exactly one claim row and every claim row belongs to its task. */
  ghost predicate Linked(s: State) {
    && (forall t | t in s.tasks :: Own(s, t) in s.claims)
    && (forall c | c in s.claims :: ClaimOk(s, c))
  }

  ghost predicate Live(s: State, c: ClaimId) {
    c in s.claims && s.claims[c].status == Active
  }

  /** A claim is live exactly while its task holds; `free` names tasks whose claim has been
      released ahead of their state inside a transaction. */
  ghost predicate Tracked(s: State, free: set<string>) {
    forall t | t in s.tasks :: Live(s, Own(s, t)) <==> (t !in free && Holding(s.tasks[t].state))
  }

  ghost predicate Disjoint(s: State) {
    forall c, d | Live(s, c) && Live(s, d) && c != d :: !Overlap(s.claims[c].target, s.claims[d].target)
  }

  /** Tokens are positive, below the next one, held by one task only, and the live claim
      carries its task's token and epoch. */
  ghost predicate Fenced(s: State) {
    && s.nextFence >= 1
    && (forall t | t in s.tasks :: 1 <= s.tasks[t].fence < s.nextFence)
    && (forall t, u | t in s.tasks && u in s.tasks && t != u :: s.tasks[t].fence != s.tasks[u].fence)
    && (forall c | Live(s, c) && s.claims[c].task in s.tasks ::
          s.claims[c].fence == s.tasks[s.claims[c].task].fence && s.claims[c].epoch == s.tasks[s.claims[c].task].epoch)
  }

  /** The invariant in the middle of a transaction, and between transactions. */
  ghost predicate MidInv(s: State, free: set<string>) {
    free <= s.tasks.Keys && Linked(s) && Tracked(s, free) && Disjoint(s) && Fenced(s)
  }

  ghost predicate Inv(s: State) {
    MidInv(s, {})
  }

  // ---------- edits that keep targets and tokens ----------

  ghost predicate SameTaskHold(a: Task, b: Task) {
    a.target == b.target && a.fence == b.fence && a.epoch == b.epoch
  }

  ghost predicate SameClaimHold(a: Claim, b: Claim) {
    && a.task == b.task && a.target == b.target && a.fence == b.fence && a.epoch == b.epoch
    && (b.status == Active ==> a.status == Active)
  }

  /** `s'` has the rows of `s` with the same targets and tokens and no newly live claim. */
  ghost predicate Rewrites(s: State, s': State) {
    && s'.tasks.Keys == s.tasks.Keys && s'.claims.Keys == s.claims.Keys && s'.nextFence == s.nextFence
    && (forall t | t in s.tasks :: SameTaskHold(s.tasks[t], s'.tasks[t]))
    && (forall c | c in s.claims :: SameClaimHold(s.claims[c], s'.claims[c]))
  }

  lemma RewriteLinks(s: State, s': State)
    requires Linked(s) && Rewrites(s, s')
    ensures Linked(s')
    ensures forall t | t in s.tasks :: Own(s', t) == Own(s, t)
  {
    forall t | t in s.tasks ensures Own(s', t) == Own(s, t) {
      assert SameTaskHold(s.tasks[t], s'.tasks[t]);
    }
    forall c | c in s'.claims ensures ClaimOk(s', c) {
      assert ClaimOk(s, c) && SameClaimHold(s.claims[c], s'.claims[c]) && SameTaskHold(s.tasks[c.task], s'.tasks[c.task]);
    }
  }

  /** Fewer live claims with the same targets stay apart. */
  lemma FewerDisjoint(s: State, s': State)
    requires Disjoint(s)
    requires forall c | Live(s', c) :: Live(s, c) && s'.claims[c].target == s.claims[c].target
    ensures Disjoint(s')
  {
  }

  lemma RewriteDisjoint(s: State, s': State)
    requires Disjoint(s) && Rewrites(s, s')
    ensures Disjoint(s')
  {
    forall c | Live(s', c) ensures Live(s, c) && s'.claims[c].target == s.claims[c].target {
      assert SameClaimHold(s.claims[c], s'.claims[c]);
    }
    FewerDisjoint(s, s');
  }

  lemma RewriteFences(s: State, s': State)
    requires Fenced(s) && Rewrites(s, s')
    ensures Fenced(s')
  {
    forall t | t in s.tasks ensures s'.tasks[t].fence == s.tasks[t].fence && s'.tasks[t].epoch == s.tasks[t].epoch {
      assert SameTaskHold(s.tasks[t], s'.tasks[t]);
    }
    forall c | Live(s', c) ensures Live(s, c) && SameClaimHold(s.claims[c], s'.claims[c]) {
      assert SameClaimHold(s.claims[c], s'.claims[c]);
    }
  }

  lemma RewriteKeeps(s: State, s': State, free: set<string>, free': set<string>)
    requires MidInv(s, free) && Rewrites(s, s') && free' <= s.tasks.Keys
    requires Tracked(s', free')
    ensures MidInv(s', free')
  {
    RewriteLinks(s, s');
    RewriteDisjoint(s, s');
    RewriteFences(s, s');
  }

  /** Only fields outside the tables changed. */
  lemma CoreKeeps(s: State, s': State, free: set<string>)
    requires MidInv(s, free) && s.tasks == s'.tasks && s.claims == s'.claims && s.nextFence == s'.nextFence
    ensures MidInv(s', free) && Occupants(s') == Occupants(s)
  {
    assert forall t | t in s.tasks :: Own(s', t) == Own(s, t) && Live(s', Own(s, t)) == Live(s, Own(s, t));
    RewriteKeeps(s, s', free, free);
  }

  lemma LinkedClaims(s: State, c: ClaimId, t: string)
    requires Linked(s) && c in s.claims && t in s.tasks
    ensures ClaimOk(s, c) && (s.claims[c].task == t <==> c == Own(s, t))
  {
    assert ClaimOk(s, c);
  }

  lemma RetaskRewrites(s: State, t: string, task: Task)
    requires Linked(s) && t in s.tasks && SameTaskHold(s.tasks[t], task)
    ensures Rewrites(s, SetTask(s, t, task))
    ensures forall u | u in s.tasks :: Own(SetTask(s, t, task), u) == Own(s, u)
  {
  }

  lemma RetaskTracked(s: State, t: string, task: Task, free: set<string>)
    requires Linked(s) && Tracked(s, free) && t in s.tasks && SameTaskHold(s.tasks[t], task)
    requires t in free || Holding(s.tasks[t].state) == Holding(task.state)
    ensures Tracked(SetTask(s, t, task), free)
  {
    var s' := SetTask(s, t, task);
    forall u | u in s'.tasks
      ensures Live(s', Own(s', u)) <==> (u !in free && Holding(s'.tasks[u].state))
    {
      assert Live(s', Own(s, u)) == Live(s, Own(s, u));
    }
  }

  lemma RetaskTracks(s: State, t: string, task: Task, free: set<string>)
    requires MidInv(s, free) && t in s.tasks && SameTaskHold(s.tasks[t], task)
    requires t in free || Holding(s.tasks[t].state) == Holding(task.state)
    ensures MidInv(SetTask(s, t, task), free)
  {
    RetaskRewrites(s, t, task);
    RetaskTracked(s, t, task, free);
    RewriteKeeps(s, SetTask(s, t, task), free, free);
  }

  lemma RetaskOccupant(s: State, t: string, task: Task, c: ClaimId)
    requires Linked(s) && t in s.tasks && c in s.claims
    ensures c in Occupants(SetTask(s, t, task))
       <==> if c == Own(s, t) then Live(s, c) && Busy(task.state) else c in Occupants(s)
  {
    LinkedClaims(s, c, t);
  }

  /** Changing a task's row moves the occupancy only through its own claim. */
  lemma RetaskOccupies(s: State, t: string, task: Task)
    requires Linked(s) && t in s.tasks && task.target == s.tasks[t].target
    ensures Occupants(SetTask(s, t, task))
         == Occupants(s) - {Own(s, t)} + (if Live(s, Own(s, t)) && Busy(task.state) then {Own(s, t)} else {})
  {
    forall c | c in s.claims
      ensures c in Occupants(SetTask(s, t, task))
         <==> if c == Own(s, t) then Live(s, c) && Busy(task.state) else c in Occupants(s)
    {
      RetaskOccupant(s, t, task, c);
    }
  }

  lemma ReleaseTracks(s: State, t: string, free: set<string>)
    requires Linked(s) && Tracked(s, free) && t in s.tasks
    ensures Rewrites(s, Release(s, t)) && Tracked(Release(s, t), free + {t})
  {
    var s' := Release(s, t);
    RewriteLinks(s, s');
    forall u | u in s.tasks ensures Live(s', Own(s, u)) <==> Live(s, Own(s, u)) && u != t {
      LinkedClaims(s, Own(s, u), t);
    }
  }

  lemma ReleaseKeeps(s: State, t: string, free: set<string>)
    requires MidInv(s, free) && t in s.tasks
    ensures MidInv(Release(s, t), free + {t})
  {
    ReleaseTracks(s, t, free);
    RewriteKeeps(s, Release(s, t), free, free + {t});
  }

  lemma ReleaseOccupies(s: State, t: string)
    requires Linked(s) && t in s.tasks
    ensures Occupants(Release(s, t)) == Occupants(s) - {Own(s, t)}
  {
    forall c | c in s.claims ensures s.claims[c].task == t <==> c == Own(s, t) {
      LinkedClaims(s, c, t);
    }
  }

  lemma CloseTracks(s: State, t: string, task: Task, free: set<string>)
    requires Linked(s) && Tracked(s, free) && t in s.tasks && t in free
    requires !Holding(task.state) && SameTaskHold(s.tasks[t], task)
    ensures Tracked(SetTask(s, t, task), free - {t})
  {
    var s' := SetTask(s, t, task);
    forall u | u in s'.tasks
      ensures Live(s', Own(s', u)) <==> (u !in free - {t} && Holding(s'.tasks[u].state))
    {
      assert Live(s', Own(s, u)) == Live(s, Own(s, u));
    }
  }

  /** Closing a task whose claim is already released brings it back in line. */
  lemma CloseKeeps(s: State, t: string, task: Task, free: set<string>)
    requires MidInv(s, free) && t in s.tasks && t in free && !Holding(task.state) && SameTaskHold(s.tasks[t], task)
    ensures MidInv(SetTask(s, t, task), free - {t})
  {
    RetaskRewrites(s, t, task);
    CloseTracks(s, t, task, free);
    RewriteKeeps(s, SetTask(s, t, task), free, free - {t});
  }

  lemma CloseOccupies(s: State, t: string, task: Task, free: set<string>)
    requires MidInv(s, free) && t in s.tasks && t in free && task.target == s.tasks[t].target
    ensures Occupants(SetTask(s, t, task)) == Occupants(s)
  {
    assert !Live(s, Own(s, t));
    RetaskOccupies(s, t, task);
  }

  // ---------- launching ----------

  /** One fresh task with one fresh live claim. */
  ghost predicate Admitted(s: State, l: Launch, s': State) {
    && l.task in s'.tasks
    && l.task !in s.tasks && ClaimFor(l.task, l.target) !in s.claims
    && s'.tasks == s.tasks[l.task := s'.tasks[l.task]]
    && s'.tasks[l.task].target == l.target && s'.tasks[l.task].state == LaunchPending
    && s'.tasks[l.task].fence == s.nextFence && s'.tasks[l.task].epoch == 1
    && s'.claims == s.claims[ClaimFor(l.task, l.target) := NewClaim(s, l)]
    && s'.nextFence == s.nextFence + 1
  }

  lemma AdmitLinks(s: State, l: Launch, s': State)
    requires Linked(s) && Admitted(s, l, s')
    ensures Linked(s')
  {
    forall c | c in s'.claims ensures ClaimOk(s', c) {
      if c != ClaimFor(l.task, l.target) {
        assert ClaimOk(s, c);
      }
    }
    assert forall t | t in s.tasks :: Own(s', t) == Own(s, t);
  }

  lemma AdmitDisjoint(s: State, l: Launch, s': State)
    requires Disjoint(s) && Admitted(s, l, s') && !Contested(s, l.target)
    ensures Disjoint(s')
  {
    var new_ := ClaimFor(l.task, l.target);
    forall c, d | Live(s', c) && Live(s', d) && c != d
      ensures !Overlap(s'.claims[c].target, s'.claims[d].target)
    {
      OverlapSymmetric(s'.claims[c].target, s'.claims[d].target);
      if c != new_ && d != new_ {
        assert Live(s, c) && Live(s, d);
      }
    }
  }

  lemma AdmitFenced(s: State, l: Launch, s': State)
    requires Fenced(s) && Linked(s) && Admitted(s, l, s')
    ensures Fenced(s')
  {
    forall c | Live(s', c) && s'.claims[c].task in s'.tasks
      ensures s'.claims[c].fence == s'.tasks[s'.claims[c].task].fence
      ensures s'.claims[c].epoch == s'.tasks[s'.claims[c].task].epoch
    {
      if c != ClaimFor(l.task, l.target) {
        assert Live(s, c) && ClaimOk(s, c);
      }
    }
  }

  lemma AdmitTracks(s: State, l: Launch, s': State, free: set<string>)
    requires MidInv(s, free) && Admitted(s, l, s')
    ensures Tracked(s', free)
  {
    forall t | t in s.tasks ensures Own(s', t) == Own(s, t) && Live(s', Own(s, t)) == Live(s, Own(s, t)) {}
  }

  lemma AdmitOccupies(s: State, l: Launch, s': State)
    requires Linked(s) && Admitted(s, l, s')
    ensures Occupants(s') == Occupants(s) + {ClaimFor(l.task, l.target)}
    ensures ClaimFor(l.task, l.target) !in Occupants(s)
  {
    forall c | c in s.claims ensures s.claims[c].task in s.tasks && s.claims[c].task != l.task {
      assert ClaimOk(s, c);
    }
  }

  lemma AdmitCounts(s: State, l: Launch, s': State)
    requires Linked(s) && Admitted(s, l, s')
    ensures Occupancy(s') == Occupancy(s) + 1
  {
    AdmitOccupies(s, l, s');
  }

  lemma AdmitKeeps(s: State, l: Launch, s': State, free: set<string>)
    requires MidInv(s, free) && Admitted(s, l, s') && !Contested(s, l.target)
    ensures MidInv(s', free)
    ensures Occupancy(s') == Occupancy(s) + 1
  {
    AdmitLinks(s, l, s');
    AdmitTracks(s, l, s', free);
    AdmitDisjoint(s, l, s');
    AdmitFenced(s, l, s');
    AdmitCounts(s, l, s');
  }

  lemma LaunchChecks(s: State, l: Launch)
    requires LaunchError(s, l).None?
    ensures l.task !in s.tasks && !Contested(s, l.target) && Occupancy(s) < s.capacity
  {
  }

  lemma AdmitAdmits(s: State, l: Launch, ids: seq<string>)
    requires Linked(s) && l.task !in s.tasks
    ensures Admitted(s, l, Admit(s, l, ids))
  {
    forall c | c in s.claims ensures c.task in s.tasks {
      assert ClaimOk(s, c);
    }
  }

  lemma ReserveAdmits(s: State, l: Launch)
    requires Linked(s) && Reserve(s, l).Reserved?
    ensures Admitted(s, l, Reserve(s, l).state)
    ensures !Contested(s, l.target) && Occupancy(s) < s.capacity && Reserve(s, l).state.capacity == s.capacity
  {
    LaunchChecks(s, l);
    AdmitAdmits(s, l, LaunchRules(s, l));
  }

  /** The reservation of a launch, as the rest of the proofs see it. */
  ghost predicate ReservedFrom(s: State, s': State, free: set<string>) {
    && MidInv(s', free) && s'.capacity == s.capacity
    && Occupancy(s') == Occupancy(s) + 1 <= s.capacity
    && s.tasks.Keys <= s'.tasks.Keys
    && (forall t | t in s.tasks :: s'.tasks[t] == s.tasks[t])
    && (forall t | t in s'.tasks && t !in s.tasks :: s'.tasks[t].fence == s.nextFence)
    && s'.nextFence == s.nextFence + 1
  }

  lemma AdmitRows(s: State, l: Launch, s': State)
    requires Admitted(s, l, s')
    ensures s.tasks.Keys <= s'.tasks.Keys
    ensures forall t | t in s.tasks :: s'.tasks[t] == s.tasks[t]
    ensures forall t | t in s'.tasks && t !in s.tasks :: s'.tasks[t].fence == s.nextFence
  {
  }

  lemma AdmittedReserves(s: State, l: Launch, s': State, free: set<string>)
    requires MidInv(s, free) && Admitted(s, l, s') && !Contested(s, l.target)
    requires Occupancy(s) < s.capacity == s'.capacity
    ensures ReservedFrom(s, s', free)
  {
    AdmitKeeps(s, l, s', free);
    AdmitRows(s, l, s');
  }

  lemma ReserveKeeps(s: State, l: Launch, free: set<string>)
    requires MidInv(s, free) && Reserve(s, l).Reserved?
    ensures ReservedFrom(s, Reserve(s, l).state, free)
  {
    ReserveAdmits(s, l);
    AdmittedReserves(s, l, Reserve(s, l).state, free);
  }

  lemma {:induction false} FirstReservableKeeps(s: State, candidates: seq<Launch>, free: set<string>)
    requires MidInv(s, free) && FirstReservable(s, candidates).Picked?
    ensures ReservedFrom(s, FirstReservable(s, candidates).state, free)
  {
    var first := Reserve(s, candidates[0]);
    if first.Reserved? {
      ReserveKeeps(s, candidates[0], free);
    } else {
      FirstReservableKeeps(s, candidates[1..], free);
    }
  }

  // ---------- blocked queue ----------

  /** The task that is resumed was not archived in the same set of audits, unless the
      transaction has released its claim anyway. */
  predicate ResumeIntact(s: State, audits: seq<Audit>, free: set<string>) {
    var selected := Selected(s, audits);
    selected.Some? ==> selected.value in free || selected.value !in AuditedAs(audits, Archive)
  }

  lemma SelectedIsResumable(s: State, audits: seq<Audit>)
    requires Selected(s, audits).Some?
    ensures Selected(s, audits).value in AuditedAs(audits, Resume)
    ensures Selected(s, audits).value in Audited(audits)
  {
    var resumable := Map(Filter(audits, HasVerdict(Resume)), AuditTask());
    SortMembers(resumable, ResumeOrder(s.tasks));
    assert ResumeRanking(s, audits)[0] in resumable;
    MapMember(Filter(audits, HasVerdict(Resume)), AuditTask(), Selected(s, audits).value);
    var i :| 0 <= i < |Filter(audits, HasVerdict(Resume))|
      && AuditTask()(Filter(audits, HasVerdict(Resume))[i]) == Selected(s, audits).value;
    assert Filter(audits, HasVerdict(Resume))[i] in audits;
  }

  lemma AuditsRewrite(s: State, audits: seq<Audit>)
    requires Linked(s)
    ensures Rewrites(s, AfterAudits(s, audits))
    ensures forall t | t in s.tasks ::
      && Own(AfterAudits(s, audits), t) == Own(s, t)
      && (Live(AfterAudits(s, audits), Own(s, t)) <==> Live(s, Own(s, t)) && t !in AuditedAs(audits, Archive))
  {
    forall t | t in s.tasks ensures s.claims[Own(s, t)].task == t {
      LinkedClaims(s, Own(s, t), t);
    }
  }

  /** Exactly when the audits keep the claims in step: the match between claims and states breaks
      if and only if the one task that is resumed was archived by the same audits and its claim
      had not been released before. */
  lemma AuditsTrackExactly(s: State, audits: seq<Audit>, free: set<string>)
    requires MidInv(s, free) && AuditsComplete(s, audits)
    ensures Tracked(AfterAudits(s, audits), free) <==> ResumeIntact(s, audits, free)
  {
    AuditsRewrite(s, audits);
    if ResumeIntact(s, audits, free) {
      AuditsTrack(s, audits, free);
    } else {
      SelectedIsResumable(s, audits);
      var x := Selected(s, audits).value;
      assert x in s.tasks && AfterAudits(s, audits).tasks[x].state == Running;
    }
  }

  /** What the audits do to one task and its claim. */
  lemma AuditedTask(s: State, audits: seq<Audit>, t: string)
    requires Linked(s) && AuditsComplete(s, audits) && t in s.tasks
    ensures var s' := AfterAudits(s, audits);
      && s'.tasks[t].state == AuditedState(s, audits, t)
      && (t in Audited(audits) <==> s.tasks[t].state == Blocked)
      && (t in AuditedAs(audits, Archive) ==> t in Audited(audits))
      && (Selected(s, audits) == Some(t) ==> t in Audited(audits))
  {
    if Selected(s, audits).Some? {
      SelectedIsResumable(s, audits);
    }
  }

  lemma AuditsTrack(s: State, audits: seq<Audit>, free: set<string>)
    requires MidInv(s, free) && AuditsComplete(s, audits) && ResumeIntact(s, audits, free)
    ensures Tracked(AfterAudits(s, audits), free)
  {
    AuditsRewrite(s, audits);
    var s' := AfterAudits(s, audits);
    forall t | t in s'.tasks
      ensures Live(s', Own(s', t)) <==> (t !in free && Holding(s'.tasks[t].state))
    {
      AuditedTask(s, audits, t);
      TrackCases(s, s', t, Selected(s, audits) == Some(t), t in AuditedAs(audits, Archive), t in free);
    }
  }

  lemma TrackCases(s: State, s': State, t: string, selected: bool, archived: bool, freed: bool)
    requires t in s.tasks && t in s'.tasks && Own(s', t) == Own(s, t)
    requires Live(s', Own(s, t)) <==> Live(s, Own(s, t)) && !archived
    requires Live(s, Own(s, t)) <==> !freed && Holding(s.tasks[t].state)
    requires s'.tasks[t].state == if selected then Running else if archived then Archived else s.tasks[t].state
    requires selected || archived ==> s.tasks[t].state == Blocked
    requires selected && archived ==> freed
    ensures Live(s', Own(s', t)) <==> !freed && Holding(s'.tasks[t].state)
  {
  }

  lemma AuditsKeep(s: State, audits: seq<Audit>, free: set<string>)
    requires MidInv(s, free) && AuditsComplete(s, audits) && ResumeIntact(s, audits, free)
    ensures MidInv(AfterAudits(s, audits), free)
  {
    AuditsRewrite(s, audits);
    AuditsTrack(s, audits, free);
    RewriteKeeps(s, AfterAudits(s, audits), free, free);
  }

  /** What a resumed task adds to the occupants. */
  function Resumed(s: State, audits: seq<Audit>, free: set<string>): set<ClaimId>
    requires AuditsComplete(s, audits)
  {
    var selected := Selected(s, audits);
    if selected.Some? && selected.value !in free && selected.value in s.tasks then {Own(s, selected.value)} else {}
  }

  lemma OccupantsAreOwn(s: State, t: string)
    requires Linked(s) && t in s.tasks
    ensures Own(s, t) in Occupants(s) <==> Live(s, Own(s, t)) && Busy(s.tasks[t].state)
  {
    LinkedClaims(s, Own(s, t), t);
  }

  /** The task's claim is the old one and occupies a slot if it did before or was added. */
  ghost predicate OccupantAdds(s: State, s': State, added: set<ClaimId>, t: string)
    requires t in s.tasks
  {
    && t in s'.tasks && Own(s', t) == Own(s, t)
    && (Own(s', t) in Occupants(s') <==> Own(s, t) in Occupants(s) || Own(s, t) in added)
  }

  ghost predicate OccupantsAdd(s: State, s': State, added: set<ClaimId>) {
    forall t | t in s.tasks :: OccupantAdds(s, s', added, t)
  }

  /** Who occupies a slot changes only by the set `added` when every task says so. */
  lemma OccupantsByTask(s: State, s': State, added: set<ClaimId>)
    requires Linked(s) && Linked(s') && s.tasks.Keys == s'.tasks.Keys && OccupantsAdd(s, s', added)
    requires forall c | c in added :: c in s.claims
    ensures Occupants(s') == Occupants(s) + added
  {
    forall c ensures c in Occupants(s') <==> c in Occupants(s) + added {
      if c in s.claims && s.claims[c].task in s.tasks {
        assert OccupantAdds(s, s', added, s.claims[c].task);
      }
      if c in s'.claims {
        assert s'.claims[c].task in s.tasks ==> OccupantAdds(s, s', added, s'.claims[c].task);
        LinkedClaims(s', c, s'.claims[c].task);
      }
      if c in s.claims {
        LinkedClaims(s, c, s.claims[c].task);
      }
    }
  }

  /** One task across the audits, once what happens to its row and its claim is known. */
  lemma OccupantCases(s: State, s': State, t: string, selected: bool, archived: bool, freed: bool)
    requires Linked(s) && Linked(s') && t in s.tasks && t in s'.tasks && Own(s', t) == Own(s, t)
    requires Live(s', Own(s, t)) <==> Live(s, Own(s, t)) && !archived
    requires Live(s, Own(s, t)) <==> !freed && Holding(s.tasks[t].state)
    requires s'.tasks[t].state == if selected then Running else if archived then Archived else s.tasks[t].state
    requires selected || archived ==> s.tasks[t].state == Blocked
    requires selected && archived ==> freed
    ensures Own(s', t) in Occupants(s') <==> Own(s, t) in Occupants(s) || (selected && !freed)
    ensures !(Own(s, t) in Occupants(s) && selected)
  {
    OccupantsAreOwn(s, t);
    OccupantsAreOwn(s', t);
  }

  lemma AuditedOccupant(s: State, audits: seq<Audit>, free: set<string>, t: string)
    requires MidInv(s, free) && AuditsComplete(s, audits) && ResumeIntact(s, audits, free) && t in s.tasks
    ensures var s' := AfterAudits(s, audits);
      && Linked(s') && Own(s', t) == Own(s, t)
      && (Own(s', t) in Occupants(s') <==> Own(s, t) in Occupants(s) || (Selected(s, audits) == Some(t) && t !in free))
      && !(Own(s, t) in Occupants(s) && Selected(s, audits) == Some(t))
  {
    AuditsRewrite(s, audits);
    RewriteLinks(s, AfterAudits(s, audits));
    AuditedTask(s, audits, t);
    OccupantCases(s, AfterAudits(s, audits), t, Selected(s, audits) == Some(t), t in AuditedAs(audits, Archive), t in free);
  }

  lemma ResumedOwns(s: State, audits: seq<Audit>, free: set<string>, t: string)
    requires Linked(s) && AuditsComplete(s, audits) && t in s.tasks
    ensures Own(s, t) in Resumed(s, audits, free) <==> Selected(s, audits) == Some(t) && t !in free
  {
  }

  lemma ResumedIsNew(s: State, audits: seq<Audit>, free: set<string>)
    requires MidInv(s, free) && AuditsComplete(s, audits) && ResumeIntact(s, audits, free)
    ensures Occupants(s) !! Resumed(s, audits, free)
  {
    if c :| c in Occupants(s) && c in Resumed(s, audits, free) {
      AuditedOccupant(s, audits, free, Selected(s, audits).value);
    }
  }

  lemma ResumedIsClaim(s: State, audits: seq<Audit>, free: set<string>)
    requires Linked(s) && AuditsComplete(s, audits)
    ensures forall c | c in Resumed(s, audits, free) :: c in s.claims
  {
  }

  lemma AuditedOccupants(s: State, audits: seq<Audit>, free: set<string>)
    requires MidInv(s, free) && AuditsComplete(s, audits) && ResumeIntact(s, audits, free)
    ensures OccupantsAdd(s, AfterAudits(s, audits), Resumed(s, audits, free))
  {
    forall t | t in s.tasks ensures OccupantAdds(s, AfterAudits(s, audits), Resumed(s, audits, free), t) {
      AuditedOccupant(s, audits, free, t);
      ResumedOwns(s, audits, free, t);
    }
  }

  /** The resumed task, if its claim is live, is the only one that joins the occupants. */
  lemma AuditsOccupy(s: State, audits: seq<Audit>, free: set<string>)
    requires MidInv(s, free) && AuditsComplete(s, audits) && ResumeIntact(s, audits, free)
    ensures Occupants(AfterAudits(s, audits)) == Occupants(s) + Resumed(s, audits, free)
    ensures Occupants(s) !! Resumed(s, audits, free)
  {
    AuditsRewrite(s, audits);
    RewriteLinks(s, AfterAudits(s, audits));
    AuditedOccupants(s, audits, free);
    ResumedIsClaim(s, audits, free);
    OccupantsByTask(s, AfterAudits(s, audits), Resumed(s, audits, free));
    ResumedIsNew(s, audits, free);
  }
}
