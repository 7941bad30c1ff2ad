/** What one authority keeps by itself, whatever it is sent: its step table explains its
    standing, finalizing and activating are for good, and a frozen authority is drained. */
module FederationLocal {
  import opened Basics
  import opened Identifiers
  import opened Sorting
  import opened Federation
  import PlaneReplay
  import PlaneRuns
  import P = PlaneModel

  // ---------- member rows ----------

  lemma {:induction false} StagedRows(sources: seq<Shown>, t: string)
    ensures var rows := Map(sources, RowOf(t));
      && Filter(rows, InTransfer(t)) == rows && Filter(rows, NotInTransfer(t)) == []
      && TotalCapacity(rows) == ShownCapacity(sources)
  {
    if sources != [] {
      StagedRows(sources[1..], t);
      MapHead(sources, RowOf(t));
    }
  }

  lemma StagedIds(sources: seq<Shown>, t: string)
    ensures Ids(Map(sources, RowOf(t))) == Subjects(sources)
  {
    var rows := Map(sources, RowOf(t));
    forall x ensures x in Ids(rows) <==> x in Subjects(sources) {
      if x in Ids(rows) {
        var i :| 0 <= i < |rows| && rows[i].id == x;
        assert sources[i] in sources;
      }
      if x in Subjects(sources) {
        var i :| 0 <= i < |sources| && sources[i].receipt.subject == x;
        assert rows[i] in rows;
      }
    }
  }

  lemma FinalizedIds(rows: seq<Member>, sources: seq<Shown>, t: string)
    ensures Ids(Map(rows, Finalized(sources, t))) == Ids(rows)
  {
    var done := Map(rows, Finalized(sources, t));
    forall x ensures x in Ids(done) <==> x in Ids(rows) {
      if x in Ids(done) {
        var i :| 0 <= i < |done| && done[i].id == x;
        assert rows[i] in rows;
      }
      if x in Ids(rows) {
        var i :| 0 <= i < |rows| && rows[i].id == x;
        assert done[i] in done;
      }
    }
  }

  // ---------- the invariant ----------

  /** What a recorded step says about the request and the receipt it issued. */
  ghost predicate RecordOk(id: string, k: StepKey, rec: Record) {
    && KeyOf(rec.request) == k && SchemaOk(rec.request)
    && rec.result.transfer == k.transfer && rec.result.phase == k.phase && rec.result.subject == id
    && match rec.request
       case Prepare(_, _, target, _, _, _) => rec.result.target == target != id && rec.result.members == {id}
       case Stage(_, transfer, _, sources, _, _) =>
         && rec.result.target == id && rec.result.members == Subjects(sources) && id !in Subjects(sources)
         && AllFromSources(id, transfer, SourcePrepared, sources) && rec.result.capacity == ShownCapacity(sources)
       case Finalize(_, transfer, Shown(stage, _), _) =>
         && rec.result.target == stage.target == stage.subject && stage.phase == TargetStaged
         && stage.transfer == transfer && id in stage.members && rec.result.members == {id}
       case Activate(_, transfer, sources, _, _) =>
         && rec.result.target == id && rec.result.members == Subjects(sources)
         && AllFromSources(id, transfer, SourceFinalized, sources)
       case Enable(_, transfer, Shown(activation, _), _) =>
         && rec.result.target == activation.target == activation.subject && activation.phase == TargetActive
         && activation.transfer == transfer && id in activation.members && rec.result.members == {id}
       case Abort(_, _, _, _, _, _, _, _) => rec.result.target == id && rec.result.members == {}
  }

  /** What an authority puts on a receipt has passed validation before. */
  lemma RecordNamed(id: string, k: StepKey, rec: Record)
    requires RecordOk(id, k, rec) && Identifier(id)
    ensures Named(rec.result) && Identifier(k.transfer)
  {
    forall s | s in Shows(rec.request) ensures Identifier(s.receipt.subject) && Identifier(s.receipt.target) {
      assert ReceiptValid(s.receipt);
    }
    if rec.request.Finalize? {
      assert rec.request.stage in Shows(rec.request);
    } else if rec.request.Enable? {
      assert rec.request.activation in Shows(rec.request);
    }
  }

  ghost predicate Did(a: Authority, t: string, phase: Phase) { StepKey(t, phase) in a.steps }

  ghost function StepOf(a: Authority, t: string, phase: Phase): Record
    requires Did(a, t, phase)
  {
    a.steps[StepKey(t, phase)]
  }

  /** It gave the transfer up while it was a prepared source. */
  ghost predicate AbortedAsSource(a: Authority, t: string) {
    Did(a, t, Aborted) && StepOf(a, t, Aborted).request.Abort? && StepOf(a, t, Aborted).request.expected == Prepared
  }

  /** It gave the transfer up after staging it. */
  ghost predicate AbortedAsTarget(a: Authority, t: string) {
    Did(a, t, Aborted) && StepOf(a, t, Aborted).request.Abort? && StepOf(a, t, Aborted).request.expected == Staged
  }

  ghost predicate Rooted(a: Authority) {
    a.standing == ActiveRoot && a.parent.None? && a.transfer.None? && a.members == []
  }

  ghost predicate PreparedOk(a: Authority, t: string) {
    && Did(a, t, SourcePrepared) && !Did(a, t, SourceFinalized) && !AbortedAsSource(a, t)
    && a.parent.None? && a.members == []
    && P.Occupancy(a.plane) == 0 && a.plane.capacity == StepOf(a, t, SourcePrepared).result.capacity
  }

  ghost predicate StagedOk(a: Authority, t: string) {
    && Did(a, t, TargetStaged) && !Did(a, t, TargetActive) && !AbortedAsTarget(a, t)
    && a.parent.None? && P.Occupancy(a.plane) == 0
    && StepOf(a, t, TargetStaged).request.Stage?
    && a.members == Map(StepOf(a, t, TargetStaged).request.sources, RowOf(t))
  }

  ghost predicate DemotedOk(a: Authority, t: string) {
    && Did(a, t, SourcePrepared) && Did(a, t, SourceFinalized) && a.members == []
    && a.parent == Some(StepOf(a, t, SourceFinalized).result.target)
  }

  ghost predicate PendingOk(a: Authority, t: string) {
    && DemotedOk(a, t) && !Did(a, t, SubordinateActive)
    && P.Occupancy(a.plane) == 0 && a.plane.capacity == StepOf(a, t, SourcePrepared).result.capacity
  }

  ghost predicate EnabledOk(a: Authority, t: string) {
    DemotedOk(a, t) && Did(a, t, SubordinateActive) && a.parent == Some(StepOf(a, t, SubordinateActive).result.target)
  }

  ghost predicate LeadingOk(a: Authority, t: string) {
    && Did(a, t, TargetStaged) && Did(a, t, TargetActive) && a.parent.None? && P.Occupancy(a.plane) == 0
    && StepOf(a, t, TargetStaged).request.Stage? && StepOf(a, t, TargetActive).request.Activate?
    && Ids(a.members) == StepOf(a, t, TargetActive).result.members
       == Subjects(StepOf(a, t, TargetStaged).request.sources)
    && StepOf(a, t, TargetActive).result.capacity == ShownCapacity(StepOf(a, t, TargetStaged).request.sources)
  }

  /** The step table explains where the authority stands. */
  ghost predicate StandingOk(a: Authority) {
    match a.standing
    case ActiveRoot => Rooted(a)
    case Prepared => a.transfer.Some? && PreparedOk(a, a.transfer.value)
    case Staged => a.transfer.Some? && StagedOk(a, a.transfer.value)
    case Pending => a.transfer.Some? && PendingOk(a, a.transfer.value)
    case Subordinate => a.transfer.Some? && EnabledOk(a, a.transfer.value)
    case FederationRoot => a.transfer.Some? && LeadingOk(a, a.transfer.value)
  }

  ghost predicate SettledAt(a: Authority, t: string) {
    && (Did(a, t, SourceFinalized) ==> a.standing in {Pending, Subordinate} && a.transfer == Some(t))
    && (Did(a, t, SubordinateActive) ==> a.standing == Subordinate && a.transfer == Some(t))
    && (Did(a, t, TargetActive) ==> a.standing == FederationRoot && a.transfer == Some(t))
    && (AbortedAsSource(a, t) ==> Did(a, t, SourcePrepared) && !Did(a, t, SourceFinalized))
    && (AbortedAsTarget(a, t) ==> Did(a, t, TargetStaged) && !Did(a, t, TargetActive))
  }

  /** Demotion and activation are for good; an aborted source never finalizes and an aborted
      target never activates. */
  ghost predicate Settled(a: Authority) {
    forall t :: SettledAt(a, t)
  }

  ghost predicate RecordsOk(a: Authority) {
    forall k | k in a.steps :: RecordOk(a.id, k, a.steps[k])
  }

  ghost predicate LocalOk(a: Authority) {
    RecordsOk(a) && StandingOk(a) && Settled(a) && 1 <= a.plane.capacity <= 64
  }

  // ---------- it holds from the start ----------

  lemma NewIsOk(id: string, plane: P.State)
    requires Fresh(plane)
    ensures LocalOk(NewAuthority(id, plane))
  {
  }

  // ---------- transfer steps keep it ----------

  /** The step went ahead. */
  ghost predicate Commits(a: Authority, req: Transfer, b: Authority) {
    Handle(a, req) == Reply(b, Issued(ResultOf(a, req))) && KeyOf(req) !in a.steps
  }

  lemma HandleCases(a: Authority, req: Transfer)
    ensures Handle(a, req).answer.Issued? <==> Commits(a, req, Handle(a, req).authority)
    ensures !Handle(a, req).answer.Issued? ==> Handle(a, req).authority == a
  {
  }

  lemma CommitShape(a: Authority, req: Transfer, b: Authority)
    requires Commits(a, req, b)
    ensures SchemaOk(req) && StepError(a, req).None?
    ensures b == Moved(a, req).(steps := a.steps[KeyOf(req) := Record(req, ResultOf(a, req))])
    ensures b.id == a.id && b.plane == P.Bump(a.plane, 1) && P.Occupancy(b.plane) == P.Occupancy(a.plane)
  {
    assert P.Occupants(P.Bump(a.plane, 1)) == P.Occupants(a.plane);
  }

  lemma NewRecordOk(a: Authority, req: Transfer)
    requires LocalOk(a) && SchemaOk(req) && StepError(a, req).None?
    ensures RecordOk(a.id, KeyOf(req), Record(req, ResultOf(a, req)))
  {
    if req.Activate? {
      StagedRows(StepOf(a, req.transfer, TargetStaged).request.sources, req.transfer);
    }
  }

  lemma CommitRecords(a: Authority, req: Transfer, b: Authority)
    requires LocalOk(a) && Commits(a, req, b)
    ensures RecordsOk(b)
  {
    CommitShape(a, req, b);
    NewRecordOk(a, req);
  }

  /** `b` is `a` with one more step on record. */
  ghost predicate Grew(a: Authority, k: StepKey, rec: Record, b: Authority) {
    k !in a.steps && b.steps == a.steps[k := rec] && KeyOf(rec.request) == k
  }

  lemma GrewSteps(a: Authority, k: StepKey, rec: Record, b: Authority, t: string, phase: Phase)
    requires Grew(a, k, rec, b)
    ensures Did(b, t, phase) <==> Did(a, t, phase) || k == StepKey(t, phase)
    ensures Did(a, t, phase) ==> StepOf(b, t, phase) == StepOf(a, t, phase)
  {
  }

  /** From a standing without a settled step, only the new step can settle anything. */
  lemma GrewSettled(a: Authority, k: StepKey, rec: Record, b: Authority, t: string)
    requires Grew(a, k, rec, b) && SettledAt(a, t)
    requires a.standing != Pending && a.standing != Subordinate && a.standing != FederationRoot
    requires k.phase == SourceFinalized ==> b.standing == Pending && b.transfer == Some(k.transfer) && !AbortedAsSource(a, k.transfer)
    requires k.phase == TargetActive ==>
      b.standing == FederationRoot && b.transfer == Some(k.transfer) && !AbortedAsTarget(a, k.transfer)
    requires k.phase != SubordinateActive
    requires k.phase == Aborted && rec.request.Abort? && rec.request.expected == Staged ==>
      Did(a, k.transfer, TargetStaged) && !Did(a, k.transfer, TargetActive)
    requires k.phase == Aborted && rec.request.Abort? && rec.request.expected == Prepared ==>
      Did(a, k.transfer, SourcePrepared) && !Did(a, k.transfer, SourceFinalized)
    ensures SettledAt(b, t)
  {
    GrewSteps(a, k, rec, b, t, SourceFinalized);
    GrewSteps(a, k, rec, b, t, SubordinateActive);
    GrewSteps(a, k, rec, b, t, TargetActive);
    GrewSteps(a, k, rec, b, t, SourcePrepared);
    GrewSteps(a, k, rec, b, t, TargetStaged);
    GrewSteps(a, k, rec, b, t, Aborted);
  }

  lemma EnableSettled(a: Authority, k: StepKey, rec: Record, b: Authority, t: string)
    requires Grew(a, k, rec, b) && SettledAt(a, t) && k.phase == SubordinateActive
    requires a.standing == Pending && b.standing == Subordinate && a.transfer == b.transfer == Some(k.transfer)
    ensures SettledAt(b, t)
  {
    GrewSteps(a, k, rec, b, t, SourceFinalized);
    GrewSteps(a, k, rec, b, t, SubordinateActive);
    GrewSteps(a, k, rec, b, t, TargetActive);
    GrewSteps(a, k, rec, b, t, SourcePrepared);
    GrewSteps(a, k, rec, b, t, TargetStaged);
    GrewSteps(a, k, rec, b, t, Aborted);
  }

  /** Where a committed step leads, by kind. */
  lemma CommitMoves(a: Authority, req: Transfer, b: Authority)
    requires Commits(a, req, b)
    ensures Grew(a, KeyOf(req), Record(req, ResultOf(a, req)), b)
    ensures req.Prepare? || req.Stage? ==> a.standing == ActiveRoot
    ensures req.Finalize? ==> a.standing == Prepared && b.standing == Pending && a.transfer == b.transfer == Some(req.transfer)
    ensures req.Activate? ==> a.standing == Staged && b.standing == FederationRoot && a.transfer == b.transfer == Some(req.transfer)
    ensures req.Enable? ==> a.standing == Pending && b.standing == Subordinate && a.transfer == b.transfer == Some(req.transfer)
    ensures req.Abort? ==> a.standing == req.expected && a.transfer == Some(req.transfer) && req.expected in {Prepared, Staged}
  {
    CommitShape(a, req, b);
  }

  lemma CommitSettles(a: Authority, req: Transfer, b: Authority)
    requires LocalOk(a) && Commits(a, req, b)
    ensures Settled(b)
  {
    CommitMoves(a, req, b);
    forall t ensures SettledAt(b, t) {
      assert SettledAt(a, t);
      if req.Enable? {
        EnableSettled(a, KeyOf(req), Record(req, ResultOf(a, req)), b, t);
      } else {
        GrewSettled(a, KeyOf(req), Record(req, ResultOf(a, req)), b, t);
      }
    }
  }

  lemma PrepareStands(a: Authority, req: Transfer, b: Authority)
    requires LocalOk(a) && Commits(a, req, b) && req.Prepare?
    ensures StandingOk(b)
  {
    CommitShape(a, req, b);
    assert SettledAt(a, req.transfer);
  }

  /** A root stages: it has no rows of its own before. */
  lemma StageShape(a: Authority, req: Transfer, b: Authority)
    requires LocalOk(a) && Commits(a, req, b) && req.Stage?
    ensures Rooted(a)
    ensures b == a.(standing := Staged, epoch := a.epoch + 1, transfer := Some(req.transfer),
                    plane := P.Bump(a.plane, 1), members := Map(req.sources, RowOf(req.transfer)),
                    steps := a.steps[KeyOf(req) := Record(req, ResultOf(a, req))])
    ensures P.Occupancy(b.plane) == P.Occupancy(a.plane) == 0
  {
    CommitShape(a, req, b);
    assert [] + Map(req.sources, RowOf(req.transfer)) == Map(req.sources, RowOf(req.transfer));
  }

  lemma StageStands(a: Authority, req: Transfer, b: Authority)
    requires LocalOk(a) && Commits(a, req, b) && req.Stage?
    ensures StandingOk(b)
  {
    StageShape(a, req, b);
    assert SettledAt(a, req.transfer);
    assert StagedOk(b, req.transfer);
  }

  lemma FinalizeStands(a: Authority, req: Transfer, b: Authority)
    requires LocalOk(a) && Commits(a, req, b) && req.Finalize?
    ensures StandingOk(b)
  {
    CommitShape(a, req, b);
    assert SettledAt(a, req.transfer);
  }

  lemma EnableStands(a: Authority, req: Transfer, b: Authority)
    requires LocalOk(a) && Commits(a, req, b) && req.Enable?
    ensures StandingOk(b)
  {
    CommitShape(a, req, b);
    assert PendingOk(a, req.transfer);
    assert EnabledOk(b, req.transfer);
  }

  lemma ActivateShape(a: Authority, req: Transfer, b: Authority)
    requires LocalOk(a) && Commits(a, req, b) && req.Activate?
    ensures StagedOk(a, req.transfer) && Subjects(req.sources) == Ids(Filter(a.members, InTransfer(req.transfer)))
    ensures b == a.(standing := FederationRoot, epoch := a.epoch + 1, parent := None, transfer := Some(req.transfer),
                    plane := P.Bump(a.plane, 1), members := Map(a.members, Finalized(req.sources, req.transfer)),
                    steps := a.steps[KeyOf(req) := Record(req, ResultOf(a, req))])
    ensures ResultOf(a, req).members == Ids(Filter(a.members, InTransfer(req.transfer)))
    ensures ResultOf(a, req).capacity == TotalCapacity(Filter(a.members, InTransfer(req.transfer)))
    ensures P.Occupancy(b.plane) == P.Occupancy(a.plane)
  {
    CommitShape(a, req, b);
    assert a.standing == Staged && a.transfer == Some(req.transfer);
    assert StagedOk(a, req.transfer);
  }

  /** The rows a staged authority has, counted. */
  lemma StagedCounts(a: Authority, t: string)
    requires StagedOk(a, t)
    ensures var staged := StepOf(a, t, TargetStaged).request.sources;
      && Filter(a.members, InTransfer(t)) == a.members && Ids(a.members) == Subjects(staged)
      && TotalCapacity(a.members) == ShownCapacity(staged)
  {
    var staged := StepOf(a, t, TargetStaged).request.sources;
    StagedRows(staged, t);
    StagedIds(staged, t);
  }

  lemma ActivateRecords(a: Authority, req: Transfer, b: Authority)
    requires StagedOk(a, req.transfer) && Commits(a, req, b) && req.Activate?
    ensures Did(b, req.transfer, TargetActive)
    ensures StepOf(b, req.transfer, TargetActive) == Record(req, ResultOf(a, req))
    ensures Did(b, req.transfer, TargetStaged)
    ensures StepOf(b, req.transfer, TargetStaged) == StepOf(a, req.transfer, TargetStaged)
  {
    CommitMoves(a, req, b);
    GrewSteps(a, KeyOf(req), Record(req, ResultOf(a, req)), b, req.transfer, TargetStaged);
  }

  lemma ActivateLeads(a: Authority, req: Transfer, b: Authority)
    requires LocalOk(a) && Commits(a, req, b) && req.Activate?
    ensures LeadingOk(b, req.transfer)
  {
    ActivateShape(a, req, b);
    ActivateRecords(a, req, b);
    StagedCounts(a, req.transfer);
    FinalizedIds(a.members, req.sources, req.transfer);
  }

  lemma ActivateStands(a: Authority, req: Transfer, b: Authority)
    requires LocalOk(a) && Commits(a, req, b) && req.Activate?
    ensures StandingOk(b)
  {
    ActivateShape(a, req, b);
    ActivateLeads(a, req, b);
  }

  lemma AbortStands(a: Authority, req: Transfer, b: Authority)
    requires LocalOk(a) && Commits(a, req, b) && req.Abort?
    ensures StandingOk(b)
  {
    CommitShape(a, req, b);
    if a.standing == Staged {
      StagedRows(StepOf(a, req.transfer, TargetStaged).request.sources, req.transfer);
    }
  }

  lemma CommitStands(a: Authority, req: Transfer, b: Authority)
    requires LocalOk(a) && Commits(a, req, b)
    ensures StandingOk(b)
  {
    match req
    case Prepare(_, _, _, _, _, _) => PrepareStands(a, req, b);
    case Stage(_, _, _, _, _, _) => StageStands(a, req, b);
    case Finalize(_, _, _, _) => FinalizeStands(a, req, b);
    case Activate(_, _, _, _, _) => ActivateStands(a, req, b);
    case Enable(_, _, _, _) => EnableStands(a, req, b);
    case Abort(_, _, _, _, _, _, _, _) => AbortStands(a, req, b);
  }

  lemma CommitOk(a: Authority, req: Transfer, b: Authority)
    requires LocalOk(a) && Commits(a, req, b)
    ensures LocalOk(b)
  {
    CommitRecords(a, req, b);
    CommitSettles(a, req, b);
    CommitStands(a, req, b);
    CommitShape(a, req, b);
  }

  // ---------- local work keeps it ----------

  lemma GatedKeepsSlots(plane: P.State, work: P.Request)
    requires ForRoots(work.op) || (work.op.Note? && work.op.kind.AdoptDispatcher?)
    ensures P.Occupancy(P.Apply(plane, work).state) == P.Occupancy(plane)
  {
    assert P.Occupants(P.Apply(plane, work).state) == P.Occupants(plane);
  }

  lemma CapacityStaysLegal(plane: P.State, work: P.Request)
    requires 1 <= plane.capacity <= 64
    ensures 1 <= P.Apply(plane, work).state.capacity <= 64
  {
    PlaneRuns.ApplyCases(plane, work);
    if P.Apply(plane, work).outcome.Committed? {
      var next := P.Attempt(plane, work.op, work.now).value;
      if !work.op.RecordRule? && !work.op.RecordSample? {
        PlaneReplay.AttemptLeaves(plane, next, work.op, work.now);
      }
    }
  }

  /** Local work runs only where capacity may be used, so nothing frozen or federated moves. */
  lemma OperateStands(a: Authority, work: P.Request)
    requires StandingOk(a)
    ensures StandingOk(Operate(a, work))
  {
    if a.standing == FederationRoot && GateError(a.standing, work.op).None? {
      GatedKeepsSlots(a.plane, work);
    }
  }

  lemma ReplanedOk(a: Authority, b: Authority)
    requires LocalOk(a) && b == a.(plane := b.plane) && 1 <= b.plane.capacity <= 64 && StandingOk(b)
    ensures LocalOk(b)
  {
    assert b.steps == a.steps && RecordsOk(b);
    forall t ensures SettledAt(b, t) {
      assert SettledAt(a, t);
    }
  }

  lemma OperateOk(a: Authority, work: P.Request)
    requires LocalOk(a)
    ensures LocalOk(Operate(a, work))
    ensures Operate(a, work) == a.(plane := Operate(a, work).plane)
  {
    CapacityStaysLegal(a.plane, work);
    OperateStands(a, work);
    ReplanedOk(a, Operate(a, work));
  }

  // ---------- giving up ----------

  lemma PrepareUndone(a: Authority, first: Transfer, mid: Authority, abort: Transfer, b: Authority)
    requires LocalOk(a) && first.Prepare? && Commits(a, first, mid) && abort.Abort? && Commits(mid, abort, b)
    ensures b == a.(epoch := a.epoch + 2, plane := P.Bump(a.plane, 2), steps := b.steps)
  {
    CommitShape(a, first, mid);
    CommitShape(mid, abort, b);
  }

  lemma AbortShape(a: Authority, req: Transfer, b: Authority)
    requires Commits(a, req, b) && req.Abort?
    ensures b == a.(standing := ActiveRoot, epoch := a.epoch + 1, parent := None, transfer := None,
                    plane := P.Bump(a.plane, 1), steps := b.steps,
                    members := if a.standing == Staged then Filter(a.members, NotInTransfer(req.transfer)) else a.members)
  {
    CommitShape(a, req, b);
  }

  lemma StageUndone(a: Authority, first: Transfer, mid: Authority, abort: Transfer, b: Authority)
    requires LocalOk(a) && first.Stage? && Commits(a, first, mid)
    requires abort.Abort? && Commits(mid, abort, b) && first.transfer == abort.transfer
    ensures b == a.(epoch := a.epoch + 2, plane := P.Bump(a.plane, 2), steps := b.steps)
  {
    StageShape(a, first, mid);
    AbortShape(mid, abort, b);
    StagedRows(first.sources, first.transfer);
  }

  /** Aborting undoes a preparation or a staging: standing, parent, transfer and member rows are
      those from before, and the store differs in its revision only. */
  lemma AbortUndoes(a: Authority, first: Transfer, mid: Authority, abort: Transfer, b: Authority)
    requires LocalOk(a) && (first.Prepare? || first.Stage?) && Commits(a, first, mid)
    requires abort.Abort? && Commits(mid, abort, b)
    ensures b == a.(epoch := a.epoch + 2, plane := P.Bump(a.plane, 2), steps := b.steps)
    ensures first.transfer == abort.transfer && b.steps.Keys == a.steps.Keys + {KeyOf(first), KeyOf(abort)}
  {
    CommitMoves(a, first, mid);
    CommitMoves(mid, abort, b);
    StandsUnder(a, first, mid);
    if first.Prepare? {
      PrepareUndone(a, first, mid, abort, b);
    } else {
      StageUndone(a, first, mid, abort, b);
    }
  }

  lemma StandsUnder(a: Authority, first: Transfer, mid: Authority)
    requires (first.Prepare? || first.Stage?) && Commits(a, first, mid)
    ensures mid.transfer == Some(first.transfer)
  {
    CommitShape(a, first, mid);
  }
}
