/** An authority as it runs: its metadata, member rows and step table are rewritten inside one
    transaction per transfer step, next to the tables of its control plane. */
module FederationStore {
  import opened Basics
  import opened Sorting
  import opened Federation
  import opened FederationLocal
  import opened PlaneStore
  import P = PlaneModel

  lemma SubjectsAt(sources: seq<Shown>, i: nat)
    requires i < |sources|
    ensures Subjects(sources[..i + 1]) == Subjects(sources[..i]) + {sources[i].receipt.subject}
  {
    assert sources[..i + 1] == sources[..i] + [sources[i]];
  }

  lemma RowsAt(rows: seq<Member>, sources: seq<Shown>, transfer: string, i: nat)
    requires i < |sources|
    ensures rows + Map(sources[..i + 1], RowOf(transfer))
         == rows + Map(sources[..i], RowOf(transfer)) + [RowOf(transfer)(sources[i])]
  {
    assert sources[..i + 1] == sources[..i] + [sources[i]];
    MapAppend(sources[..i], [sources[i]], RowOf(transfer));
  }

  lemma IdsGrow(rows: seq<Member>, more: seq<Member>)
    ensures Ids(rows + more) == Ids(rows) + Ids(more)
  {
  }

  /** The receipt a row is finalized with is the first one for its id; with distinct subjects
      one pass over the receipts in order writes the same rows. */
  lemma {:induction false} FinalizeAppend(sources: seq<Shown>, s: Shown, id: string)
    ensures FinalizeOf(sources + [s], id)
         == if FinalizeOf(sources, id).Some? then FinalizeOf(sources, id)
            else if s.receipt.subject == id then Some(s.receipt) else None
  {
    if sources == [] {
      assert sources + [s] == [s] && [s][1..] == [];
    } else {
      assert (sources + [s])[1..] == sources[1..] + [s];
      FinalizeAppend(sources[1..], s, id);
    }
  }

  lemma {:induction false} FinalizeFinds(sources: seq<Shown>, id: string)
    ensures FinalizeOf(sources, id).Some? <==> id in Subjects(sources)
  {
    if sources != [] {
      FinalizeFinds(sources[1..], id);
      assert sources == [sources[0]] + sources[1..];
    }
  }

  /** One UPDATE of the member rows. */
  function Mark(r: Receipt, transfer: string): Member -> Member {
    (m: Member) => if m.id == r.subject && m.transfer == transfer then m.(finalized := Some(r)) else m
  }

  lemma MarkRows(rows: seq<Member>, sources: seq<Shown>, transfer: string, i: nat)
    requires i < |sources| && sources[i].receipt.subject !in Subjects(sources[..i])
    ensures Map(Map(rows, Finalized(sources[..i], transfer)), Mark(sources[i].receipt, transfer))
         == Map(rows, Finalized(sources[..i + 1], transfer))
  {
    assert sources[..i + 1] == sources[..i] + [sources[i]];
    forall k | 0 <= k < |rows|
      ensures Mark(sources[i].receipt, transfer)(Finalized(sources[..i], transfer)(rows[k]))
           == Finalized(sources[..i + 1], transfer)(rows[k])
    {
      FinalizeAppend(sources[..i], sources[i], rows[k].id);
      FinalizeFinds(sources[..i], rows[k].id);
    }
  }

  lemma DistinctSubjects(sources: seq<Shown>, i: nat)
    requires BySubject(sources) && i < |sources|
    ensures sources[i].receipt.subject !in Subjects(sources[..i])
  {
  }

  class AuthorityStore {
    const id: string
    const plane: Plane
    var standing: Standing
    var epoch: nat
    var parent: Option<string>
    var transfer: Option<string>
    var members: seq<Member>
    var steps: map<StepKey, Record>

    constructor (id: string, plane: Plane)
      ensures Stored() == NewAuthority(id, plane.Stored()) && this.plane == plane
    {
      this.id, this.plane, standing, epoch, parent, transfer := id, plane, ActiveRoot, 1, None, None;
      members, steps := [], map[];
    }

    function Stored(): Authority
      reads this, plane
    {
      Authority(id, standing, epoch, parent, transfer, plane.Stored(), members, steps)
    }

    method Restore(saved: Authority)
      requires saved.id == id
      modifies this, plane
      ensures Stored() == saved
    {
      standing, epoch, parent, transfer := saved.standing, saved.epoch, saved.parent, saved.transfer;
      members, steps := saved.members, saved.steps;
      plane.Restore(saved.plane);
    }

    /** `set_authority_metadata` and the event every step writes. */
    method MoveTo(standing: Standing, parent: Option<string>, transfer: Option<string>)
      modifies this, plane
      ensures Stored() == old(Stored()).(standing := standing, epoch := old(epoch) + 1, parent := parent,
                                         transfer := transfer, plane := P.Bump(old(plane.Stored()), 1))
    {
      this.standing, this.parent, this.transfer, epoch := standing, parent, transfer, epoch + 1;
      plane.revision := plane.revision + 1;
    }

    /** The receipts of a step, checked one by one. */
    method CheckSources(t: string, phase: Phase, sources: seq<Shown>) returns (ok: bool)
      ensures ok == AllFromSources(id, t, phase, sources)
    {
      for i := 0 to |sources|
        invariant forall k | 0 <= k < i :: FromSource(id, t, phase, sources[k].receipt)
      {
        var r := sources[i].receipt;
        if r.phase != phase || r.transfer != t || r.target != id || r.members != {r.subject} {
          assert sources[i] in sources;
          return false;
        }
      }
      ok := true;
    }

    /** INSERT INTO federation_members, one row a receipt; a known authority id ends it. */
    method InsertMembers(t: string, sources: seq<Shown>) returns (ok: bool)
      requires BySubject(sources)
      modifies `members
      ensures ok <==> Ids(old(members)) * Subjects(sources) == {}
      ensures ok ==> members == old(members) + Map(sources, RowOf(t))
    {
      ghost var before := members;
      assert Map(sources[..0], RowOf(t)) == [];
      for i := 0 to |sources|
        invariant members == before + Map(sources[..i], RowOf(t))
        invariant Ids(before) * Subjects(sources[..i]) == {}
      {
        var r := sources[i].receipt;
        StagedIds(sources[..i], t);
        IdsGrow(before, Map(sources[..i], RowOf(t)));
        DistinctSubjects(sources, i);
        SubjectsAt(sources, i);
        RowsAt(before, sources, t, i);
        if exists m | m in members :: m.id == r.subject {
          assert sources[i] in sources && r.subject in Ids(members);
          assert r.subject in Ids(before) * Subjects(sources);
          return false;
        }
        assert r.subject !in Ids(members);
        members := members + [Member(r.subject, t, r.capacity, r.revision, r, None)];
      }
      assert sources[..|sources|] == sources;
      ok := true;
    }

    /** Checks each finalization receipt and marks its member row. */
    method FinalizeMembers(t: string, sources: seq<Shown>) returns (ok: bool)
      requires BySubject(sources)
      modifies `members
      ensures ok == AllFromSources(id, t, SourceFinalized, sources)
      ensures ok ==> members == Map(old(members), Finalized(sources, t))
    {
      ghost var before := members;
      assert Map(before, Finalized(sources[..0], t)) == before;
      for i := 0 to |sources|
        invariant forall k | 0 <= k < i :: FromSource(id, t, SourceFinalized, sources[k].receipt)
        invariant members == Map(before, Finalized(sources[..i], t))
      {
        var r := sources[i].receipt;
        if r.phase != SourceFinalized || r.transfer != t || r.target != id || r.members != {r.subject} {
          assert sources[i] in sources;
          return false;
        }
        DistinctSubjects(sources, i);
        MarkRows(before, sources, t, i);
        members := Map(members, Mark(r, t));
      }
      assert sources[..|sources|] == sources;
      ok := true;
    }

    // ---------- the six steps ----------

    method PrepareTransfer(t: string, target: string, expectedRevision: nat) returns (refusal: Option<Refusal>)
      modifies this, plane
      ensures forall req: Transfer | req.Prepare? && req.transfer == t && req.target == target
                && req.expectedRevision == expectedRevision ::
                refusal == StepError(old(Stored()), req) && (refusal.None? ==> Stored() == Moved(old(Stored()), req))
    {
      if standing != ActiveRoot {
        return Some(StateConflict);
      }
      if id == target {
        return Some(TransferInvalid);
      }
      if plane.revision != expectedRevision {
        return Some(RevisionConflict);
      }
      if P.Occupancy(plane.Stored()) != 0 {
        return Some(DrainRequired);
      }
      MoveTo(Prepared, None, Some(t));
      refusal := None;
    }

    method StageFederation(req: Transfer) returns (refusal: Option<Refusal>)
      requires req.Stage? && SchemaOk(req)
      modifies this, plane
      ensures refusal == StepError(old(Stored()), req)
      ensures refusal.None? ==> Stored() == Moved(old(Stored()), req)
    {
      if standing != ActiveRoot {
        return Some(StateConflict);
      }
      if plane.revision != req.expectedRevision {
        return Some(RevisionConflict);
      }
      if P.Occupancy(plane.Stored()) != 0 {
        return Some(DrainRequired);
      }
      if id in Subjects(req.sources) {
        return Some(TransferInvalid);
      }
      var ok := CheckSources(req.transfer, SourcePrepared, req.sources);
      if !ok {
        return Some(ReceiptMismatch);
      }
      MoveTo(Staged, None, Some(req.transfer));
      ok := InsertMembers(req.transfer, req.sources);
      refusal := if ok then None else Some(IntegrityError);
    }

    method FinalizeTransfer(req: Transfer) returns (refusal: Option<Refusal>)
      requires req.Finalize?
      modifies this, plane
      ensures refusal == StepError(old(Stored()), req)
      ensures refusal.None? ==> Stored() == Moved(old(Stored()), req)
    {
      var stage := req.stage.receipt;
      if standing != Prepared || transfer != Some(req.transfer) || stage.phase != TargetStaged
         || stage.transfer != req.transfer || stage.subject != stage.target || id !in stage.members {
        return Some(ReceiptMismatch);
      }
      if P.Occupancy(plane.Stored()) != 0 {
        return Some(DrainRequired);
      }
      MoveTo(Pending, Some(stage.target), Some(req.transfer));
      refusal := None;
    }

    method ActivateFederation(req: Transfer) returns (refusal: Option<Refusal>)
      requires req.Activate? && SchemaOk(req)
      modifies this, plane
      ensures refusal == StepError(old(Stored()), req)
      ensures refusal.None? ==> Stored() == Moved(old(Stored()), req)
    {
      if standing != Staged || transfer != Some(req.transfer) {
        return Some(StateConflict);
      }
      if Subjects(req.sources) != Ids(Filter(members, InTransfer(req.transfer))) {
        return Some(ReceiptMismatch);
      }
      var ok := FinalizeMembers(req.transfer, req.sources);
      if !ok {
        return Some(ReceiptMismatch);
      }
      MoveTo(FederationRoot, None, Some(req.transfer));
      refusal := None;
    }

    method EnableSubordinate(req: Transfer) returns (refusal: Option<Refusal>)
      requires req.Enable?
      modifies this, plane
      ensures refusal == StepError(old(Stored()), req)
      ensures refusal.None? ==> Stored() == Moved(old(Stored()), req)
    {
      var activation := req.activation.receipt;
      if standing != Pending || transfer != Some(req.transfer) || activation.phase != TargetActive
         || activation.transfer != req.transfer || Some(activation.target) != parent || Some(activation.subject) != parent
         || id !in activation.members {
        return Some(ReceiptMismatch);
      }
      MoveTo(Subordinate, parent, Some(req.transfer));
      refusal := None;
    }

    method AbortTransfer(req: Transfer) returns (refusal: Option<Refusal>)
      requires req.Abort?
      modifies this, plane
      ensures refusal == StepError(old(Stored()), req)
      ensures refusal.None? ==> Stored() == Moved(old(Stored()), req)
    {
      if (standing != Prepared && standing != Staged) || transfer != Some(req.transfer) || req.expected != standing {
        return Some(StateConflict);
      }
      if plane.revision != req.expectedRevision {
        return Some(RevisionConflict);
      }
      if !req.activationAbsent {
        return Some(AbortDenied);
      }
      if standing == Staged {
        members := Filter(members, NotInTransfer(req.transfer));
      }
      MoveTo(ActiveRoot, None, None);
      refusal := None;
    }

    method TakeStep(req: Transfer) returns (refusal: Option<Refusal>)
      requires SchemaOk(req)
      modifies this, plane
      ensures refusal == StepError(old(Stored()), req)
      ensures refusal.None? ==> Stored() == Moved(old(Stored()), req)
    {
      match req
      case Prepare(_, t, target, expectedRevision, _, _) => refusal := PrepareTransfer(t, target, expectedRevision);
      case Stage(_, _, _, _, _, _) => refusal := StageFederation(req);
      case Finalize(_, _, _, _) => refusal := FinalizeTransfer(req);
      case Activate(_, _, _, _, _) => refusal := ActivateFederation(req);
      case Enable(_, _, _, _) => refusal := EnableSubordinate(req);
      case Abort(_, _, _, _, _, _, _, _) => refusal := AbortTransfer(req);
    }

    /** The receipt of a step that was taken, and its record. */
    method Issue(saved: Authority, req: Transfer) returns (result: Receipt)
      requires Stored() == Moved(saved, req)
      modifies this
      ensures result == ResultOf(saved, req)
      ensures Stored() == Moved(saved, req).(steps := saved.steps[KeyOf(req) := Record(req, result)])
    {
      result := Receipt(req.transfer, PhaseOf(req), id, ResultTarget(saved, req), epoch, plane.revision,
        ResultCapacity(saved, req), ResultMembers(saved, req), req.now);
      steps := steps[KeyOf(req) := Record(req, result)];
    }

    /** One transfer request: the replay check, the step, its record; or everything undone. */
    method Perform(req: Transfer) returns (answer: Answer)
      modifies this, plane
      ensures Reply(Stored(), answer) == Handle(old(Stored()), req)
    {
      if !SchemaOk(req) {
        return Denied(SchemaInvalid);
      }
      if KeyOf(req) in steps {
        return if steps[KeyOf(req)].request == req then Repeated(steps[KeyOf(req)].result) else Denied(TransferConflict);
      }
      var saved := Stored();
      var refusal := TakeStep(req);
      if refusal.None? && IdTaken(saved, req) {
        refusal := Some(IntegrityError);
      }
      if refusal.Some? {
        Restore(saved);
        return Denied(refusal.value);
      }
      var result := Issue(saved, req);
      answer := Issued(result);
    }
  }
}
