/** When a finalized source can still come to work for its parent: exactly while it is not
    stranded. */
module FederationLiveness {
  import opened Basics
  import opened Histories
  import opened Identifiers
  import opened Federation
  import opened FederationLocal
  import opened FederationSafety
  import opened FederationOutcomes
  import opened FederationPending
  import opened FederationStranding

  // ---------- what the rest of a transfer needs ----------

  lemma {:induction false} SharesAreBounded(sources: seq<Shown>)
    requires forall p | p in sources :: 1 <= p.receipt.capacity <= 64
    ensures |sources| <= ShownCapacity(sources) <= 64 * |sources|
  {
    if sources != [] {
      SharesAreBounded(sources[1..]);
    }
  }

  lemma {:induction false} SubjectsAreFew(sources: seq<Shown>)
    ensures |Subjects(sources)| <= |sources|
  {
    if sources != [] {
      SubjectsAreFew(sources[1..]);
      assert Subjects(sources) == {sources[0].receipt.subject} + Subjects(sources[1..]);
    }
  }

  /** What was staged has a capacity and a number of members validation takes. */
  lemma StageFits(w: World, r: string, t: string)
    requires WorldOk(w) && WorldDecided(w) && StagedBy(w, r, t)
    ensures 1 <= ShownCapacity(StageOf(w, r, t)) <= 1024 && |Subjects(StageOf(w, r, t))| <= 16
  {
    StagedHow(w, r, t);
    var sources := StageOf(w, r, t);
    forall p | p in sources ensures 1 <= p.receipt.capacity <= 64 {
      StagedPrepared(w, r, t, p);
      assert RecordBounded(StepKey(t, SourcePrepared), StepOf(w.auths[p.receipt.subject], t, SourcePrepared));
    }
    SharesAreBounded(sources);
    SubjectsAreFew(sources);
  }

  ghost predicate Unused(a: Authority, id: string) {
    Identifier(id) && forall k | k in a.steps :: a.steps[k].request.id != id
  }

  ghost function UsedIds(steps: map<StepKey, Record>, keys: set<StepKey>): set<string>
    requires keys <= steps.Keys
  {
    set k | k in keys :: steps[k].request.id
  }

  lemma {:induction false} UsedIdsAreFew(steps: map<StepKey, Record>, keys: set<StepKey>)
    requires keys <= steps.Keys
    ensures |UsedIds(steps, keys)| <= |keys|
  {
    if keys != {} {
      var k :| k in keys;
      UsedIdsAreFew(steps, keys - {k});
      assert UsedIds(steps, keys) == UsedIds(steps, keys - {k}) + {steps[k].request.id};
    }
  }

  /** An authority whose epoch a receipt can carry has a request id left. */
  lemma UnusedId(a: Authority) returns (id: string)
    requires Counted(a) && a.epoch <= MAX_REVISION
    ensures Unused(a, id)
  {
    UsedIdsAreFew(a.steps, a.steps.Keys);
    id := NewIdentifier(UsedIds(a.steps, a.steps.Keys));
  }

  lemma StagedTransferIsNamed(w: World, r: string, t: string)
    requires WorldOk(w) && StagedBy(w, r, t)
    ensures Identifier(t)
  {
    assert LocalOk(w.auths[r]);
    RecordNamed(r, StepKey(t, TargetStaged), StepOf(w.auths[r], t, TargetStaged));
  }

  // ---------- finalizing the others ----------

  lemma AdmittedCommits(a: Authority, req: Transfer)
    requires SchemaOk(req) && StepError(a, req).None? && KeyOf(req) !in a.steps && Unused(a, req.id)
    ensures Commits(a, req, Handle(a, req).authority)
  {
  }

  lemma OneIsIssued(w: World, id: string, t: string, x: Receipt)
    requires x in w.log
    ensures AllIssued(w, Finalize(id, t, Shown(x, false), 0)) && AllIssued(w, Enable(id, t, Shown(x, false), 0))
  {
  }

  lemma CanFinalize(a: Authority, t: string, x: Receipt, id: string)
    requires a.standing == Prepared && a.transfer == Some(t) && PreparedOk(a, t)
    requires Unused(a, id) && Identifier(t) && ReceiptValid(x)
    requires x.phase == TargetStaged && x.transfer == t && x.subject == x.target && a.id in x.members
    ensures var req := Finalize(id, t, Shown(x, false), 0); Commits(a, req, Handle(a, req).authority)
  {
    var req := Finalize(id, t, Shown(x, false), 0);
    assert Shows(req) == [Shown(x, false)];
    assert StepError(a, req).None?;
    AdmittedCommits(a, req);
  }

  /** The stage receipt, as a peer is shown it. */
  lemma StageReceiptFits(w: World, r: string, t: string)
    requires WorldOk(w) && WorldDecided(w) && StagedBy(w, r, t)
    requires Presentable(StepOf(w.auths[r], t, TargetStaged).result)
    ensures var x := StepOf(w.auths[r], t, TargetStaged).result;
      && ReceiptValid(x) && x.phase == TargetStaged && x.transfer == t && x.subject == x.target == r
      && x.members == Subjects(StageOf(w, r, t)) && x in w.log
  {
    StagedHow(w, r, t);
    StageFits(w, r, t);
    IssuedIsNamed(w, StepOf(w.auths[r], t, TargetStaged).result);
    assert RecordBounded(StepKey(t, TargetStaged), StepOf(w.auths[r], t, TargetStaged));
  }

  lemma NotActiveYet(w: World, s: string, t: string, r: string)
    requires Hopeful(w, s, t, r)
    ensures StagedOk(w.auths[r], t) && !Did(w.auths[r], t, TargetActive)
    ensures Presentable(StepOf(w.auths[r], t, TargetStaged).result) && HasHeadroom(w.auths[r])
  {
    assert LocalOk(w.auths[r]);
  }

  lemma PeerIsPrepared(w: World, s: string, t: string, r: string, m: string)
    requires Hopeful(w, s, t, r) && m in Subjects(StageOf(w, r, t)) && m in w.auths
    requires !Did(w.auths[m], t, SourceFinalized)
    ensures w.auths[m].id == m && w.auths[m].standing == Prepared && w.auths[m].transfer == Some(t)
    ensures PreparedOk(w.auths[m], t)
  {
    PeerStands(w, s, t, r, m);
    assert LocalOk(w.auths[m]);
  }

  lemma PeerCanFinalize(w: World, s: string, t: string, r: string, m: string) returns (req: Transfer)
    requires Hopeful(w, s, t, r) && m in Subjects(StageOf(w, r, t)) && m in w.auths
    requires !Did(w.auths[m], t, SourceFinalized)
    ensures req.Finalize? && req.transfer == t && AllIssued(w, req)
    ensures Commits(w.auths[m], req, Handle(w.auths[m], req).authority)
  {
    NotActiveYet(w, s, t, r);
    StageReceiptFits(w, r, t);
    PeerIsPrepared(w, s, t, r, m);
    PeerWithin(w, s, t, r, m);
    StagedTransferIsNamed(w, r, t);
    var x := StepOf(w.auths[r], t, TargetStaged).result;
    var id := UnusedId(w.auths[m]);
    req := Finalize(id, t, Shown(x, false), 0);
    OneIsIssued(w, id, t, x);
    CanFinalize(w.auths[m], t, x, id);
  }

  /** The others are where they were. */
  ghost predicate OnlyMoved(w: World, w': World, m: string) {
    w'.auths.Keys == w.auths.Keys && forall id | id in w.auths && id != m :: w'.auths[id] == w.auths[id]
  }

  lemma FinalizedMoves(w: World, m: string, req: Transfer)
    requires WorldOk(w) && m in w.auths && AllIssued(w, req) && req.Finalize?
    requires Commits(w.auths[m], req, Handle(w.auths[m], req).authority)
    ensures var w' := Next(w, Send(m, req));
      && OnlyMoved(w, w', m) && m in w'.auths && Did(w'.auths[m], req.transfer, SourceFinalized)
      && StepOf(w'.auths[m], req.transfer, SourceFinalized).result == ResultOf(w.auths[m], req)
  {
    CommitRecorded(w.auths[m], req, Handle(w.auths[m], req).authority);
  }

  lemma NobodyNewGivesUp(w: World, w': World, r: string, t: string, m: string)
    requires WorldOk(w') && StagedBy(w, r, t) && !GaveUp(w, r, t) && OnlyMoved(w, w', m) && m != r && m in w'.auths
    requires Did(w'.auths[m], t, SourceFinalized)
    ensures !GaveUp(w', r, t)
  {
    assert LocalOk(w'.auths[m]) && SettledAt(w'.auths[m], t);
    forall x ensures !PeerGaveUp(w', r, t, x) {
      assert !PeerGaveUp(w, r, t, x);
    }
  }

  /** The staged sources that have not finalized yet. */
  ghost function Unfinalized(w: World, r: string, t: string): set<string>
    requires StagedBy(w, r, t)
  {
    set m | m in Subjects(StageOf(w, r, t)) && m in w.auths && !Did(w.auths[m], t, SourceFinalized)
  }

  lemma PeerWithin(w: World, s: string, t: string, r: string, m: string)
    requires Hopeful(w, s, t, r) && IsStaged(w, r, t, m) && m in w.auths
    ensures if Did(w.auths[m], t, SourceFinalized) then Presentable(StepOf(w.auths[m], t, SourceFinalized).result)
            else HasHeadroom(w.auths[m])
  {
    NotYetActive(w, s, t, r);
    assert !BeyondLimits(w, r, t, m);
  }

  lemma MoverWithin(w': World, r: string, t: string, m: string, a: Authority, req: Transfer)
    requires HasHeadroom(a) && m in w'.auths && Did(w'.auths[m], t, SourceFinalized)
    requires StepOf(w'.auths[m], t, SourceFinalized).result == ResultOf(a, req)
    ensures !BeyondLimits(w', r, t, m)
  {
  }

  lemma OtherWithin(w: World, w': World, r: string, t: string, m: string, x: string)
    requires StagedBy(w, r, t) && m != r && x != m && OnlyMoved(w, w', m) && !BeyondLimits(w, r, t, x)
    ensures !BeyondLimits(w', r, t, x)
  {
  }

  lemma StillWithin(w: World, w': World, s: string, t: string, r: string, m: string, req: Transfer)
    requires Hopeful(w, s, t, r) && m in Subjects(StageOf(w, r, t)) && m in w.auths && m != r
    requires !Did(w.auths[m], t, SourceFinalized) && req.Finalize?
    requires OnlyMoved(w, w', m) && m in w'.auths && Did(w'.auths[m], t, SourceFinalized)
    requires StepOf(w'.auths[m], t, SourceFinalized).result == ResultOf(w.auths[m], req)
    ensures StagedBy(w', r, t) && StageOf(w', r, t) == StageOf(w, r, t) && WithinLimits(w', r, t)
  {
    NotActiveYet(w, s, t, r);
    PeerWithin(w, s, t, r, m);
    forall x ensures !BeyondLimits(w', r, t, x) {
      if x == m {
        MoverWithin(w', r, t, m, w.auths[m], req);
      } else {
        OtherWithin(w, w', r, t, m, x);
      }
    }
  }

  lemma PeerIsNotMe(w: World, s: string, t: string, r: string, m: string)
    requires Hopeful(w, s, t, r) && m in Subjects(StageOf(w, r, t)) && m in w.auths
    requires !Did(w.auths[m], t, SourceFinalized)
    ensures m != s && m != r
  {
    StagedHow(w, r, t);
    assert LocalOk(w.auths[s]);
  }

  lemma StillHopeful(w: World, s: string, t: string, r: string, m: string, req: Transfer)
    requires Hopeful(w, s, t, r) && m in Subjects(StageOf(w, r, t)) && m in w.auths
    requires !Did(w.auths[m], t, SourceFinalized) && req.Finalize? && req.transfer == t && AllIssued(w, req)
    requires Commits(w.auths[m], req, Handle(w.auths[m], req).authority)
    ensures Hopeful(Next(w, Send(m, req)), s, t, r)
    ensures Unfinalized(Next(w, Send(m, req)), r, t) == Unfinalized(w, r, t) - {m}
  {
    var w' := Next(w, Send(m, req));
    PeerIsNotMe(w, s, t, r, m);
    NextOk(w, Send(m, req));
    NextDecided(w, Send(m, req));
    FinalizedMoves(w, m, req);
    FinalizedStays(w, w', s, t, r, m, req);
  }

  lemma OneLessUnfinalized(w: World, w': World, r: string, t: string, m: string)
    requires StagedBy(w, r, t) && StagedBy(w', r, t) && StageOf(w', r, t) == StageOf(w, r, t)
    requires OnlyMoved(w, w', m) && m in w'.auths && Did(w'.auths[m], t, SourceFinalized)
    ensures Unfinalized(w', r, t) == Unfinalized(w, r, t) - {m}
  {
  }

  lemma FinalizedStays(w: World, w': World, s: string, t: string, r: string, m: string, req: Transfer)
    requires Hopeful(w, s, t, r) && m in Subjects(StageOf(w, r, t)) && m in w.auths && m != r && m != s
    requires !Did(w.auths[m], t, SourceFinalized) && req.Finalize? && WorldOk(w') && WorldDecided(w')
    requires OnlyMoved(w, w', m) && m in w'.auths && Did(w'.auths[m], t, SourceFinalized)
    requires StepOf(w'.auths[m], t, SourceFinalized).result == ResultOf(w.auths[m], req)
    ensures Hopeful(w', s, t, r) && Unfinalized(w', r, t) == Unfinalized(w, r, t) - {m}
  {
    assert w'.auths[r] == w.auths[r] && w'.auths[s] == w.auths[s];
    NobodyNewGivesUp(w, w', r, t, m);
    StillWithin(w, w', s, t, r, m, req);
    OneLessUnfinalized(w, w', r, t, m);
  }

  /** Some peer finalizes. */
  lemma FinalizeOne(events: seq<Event>, s: string, t: string, r: string) returns (e: Event)
    requires Hopeful(Run(events), s, t, r) && Unfinalized(Run(events), r, t) != {}
    ensures Hopeful(Run(events + [e]), s, t, r)
    ensures Unfinalized(Run(events + [e]), r, t) < Unfinalized(Run(events), r, t)
  {
    var m :| m in Unfinalized(Run(events), r, t);
    var req := PeerCanFinalize(Run(events), s, t, r, m);
    StillHopeful(Run(events), s, t, r, m, req);
    e := Send(m, req);
    RunLast(events, e);
  }

  ghost predicate AllOthersFinalized(events: seq<Event>, s: string, t: string, r: string) {
    Hopeful(Run(events), s, t, r) && Unfinalized(Run(events), r, t) == {}
  }

  lemma OthersFinalizedBy(events: seq<Event>, e: Event, rest: seq<Event>, s: string, t: string, r: string)
    requires AllOthersFinalized(events + [e] + rest, s, t, r)
    ensures AllOthersFinalized(events + ([e] + rest), s, t, r)
  {
    Associative(events, [e], rest);
  }

  lemma NobodyIsLeft(events: seq<Event>, s: string, t: string, r: string)
    requires Hopeful(Run(events), s, t, r) && Unfinalized(Run(events), r, t) == {}
    ensures AllOthersFinalized(events + [], s, t, r)
  {
    assert events + [] == events;
  }

  lemma {:induction false} FinalizeRest(events: seq<Event>, s: string, t: string, r: string) returns (more: seq<Event>)
    requires Hopeful(Run(events), s, t, r)
    ensures AllOthersFinalized(events + more, s, t, r)
    decreases Unfinalized(Run(events), r, t)
  {
    if Unfinalized(Run(events), r, t) == {} {
      NobodyIsLeft(events, s, t, r);
      more := [];
    } else {
      var e := FinalizeOne(events, s, t, r);
      var rest := FinalizeRest(events + [e], s, t, r);
      OthersFinalizedBy(events, e, rest, s, t, r);
      more := [e] + rest;
    }
  }

  // ---------- activating and enabling ----------

  ghost predicate AllFinalized(w: World, t: string, sources: seq<Shown>) {
    forall p | p in sources :: p.receipt.subject in w.auths && Did(w.auths[p.receipt.subject], t, SourceFinalized)
  }

  /** The finalization receipts of the staged sources, in the same order. */
  ghost function Finals(w: World, t: string, sources: seq<Shown>): (finals: seq<Shown>)
    requires AllFinalized(w, t, sources)
    ensures |finals| == |sources|
    ensures forall i | 0 <= i < |sources| ::
              && sources[i].receipt.subject in w.auths
              && Did(w.auths[sources[i].receipt.subject], t, SourceFinalized)
              && finals[i] == Shown(StepOf(w.auths[sources[i].receipt.subject], t, SourceFinalized).result, false)
  {
    if sources == [] then []
    else
      [Shown(StepOf(w.auths[sources[0].receipt.subject], t, SourceFinalized).result, false)]
        + Finals(w, t, sources[1..])
  }

  lemma FinalRecord(w: World, t: string, m: string)
    requires WorldOk(w) && WorldDecided(w) && m in w.auths && Did(w.auths[m], t, SourceFinalized)
    ensures var f := StepOf(w.auths[m], t, SourceFinalized).result;
      && f in w.log && f.subject == m && f.transfer == t && f.phase == SourceFinalized && f.members == {m}
      && Named(f) && 1 <= f.epoch && 1 <= f.capacity <= 64
  {
    StepIsLogged(w, m, t, SourceFinalized);
    IssuedIsNamed(w, StepOf(w.auths[m], t, SourceFinalized).result);
    assert LocalOk(w.auths[m]);
    assert RecordOk(m, StepKey(t, SourceFinalized), StepOf(w.auths[m], t, SourceFinalized));
    assert RecordBounded(StepKey(t, SourceFinalized), StepOf(w.auths[m], t, SourceFinalized));
  }

  lemma PeerIsPending(w: World, s: string, t: string, r: string, m: string)
    requires Hopeful(w, s, t, r) && m in Subjects(StageOf(w, r, t)) && m in w.auths
    requires Did(w.auths[m], t, SourceFinalized)
    ensures StepOf(w.auths[m], t, SourceFinalized).result.target == r
  {
    PeerStands(w, s, t, r, m);
    PendingIsOk(w, m, t, r);
  }

  /** What a pending peer's finalization receipt says. */
  lemma FinalSays(w: World, s: string, t: string, r: string, m: string)
    requires Hopeful(w, s, t, r) && m in Subjects(StageOf(w, r, t)) && m in w.auths
    requires Did(w.auths[m], t, SourceFinalized)
    ensures var f := StepOf(w.auths[m], t, SourceFinalized).result;
      FromSource(r, t, SourceFinalized, f) && f.subject == m && f in w.log && ReceiptValid(f)
  {
    PeerIsPending(w, s, t, r, m);
    FinalRecord(w, t, m);
    PeerWithin(w, s, t, r, m);
  }

  lemma FinalAt(w: World, s: string, t: string, r: string, i: nat)
    requires Hopeful(w, s, t, r) && AllFinalized(w, t, StageOf(w, r, t)) && i < |StageOf(w, r, t)|
    ensures var f := Finals(w, t, StageOf(w, r, t))[i].receipt;
      && f.subject == StageOf(w, r, t)[i].receipt.subject
      && FromSource(r, t, SourceFinalized, f) && f in w.log && ReceiptValid(f)
  {
    assert StageOf(w, r, t)[i] in StageOf(w, r, t);
    FinalSays(w, s, t, r, StageOf(w, r, t)[i].receipt.subject);
  }

  /** Receipts that may be shown together to activate. */
  ghost predicate Presented(w: World, r: string, t: string, finals: seq<Shown>) {
    forall f | f in finals ::
      FromSource(r, t, SourceFinalized, f.receipt) && f.receipt in w.log && ReceiptValid(f.receipt)
  }

  lemma FinalsPresented(w: World, s: string, t: string, r: string)
    requires Hopeful(w, s, t, r) && AllFinalized(w, t, StageOf(w, r, t))
    ensures Presented(w, r, t, Finals(w, t, StageOf(w, r, t)))
  {
    var finals := Finals(w, t, StageOf(w, r, t));
    forall i | 0 <= i < |finals|
      ensures FromSource(r, t, SourceFinalized, finals[i].receipt) && finals[i].receipt in w.log
      ensures ReceiptValid(finals[i].receipt)
    {
      FinalAt(w, s, t, r, i);
    }
  }

  lemma FinalsSay(w: World, s: string, t: string, r: string)
    requires Hopeful(w, s, t, r) && AllFinalized(w, t, StageOf(w, r, t))
    ensures var finals := Finals(w, t, StageOf(w, r, t));
      && 2 <= |finals| <= 16 && BySubject(finals) && Subjects(finals) == Subjects(StageOf(w, r, t))
      && Presented(w, r, t, finals)
  {
    var sources, finals := StageOf(w, r, t), Finals(w, t, StageOf(w, r, t));
    StagedHow(w, r, t);
    forall i | 0 <= i < |sources| ensures finals[i].receipt.subject == sources[i].receipt.subject {
      FinalAt(w, s, t, r, i);
    }
    SameSubjects(sources, finals);
    FinalsPresented(w, s, t, r);
  }

  lemma SameSubjects(a: seq<Shown>, b: seq<Shown>)
    requires |a| == |b| && forall i | 0 <= i < |a| :: b[i].receipt.subject == a[i].receipt.subject
    ensures Subjects(a) == Subjects(b) && (BySubject(a) <==> BySubject(b))
  {
    forall x ensures x in Subjects(a) <==> x in Subjects(b) {
      if x in Subjects(a) {
        var i :| 0 <= i < |a| && a[i].receipt.subject == x;
        assert b[i] in b;
      }
      if x in Subjects(b) {
        var i :| 0 <= i < |b| && b[i].receipt.subject == x;
        assert a[i] in a;
      }
    }
  }

  lemma CanActivate(a: Authority, t: string, finals: seq<Shown>, id: string, evidence: seq<string>)
    requires a.standing == Staged && a.transfer == Some(t) && StagedOk(a, t)
    requires Unused(a, id) && Identifier(t) && Evidence(evidence)
    requires 2 <= |finals| <= 16 && BySubject(finals) && forall f | f in finals :: ReceiptValid(f.receipt)
    requires Subjects(finals) == Subjects(StepOf(a, t, TargetStaged).request.sources)
    requires AllFromSources(a.id, t, SourceFinalized, finals)
    ensures var req := Activate(id, t, finals, evidence, 0); Commits(a, req, Handle(a, req).authority)
  {
    var req := Activate(id, t, finals, evidence, 0);
    StagedRows(StepOf(a, t, TargetStaged).request.sources, t);
    StagedIds(StepOf(a, t, TargetStaged).request.sources, t);
    assert StepError(a, req).None?;
    AdmittedCommits(a, req);
  }

  lemma EverybodyFinalized(w: World, s: string, t: string, r: string)
    requires Hopeful(w, s, t, r) && Unfinalized(w, r, t) == {}
    ensures AllFinalized(w, t, StageOf(w, r, t))
  {
    forall p | p in StageOf(w, r, t)
      ensures p.receipt.subject in w.auths && Did(w.auths[p.receipt.subject], t, SourceFinalized)
    {
      PeerStands(w, s, t, r, p.receipt.subject);
      assert p.receipt.subject !in Unfinalized(w, r, t);
    }
  }

  const READY := ["ready"]

  lemma ReadyIsEvidence()
    ensures Evidence(READY)
  {
  }

  lemma AllAreIssued(w: World, id: string, t: string, finals: seq<Shown>, evidence: seq<string>)
    requires forall f | f in finals :: f.receipt in w.log
    ensures AllIssued(w, Activate(id, t, finals, evidence, 0))
  {
  }

  lemma TargetCanActivate(w: World, s: string, t: string, r: string) returns (req: Transfer)
    requires Hopeful(w, s, t, r) && Unfinalized(w, r, t) == {}
    ensures req.Activate? && req.transfer == t && AllIssued(w, req)
    ensures Commits(w.auths[r], req, Handle(w.auths[r], req).authority)
  {
    EverybodyFinalized(w, s, t, r);
    FinalsSay(w, s, t, r);
    NotActiveYet(w, s, t, r);
    StagedTransferIsNamed(w, r, t);
    var finals := Finals(w, t, StageOf(w, r, t));
    var id := UnusedId(w.auths[r]);
    req := Activate(id, t, finals, READY, 0);
    ReadyIsEvidence();
    AllAreIssued(w, id, t, finals, READY);
    CanActivate(w.auths[r], t, finals, id, READY);
  }

  /** The activation a pending source waits for is one it can be shown. */
  lemma ActivationFits(w: World, s: string, t: string, r: string)
    requires WorldOk(w) && WorldDecided(w) && PendingFor(w, s, t, r) && IsStaged(w, r, t, s)
    requires Did(w.auths[r], t, TargetActive) && WithinLimits(w, r, t)
    ensures var x := StepOf(w.auths[r], t, TargetActive).result;
      && x in w.log && ReceiptValid(x) && x.phase == TargetActive && x.transfer == t && x.subject == x.target == r
      && s in x.members
  {
    ActivatedLeads(w, r, t);
    StageFits(w, r, t);
    StepIsLogged(w, r, t, TargetActive);
    IssuedIsNamed(w, StepOf(w.auths[r], t, TargetActive).result);
    assert LocalOk(w.auths[r]);
    assert RecordOk(r, StepKey(t, TargetActive), StepOf(w.auths[r], t, TargetActive));
    assert RecordBounded(StepKey(t, TargetActive), StepOf(w.auths[r], t, TargetActive));
  }

  lemma CanBeEnabled(a: Authority, t: string, r: string, x: Receipt, id: string)
    requires a.standing == Pending && a.transfer == Some(t) && a.parent == Some(r) && PendingOk(a, t)
    requires Unused(a, id) && Identifier(t)
    requires ReceiptValid(x) && x.phase == TargetActive && x.transfer == t && x.subject == x.target == r
    requires a.id in x.members
    ensures Handle(a, Enable(id, t, Shown(x, false), 0)).authority.standing == Subordinate
  {
    var req := Enable(id, t, Shown(x, false), 0);
    assert Shows(req) == [Shown(x, false)];
    assert StepError(a, req).None?;
    AdmittedCommits(a, req);
    CommitMoves(a, req, Handle(a, req).authority);
  }

  lemma SourceCanBeEnabled(w: World, s: string, t: string, r: string) returns (req: Transfer)
    requires WorldOk(w) && WorldDecided(w) && PendingFor(w, s, t, r) && IsStaged(w, r, t, s)
    requires Did(w.auths[r], t, TargetActive) && WithinLimits(w, r, t)
    ensures AllIssued(w, req) && Handle(w.auths[s], req).authority.standing == Subordinate
  {
    ActivationFits(w, s, t, r);
    PendingIsOk(w, s, t, r);
    ActivatedWasShown(w, s, t, r);
    StagedTransferIsNamed(w, r, t);
    var x := StepOf(w.auths[r], t, TargetActive).result;
    var id := UnusedId(w.auths[s]);
    req := Enable(id, t, Shown(x, false), 0);
    OneIsIssued(w, id, t, x);
    CanBeEnabled(w.auths[s], t, r, x, id);
  }

  // ---------- the exact condition ----------

  lemma ActivatedMoves(w: World, s: string, t: string, r: string, req: Transfer)
    requires Hopeful(w, s, t, r) && req.Activate? && req.transfer == t && AllIssued(w, req)
    requires Commits(w.auths[r], req, Handle(w.auths[r], req).authority)
    ensures Active(Next(w, Send(r, req)), s, t, r)
  {
    var w' := Next(w, Send(r, req));
    NotActiveYet(w, s, t, r);
    SendMoves(w, r, req);
    ActivationRecorded(w.auths[r], req, w'.auths[r]);
    TargetIsAnother(w, s, t, r);
    ActiveAfter(w, w', s, t, r, req);
  }

  lemma ActivationRecorded(a: Authority, req: Transfer, b: Authority)
    requires Commits(a, req, b) && req.Activate?
    ensures Did(b, req.transfer, TargetActive) && StepOf(b, req.transfer, TargetActive).result == ResultOf(a, req)
    ensures forall k | k in a.steps :: k in b.steps && b.steps[k] == a.steps[k]
  {
    CommitRecorded(a, req, b);
  }

  lemma TargetIsAnother(w: World, s: string, t: string, r: string)
    requires Open(w, s, t, r)
    ensures s != r
  {
  }

  lemma SendMoves(w: World, to: string, req: Transfer)
    requires to in w.auths && AllIssued(w, req) && Commits(w.auths[to], req, Handle(w.auths[to], req).authority)
    ensures var w' := Next(w, Send(to, req));
      to in w'.auths && w'.auths == w.auths[to := w'.auths[to]] && Commits(w.auths[to], req, w'.auths[to])
  {
  }

  /** The target has activated, and `s` has not seen it yet. */
  ghost predicate Active(w: World, s: string, t: string, r: string) {
    PendingFor(w, s, t, r) && IsStaged(w, r, t, s) && Did(w.auths[r], t, TargetActive) && WithinLimits(w, r, t)
  }

  lemma ActiveAfter(w: World, w': World, s: string, t: string, r: string, req: Transfer)
    requires PendingFor(w, s, t, r) && IsStaged(w, r, t, s) && HasHeadroom(w.auths[r]) && s != r
    requires r in w'.auths && w'.auths == w.auths[r := w'.auths[r]] && Did(w'.auths[r], t, TargetActive)
    requires forall k | k in w.auths[r].steps :: k in w'.auths[r].steps && w'.auths[r].steps[k] == w.auths[r].steps[k]
    requires StepOf(w'.auths[r], t, TargetActive).result == ResultOf(w.auths[r], req)
    ensures Active(w', s, t, r)
  {
    assert StepKey(t, TargetStaged) in w.auths[r].steps;
  }

  /** What is left once the target has activated: showing the source the activation. */
  lemma EnableNow(events: seq<Event>, s: string, t: string, r: string) returns (e: Event)
    requires Active(Run(events), s, t, r)
    ensures s in Run(events + [e]).auths && Run(events + [e]).auths[s].standing == Subordinate
  {
    RunDecided(events);
    var req := SourceCanBeEnabled(Run(events), s, t, r);
    e := Send(s, req);
    RunLast(events, e);
  }

  lemma ActivateAndEnable(events: seq<Event>, s: string, t: string, r: string) returns (more: seq<Event>)
    requires Hopeful(Run(events), s, t, r) && Unfinalized(Run(events), r, t) == {}
    ensures s in Run(events + more).auths && Run(events + more).auths[s].standing == Subordinate
  {
    var req := TargetCanActivate(Run(events), s, t, r);
    var activation := Send(r, req);
    ActivatedMoves(Run(events), s, t, r, req);
    RunLast(events, activation);
    var e := EnableNow(events + [activation], s, t, r);
    more := [activation] + [e];
    Associative(events, [activation], [e]);
  }

  /** As long as nobody has given up, some continuation enables the source. */
  lemma SomeRunEnables(events: seq<Event>, s: string, t: string, r: string) returns (more: seq<Event>)
    requires PendingFor(Run(events), s, t, r) && StagedBy(Run(events), r, t) && WithinLimits(Run(events), r, t)
    requires !GaveUp(Run(events), r, t)
    ensures s in Run(events + more).auths && Run(events + more).auths[s].standing == Subordinate
  {
    RunDecided(events);
    PendingWasStaged(Run(events), s, t, r);
    assert DecidedAt(Run(events).auths[r], t);
    if Did(Run(events).auths[r], t, TargetActive) {
      var e := EnableNow(events, s, t, r);
      more := [e];
    } else {
      var peers := FinalizeRest(events, s, t, r);
      var rest := ActivateAndEnable(events + peers, s, t, r);
      more := peers + rest;
      Associative(events, peers, rest);
    }
  }

  ghost predicate EnabledBy(events: seq<Event>, more: seq<Event>, s: string) {
    s in Run(events + more).auths && Run(events + more).auths[s].standing == Subordinate
  }

  /** The exact condition: in every reachable world, some continuation lets a pending source work
      for its parent if and only if it is not stranded. */
  lemma EnabledSomedayExactly(events: seq<Event>, s: string, t: string, r: string)
    requires PendingFor(Run(events), s, t, r)
    ensures (exists more :: EnabledBy(events, more, s)) <==> !Stranded(Run(events), s, t, r)
  {
    RunDecided(events);
    PendingWasStaged(Run(events), s, t, r);
    if Stranded(Run(events), s, t, r) {
      forall more ensures !EnabledBy(events, more, s) {
        assert (events + more)[..|events|] == events;
        StrandedForever(events + more, |events|, s, t, r);
      }
    } else {
      var more := SomeRunEnables(events, s, t, r);
      assert EnabledBy(events, more, s);
    }
  }
}
