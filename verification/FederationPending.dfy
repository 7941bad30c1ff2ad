/** What a finalized source waits for: the transfer it is pending under, who can still end it, and
    who stays as it is meanwhile. */
module FederationPending {
  import opened Basics
  import opened Federation
  import opened FederationLocal
  import opened FederationSafety
  import opened FederationOutcomes
  import P = PlaneModel

  // ---------- every transfer is decided or under way ----------

  /** What was prepared is still prepared, was finalized or was given up; what was staged is still
      staged, was activated or was given up. */
  ghost predicate DecidedAt(a: Authority, t: string) {
    && (Did(a, t, SourcePrepared) ==>
          (a.standing == Prepared && a.transfer == Some(t)) || Did(a, t, SourceFinalized) || AbortedAsSource(a, t))
    && (Did(a, t, TargetStaged) ==>
          (a.standing == Staged && a.transfer == Some(t)) || Did(a, t, TargetActive) || AbortedAsTarget(a, t))
  }

  ghost predicate Decided(a: Authority) {
    forall t :: DecidedAt(a, t)
  }

  /** A source's receipts carry a capacity an authority may have. */
  ghost predicate Bounded(a: Authority) {
    forall k | k in a.steps :: RecordBounded(k, a.steps[k])
  }

  ghost predicate RecordBounded(k: StepKey, rec: Record) {
    && 1 <= rec.result.epoch
    && (k.phase == SourcePrepared || k.phase == SourceFinalized ==> 1 <= rec.result.capacity <= 64)
  }

  /** The epoch counts the steps on record, and a pending source's is the one on its receipt. */
  ghost predicate Counted(a: Authority) {
    && a.epoch == |a.steps| + 1
    && (a.standing == Pending && a.transfer.Some? && Did(a, a.transfer.value, SourceFinalized) ==>
          StepOf(a, a.transfer.value, SourceFinalized).result.epoch == a.epoch)
  }

  ghost predicate Tracked(a: Authority) { Decided(a) && Bounded(a) && Counted(a) }

  ghost predicate WorldDecided(w: World) {
    forall id | id in w.auths :: Tracked(w.auths[id])
  }

  lemma CommitDecides(a: Authority, req: Transfer, b: Authority, t: string)
    requires LocalOk(a) && DecidedAt(a, t) && Commits(a, req, b)
    ensures DecidedAt(b, t)
  {
    var k, rec := KeyOf(req), Record(req, ResultOf(a, req));
    CommitMoves(a, req, b);
    CommitShape(a, req, b);
    GrewSteps(a, k, rec, b, t, SourcePrepared);
    GrewSteps(a, k, rec, b, t, SourceFinalized);
    GrewSteps(a, k, rec, b, t, TargetStaged);
    GrewSteps(a, k, rec, b, t, TargetActive);
    GrewSteps(a, k, rec, b, t, Aborted);
  }

  lemma CommitBounds(a: Authority, req: Transfer, b: Authority)
    requires LocalOk(a) && Bounded(a) && Commits(a, req, b)
    ensures Bounded(b)
  {
    CommitShape(a, req, b);
    assert RecordBounded(KeyOf(req), Record(req, ResultOf(a, req)));
  }

  lemma OneMoreStep(a: Authority, k: StepKey, rec: Record, b: Authority)
    requires Grew(a, k, rec, b)
    ensures |b.steps| == |a.steps| + 1
  {
    assert b.steps.Keys == a.steps.Keys + {k};
    assert |b.steps.Keys| == |a.steps.Keys| + 1;
  }

  lemma CommitCounts(a: Authority, req: Transfer, b: Authority)
    requires Counted(a) && Commits(a, req, b)
    ensures Counted(b)
  {
    CommitMoves(a, req, b);
    CommitShape(a, req, b);
    OneMoreStep(a, KeyOf(req), Record(req, ResultOf(a, req)), b);
  }

  lemma CommitTracked(a: Authority, req: Transfer, b: Authority)
    requires LocalOk(a) && Tracked(a) && Commits(a, req, b)
    ensures Tracked(b)
  {
    CommitCounts(a, req, b);
    CommitBounds(a, req, b);
    forall t ensures DecidedAt(b, t) {
      CommitDecides(a, req, b, t);
    }
  }

  lemma ReplannedTracked(a: Authority, b: Authority)
    requires Tracked(a) && b == a.(plane := b.plane)
    ensures Tracked(b)
  {
    forall t ensures DecidedAt(b, t) {
      assert DecidedAt(a, t);
    }
  }

  lemma NewTracked(id: string, plane: P.State)
    ensures Tracked(NewAuthority(id, plane))
  {
  }

  lemma OneTracked(w: World, w': World, id: string)
    requires WorldDecided(w) && id in w'.auths && w'.auths == w.auths[id := w'.auths[id]] && Tracked(w'.auths[id])
    ensures WorldDecided(w')
  {
  }

  lemma SendCases(w: World, to: string, req: Transfer)
    ensures var w' := Next(w, Send(to, req));
      w'.auths == w.auths
      || (&& to in w.auths && to in w'.auths && w'.auths == w.auths[to := w'.auths[to]]
          && Commits(w.auths[to], req, w'.auths[to]))
  {
    if to in w.auths {
      HandleCases(w.auths[to], req);
    }
  }

  lemma SendDecided(w: World, to: string, req: Transfer)
    requires WorldOk(w) && WorldDecided(w)
    ensures WorldDecided(Next(w, Send(to, req)))
  {
    var w' := Next(w, Send(to, req));
    SendCases(w, to, req);
    if w'.auths != w.auths {
      CommitTracked(w.auths[to], req, w'.auths[to]);
      OneTracked(w, w', to);
    }
  }

  lemma WorkReplans(w: World, to: string, work: P.Request)
    requires WorldOk(w) && to in w.auths
    ensures var w' := Next(w, Local(to, work));
      to in w'.auths && w'.auths == w.auths[to := w'.auths[to]]
      && w'.auths[to] == w.auths[to].(plane := w'.auths[to].plane)
  {
    OperateOk(w.auths[to], work);
  }

  lemma LocalDecided(w: World, to: string, work: P.Request)
    requires WorldOk(w) && WorldDecided(w)
    ensures WorldDecided(Next(w, Local(to, work)))
  {
    if to in w.auths {
      WorkReplans(w, to, work);
      ReplannedTracked(w.auths[to], Next(w, Local(to, work)).auths[to]);
      OneTracked(w, Next(w, Local(to, work)), to);
    }
  }

  lemma CreateDecided(w: World, id: string, plane: P.State)
    requires WorldDecided(w)
    ensures WorldDecided(Next(w, Create(id, plane)))
  {
    CreateCases(w, id, plane);
    NewTracked(id, plane);
    if Next(w, Create(id, plane)) != w {
      OneTracked(w, Next(w, Create(id, plane)), id);
    }
  }

  lemma NextDecided(w: World, e: Event)
    requires WorldOk(w) && WorldDecided(w)
    ensures WorldDecided(Next(w, e))
  {
    match e
    case Create(id, plane) => CreateDecided(w, id, plane);
    case Send(to, req) => SendDecided(w, to, req);
    case Local(to, work) => LocalDecided(w, to, work);
  }

  lemma {:induction false} RunDecided(events: seq<Event>)
    ensures WorldOk(Run(events)) && WorldDecided(Run(events))
    decreases |events|
  {
    RunOk(events);
    if events != [] {
      RunDecided(events[..|events| - 1]);
      NextDecided(Run(events[..|events| - 1]), events[|events| - 1]);
    }
  }

  // ---------- the transfer of a pending source ----------

  /** `s` is pending under `t` with parent `r`. */
  ghost predicate PendingFor(w: World, s: string, t: string, r: string) {
    s in w.auths && w.auths[s].standing == Pending && w.auths[s].transfer == Some(t) && w.auths[s].parent == Some(r)
  }

  ghost predicate StagedBy(w: World, r: string, t: string) {
    r in w.auths && Did(w.auths[r], t, TargetStaged) && StepOf(w.auths[r], t, TargetStaged).request.Stage?
  }

  ghost function StageOf(w: World, r: string, t: string): seq<Shown>
    requires StagedBy(w, r, t)
  {
    StepOf(w.auths[r], t, TargetStaged).request.sources
  }

  ghost predicate IsStaged(w: World, r: string, t: string, m: string) {
    StagedBy(w, r, t) && m in Subjects(StageOf(w, r, t))
  }

  lemma StagedHow(w: World, r: string, t: string)
    requires WorldOk(w) && r in w.auths && Did(w.auths[r], t, TargetStaged)
    ensures StagedBy(w, r, t)
    ensures var sources := StageOf(w, r, t); var x := StepOf(w.auths[r], t, TargetStaged).result;
      && BySubject(sources) && 2 <= |sources| <= 16 && r !in Subjects(sources)
      && AllFromSources(r, t, SourcePrepared, sources)
      && x.phase == TargetStaged && x.transfer == t && x.subject == x.target == r
      && x.members == Subjects(sources) && x.capacity == ShownCapacity(sources) && x in w.log
  {
    assert LocalOk(w.auths[r]);
    assert RecordOk(r, StepKey(t, TargetStaged), StepOf(w.auths[r], t, TargetStaged));
    StepIsLogged(w, r, t, TargetStaged);
  }

  /** The parent of a pending source has staged it. */
  lemma PendingWasStaged(w: World, s: string, t: string, r: string)
    requires WorldOk(w) && PendingFor(w, s, t, r)
    ensures IsStaged(w, r, t, s)
  {
    assert LocalOk(w.auths[s]);
    StepIsLogged(w, s, t, SourceFinalized);
    var i := Issuance(w, StepOf(w.auths[s], t, SourceFinalized).result);
    var x := StepOf(w.auths[s], t, SourceFinalized).request.stage.receipt;
    var j := Issuance(w, x);
    StagedHow(w, r, t);
  }

  // ---------- the validator's limits ----------

  /** The receipts the transfer still has to show are within what validation takes. */
  ghost predicate Presentable(r: Receipt) { r.epoch <= MAX_REVISION && r.revision <= MAX_REVISION }

  /** The next receipt of the authority will be presentable. */
  ghost predicate HasHeadroom(a: Authority) { a.epoch < MAX_REVISION && a.plane.revision < MAX_REVISION }

  /** A staged source whose finalization receipt is beyond the limits, or will be. */
  ghost predicate BeyondLimits(w: World, r: string, t: string, m: string) {
    && IsStaged(w, r, t, m) && m in w.auths
    && (if Did(w.auths[m], t, SourceFinalized) then !Presentable(StepOf(w.auths[m], t, SourceFinalized).result)
        else !HasHeadroom(w.auths[m]))
  }

  /** Every receipt the transfer still has to show is presentable, or will be. */
  ghost predicate WithinLimits(w: World, r: string, t: string)
    requires StagedBy(w, r, t)
  {
    if Did(w.auths[r], t, TargetActive) then Presentable(StepOf(w.auths[r], t, TargetActive).result)
    else
      && Presentable(StepOf(w.auths[r], t, TargetStaged).result) && HasHeadroom(w.auths[r])
      && forall m :: !BeyondLimits(w, r, t, m)
  }

  // ---------- giving up ----------

  /** Another source that the target staged gave the transfer up. */
  ghost predicate PeerGaveUp(w: World, r: string, t: string, m: string) {
    IsStaged(w, r, t, m) && m in w.auths && AbortedAsSource(w.auths[m], t)
  }

  /** The transfer was given up by its target, or by a source the target staged. */
  ghost predicate GaveUp(w: World, r: string, t: string) {
    (r in w.auths && AbortedAsTarget(w.auths[r], t)) || exists m :: PeerGaveUp(w, r, t, m)
  }

  /** Pending under a transfer that was given up, or that cannot go on within the limits. */
  ghost predicate Stranded(w: World, s: string, t: string, r: string) {
    PendingFor(w, s, t, r) && StagedBy(w, r, t) && (GaveUp(w, r, t) || !WithinLimits(w, r, t))
  }

  // ---------- what its transfer can still do ----------

  /** The target still waits for `s` and its peers, and nobody has given up. */
  ghost predicate Open(w: World, s: string, t: string, r: string) {
    && WorldOk(w) && WorldDecided(w) && PendingFor(w, s, t, r) && IsStaged(w, r, t, s)
    && w.auths[r].standing == Staged && w.auths[r].transfer == Some(t) && !GaveUp(w, r, t)
  }

  ghost predicate Hopeful(w: World, s: string, t: string, r: string) {
    Open(w, s, t, r) && WithinLimits(w, r, t)
  }

  /** A staged source is still prepared, or pending like `s`. */
  lemma PeerStands(w: World, s: string, t: string, r: string, m: string)
    requires Open(w, s, t, r) && m in Subjects(StageOf(w, r, t))
    ensures m in w.auths && m != r
    ensures if Did(w.auths[m], t, SourceFinalized) then PendingFor(w, m, t, r)
            else w.auths[m].standing == Prepared && w.auths[m].transfer == Some(t)
  {
    StagedHow(w, r, t);
    var p := ShownBy(StageOf(w, r, t), m);
    StagedPrepared(w, r, t, p);
    assert LocalOk(w.auths[m]) && SettledAt(w.auths[m], t) && DecidedAt(w.auths[m], t);
    assert !PeerGaveUp(w, r, t, m);
    if Did(w.auths[m], t, SourceFinalized) {
      ParentIsPreparedTarget(w, m);
      assert RecordOk(m, StepKey(t, SourcePrepared), StepOf(w.auths[m], t, SourcePrepared));
      if w.auths[m].standing == Subordinate {
        SubordinatesAreListed(w, m);
      }
    }
  }

  lemma NotYetActive(w: World, s: string, t: string, r: string)
    requires Open(w, s, t, r)
    ensures StagedOk(w.auths[r], t) && !Did(w.auths[r], t, TargetActive)
  {
    assert LocalOk(w.auths[r]);
  }

  lemma PendingIsOk(w: World, s: string, t: string, r: string)
    requires WorldOk(w) && PendingFor(w, s, t, r)
    ensures w.auths[s].id == s && PendingOk(w.auths[s], t)
  {
    assert LocalOk(w.auths[s]);
  }

  lemma ActivatedLeads(w: World, r: string, t: string)
    requires WorldOk(w) && r in w.auths && Did(w.auths[r], t, TargetActive)
    ensures w.auths[r].standing == FederationRoot && w.auths[r].transfer == Some(t) && StagedBy(w, r, t)
    ensures Ids(w.auths[r].members) == Subjects(StageOf(w, r, t))
  {
    assert LocalOk(w.auths[r]) && SettledAt(w.auths[r], t);
  }

  /** A target activates only when neither it nor a source it staged has given the transfer up. */
  lemma NobodyGaveUpOnActivated(w: World, r: string, t: string)
    requires WorldOk(w) && r in w.auths && Did(w.auths[r], t, TargetActive)
    ensures !GaveUp(w, r, t)
  {
    ActivatedLeads(w, r, t);
    assert LocalOk(w.auths[r]) && SettledAt(w.auths[r], t);
    forall m ensures !PeerGaveUp(w, r, t, m) {
      if IsStaged(w, r, t, m) {
        MembersFollowTheirRoot(w, r, m);
      }
    }
  }

  /** The activation of a pending source's target was shown the source's finalization receipt. */
  lemma ActivatedWasShown(w: World, s: string, t: string, r: string)
    requires WorldOk(w) && WorldDecided(w) && PendingFor(w, s, t, r) && IsStaged(w, r, t, s)
    requires Did(w.auths[r], t, TargetActive)
    ensures w.auths[s].epoch <= MAX_REVISION
  {
    assert LocalOk(w.auths[r]) && SettledAt(w.auths[r], t);
    var rec := StepOf(w.auths[r], t, TargetActive);
    assert RecordOk(r, StepKey(t, TargetActive), rec);
    var shown := ShownBy(rec.request.sources, s);
    assert shown in Shows(rec.request) && ReceiptValid(shown.receipt);
    StepIsLogged(w, r, t, TargetActive);
    var i := Issuance(w, rec.result);
    assert shown.receipt in w.log[..i];
    var j := Issuance(w, shown.receipt);
    PendingIsOk(w, s, t, r);
    assert Counted(w.auths[s]);
  }

  lemma PendingTakesEnableOnly(a: Authority, req: Transfer)
    requires a.standing == Pending && Handle(a, req).answer.Issued?
    ensures req.Enable? && a.transfer == Some(req.transfer)
    ensures req.activation.receipt.phase == TargetActive && req.activation.receipt.transfer == req.transfer
    ensures Some(req.activation.receipt.subject) == a.parent
  {
  }

  lemma EnabledNeedsActive(w: World, s: string, t: string, r: string, req: Transfer)
    requires WorldOk(w) && PendingFor(w, s, t, r) && AllIssued(w, req) && Handle(w.auths[s], req).answer.Issued?
    ensures r in w.auths && Did(w.auths[r], t, TargetActive) && Presentable(StepOf(w.auths[r], t, TargetActive).result)
  {
    PendingTakesEnableOnly(w.auths[s], req);
    assert req.activation in Shows(req);
    assert ReceiptValid(req.activation.receipt);
    var i := Issuance(w, req.activation.receipt);
  }

  // ---------- one event ----------

  /** An event changes no existing authority but the one it is sent to. */
  lemma OthersStay(w: World, e: Event, id: string)
    requires id in w.auths && (e.Create? || e.to != id)
    ensures id in Next(w, e).auths && Next(w, e).auths[id] == w.auths[id]
  {
  }

  /** The event makes `to` commit a transfer step. */
  ghost predicate Steps(w: World, e: Event, to: string) {
    && e.Send? && e.to == to && to in w.auths && AllIssued(w, e.req)
    && Commits(w.auths[to], e.req, Handle(w.auths[to], e.req).authority)
  }

  lemma StepsMoves(w: World, e: Event, to: string)
    requires Steps(w, e, to)
    ensures Next(w, e).auths == w.auths[to := Handle(w.auths[to], e.req).authority]
  {
  }

  lemma FrozenStays(w: World, e: Event, id: string)
    requires id in w.auths && w.auths[id].standing in {Prepared, Staged, Pending}
    requires e.Send? && e.to == id && AllIssued(w, e.req) ==> !Handle(w.auths[id], e.req).answer.Issued?
    ensures id in Next(w, e).auths && Next(w, e).auths[id] == w.auths[id]
  {
    if e.Send? && e.to == id {
      HandleCases(w.auths[id], e.req);
    }
  }

  /** Somebody frozen who takes no step stays as it is. */
  lemma FrozenOrSteps(w: World, e: Event, id: string)
    requires id in w.auths && w.auths[id].standing in {Prepared, Staged, Pending} && !Steps(w, e, id)
    ensures id in Next(w, e).auths && Next(w, e).auths[id] == w.auths[id]
  {
    if e.Send? && e.to == id {
      HandleCases(w.auths[id], e.req);
    }
    if e.Create? || e.to != id {
      OthersStay(w, e, id);
    } else {
      FrozenStays(w, e, id);
    }
  }
}
