/** A finalized source is stranded for ever once its transfer was given up, or cannot go on within
    the validator's limits. */
module FederationStranding {
  import opened Basics
  import opened Federation
  import opened FederationLocal
  import opened FederationSafety
  import opened FederationOutcomes
  import opened FederationPending

  // ---------- given up ----------

  lemma GaveUpStays(w: World, w': World, r: string, t: string)
    requires GaveUp(w, r, t) && StepsKept(w, w')
    ensures GaveUp(w', r, t)
  {
    if r in w.auths && AbortedAsTarget(w.auths[r], t) {
      assert StepKey(t, Aborted) in w.auths[r].steps;
    } else {
      var m :| PeerGaveUp(w, r, t, m);
      assert StepKey(t, TargetStaged) in w.auths[r].steps && StepKey(t, Aborted) in w.auths[m].steps;
      assert PeerGaveUp(w', r, t, m);
    }
  }

  lemma GivenUpStays(w: World, s: string, t: string, r: string, e: Event)
    requires WorldOk(w) && PendingFor(w, s, t, r) && StagedBy(w, r, t) && GaveUp(w, r, t)
    ensures PendingFor(Next(w, e), s, t, r) && StagedBy(Next(w, e), r, t) && GaveUp(Next(w, e), r, t)
  {
    NextOk(w, e);
    GaveUpStays(w, Next(w, e), r, t);
    assert StepKey(t, TargetStaged) in w.auths[r].steps;
    if Steps(w, e, s) {
      EnabledNeedsActive(w, s, t, r, e.req);
      NobodyGaveUpOnActivated(w, r, t);
    }
    FrozenOrSteps(w, e, s);
  }

  // ---------- beyond the limits ----------

  lemma StageWasPresentable(w: World, s: string, t: string, r: string)
    requires WorldOk(w) && PendingFor(w, s, t, r) && StagedBy(w, r, t)
    ensures Presentable(StepOf(w.auths[r], t, TargetStaged).result)
  {
    PendingIsOk(w, s, t, r);
    var rec := StepOf(w.auths[s], t, SourceFinalized);
    assert LocalOk(w.auths[s]);
    assert RecordOk(s, StepKey(t, SourceFinalized), rec);
    assert rec.request.stage in Shows(rec.request);
    StepIsLogged(w, s, t, SourceFinalized);
    var i := Issuance(w, rec.result);
    var j := Issuance(w, rec.request.stage.receipt);
  }

  lemma WhyBeyond(w: World, s: string, t: string, r: string)
    requires WorldOk(w) && PendingFor(w, s, t, r) && StagedBy(w, r, t) && !Did(w.auths[r], t, TargetActive)
    ensures WithinLimits(w, r, t) <==> HasHeadroom(w.auths[r]) && forall m :: !BeyondLimits(w, r, t, m)
  {
    StageWasPresentable(w, s, t, r);
  }

  /** A target that activates although a peer is beyond the limits would have been shown that
      peer's receipt. */
  lemma ActivatesOnlyWithin(w: World, s: string, t: string, r: string, req: Transfer, m: string)
    requires Open(w, s, t, r) && AllIssued(w, req) && BeyondLimits(w, r, t, m)
    requires req.Activate? && req.transfer == t && SchemaOk(req)
    ensures StepError(w.auths[r], req).Some?
  {
    if StepError(w.auths[r], req).None? {
      assert LocalOk(w.auths[r]);
      StagedIsShown(w.auths[r], req);
      ShownFinalized(w, r, req, m);
    }
  }

  lemma AbortGivesUp(w': World, r: string, t: string, a: Authority, req: Transfer)
    requires r in w'.auths && Commits(a, req, w'.auths[r]) && req.Abort? && req.transfer == t && a.standing == Staged
    ensures GaveUp(w', r, t)
  {
    CommitMoves(a, req, w'.auths[r]);
    CommitRecorded(a, req, w'.auths[r]);
  }

  lemma ActivatesBeyond(w': World, r: string, t: string, a: Authority, req: Transfer)
    requires StagedBy(w', r, t) && Commits(a, req, w'.auths[r]) && req.Activate? && req.transfer == t && !HasHeadroom(a)
    ensures !WithinLimits(w', r, t)
  {
    CommitRecorded(a, req, w'.auths[r]);
  }

  lemma StillStaged(w: World, w': World, r: string, t: string, req: Transfer)
    requires StagedBy(w, r, t) && r in w'.auths && Commits(w.auths[r], req, w'.auths[r])
    ensures StagedBy(w', r, t)
  {
    CommitRecorded(w.auths[r], req, w'.auths[r]);
    assert StepKey(t, TargetStaged) in w.auths[r].steps;
  }

  /** The committed step of a staged target: it gives up, or activates, and then its own receipt is
      beyond the limits, since all it was shown are within. */
  lemma TargetStepBeyond(w: World, w': World, s: string, t: string, r: string, req: Transfer)
    requires Open(w, s, t, r) && !WithinLimits(w, r, t) && AllIssued(w, req)
    requires r in w'.auths && Commits(w.auths[r], req, w'.auths[r])
    ensures StagedBy(w', r, t) && (GaveUp(w', r, t) || !WithinLimits(w', r, t))
  {
    StillStaged(w, w', r, t, req);
    CommitMoves(w.auths[r], req, w'.auths[r]);
    if req.Abort? {
      AbortGivesUp(w', r, t, w.auths[r], req);
    } else if HasHeadroom(w.auths[r]) {
      NotYetActive(w, s, t, r);
      WhyBeyond(w, s, t, r);
      var m :| BeyondLimits(w, r, t, m);
      CommitShape(w.auths[r], req, w'.auths[r]);
      ActivatesOnlyWithin(w, s, t, r, req, m);
    } else {
      ActivatesBeyond(w', r, t, w.auths[r], req);
    }
  }

  /** A peer without headroom finalizes beyond the limits, or gives up. */
  lemma PreparedStepBeyond(w: World, w': World, r: string, t: string, m: string, req: Transfer)
    requires IsStaged(w', r, t, m) && m in w.auths && m in w'.auths && Commits(w.auths[m], req, w'.auths[m])
    requires w.auths[m].standing == Prepared && w.auths[m].transfer == Some(t) && !HasHeadroom(w.auths[m])
    ensures PeerGaveUp(w', r, t, m) || BeyondLimits(w', r, t, m)
  {
    CommitMoves(w.auths[m], req, w'.auths[m]);
    CommitRecorded(w.auths[m], req, w'.auths[m]);
  }

  lemma FinalizedStepBeyond(w: World, w': World, r: string, t: string, m: string, req: Transfer)
    requires IsStaged(w', r, t, m) && m in w.auths && m in w'.auths && Commits(w.auths[m], req, w'.auths[m])
    requires Did(w.auths[m], t, SourceFinalized) && !Presentable(StepOf(w.auths[m], t, SourceFinalized).result)
    ensures BeyondLimits(w', r, t, m)
  {
    CommitRecorded(w.auths[m], req, w'.auths[m]);
    assert StepKey(t, SourceFinalized) in w.auths[m].steps;
  }

  lemma PeerStepBeyond(w: World, w': World, s: string, t: string, r: string, m: string, req: Transfer)
    requires Open(w, s, t, r) && BeyondLimits(w, r, t, m) && IsStaged(w', r, t, m)
    requires m in w'.auths && Commits(w.auths[m], req, w'.auths[m])
    ensures PeerGaveUp(w', r, t, m) || BeyondLimits(w', r, t, m)
  {
    if Did(w.auths[m], t, SourceFinalized) {
      FinalizedStepBeyond(w, w', r, t, m, req);
    } else {
      PeerStands(w, s, t, r, m);
      PreparedStepBeyond(w, w', r, t, m, req);
    }
  }

  lemma StagedStill(w: World, w': World, r: string, t: string, m: string)
    requires IsStaged(w, r, t, m) && r in w'.auths && w'.auths[r] == w.auths[r]
    ensures IsStaged(w', r, t, m)
    ensures BeyondLimits(w, r, t, m) && m in w'.auths && w'.auths[m] == w.auths[m] ==> BeyondLimits(w', r, t, m)
  {
  }

  lemma LimitsStay(w: World, w': World, s: string, t: string, r: string)
    requires Open(w, s, t, r) && !WithinLimits(w, r, t) && WorldOk(w') && PendingFor(w', s, t, r)
    requires r in w'.auths && w'.auths[r] == w.auths[r]
    requires forall m | BeyondLimits(w, r, t, m) :: PeerGaveUp(w', r, t, m) || BeyondLimits(w', r, t, m)
    ensures GaveUp(w', r, t) || !WithinLimits(w', r, t)
  {
    NotYetActive(w, s, t, r);
    WhyBeyond(w, s, t, r);
    WhyBeyond(w', s, t, r);
    if HasHeadroom(w.auths[r]) {
      var m :| BeyondLimits(w, r, t, m);
      assert PeerGaveUp(w', r, t, m) ==> GaveUp(w', r, t);
      assert BeyondLimits(w', r, t, m) ==> !WithinLimits(w', r, t);
    }
  }

  lemma PendingTakesNoStep(w: World, s: string, t: string, r: string, req: Transfer)
    requires Open(w, s, t, r) && AllIssued(w, req)
    ensures !Handle(w.auths[s], req).answer.Issued?
  {
    NotYetActive(w, s, t, r);
    if Handle(w.auths[s], req).answer.Issued? {
      EnabledNeedsActive(w, s, t, r, req);
    }
  }

  lemma PeerIsFrozen(w: World, s: string, t: string, r: string, m: string)
    requires Open(w, s, t, r) && IsStaged(w, r, t, m)
    ensures m in w.auths && m != r && w.auths[m].standing in {Prepared, Pending}
  {
    PeerStands(w, s, t, r, m);
  }

  lemma PeerEvent(w: World, s: string, t: string, r: string, e: Event, m: string)
    requires Open(w, s, t, r) && BeyondLimits(w, r, t, m) && !Steps(w, e, r)
    ensures PeerGaveUp(Next(w, e), r, t, m) || BeyondLimits(Next(w, e), r, t, m)
  {
    var w' := Next(w, e);
    PeerIsFrozen(w, s, t, r, m);
    FrozenOrSteps(w, e, r);
    StagedStill(w, w', r, t, m);
    if Steps(w, e, m) {
      StepsMoves(w, e, m);
      PeerStepBeyond(w, w', s, t, r, m, e.req);
    } else {
      FrozenOrSteps(w, e, m);
    }
  }

  /** Beyond the limits there is no way back. */
  lemma BeyondStep(w: World, s: string, t: string, r: string, e: Event)
    requires Open(w, s, t, r) && !WithinLimits(w, r, t)
    ensures PendingFor(Next(w, e), s, t, r) && StagedBy(Next(w, e), r, t)
    ensures GaveUp(Next(w, e), r, t) || !WithinLimits(Next(w, e), r, t)
  {
    NextOk(w, e);
    if Steps(w, e, s) {
      PendingTakesNoStep(w, s, t, r, e.req);
    }
    FrozenOrSteps(w, e, s);
    if Steps(w, e, r) {
      StepsMoves(w, e, r);
      TargetStepBeyond(w, Next(w, e), s, t, r, e.req);
    } else {
      FrozenOrSteps(w, e, r);
      forall m | BeyondLimits(w, r, t, m) ensures PeerGaveUp(Next(w, e), r, t, m) || BeyondLimits(Next(w, e), r, t, m) {
        PeerEvent(w, s, t, r, e, m);
      }
      LimitsStay(w, Next(w, e), s, t, r);
    }
  }

  lemma ActiveRecordStays(w: World, w': World, r: string, t: string)
    requires StagedBy(w, r, t) && Did(w.auths[r], t, TargetActive) && StepsKept(w, w')
    ensures StagedBy(w', r, t) && WithinLimits(w', r, t) == WithinLimits(w, r, t)
  {
    assert StepKey(t, TargetActive) in w.auths[r].steps && StepKey(t, TargetStaged) in w.auths[r].steps;
  }

  lemma ActiveBeyondStays(w: World, s: string, t: string, r: string, e: Event)
    requires WorldOk(w) && PendingFor(w, s, t, r) && StagedBy(w, r, t)
    requires Did(w.auths[r], t, TargetActive) && !WithinLimits(w, r, t)
    ensures PendingFor(Next(w, e), s, t, r) && StagedBy(Next(w, e), r, t) && !WithinLimits(Next(w, e), r, t)
  {
    NextOk(w, e);
    ActiveRecordStays(w, Next(w, e), r, t);
    if Steps(w, e, s) {
      EnabledNeedsActive(w, s, t, r, e.req);
    }
    FrozenOrSteps(w, e, s);
  }

  // ---------- for ever ----------

  lemma OpenUnlessDecided(w: World, s: string, t: string, r: string)
    requires WorldOk(w) && WorldDecided(w) && PendingFor(w, s, t, r) && !GaveUp(w, r, t)
    requires StagedBy(w, r, t) && !Did(w.auths[r], t, TargetActive)
    ensures Open(w, s, t, r)
  {
    PendingWasStaged(w, s, t, r);
    assert DecidedAt(w.auths[r], t);
  }

  lemma StrandedStep(w: World, s: string, t: string, r: string, e: Event)
    requires WorldOk(w) && WorldDecided(w) && Stranded(w, s, t, r)
    ensures Stranded(Next(w, e), s, t, r)
  {
    if GaveUp(w, r, t) {
      GivenUpStays(w, s, t, r, e);
    } else if Did(w.auths[r], t, TargetActive) {
      ActiveBeyondStays(w, s, t, r, e);
    } else {
      OpenUnlessDecided(w, s, t, r);
      BeyondStep(w, s, t, r, e);
    }
  }

  /** Once the target, or another source it staged, has given the transfer up, a finalized source
      stays pending for ever; likewise once a receipt the transfer still needs is beyond the
      validator's limits. The protocol is safe, not live. */
  lemma {:induction false} StrandedForever(events: seq<Event>, i: nat, s: string, t: string, r: string)
    requires i <= |events| && Stranded(Run(events[..i]), s, t, r)
    ensures Stranded(Run(events), s, t, r)
    decreases |events|
  {
    if i == |events| {
      assert events[..i] == events;
    } else {
      var init := events[..|events| - 1];
      assert init[..i] == events[..i];
      StrandedForever(init, i, s, t, r);
      RunDecided(init);
      StrandedStep(Run(init), s, t, r, events[|events| - 1]);
    }
  }
}
