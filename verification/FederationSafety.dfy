/** Safety of the federation protocol in every reachable world: any number of authorities, any
    interleaving, receipts delayed, repeated or lost. */
module FederationSafety {
  import opened Basics
  import opened Identifiers
  import opened Federation
  import opened FederationLocal
  import P = PlaneModel

  // ---------- the invariant ----------

  ghost predicate AuthsOk(w: World) {
    forall id | id in w.auths :: w.auths[id].id == id && Identifier(id) && LocalOk(w.auths[id])
  }

  /** A receipt is the result its subject has on record, and everything its request showed was
      issued before it. */
  ghost predicate Backed(w: World, i: nat)
    requires i < |w.log|
  {
    var r := w.log[i];
    && r.subject in w.auths && Did(w.auths[r.subject], r.transfer, r.phase)
    && StepOf(w.auths[r.subject], r.transfer, r.phase).result == r
    && forall s | s in Shows(StepOf(w.auths[r.subject], r.transfer, r.phase).request) :: s.receipt in w.log[..i]
  }

  ghost predicate AllBacked(w: World) {
    forall i | 0 <= i < |w.log| :: Backed(w, i)
  }

  ghost predicate Logged(w: World, id: string)
    requires id in w.auths
  {
    forall k | k in w.auths[id].steps :: w.auths[id].steps[k].result in w.log
  }

  ghost predicate AllLogged(w: World) {
    forall id | id in w.auths :: Logged(w, id)
  }

  ghost predicate Distinct(log: seq<Receipt>) {
    forall i, j | 0 <= i < j < |log| :: log[i] != log[j]
  }

  predicate GivenUp(standing: Standing) {
    standing == Prepared || standing == Pending || standing == Subordinate
  }

  /** `log[j]` prepares the transfer its subject is giving itself up under. */
  ghost predicate CurrentPrepare(w: World, j: nat)
    requires j < |w.log|
  {
    var r := w.log[j];
    && r.phase == SourcePrepared && r.subject in w.auths && GivenUp(w.auths[r.subject].standing)
    && w.auths[r.subject].transfer == Some(r.transfer)
  }

  /** A source staged nothing after it prepared. */
  ghost predicate PreparesLast(w: World) {
    forall i, j | 0 <= i < |w.log| && 0 <= j < |w.log| && CurrentPrepare(w, j)
                  && w.log[i].phase == TargetStaged && w.log[i].subject == w.log[j].subject :: i < j
  }

  ghost predicate WorldOk(w: World) {
    AuthsOk(w) && AllBacked(w) && AllLogged(w) && Distinct(w.log) && PreparesLast(w)
  }

  // ---------- one event ----------

  /** An authority's step table only grows. */
  ghost predicate StepsKept(w: World, w': World) {
    forall id | id in w.auths ::
      id in w'.auths && forall k | k in w.auths[id].steps :: k in w'.auths[id].steps && w'.auths[id].steps[k] == w.auths[id].steps[k]
  }

  lemma BackedStays(w: World, w': World, i: nat)
    requires i < |w.log| <= |w'.log| && w.log == w'.log[..|w.log|] && Backed(w, i) && StepsKept(w, w')
    ensures Backed(w', i)
  {
    var r := w.log[i];
    assert w'.log[i] == r && w'.log[..i] == w.log[..i];
    assert StepKey(r.transfer, r.phase) in w.auths[r.subject].steps;
  }

  /** Events that issue nothing and keep every table and standing. */
  lemma QuietOk(w: World, w': World)
    requires WorldOk(w) && AuthsOk(w') && w'.log == w.log && StepsKept(w, w')
    requires forall id | id in w'.auths :: if id in w.auths
      then w'.auths[id].steps == w.auths[id].steps && w'.auths[id].standing == w.auths[id].standing
           && w'.auths[id].transfer == w.auths[id].transfer
      else w'.auths[id].steps == map[] && w'.auths[id].standing == ActiveRoot
    ensures WorldOk(w')
  {
    assert w.log == w'.log[..|w.log|];
    forall i | 0 <= i < |w'.log| ensures Backed(w', i) {
      BackedStays(w, w', i);
    }
    forall id | id in w'.auths ensures Logged(w', id) {
      if id in w.auths {
        assert Logged(w, id);
      }
    }
    forall j | 0 <= j < |w'.log| && CurrentPrepare(w', j) ensures CurrentPrepare(w, j) {
      assert Backed(w, j);
    }
  }

  /** The world after one authority took a step. */
  ghost predicate Stepped(w: World, w': World, to: string, req: Transfer) {
    && to in w.auths && AllIssued(w, req) && to in w'.auths
    && w'.auths == w.auths[to := w'.auths[to]] && Commits(w.auths[to], req, w'.auths[to])
    && w'.log == w.log + [ResultOf(w.auths[to], req)]
  }

  /** What a committed step leaves on record. */
  lemma CommitRecorded(a: Authority, req: Transfer, b: Authority)
    requires Commits(a, req, b)
    ensures b.id == a.id && ResultOf(a, req).subject == a.id
    ensures Did(b, req.transfer, PhaseOf(req)) && StepOf(b, req.transfer, PhaseOf(req)) == Record(req, ResultOf(a, req))
    ensures forall k | k in a.steps :: k in b.steps && b.steps[k] == a.steps[k]
  {
    CommitShape(a, req, b);
  }

  lemma SteppedKeeps(w: World, w': World, to: string, req: Transfer)
    requires AuthsOk(w) && Stepped(w, w', to, req)
    ensures StepsKept(w, w')
  {
    CommitRecorded(w.auths[to], req, w'.auths[to]);
  }

  lemma SteppedBasics(w: World, w': World, to: string, req: Transfer)
    requires AuthsOk(w) && Stepped(w, w', to, req)
    ensures AuthsOk(w') && StepsKept(w, w')
    ensures ResultOf(w.auths[to], req).subject == to
    ensures Did(w'.auths[to], req.transfer, PhaseOf(req))
    ensures StepOf(w'.auths[to], req.transfer, PhaseOf(req)) == Record(req, ResultOf(w.auths[to], req))
  {
    SteppedKeeps(w, w', to, req);
    CommitOk(w.auths[to], req, w'.auths[to]);
    CommitRecorded(w.auths[to], req, w'.auths[to]);
  }

  lemma SteppedBacked(w: World, w': World, to: string, req: Transfer)
    requires AuthsOk(w) && AllBacked(w) && Stepped(w, w', to, req)
    ensures AllBacked(w')
  {
    SteppedKeeps(w, w', to, req);
    NewestBacked(w, w', to, req);
    assert w.log == w'.log[..|w.log|];
    forall i | 0 <= i < |w'.log| ensures Backed(w', i) {
      if i < |w.log| {
        BackedStays(w, w', i);
      }
    }
  }

  lemma NewestBacked(w: World, w': World, to: string, req: Transfer)
    requires AuthsOk(w) && Stepped(w, w', to, req)
    ensures Backed(w', |w.log|)
  {
    SteppedBasics(w, w', to, req);
    assert w'.log[|w.log|] == ResultOf(w.auths[to], req) && w'.log[..|w.log|] == w.log;
  }

  lemma SteppedLogged(w: World, w': World, to: string, req: Transfer)
    requires AuthsOk(w) && AllLogged(w) && Stepped(w, w', to, req)
    ensures AllLogged(w')
  {
    CommitShape(w.auths[to], req, w'.auths[to]);
    forall id | id in w'.auths ensures Logged(w', id) {
      assert Logged(w, id);
    }
  }

  lemma SteppedDistinct(w: World, w': World, to: string, req: Transfer)
    requires AuthsOk(w) && AllBacked(w) && Distinct(w.log) && Stepped(w, w', to, req)
    ensures Distinct(w'.log)
  {
    SteppedBasics(w, w', to, req);
    var r := ResultOf(w.auths[to], req);
    forall i | 0 <= i < |w.log| ensures w.log[i] != r {
      assert Backed(w, i);
    }
  }

  /** A prepare that is current after the step was current before it, and the step staged
      nothing for its subject. */
  lemma OldPrepare(w: World, w': World, to: string, req: Transfer, j: nat)
    requires WorldOk(w) && Stepped(w, w', to, req) && j < |w.log| && CurrentPrepare(w', j)
    ensures CurrentPrepare(w, j)
    ensures w.log[j].subject == to ==> !req.Stage?
  {
    var r := w.log[j];
    assert w'.log[j] == r && Backed(w, j);
    CommitMoves(w.auths[to], req, w'.auths[to]);
    CommitShape(w.auths[to], req, w'.auths[to]);
  }

  /** Appending keeps the order as long as current prepares stay current. */
  lemma AppendPreparesLast(w: World, w': World, r: Receipt)
    requires PreparesLast(w) && w'.log == w.log + [r]
    requires forall j | 0 <= j < |w.log| && CurrentPrepare(w', j) ::
               CurrentPrepare(w, j) && !(r.phase == TargetStaged && r.subject == w.log[j].subject)
    requires r.phase == SourcePrepared || forall j | j == |w.log| :: !CurrentPrepare(w', j)
    ensures PreparesLast(w')
  {
  }

  lemma SteppedPreparesLast(w: World, w': World, to: string, req: Transfer)
    requires WorldOk(w) && Stepped(w, w', to, req)
    ensures PreparesLast(w')
  {
    var r := ResultOf(w.auths[to], req);
    SteppedBasics(w, w', to, req);
    assert req.Stage? <==> r.phase == TargetStaged;
    forall j | 0 <= j < |w.log| && CurrentPrepare(w', j)
      ensures CurrentPrepare(w, j) && !(r.phase == TargetStaged && r.subject == w.log[j].subject)
    {
      OldPrepare(w, w', to, req, j);
    }
    AppendPreparesLast(w, w', r);
  }

  lemma SteppedOk(w: World, w': World, to: string, req: Transfer)
    requires WorldOk(w) && Stepped(w, w', to, req)
    ensures WorldOk(w')
  {
    SteppedBasics(w, w', to, req);
    SteppedBacked(w, w', to, req);
    SteppedLogged(w, w', to, req);
    SteppedDistinct(w, w', to, req);
    SteppedPreparesLast(w, w', to, req);
  }

  lemma SendOk(w: World, to: string, req: Transfer)
    requires WorldOk(w)
    ensures WorldOk(Next(w, Send(to, req))) && StepsKept(w, Next(w, Send(to, req)))
  {
    var w' := Next(w, Send(to, req));
    if to in w.auths && AllIssued(w, req) {
      HandleCases(w.auths[to], req);
      if Handle(w.auths[to], req).answer.Issued? {
        SteppedOk(w, w', to, req);
        SteppedBasics(w, w', to, req);
      } else {
        assert w'.auths == w.auths;
      }
    }
  }

  lemma ReplanedWorld(w: World, to: string, b: Authority)
    requires WorldOk(w) && to in w.auths && LocalOk(b) && b == w.auths[to].(plane := b.plane)
    ensures WorldOk(w.(auths := w.auths[to := b])) && StepsKept(w, w.(auths := w.auths[to := b]))
  {
    var w' := w.(auths := w.auths[to := b]);
    assert w.auths[to].id == to && AuthsOk(w');
    QuietOk(w, w');
  }

  lemma WorkOk(w: World, to: string, work: P.Request)
    requires WorldOk(w)
    ensures WorldOk(Next(w, Local(to, work))) && StepsKept(w, Next(w, Local(to, work)))
  {
    if to in w.auths {
      OperateOk(w.auths[to], work);
      ReplanedWorld(w, to, Operate(w.auths[to], work));
    }
  }

  lemma CreateCases(w: World, id: string, plane: P.State)
    ensures Next(w, Create(id, plane)) == w || (
              && id !in w.auths && Identifier(id) && LocalOk(NewAuthority(id, plane))
              && Next(w, Create(id, plane)) == World(w.auths[id := NewAuthority(id, plane)], w.log))
  {
    if Fresh(plane) {
      NewIsOk(id, plane);
    }
  }

  lemma JoinedOk(w: World, w': World, id: string, a: Authority)
    requires WorldOk(w) && id !in w.auths && a.id == id && Identifier(id) && LocalOk(a)
    requires a.steps == map[] && a.standing == ActiveRoot && w' == World(w.auths[id := a], w.log)
    ensures WorldOk(w') && StepsKept(w, w')
  {
    QuietOk(w, w');
  }

  lemma CreateOk(w: World, id: string, plane: P.State)
    requires WorldOk(w)
    ensures WorldOk(Next(w, Create(id, plane))) && StepsKept(w, Next(w, Create(id, plane)))
  {
    CreateCases(w, id, plane);
    if Next(w, Create(id, plane)) != w {
      JoinedOk(w, Next(w, Create(id, plane)), id, NewAuthority(id, plane));
    }
  }

  lemma NextOk(w: World, e: Event)
    requires WorldOk(w)
    ensures WorldOk(Next(w, e)) && StepsKept(w, Next(w, e))
  {
    match e
    case Create(id, plane) => CreateOk(w, id, plane);
    case Send(to, req) => SendOk(w, to, req);
    case Local(to, work) => WorkOk(w, to, work);
  }

  lemma {:induction false} RunOk(events: seq<Event>)
    ensures WorldOk(Run(events))
    decreases |events|
  {
    if events != [] {
      RunOk(events[..|events| - 1]);
      NextOk(Run(events[..|events| - 1]), events[|events| - 1]);
    }
  }

  // ---------- looking receipts up ----------

  ghost function RecordOf(w: World, r: Receipt): Record
    requires r.subject in w.auths && Did(w.auths[r.subject], r.transfer, r.phase)
  {
    StepOf(w.auths[r.subject], r.transfer, r.phase)
  }

  /** An issued receipt is its subject's recorded result, and what that step was shown was
      issued earlier. */
  lemma Issuance(w: World, r: Receipt) returns (i: nat)
    requires WorldOk(w) && r in w.log
    ensures i < |w.log| && w.log[i] == r
    ensures r.subject in w.auths && Did(w.auths[r.subject], r.transfer, r.phase)
    ensures RecordOf(w, r).result == r
    ensures RecordOk(r.subject, StepKey(r.transfer, r.phase), RecordOf(w, r))
    ensures forall s | s in Shows(RecordOf(w, r).request) :: s.receipt in w.log[..i]
  {
    i :| 0 <= i < |w.log| && w.log[i] == r;
    assert Backed(w, i);
    assert LocalOk(w.auths[r.subject]);
  }

  /** Every name on an issued receipt is an identifier. */
  lemma IssuedIsNamed(w: World, r: Receipt)
    requires WorldOk(w) && r in w.log
    ensures Named(r)
  {
    var i := Issuance(w, r);
    RecordNamed(r.subject, StepKey(r.transfer, r.phase), RecordOf(w, r));
  }

  lemma Earlier(w: World, r: Receipt, i: nat) returns (j: nat)
    requires i <= |w.log| && r in w.log[..i]
    ensures j < i && w.log[j] == r
  {
    j :| 0 <= j < i && w.log[..i][j] == r;
  }

  lemma StepIsLogged(w: World, id: string, t: string, phase: Phase)
    requires WorldOk(w) && id in w.auths && Did(w.auths[id], t, phase)
    ensures var r := StepOf(w.auths[id], t, phase).result;
      r in w.log && r.subject == id && r.transfer == t && r.phase == phase
  {
    assert Logged(w, id) && LocalOk(w.auths[id]);
    assert RecordOk(id, StepKey(t, phase), w.auths[id].steps[StepKey(t, phase)]);
  }

  lemma ShownBy(sources: seq<Shown>, m: string) returns (s: Shown)
    requires m in Subjects(sources)
    ensures s in sources && s.receipt.subject == m
  {
    s :| s in sources && s.receipt.subject == m;
  }

  // ---------- who follows whom ----------

  lemma MemberFinalized(w: World, root: string, m: string)
    requires WorldOk(w) && root in w.auths && w.auths[root].standing == FederationRoot && m in Ids(w.auths[root].members)
    ensures w.auths[root].transfer.Some? && m in w.auths
    ensures Did(w.auths[m], w.auths[root].transfer.value, SourceFinalized)
    ensures StepOf(w.auths[m], w.auths[root].transfer.value, SourceFinalized).result.target == root
  {
    var t := w.auths[root].transfer.value;
    StepIsLogged(w, root, t, TargetActive);
    var i := Issuance(w, StepOf(w.auths[root], t, TargetActive).result);
    var f := ShownBy(StepOf(w.auths[root], t, TargetActive).request.sources, m);
    var j := Issuance(w, f.receipt);
  }

  /** Every member a federation root lists is a pending or enabled subordinate of that very
      root under the same transfer, and never gave the transfer up as a source. */
  lemma MembersFollowTheirRoot(w: World, root: string, m: string)
    requires WorldOk(w) && root in w.auths && w.auths[root].standing == FederationRoot && m in Ids(w.auths[root].members)
    ensures m in w.auths && w.auths[m].standing in {Pending, Subordinate}
    ensures w.auths[m].parent == Some(root) && w.auths[m].transfer == w.auths[root].transfer
    ensures w.auths[m].transfer.Some? && !AbortedAsSource(w.auths[m], w.auths[m].transfer.value)
  {
    MemberFinalized(w, root, m);
    assert LocalOk(w.auths[m]);
    assert SettledAt(w.auths[m], w.auths[root].transfer.value);
  }

  /** Every enabled subordinate has a federation root for parent, and that root lists it. */
  lemma SubordinatesAreListed(w: World, s: string)
    requires WorldOk(w) && s in w.auths && w.auths[s].standing == Subordinate
    ensures w.auths[s].parent.Some? && w.auths[s].parent.value in w.auths
    ensures w.auths[w.auths[s].parent.value].standing == FederationRoot
    ensures w.auths[w.auths[s].parent.value].transfer == w.auths[s].transfer
    ensures s in Ids(w.auths[w.auths[s].parent.value].members)
  {
    var t := w.auths[s].transfer.value;
    StepIsLogged(w, s, t, SubordinateActive);
    var i := Issuance(w, StepOf(w.auths[s], t, SubordinateActive).result);
    var activation := StepOf(w.auths[s], t, SubordinateActive).request.activation;
    var j := Issuance(w, activation.receipt);
    assert SettledAt(w.auths[activation.receipt.subject], t);
  }

  /** How a demoted source came to its parent: it prepared for it, the parent staged it, and
      these receipts were issued in this order. */
  lemma Demotion(w: World, s: string) returns (prepared: nat, staged: nat)
    requires WorldOk(w) && s in w.auths && w.auths[s].standing in {Pending, Subordinate}
    ensures w.auths[s].transfer.Some? && w.auths[s].parent.Some?
    ensures Did(w.auths[s], w.auths[s].transfer.value, SourcePrepared)
    ensures prepared < staged < |w.log|
    ensures w.log[prepared] == StepOf(w.auths[s], w.auths[s].transfer.value, SourcePrepared).result
    ensures w.log[prepared].target == w.auths[s].parent.value
    ensures w.log[staged].phase == TargetStaged && w.log[staged].subject == w.auths[s].parent.value
    ensures w.auths[s].parent.value in w.auths
  {
    var t := w.auths[s].transfer.value;
    StepIsLogged(w, s, t, SourceFinalized);
    var i := Issuance(w, StepOf(w.auths[s], t, SourceFinalized).result);
    var stage := StepOf(w.auths[s], t, SourceFinalized).request.stage.receipt;
    staged := Issuance(w, stage);
    var p := ShownBy(RecordOf(w, stage).request.sources, s);
    prepared := Earlier(w, p.receipt, staged);
    var k := Issuance(w, p.receipt);
  }

  /** A demoted source's parent is the target it named when it prepared, although finalizing
      never compares the two. */
  lemma ParentIsPreparedTarget(w: World, s: string)
    requires WorldOk(w) && s in w.auths && w.auths[s].standing in {Pending, Subordinate}
    ensures w.auths[s].transfer.Some? && Did(w.auths[s], w.auths[s].transfer.value, SourcePrepared)
    ensures w.auths[s].parent == Some(StepOf(w.auths[s], w.auths[s].transfer.value, SourcePrepared).request.target)
  {
    var prepared, staged := Demotion(w, s);
    assert RecordsOk(w.auths[s]);
    assert RecordOk(s, StepKey(w.auths[s].transfer.value, SourcePrepared),
                    StepOf(w.auths[s], w.auths[s].transfer.value, SourcePrepared));
  }

  // ---------- no cycles ----------

  ghost predicate HasParent(w: World, s: string) {
    s in w.auths && w.auths[s].standing in {Pending, Subordinate}
  }

  /** When the receipt that gave `s` away was prepared. */
  ghost predicate PreparedAt(w: World, s: string, i: nat) {
    && HasParent(w, s) && i < |w.log| && w.log[i].phase == SourcePrepared && w.log[i].subject == s
    && w.auths[s].transfer == Some(w.log[i].transfer)
  }

  /** A parent that was itself given away prepared later than its child. */
  lemma ParentsPrepareLater(w: World, s: string, i: nat, k: nat)
    requires WorldOk(w) && PreparedAt(w, s, i) && w.auths[s].parent.Some? && PreparedAt(w, w.auths[s].parent.value, k)
    ensures i < k
  {
    var prepared, staged := Demotion(w, s);
    assert Backed(w, i) && Backed(w, prepared);
    assert w.log[i] == w.log[prepared];
    assert i == prepared;
    assert CurrentPrepare(w, k);
  }

  /** The authority `n` parents above. */
  ghost function Up(w: World, s: string, n: nat): Option<string> {
    if n == 0 then Some(s)
    else
      var below := Up(w, s, n - 1);
      if below.Some? && below.value in w.auths then w.auths[below.value].parent else None
  }

  lemma ParentsAreDemoted(w: World, s: string)
    requires WorldOk(w) && s in w.auths && w.auths[s].parent.Some?
    ensures HasParent(w, s)
  {
    assert LocalOk(w.auths[s]);
  }

  lemma PreparedSomewhere(w: World, s: string) returns (i: nat)
    requires WorldOk(w) && HasParent(w, s)
    ensures PreparedAt(w, s, i)
  {
    var staged;
    i, staged := Demotion(w, s);
    assert Backed(w, i);
    StepIsLogged(w, s, w.auths[s].transfer.value, SourcePrepared);
  }

  /** Preparing dates every authority with a parent, and later than its children. */
  ghost predicate Climbing(w: World) {
    && (forall s | s in w.auths && w.auths[s].parent.Some? :: exists i :: PreparedAt(w, s, i))
    && (forall s, i, k | PreparedAt(w, s, i) && w.auths[s].parent.Some? && PreparedAt(w, w.auths[s].parent.value, k) :: i < k)
  }

  lemma WorldsClimb(w: World)
    requires WorldOk(w)
    ensures Climbing(w)
  {
    forall s | s in w.auths && w.auths[s].parent.Some? ensures exists i :: PreparedAt(w, s, i) {
      ParentsAreDemoted(w, s);
      var i := PreparedSomewhere(w, s);
    }
    forall s, i, k | PreparedAt(w, s, i) && w.auths[s].parent.Some? && PreparedAt(w, w.auths[s].parent.value, k)
      ensures i < k
    {
      ParentsPrepareLater(w, s, i, k);
    }
  }

  lemma {:induction false} AncestorsPrepareLater(w: World, s: string, n: nat, i: nat, k: nat)
    requires Climbing(w) && n >= 1 && Up(w, s, n).Some? && PreparedAt(w, s, i) && PreparedAt(w, Up(w, s, n).value, k)
    ensures i < k
  {
    if n > 1 {
      var below := Up(w, s, n - 1).value;
      assert w.auths[below].parent == Up(w, s, n);
      var j :| PreparedAt(w, below, j);
      AncestorsPrepareLater(w, s, n - 1, i, j);
    } else {
      assert Up(w, s, 0) == Some(s);
      assert w.auths[s].parent == Up(w, s, n);
    }
  }

  lemma {:induction false} UpStarts(w: World, s: string, n: nat)
    requires n >= 1 && Up(w, s, n).Some?
    ensures s in w.auths && w.auths[s].parent.Some?
  {
    if n > 1 {
      UpStarts(w, s, n - 1);
    } else {
      assert Up(w, s, 0) == Some(s);
    }
  }

  /** No authority is its own ancestor, pending sources included. */
  lemma NoCycles(w: World, s: string, n: nat)
    requires WorldOk(w) && n >= 1
    ensures Up(w, s, n) != Some(s)
  {
    WorldsClimb(w);
    if Up(w, s, n) == Some(s) {
      UpStarts(w, s, n);
      var i :| PreparedAt(w, s, i);
      AncestorsPrepareLater(w, s, n, i, i);
    }
  }
}
