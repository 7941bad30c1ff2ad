/** What the federation protocol guarantees about work: frozen authorities stand still, the
    activated capacity is real, retransmissions vanish, and no transfer disturbs a store. */
module FederationOutcomes {
  import opened Basics
  import opened Histories
  import opened Federation
  import opened FederationLocal
  import opened FederationSafety
  import P = PlaneModel
  import PlaneInvariants
  import PlaneRuns
  import PlaneReplay

  // ---------- frozen authorities ----------

  predicate Frozen(standing: Standing) {
    standing == Prepared || standing == Staged || standing == Pending
  }

  /** A frozen authority and a federation root have no active or reserved worker. */
  lemma FrozenIsDrained(events: seq<Event>, id: string)
    requires id in Run(events).auths
    requires Frozen(Run(events).auths[id].standing) || Run(events).auths[id].standing == FederationRoot
    ensures P.Occupancy(Run(events).auths[id].plane) == 0
  {
    RunOk(events);
    assert LocalOk(Run(events).auths[id]);
  }

  /** Two stores that differ in the revision counter only. */
  predicate SameStore(a: P.State, b: P.State) {
    a.(revision := 0) == b.(revision := 0)
  }

  lemma HandleKeepsStore(a: Authority, req: Transfer)
    ensures SameStore(Handle(a, req).authority.plane, a.plane)
  {
    HandleCases(a, req);
    if Handle(a, req).answer.Issued? {
      CommitShape(a, req, Handle(a, req).authority);
    }
  }

  lemma FrozenStep(w: World, e: Event, id: string)
    requires id in w.auths && Frozen(w.auths[id].standing)
    ensures id in Next(w, e).auths && SameStore(Next(w, e).auths[id].plane, w.auths[id].plane)
  {
    if e.Send? && e.to == id {
      HandleKeepsStore(w.auths[id], e.req);
    }
  }

  /** While an authority stays frozen, tasks, claims, rules, samples and capacity are what they
      were: nothing but the revision counter moves. */
  lemma {:induction false} FrozenStandsStill(events: seq<Event>, i: nat, id: string)
    requires i <= |events|
    requires forall k | i <= k < |events| ::
      id in Run(events[..k]).auths && Frozen(Run(events[..k]).auths[id].standing)
    requires i == |events| ==> id in Run(events).auths
    ensures id in Run(events[..i]).auths && id in Run(events).auths
    ensures SameStore(Run(events).auths[id].plane, Run(events[..i]).auths[id].plane)
    decreases |events|
  {
    if i == |events| {
      assert events[..i] == events;
    } else {
      var init := events[..|events| - 1];
      forall k | i <= k < |init| ensures init[..k] == events[..k] {}
      assert id in Run(events[..|events| - 1]).auths;
      assert init[..i] == events[..i];
      FrozenStandsStill(init, i, id);
      FrozenStep(Run(init), events[|events| - 1], id);
    }
  }

  // ---------- activated capacity ----------

  /** The capacities the listed authorities really have. */
  function RealCapacity(w: World, sources: seq<Shown>): nat {
    if sources == [] then 0
    else
      var id := sources[0].receipt.subject;
      (if id in w.auths then w.auths[id].plane.capacity else 0) + RealCapacity(w, sources[1..])
  }

  lemma {:induction false} CapacitiesAgree(w: World, sources: seq<Shown>)
    requires forall s | s in sources :: s.receipt.subject in w.auths
               && w.auths[s.receipt.subject].plane.capacity == s.receipt.capacity && 1 <= s.receipt.capacity <= 64
    ensures RealCapacity(w, sources) == ShownCapacity(sources) && |sources| <= ShownCapacity(sources) <= 64 * |sources|
  {
    if sources != [] {
      CapacitiesAgree(w, sources[1..]);
    }
  }

  /** Every staged source prepared for the target, with the receipt the target was shown. */
  lemma StagedPrepared(w: World, root: string, t: string, p: Shown)
    requires WorldOk(w) && root in w.auths && Did(w.auths[root], t, TargetStaged)
    requires StepOf(w.auths[root], t, TargetStaged).request.Stage?
    requires p in StepOf(w.auths[root], t, TargetStaged).request.sources
    ensures p.receipt.subject in w.auths && Did(w.auths[p.receipt.subject], t, SourcePrepared)
    ensures StepOf(w.auths[p.receipt.subject], t, SourcePrepared).result == p.receipt && p.receipt.target == root
  {
    StepIsLogged(w, root, t, TargetStaged);
    var i := Issuance(w, StepOf(w.auths[root], t, TargetStaged).result);
    assert p.receipt in w.log[..i];
    assert p.receipt in w.log;
    var j := Issuance(w, p.receipt);
  }

  /** Who may be shown to activate has finalized for this target. */
  lemma ShownFinalized(w: World, root: string, req: Transfer, m: string)
    requires WorldOk(w) && root in w.auths && req.Activate? && AllIssued(w, req)
    requires StepError(w.auths[root], req).None? && m in Subjects(req.sources)
    ensures m in w.auths && Did(w.auths[m], req.transfer, SourceFinalized)
    ensures StepOf(w.auths[m], req.transfer, SourceFinalized).result.target == root
    ensures exists f :: f in req.sources && f.receipt == StepOf(w.auths[m], req.transfer, SourceFinalized).result
  {
    var f := ShownBy(req.sources, m);
    var i := Issuance(w, f.receipt);
  }

  lemma StagedIsShown(a: Authority, req: Transfer)
    requires LocalOk(a) && req.Activate? && StepError(a, req).None?
    ensures StagedOk(a, req.transfer)
    ensures Subjects(req.sources) == Subjects(StepOf(a, req.transfer, TargetStaged).request.sources)
  {
    assert a.standing == Staged && a.transfer == Some(req.transfer);
    assert StagedOk(a, req.transfer);
    StagedCounts(a, req.transfer);
  }

  /** When activation goes ahead every staged member is pending, and still has the capacity of
      its preparation receipt. */
  lemma StagedMemberIsPending(w: World, root: string, req: Transfer, p: Shown)
    requires WorldOk(w) && root in w.auths && req.Activate? && AllIssued(w, req)
    requires StepError(w.auths[root], req).None? && Did(w.auths[root], req.transfer, TargetStaged)
    requires StepOf(w.auths[root], req.transfer, TargetStaged).request.Stage?
    requires p in StepOf(w.auths[root], req.transfer, TargetStaged).request.sources
    ensures p.receipt.subject in w.auths && w.auths[p.receipt.subject].standing == Pending
    ensures w.auths[p.receipt.subject].plane.capacity == p.receipt.capacity && 1 <= p.receipt.capacity <= 64
  {
    assert LocalOk(w.auths[root]);
    StagedIsShown(w.auths[root], req);
    StagedPrepared(w, root, req.transfer, p);
    ShownFinalized(w, root, req, p.receipt.subject);
    MemberIsPending(w, root, p.receipt.subject, req.transfer);
  }

  lemma MemberIsPending(w: World, root: string, m: string, t: string)
    requires WorldOk(w) && root in w.auths && m in w.auths && Did(w.auths[m], t, SourceFinalized)
    requires StepOf(w.auths[m], t, SourceFinalized).result.target == root && !Did(w.auths[root], t, TargetActive)
    ensures w.auths[m].standing == Pending && Did(w.auths[m], t, SourcePrepared)
    ensures w.auths[m].plane.capacity == StepOf(w.auths[m], t, SourcePrepared).result.capacity
    ensures 1 <= w.auths[m].plane.capacity <= 64
  {
    assert LocalOk(w.auths[m]) && SettledAt(w.auths[m], t);
    if w.auths[m].standing == Subordinate {
      SubordinatesAreListed(w, m);
      assert LocalOk(w.auths[root]);
    }
  }

  /** The capacity on an activation receipt is the sum of the capacities its members really
      have at that moment, over distinct members, and lies within the validator's bounds. */
  lemma ActivatedCapacityIsReal(w: World, root: string, req: Transfer)
    requires WorldOk(w) && root in w.auths && req.Activate? && AllIssued(w, req)
    requires Handle(w.auths[root], req).answer.Issued?
    ensures Did(w.auths[root], req.transfer, TargetStaged)
    ensures var sources := StepOf(w.auths[root], req.transfer, TargetStaged).request.sources;
      && BySubject(sources) && Subjects(sources) == Handle(w.auths[root], req).answer.receipt.members
      && Handle(w.auths[root], req).answer.receipt.capacity == RealCapacity(w, sources)
    ensures 1 <= Handle(w.auths[root], req).answer.receipt.capacity <= 1024
  {
    var a, t := w.auths[root], req.transfer;
    HandleCases(a, req);
    CommitShape(a, req, Handle(a, req).authority);
    assert LocalOk(a) && StagedOk(a, t) && RecordOk(root, StepKey(t, TargetStaged), StepOf(a, t, TargetStaged));
    var sources := StepOf(a, t, TargetStaged).request.sources;
    StagedRows(sources, t);
    StagedIds(sources, t);
    forall p | p in sources
      ensures p.receipt.subject in w.auths && w.auths[p.receipt.subject].plane.capacity == p.receipt.capacity
      ensures 1 <= p.receipt.capacity <= 64
    {
      StagedMemberIsPending(w, root, req, p);
    }
    CapacitiesAgree(w, sources);
  }

  // ---------- retransmission ----------

  /** Nothing on record is ever lost, neither transfer steps nor handled requests. */
  ghost predicate Keeps(w: World, w': World) {
    && StepsKept(w, w')
    && forall id | id in w.auths :: HandledKept(w.auths[id].plane, w'.auths[id].plane)
  }

  ghost predicate HandledKept(a: P.State, b: P.State) {
    forall k | k in a.handled :: k in b.handled && b.handled[k] == a.handled[k]
  }

  lemma EventKeepsHandled(w: World, e: Event, id: string)
    requires id in w.auths
    ensures id in Next(w, e).auths && HandledKept(w.auths[id].plane, Next(w, e).auths[id].plane)
  {
    if e.Send? && e.to == id {
      HandleKeepsStore(w.auths[id], e.req);
    } else if e.Local? && e.to == id {
      PlaneReplay.StepRemembers(w.auths[id].plane, e.work);
    }
  }

  lemma NextKeeps(w: World, e: Event)
    requires WorldOk(w)
    ensures Keeps(w, Next(w, e))
  {
    NextOk(w, e);
    forall id | id in w.auths ensures HandledKept(w.auths[id].plane, Next(w, e).auths[id].plane) {
      EventKeepsHandled(w, e, id);
    }
  }

  lemma KeepsOn(a: World, b: World, c: World)
    requires Keeps(a, b) && Keeps(b, c)
    ensures Keeps(a, c)
  {
  }

  lemma {:induction false} RunKeeps(events: seq<Event>, i: nat)
    requires i <= |events|
    ensures Keeps(Run(events[..i]), Run(events))
    decreases |events|
  {
    if i == |events| {
      assert events[..i] == events;
    } else {
      var init := events[..|events| - 1];
      assert init[..i] == events[..i];
      RunKeeps(init, i);
      RunOk(init);
      NextKeeps(Run(init), events[|events| - 1]);
      KeepsOn(Run(events[..i]), Run(init), Run(events));
    }
  }

  /** A transfer step or a remembered local request that was accepted in `w`. */
  ghost predicate Accepted(w: World, e: Event) {
    match e
    case Create(id, plane) => id in Next(w, e).auths
    case Send(to, req) => to in w.auths && AllIssued(w, req) && Handle(w.auths[to], req).answer.Issued?
    case Local(to, work) =>
      && to in w.auths && GateError(w.auths[to].standing, work.op).None?
      && P.Apply(w.auths[to].plane, work).outcome.Committed? && P.KeyOf(work.op).Some?
  }

  /** The same id again: the same transfer step, whatever its body, or the same remembered
      request. */
  predicate Repeats(e: Event, again: Event) {
    match e
    case Create(id, _) => again.Create? && again.id == id
    case Send(to, req) => again.Send? && again.to == to && KeyOf(again.req) == KeyOf(req)
    case Local(to, work) => again.Local? && again.to == to && P.KeyOf(again.work.op) == P.KeyOf(work.op)
  }

  /** What an accepted event leaves behind makes every repetition quiet. */
  lemma RepetitionIsQuiet(w: World, later: World, e: Event, again: Event)
    requires WorldOk(w) && Accepted(w, e) && Repeats(e, again) && Keeps(Next(w, e), later)
    ensures Next(later, again) == later
  {
    match e
    case Create(id, plane) =>
    case Send(to, req) =>
      HandleCases(w.auths[to], req);
      CommitShape(w.auths[to], req, Handle(w.auths[to], req).authority);
      assert KeyOf(req) in Next(w, e).auths[to].steps;
      SentTwice(later, to, again.req);
    case Local(to, work) =>
      PlaneReplay.StepRemembers(w.auths[to].plane, work);
      WorkedTwice(later, to, again.work);
  }

  lemma SentTwice(w: World, to: string, req: Transfer)
    requires to in w.auths && KeyOf(req) in w.auths[to].steps
    ensures Next(w, Send(to, req)) == w
  {
    assert w.auths[to := w.auths[to]] == w.auths;
  }

  lemma WorkedTwice(w: World, to: string, work: P.Request)
    requires to in w.auths && P.KeyOf(work.op).Some? && P.KeyOf(work.op).value in w.auths[to].plane.handled
    ensures Next(w, Local(to, work)) == w
  {
    assert w.auths[to := w.auths[to]] == w.auths;
  }

  /** `again` repeats the event at `j`, which was accepted. */
  ghost predicate RepeatsAt(events: seq<Event>, j: nat, again: Event) {
    j < |events| && Accepted(Run(events[..j]), events[j]) && Repeats(events[j], again)
  }

  /** The event repeats one that was accepted before. */
  ghost function RepeatsEarlier(): (seq<Event>, Event) -> bool {
    (events: seq<Event>, again: Event) => exists j :: RepeatsAt(events, j, again)
  }

  function Runs(): seq<Event> -> World { (events: seq<Event>) => Run(events) }

  lemma RunStep(events: seq<Event>, j: nat)
    requires j < |events|
    ensures Run(events[..j + 1]) == Next(Run(events[..j]), events[j])
  {
    assert events[..j + 1][..j] == events[..j];
  }

  /** The event at `j` was accepted, so repeating it after the whole run is quiet. */
  lemma RepeatedAfter(events: seq<Event>, j: nat, again: Event)
    requires RepeatsAt(events, j, again)
    ensures Next(Run(events), again) == Run(events)
  {
    RunStep(events, j);
    RunOk(events[..j]);
    RunKeeps(events, j + 1);
    RepetitionIsQuiet(Run(events[..j]), Run(events), events[j], again);
  }

  lemma RunFolds()
    ensures Folds(Runs())
  {
    forall a, b, e | Run(a) == Run(b) ensures Run(a + [e]) == Run(b + [e]) {
      RunLast(a, e);
      RunLast(b, e);
    }
  }

  lemma RepeatsAreQuiet()
    ensures Quiet(Runs(), RepeatsEarlier())
  {
    forall events, again | RepeatsEarlier()(events, again) ensures Run(events + [again]) == Run(events) {
      var j :| RepeatsAt(events, j, again);
      RepeatedAfter(events, j, again);
      RunLast(events, again);
    }
  }

  /** However often accepted transfer steps and requests are sent again, by whomever and
      whenever, and even with a changed body, the world ends up as if they had not been. */
  lemma RetransmissionsVanish(ds: seq<Delivery<Event>>)
    requires Faithful(ds, RepeatsEarlier())
    ensures Run(Items(ds)) == Run(Items(Firsts(ds)))
  {
    RunFolds();
    RepeatsAreQuiet();
    RepetitionsVanish(ds, Runs(), RepeatsEarlier());
  }

  // ---------- local consistency ----------

  ghost predicate PlanesConsistent(w: World) {
    forall id | id in w.auths :: PlaneInvariants.Inv(w.auths[id].plane)
  }

  /** Local work that passes the gate and commits is intact in the store it meets. */
  predicate IntactEvent(w: World, e: Event) {
    e.Local? && e.to in w.auths && GateError(w.auths[e.to].standing, e.work.op).None? ==>
      PlaneRuns.IntactAt(w.auths[e.to].plane, e.work)
  }

  predicate AllIntact(events: seq<Event>)
    decreases |events|
  {
    events == [] || (AllIntact(events[..|events| - 1]) && IntactEvent(Run(events[..|events| - 1]), events[|events| - 1]))
  }

  lemma StoreConsistent(a: P.State, b: P.State)
    requires SameStore(b, a)
    ensures PlaneInvariants.Inv(a) <==> PlaneInvariants.Inv(b)
  {
    if PlaneInvariants.Inv(a) {
      PlaneInvariants.CoreKeeps(a, b, {});
    }
    if PlaneInvariants.Inv(b) {
      PlaneInvariants.CoreKeeps(b, a, {});
    }
  }

  lemma OneStoreMoves(w: World, w': World, to: string)
    requires PlanesConsistent(w) && to in w'.auths && w'.auths == w.auths[to := w'.auths[to]]
    ensures PlanesConsistent(w') <==> PlaneInvariants.Inv(w'.auths[to].plane)
  {
  }

  lemma SendConsistent(w: World, to: string, req: Transfer)
    requires PlanesConsistent(w)
    ensures PlanesConsistent(Next(w, Send(to, req)))
  {
    if to in w.auths && AllIssued(w, req) {
      HandleKeepsStore(w.auths[to], req);
      StoreConsistent(w.auths[to].plane, Handle(w.auths[to], req).authority.plane);
      OneStoreMoves(w, Next(w, Send(to, req)), to);
    }
  }

  lemma LocalConsistent(w: World, to: string, work: P.Request)
    requires PlanesConsistent(w)
    ensures PlanesConsistent(Next(w, Local(to, work))) <==> IntactEvent(w, Local(to, work))
  {
    if to in w.auths {
      PlaneRuns.StepConsistentExactly(w.auths[to].plane, work);
      OneStoreMoves(w, Next(w, Local(to, work)), to);
    }
  }

  lemma NextConsistent(w: World, e: Event)
    requires PlanesConsistent(w)
    ensures PlanesConsistent(Next(w, e)) <==> IntactEvent(w, e)
  {
    match e
    case Create(id, plane) => PlaneRuns.InitialSafe(plane.capacity, plane.rules, plane.policyRevision);
    case Send(to, req) => SendConsistent(w, to, req);
    case Local(to, work) => LocalConsistent(w, to, work);
  }

  ghost function Consistently(): seq<Event> -> bool { (events: seq<Event>) => PlanesConsistent(Run(events)) }

  /** Transfers never disturb any authority's own store: the stores are consistent in every world
      the run passes through if and only if all local work was intact. */
  lemma {:induction false} StoresStayConsistent(events: seq<Event>)
    ensures Throughout(events, Consistently()) <==> AllIntact(events)
    decreases |events|
  {
    if events == [] {
      assert forall i | 0 <= i <= |events| :: events[..i] == [];
    } else {
      var init := events[..|events| - 1];
      StoresStayConsistent(init);
      ThroughoutSplits(events, Consistently());
      if AllIntact(init) {
        ThroughoutLast(init, Consistently());
        NextConsistent(Run(init), events[|events| - 1]);
      }
    }
  }
}
