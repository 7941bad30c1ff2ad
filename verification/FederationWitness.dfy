/** Worlds that exist, from requests and ledgers that pass validation: for any three authorities there
    is a run in which two of them are adopted by the third, and one for each of the three ways in which
    a source can be stranded. */
module FederationWitness {
  import opened Basics
  import opened Histories
  import opened Identifiers
  import opened Sorting
  import opened Federation
  import opened FederationLocal
  import opened FederationPending
  import P = PlaneModel
  import Policy

  /** Who takes part: two sources in id order, their successor, the transfer, three request ids, the
      capacity and ledger every store was initialized with, the evidence and the reason requests give,
      and how many decisions the target had noted before it staged. */
  datatype Cast = Cast(
    a: string, b: string, r: string, t: string, ids: seq<string>, capacity: nat, rules: seq<Policy.Rule>,
    policyRevision: nat, evidence: seq<string>, reason: string, lead: nat)

  predicate Proper(c: Cast) {
    && Identifier(c.a) && Identifier(c.b) && Identifier(c.r) && Identifier(c.t) && Identifier(c.reason)
    && c.a != c.b && c.a != c.r && c.b != c.r && IdLeq(c.a, c.b)
    && |c.ids| == 3 && (forall i | 0 <= i < 3 :: Identifier(c.ids[i]))
    && c.ids[0] != c.ids[1] && c.ids[0] != c.ids[2] && c.ids[1] != c.ids[2]
    && 1 <= c.capacity <= 64 && Policy.LedgerValid(c.rules, c.policyRevision) && Evidence(c.evidence)
    && c.lead < MAX_REVISION
  }

  /** The target's activation will be one it can show. */
  predicate Roomy(c: Cast) { Proper(c) && c.lead + 2 <= MAX_REVISION }

  /** There are such casts, for every lead. */
  lemma SomebodyPlays(lead: nat) returns (c: Cast)
    requires lead < MAX_REVISION
    ensures Proper(c) && c.lead == lead
  {
    Policy.SmallLedgerIsValid();
    c := Cast("a", "b", "r", "t", ["1", "2", "3"], 1, Policy.SmallLedger(), 1, ["e"], "x", lead);
    assert "a"[0] == 'a' && "b"[0] == 'b' && "r"[0] == 'r';
    assert "1"[0] == '1' && "2"[0] == '2' && "3"[0] == '3';
  }

  predicate IsSource(c: Cast, id: string) { Proper(c) && (id == c.a || id == c.b) }

  function NewStore(c: Cast): P.State { P.Initial(c.capacity, c.rules, c.policyRevision) }

  /** The target's store after its notes and `n` steps of the transfer. */
  function TargetStore(c: Cast, n: nat): P.State { P.Bump(NewStore(c), c.lead + n) }

  // ---------- requests and the receipts they are answered with ----------

  function PrepareReceipt(c: Cast, id: string): Receipt {
    Receipt(c.t, SourcePrepared, id, c.r, 2, 1, c.capacity, {id}, 0)
  }

  function StageReceipt(c: Cast): Receipt {
    Receipt(c.t, TargetStaged, c.r, c.r, 2, c.lead + 1, 2 * c.capacity, {c.a, c.b}, 0)
  }

  function FinalizeReceipt(c: Cast, id: string): Receipt {
    Receipt(c.t, SourceFinalized, id, c.r, 3, 2, c.capacity, {id}, 0)
  }

  function ActivateReceipt(c: Cast): Receipt {
    Receipt(c.t, TargetActive, c.r, c.r, 3, c.lead + 2, 2 * c.capacity, {c.a, c.b}, 0)
  }

  function EnableReceipt(c: Cast, id: string): Receipt {
    Receipt(c.t, SubordinateActive, id, c.r, 4, 3, c.capacity, {id}, 0)
  }

  function Both(first: Receipt, second: Receipt): seq<Shown> { [Shown(first, false), Shown(second, false)] }

  function PrepareReq(c: Cast): Transfer
    requires Proper(c)
  {
    Prepare(c.ids[0], c.t, c.r, 0, c.evidence, 0)
  }

  function StageReq(c: Cast): Transfer
    requires Proper(c)
  {
    Stage(c.ids[0], c.t, c.lead, Both(PrepareReceipt(c, c.a), PrepareReceipt(c, c.b)), c.evidence, 0)
  }

  function FinalizeReq(c: Cast): Transfer
    requires Proper(c)
  {
    Finalize(c.ids[1], c.t, Shown(StageReceipt(c), false), 0)
  }

  function ActivateReq(c: Cast): Transfer
    requires Proper(c)
  {
    Activate(c.ids[1], c.t, Both(FinalizeReceipt(c, c.a), FinalizeReceipt(c, c.b)), c.evidence, 0)
  }

  function EnableReq(c: Cast): Transfer
    requires Proper(c)
  {
    Enable(c.ids[2], c.t, Shown(ActivateReceipt(c), false), 0)
  }

  lemma NobodyWorks(plane: P.State)
    requires plane.tasks == map[] && plane.claims == map[]
    ensures P.Occupancy(plane) == 0
  {
    assert P.Occupants(plane) == {};
  }

  // ---------- a source ----------

  function PreparedSource(c: Cast, id: string): Authority
    requires Proper(c)
  {
    Authority(id, Prepared, 2, None, Some(c.t), P.Bump(NewStore(c), 1), [],
      map[StepKey(c.t, SourcePrepared) := Record(PrepareReq(c), PrepareReceipt(c, id))])
  }

  function PendingSource(c: Cast, id: string): Authority
    requires Proper(c)
  {
    Authority(id, Pending, 3, Some(c.r), Some(c.t), P.Bump(PreparedSource(c, id).plane, 1), [],
      PreparedSource(c, id).steps[StepKey(c.t, SourceFinalized) := Record(FinalizeReq(c), FinalizeReceipt(c, id))])
  }

  function AdoptedSource(c: Cast, id: string): Authority
    requires Proper(c)
  {
    Authority(id, Subordinate, 4, Some(c.r), Some(c.t), P.Bump(PendingSource(c, id).plane, 1), [],
      PendingSource(c, id).steps[StepKey(c.t, SubordinateActive) := Record(EnableReq(c), EnableReceipt(c, id))])
  }

  lemma SourcePrepares(c: Cast, id: string)
    requires IsSource(c, id)
    ensures Handle(NewAuthority(id, NewStore(c)), PrepareReq(c))
         == Reply(PreparedSource(c, id), Issued(PrepareReceipt(c, id)))
  {
    NobodyWorks(NewStore(c));
  }

  lemma SourceFinalizes(c: Cast, id: string)
    requires IsSource(c, id)
    ensures Handle(PreparedSource(c, id), FinalizeReq(c)) == Reply(PendingSource(c, id), Issued(FinalizeReceipt(c, id)))
  {
    NobodyWorks(PreparedSource(c, id).plane);
  }

  lemma SourceIsEnabled(c: Cast, id: string)
    requires IsSource(c, id) && Roomy(c)
    ensures Handle(PendingSource(c, id), EnableReq(c)) == Reply(AdoptedSource(c, id), Issued(EnableReceipt(c, id)))
  {
  }

  // ---------- the target ----------

  function Row(c: Cast, id: string, finalized: bool): Member {
    Member(id, c.t, c.capacity, 1, PrepareReceipt(c, id), if finalized then Some(FinalizeReceipt(c, id)) else None)
  }

  function Rows(c: Cast, finalized: bool): seq<Member> { [Row(c, c.a, finalized), Row(c, c.b, finalized)] }

  function StagedTarget(c: Cast): Authority
    requires Proper(c)
  {
    Authority(c.r, Staged, 2, None, Some(c.t), TargetStore(c, 1), Rows(c, false),
      map[StepKey(c.t, TargetStaged) := Record(StageReq(c), StageReceipt(c))])
  }

  function Successor(c: Cast): Authority
    requires Proper(c)
  {
    Authority(c.r, FederationRoot, 3, None, Some(c.t), TargetStore(c, 2), Rows(c, true),
      StagedTarget(c).steps[StepKey(c.t, TargetActive) := Record(ActivateReq(c), ActivateReceipt(c))])
  }

  lemma BothSubjects(c: Cast, first: Receipt, second: Receipt)
    requires Proper(c) && first.subject == c.a && second.subject == c.b
    ensures BySubject(Both(first, second)) && Subjects(Both(first, second)) == {c.a, c.b}
    ensures ShownCapacity(Both(first, second)) == first.capacity + second.capacity
  {
    var both := Both(first, second);
    assert both[0] in both && both[1] in both;
    assert both[1..] == [both[1]] && [both[1]][1..] == [];
    assert ShownCapacity(both[1..]) == second.capacity;
  }

  lemma StageIsAdmitted(c: Cast)
    requires Proper(c)
    ensures SchemaOk(StageReq(c)) && StepError(NewAuthority(c.r, TargetStore(c, 0)), StageReq(c)) == None
  {
    NobodyWorks(TargetStore(c, 0));
    BothSubjects(c, PrepareReceipt(c, c.a), PrepareReceipt(c, c.b));
  }

  lemma StageRows(c: Cast)
    requires Proper(c)
    ensures Map(Both(PrepareReceipt(c, c.a), PrepareReceipt(c, c.b)), RowOf(c.t)) == Rows(c, false)
  {
  }

  lemma StageMoves(c: Cast)
    requires Proper(c)
    ensures Moved(NewAuthority(c.r, TargetStore(c, 0)), StageReq(c)) == StagedTarget(c).(steps := map[])
    ensures ResultOf(NewAuthority(c.r, TargetStore(c, 0)), StageReq(c)) == StageReceipt(c)
  {
    StageRows(c);
    BothSubjects(c, PrepareReceipt(c, c.a), PrepareReceipt(c, c.b));
  }

  lemma TargetStages(c: Cast)
    requires Proper(c)
    ensures Handle(NewAuthority(c.r, TargetStore(c, 0)), StageReq(c)) == Reply(StagedTarget(c), Issued(StageReceipt(c)))
  {
    StageIsAdmitted(c);
    StageMoves(c);
  }

  lemma RowsOfTransfer(c: Cast, finalized: bool)
    ensures Filter(Rows(c, finalized), InTransfer(c.t)) == Rows(c, finalized) && Ids(Rows(c, finalized)) == {c.a, c.b}
    ensures TotalCapacity(Rows(c, finalized)) == 2 * c.capacity
  {
    var rows := Rows(c, finalized);
    assert rows[0] in rows && rows[1] in rows;
    assert rows[1..] == [rows[1]] && [rows[1]][1..] == [];
    assert Filter(rows[1..], InTransfer(c.t)) == [rows[1]];
    assert TotalCapacity(rows[1..]) == c.capacity;
  }

  lemma ActivateIsAdmitted(c: Cast)
    requires Proper(c)
    ensures SchemaOk(ActivateReq(c)) && StepError(StagedTarget(c), ActivateReq(c)) == None
    ensures !IdTaken(StagedTarget(c), ActivateReq(c))
  {
    BothSubjects(c, FinalizeReceipt(c, c.a), FinalizeReceipt(c, c.b));
    RowsOfTransfer(c, false);
  }

  lemma ActivateMoves(c: Cast)
    requires Proper(c)
    ensures Moved(StagedTarget(c), ActivateReq(c)) == Successor(c).(steps := StagedTarget(c).steps)
    ensures ResultOf(StagedTarget(c), ActivateReq(c)) == ActivateReceipt(c)
  {
    RowsOfTransfer(c, false);
    var both := Both(FinalizeReceipt(c, c.a), FinalizeReceipt(c, c.b));
    assert both[1..][0] == both[1];
    assert FinalizeOf(both, c.a) == Some(FinalizeReceipt(c, c.a));
    assert FinalizeOf(both, c.b) == Some(FinalizeReceipt(c, c.b));
    assert Map(Rows(c, false), Finalized(both, c.t)) == Rows(c, true);
  }

  lemma TargetActivates(c: Cast)
    requires Proper(c)
    ensures Handle(StagedTarget(c), ActivateReq(c)) == Reply(Successor(c), Issued(ActivateReceipt(c)))
  {
    ActivateIsAdmitted(c);
    ActivateMoves(c);
  }

  // ---------- the run ----------

  function Creates(c: Cast): seq<Event> {
    [Create(c.a, NewStore(c)), Create(c.b, NewStore(c)), Create(c.r, NewStore(c))]
  }

  function Sends(c: Cast): seq<Event>
    requires Proper(c)
  {
    [Send(c.a, PrepareReq(c)), Send(c.b, PrepareReq(c)), Send(c.r, StageReq(c)), Send(c.a, FinalizeReq(c)),
     Send(c.b, FinalizeReq(c)), Send(c.r, ActivateReq(c)), Send(c.a, EnableReq(c)), Send(c.b, EnableReq(c))]
  }

  function Receipts(c: Cast): seq<Receipt> {
    [PrepareReceipt(c, c.a), PrepareReceipt(c, c.b), StageReceipt(c), FinalizeReceipt(c, c.a),
     FinalizeReceipt(c, c.b), ActivateReceipt(c), EnableReceipt(c, c.a), EnableReceipt(c, c.b)]
  }

  function SourceAt(c: Cast, id: string, step: nat): Authority
    requires Proper(c)
  {
    if step == 0 then NewAuthority(id, NewStore(c)) else if step == 1 then PreparedSource(c, id)
    else if step == 2 then PendingSource(c, id) else AdoptedSource(c, id)
  }

  function TargetAt(c: Cast, step: nat): Authority
    requires Proper(c)
  {
    if step == 0 then NewAuthority(c.r, TargetStore(c, 0)) else if step == 1 then StagedTarget(c) else Successor(c)
  }

  function Trio(c: Cast, a: nat, b: nat, r: nat): map<string, Authority>
    requires Proper(c)
  {
    map[c.a := SourceAt(c, c.a, a), c.b := SourceAt(c, c.b, b), c.r := TargetAt(c, r)]
  }

  /** The world after the first k sends. */
  function Stop(c: Cast, k: nat): World
    requires Proper(c) && k <= 8
  {
    World(Trio(c, if k < 1 then 0 else if k < 4 then 1 else if k < 7 then 2 else 3,
                  if k < 2 then 0 else if k < 5 then 1 else if k < 8 then 2 else 3,
                  if k < 3 then 0 else if k < 6 then 1 else 2),
      Receipts(c)[..k])
  }

  lemma SendIssues(w: World, to: string, req: Transfer, moved: Authority, result: Receipt)
    requires to in w.auths && AllIssued(w, req) && Handle(w.auths[to], req) == Reply(moved, Issued(result))
    ensures Next(w, Send(to, req)) == World(w.auths[to := moved], w.log + [result])
  {
  }

  lemma IssuedBefore(c: Cast, k: nat, i: nat)
    requires Proper(c) && i < k <= 8
    ensures Receipts(c)[i] in Stop(c, k).log
  {
    assert Stop(c, k).log[i] == Receipts(c)[i];
  }

  lemma OthersWait(c: Cast, k: nat, id: string)
    requires Proper(c) && k < 8 && id in {c.a, c.b, c.r} && Sends(c)[k].to != id
    ensures id in Stop(c, k).auths && id in Stop(c, k + 1).auths && Stop(c, k).auths[id] == Stop(c, k + 1).auths[id]
  {
  }

  lemma LogMoves(c: Cast, k: nat)
    requires Proper(c) && k < 8
    ensures Stop(c, k).log + [Receipts(c)[k]] == Stop(c, k + 1).log
  {
    assert Receipts(c)[..k] + [Receipts(c)[k]] == Receipts(c)[..k + 1];
  }

  lemma OnlyOneMoves(c: Cast, k: nat, to: string)
    requires Proper(c) && k < 8 && Sends(c)[k].to == to
    ensures to in Stop(c, k + 1).auths && Stop(c, k).auths[to := Stop(c, k + 1).auths[to]] == Stop(c, k + 1).auths
  {
    forall id | id in {c.a, c.b, c.r} && id != to ensures Stop(c, k).auths[id] == Stop(c, k + 1).auths[id] {
      OthersWait(c, k, id);
    }
  }

  lemma StopMoves(c: Cast, k: nat, to: string, moved: Authority)
    requires Proper(c) && k < 8 && Sends(c)[k].to == to
    requires moved == Stop(c, k + 1).auths[to]
    ensures World(Stop(c, k).auths[to := moved], Stop(c, k).log + [Receipts(c)[k]]) == Stop(c, k + 1)
  {
    LogMoves(c, k);
    OnlyOneMoves(c, k, to);
  }

  lemma ASourcePrepares(c: Cast, k: nat, id: string)
    requires IsSource(c, id) && k in {0, 1} && Sends(c)[k] == Send(id, PrepareReq(c))
    requires Receipts(c)[k] == PrepareReceipt(c, id)
    ensures Next(Stop(c, k), Sends(c)[k]) == Stop(c, k + 1)
  {
    StopMoves(c, k, id, PreparedSource(c, id));
    SourcePrepares(c, id);
    SendIssues(Stop(c, k), id, PrepareReq(c), PreparedSource(c, id), PrepareReceipt(c, id));
  }

  lemma FinalizeIsDue(c: Cast, k: nat, id: string)
    requires IsSource(c, id) && k in {3, 4} && Sends(c)[k].to == id
    ensures Stop(c, k).auths[id] == PreparedSource(c, id) && AllIssued(Stop(c, k), FinalizeReq(c))
    ensures World(Stop(c, k).auths[id := PendingSource(c, id)], Stop(c, k).log + [Receipts(c)[k]]) == Stop(c, k + 1)
  {
    IssuedBefore(c, k, 2);
    StopMoves(c, k, id, PendingSource(c, id));
  }

  lemma ASourceFinalizes(c: Cast, k: nat, id: string)
    requires IsSource(c, id) && k in {3, 4} && Sends(c)[k] == Send(id, FinalizeReq(c))
    requires Receipts(c)[k] == FinalizeReceipt(c, id)
    ensures Next(Stop(c, k), Sends(c)[k]) == Stop(c, k + 1)
  {
    FinalizeIsDue(c, k, id);
    SourceFinalizes(c, id);
    SendIssues(Stop(c, k), id, FinalizeReq(c), PendingSource(c, id), FinalizeReceipt(c, id));
  }

  lemma EnableIsDue(c: Cast, k: nat, id: string)
    requires IsSource(c, id) && Roomy(c) && k in {6, 7} && Sends(c)[k].to == id
    ensures Stop(c, k).auths[id] == PendingSource(c, id) && AllIssued(Stop(c, k), EnableReq(c))
    ensures World(Stop(c, k).auths[id := AdoptedSource(c, id)], Stop(c, k).log + [Receipts(c)[k]]) == Stop(c, k + 1)
  {
    IssuedBefore(c, k, 5);
    StopMoves(c, k, id, AdoptedSource(c, id));
  }

  lemma ASourceIsEnabled(c: Cast, k: nat, id: string)
    requires IsSource(c, id) && Roomy(c) && k in {6, 7} && Sends(c)[k] == Send(id, EnableReq(c))
    requires Receipts(c)[k] == EnableReceipt(c, id)
    ensures Next(Stop(c, k), Sends(c)[k]) == Stop(c, k + 1)
  {
    EnableIsDue(c, k, id);
    SourceIsEnabled(c, id);
    SendIssues(Stop(c, k), id, EnableReq(c), AdoptedSource(c, id), EnableReceipt(c, id));
  }

  lemma StageIsDue(c: Cast)
    requires Proper(c)
    ensures Stop(c, 2).auths[c.r] == NewAuthority(c.r, TargetStore(c, 0)) && AllIssued(Stop(c, 2), StageReq(c))
    ensures World(Stop(c, 2).auths[c.r := StagedTarget(c)], Stop(c, 2).log + [StageReceipt(c)]) == Stop(c, 3)
  {
    IssuedBefore(c, 2, 0);
    IssuedBefore(c, 2, 1);
    StopMoves(c, 2, c.r, StagedTarget(c));
  }

  lemma TheTargetStages(c: Cast, k: nat)
    requires Proper(c) && k == 2 && Sends(c)[k] == Send(c.r, StageReq(c))
    ensures Next(Stop(c, k), Sends(c)[k]) == Stop(c, k + 1)
  {
    StageIsDue(c);
    TargetStages(c);
    SendIssues(Stop(c, k), c.r, StageReq(c), StagedTarget(c), StageReceipt(c));
  }

  lemma ActivateIsDue(c: Cast)
    requires Proper(c)
    ensures Stop(c, 5).auths[c.r] == StagedTarget(c) && AllIssued(Stop(c, 5), ActivateReq(c))
    ensures World(Stop(c, 5).auths[c.r := Successor(c)], Stop(c, 5).log + [ActivateReceipt(c)]) == Stop(c, 6)
  {
    IssuedBefore(c, 5, 3);
    IssuedBefore(c, 5, 4);
    StopMoves(c, 5, c.r, Successor(c));
  }

  lemma TheTargetActivates(c: Cast, k: nat)
    requires Proper(c) && k == 5 && Sends(c)[k] == Send(c.r, ActivateReq(c))
    ensures Next(Stop(c, k), Sends(c)[k]) == Stop(c, k + 1)
  {
    ActivateIsDue(c);
    TargetActivates(c);
    SendIssues(Stop(c, k), c.r, ActivateReq(c), Successor(c), ActivateReceipt(c));
  }

  lemma SendAdvances(c: Cast, k: nat)
    requires Proper(c) && (k < 6 || (Roomy(c) && k < 8))
    ensures Next(Stop(c, k), Sends(c)[k]) == Stop(c, k + 1)
  {
    match k
    case 0 => ASourcePrepares(c, 0, c.a);
    case 1 => ASourcePrepares(c, 1, c.b);
    case 2 => TheTargetStages(c, 2);
    case 3 => ASourceFinalizes(c, 3, c.a);
    case 4 => ASourceFinalizes(c, 4, c.b);
    case 5 => TheTargetActivates(c, 5);
    case 6 => ASourceIsEnabled(c, 6, c.a);
    case 7 => ASourceIsEnabled(c, 7, c.b);
  }

  /** The three authorities once the target has noted `n` decisions. */
  function Led(c: Cast, n: nat): World {
    World(map[c.a := NewAuthority(c.a, NewStore(c)), c.b := NewAuthority(c.b, NewStore(c)),
              c.r := NewAuthority(c.r, P.Bump(NewStore(c), n))], [])
  }

  lemma Created(c: Cast)
    requires Proper(c)
    ensures Run(Creates(c)) == Led(c, 0)
  {
    var es := Creates(c);
    RunLast([], es[0]);
    RunLast([es[0]], es[1]);
    RunLast([es[0], es[1]], es[2]);
    assert [] + [es[0]] == [es[0]] && [es[0]] + [es[1]] == [es[0], es[1]] && [es[0], es[1]] + [es[2]] == es;
  }

  function Noting(c: Cast): Event
    requires Proper(c)
  {
    Local(c.r, P.Request(P.Note(c.ids[0], P.ClassifyDecision), 0))
  }

  function Notes(c: Cast, n: nat): (es: seq<Event>)
    requires Proper(c)
    ensures |es| == n && forall i | 0 <= i < n :: es[i] == Noting(c)
  {
    if n == 0 then [] else Notes(c, n - 1) + [Noting(c)]
  }

  lemma NoteAdvances(c: Cast, n: nat)
    requires Proper(c)
    ensures Next(Led(c, n), Noting(c)) == Led(c, n + 1)
  {
    var r := NewAuthority(c.r, P.Bump(NewStore(c), n));
    assert Operate(r, Noting(c).work) == NewAuthority(c.r, P.Bump(NewStore(c), n + 1));
  }

  lemma {:induction false} Noted(c: Cast, n: nat)
    requires Proper(c)
    ensures Run(Creates(c) + Notes(c, n)) == Led(c, n)
  {
    if n == 0 {
      Created(c);
      assert Creates(c) + Notes(c, 0) == Creates(c);
    } else {
      Noted(c, n - 1);
      NoteAdvances(c, n - 1);
      RunLast(Creates(c) + Notes(c, n - 1), Noting(c));
      Associative(Creates(c), Notes(c, n - 1), [Noting(c)]);
    }
  }

  /** All that comes before the transfer. */
  function Before(c: Cast): seq<Event>
    requires Proper(c)
  {
    Creates(c) + Notes(c, c.lead)
  }

  lemma FirstStop(c: Cast)
    requires Proper(c)
    ensures Run(Before(c)) == Stop(c, 0)
  {
    Noted(c, c.lead);
  }

  function Script(c: Cast, k: nat): seq<Event>
    requires Proper(c) && k <= 8
  {
    Before(c) + Sends(c)[..k]
  }

  lemma ScriptExtends(c: Cast, k: nat)
    requires Proper(c) && k < 8
    ensures Script(c, k + 1) == Script(c, k) + [Sends(c)[k]]
  {
  }

  lemma {:induction false} Reached(c: Cast, k: nat)
    requires Proper(c) && (k <= 6 || (Roomy(c) && k <= 8))
    ensures Run(Script(c, k)) == Stop(c, k)
  {
    if k == 0 {
      assert Script(c, 0) == Before(c);
      FirstStop(c);
    } else {
      Reached(c, k - 1);
      ScriptExtends(c, k - 1);
      RunLast(Script(c, k - 1), Sends(c)[k - 1]);
      SendAdvances(c, k - 1);
    }
  }

  /** The successor leads both sources, and both work for it. */
  predicate HandedOver(c: Cast, w: World) {
    && w.auths.Keys == {c.a, c.b, c.r} && w.log == Receipts(c)
    && w.auths[c.r].standing == FederationRoot && Ids(w.auths[c.r].members) == {c.a, c.b}
    && w.auths[c.a].standing == Subordinate && w.auths[c.a].parent == Some(c.r)
    && w.auths[c.b].standing == Subordinate && w.auths[c.b].parent == Some(c.r)
  }

  lemma LastStop(c: Cast)
    requires Proper(c)
    ensures HandedOver(c, Stop(c, 8))
  {
    RowsOfTransfer(c, true);
    assert Receipts(c)[..8] == Receipts(c);
  }

  /** Any two sources can be handed to any third authority, whatever it did before: eight requests,
      answered in turn. */
  lemma TransferCompletes(c: Cast)
    requires Roomy(c)
    ensures HandedOver(c, Run(Before(c) + Sends(c)))
  {
    assert Script(c, 8) == Before(c) + Sends(c);
    Reached(c, 8);
    LastStop(c);
  }

  // ---------- three ways to be stranded ----------

  function TargetAborts(c: Cast): Transfer
    requires Proper(c)
  {
    Abort(c.ids[2], c.t, Staged, c.lead + 1, true, c.reason, c.evidence, 0)
  }

  function PeerAborts(c: Cast): Transfer
    requires Proper(c)
  {
    Abort(c.ids[2], c.t, Prepared, 1, true, c.reason, c.evidence, 0)
  }

  lemma TargetMayAbort(c: Cast)
    requires Proper(c)
    ensures Handle(StagedTarget(c), TargetAborts(c)).answer.Issued?
    ensures AbortedAsTarget(Handle(StagedTarget(c), TargetAborts(c)).authority, c.t)
    ensures var b := Handle(StagedTarget(c), TargetAborts(c)).authority;
      Did(b, c.t, TargetStaged) && StepOf(b, c.t, TargetStaged).request.Stage?
  {
  }

  lemma PeerMayAbort(c: Cast)
    requires Proper(c)
    ensures Handle(PreparedSource(c, c.b), PeerAborts(c)).answer.Issued?
    ensures AbortedAsSource(Handle(PreparedSource(c, c.b), PeerAborts(c)).authority, c.t)
  {
  }

  lemma AfterFour(c: Cast)
    requires Proper(c)
    ensures Run(Script(c, 4)) == Stop(c, 4)
    ensures Stop(c, 4).auths == map[c.a := PendingSource(c, c.a), c.b := PreparedSource(c, c.b), c.r := StagedTarget(c)]
  {
    Reached(c, 4);
  }

  lemma SourceWaits(c: Cast, w: World)
    requires Proper(c) && c.a in w.auths && w.auths[c.a] == PendingSource(c, c.a)
    ensures PendingFor(w, c.a, c.t, c.r)
  {
  }

  lemma AbortReplaces(w: World, to: string, req: Transfer)
    requires to in w.auths && req.Abort? && Handle(w.auths[to], req).answer.Issued?
    ensures Next(w, Send(to, req)).auths == w.auths[to := Handle(w.auths[to], req).authority]
  {
  }

  lemma TargetStranded(c: Cast, w: World)
    requires Proper(c) && c.a in w.auths && w.auths[c.a] == PendingSource(c, c.a)
    requires c.r in w.auths && w.auths[c.r] == Handle(StagedTarget(c), TargetAborts(c)).authority
    ensures Stranded(w, c.a, c.t, c.r)
  {
    TargetMayAbort(c);
    SourceWaits(c, w);
  }

  /** A run in which the target gives the transfer up after a source has finalized. */
  lemma TargetStrandsSource(c: Cast)
    requires Proper(c)
    ensures Stranded(Run(Script(c, 4) + [Send(c.r, TargetAborts(c))]), c.a, c.t, c.r)
  {
    AfterFour(c);
    TargetMayAbort(c);
    RunLast(Script(c, 4), Send(c.r, TargetAborts(c)));
    AbortReplaces(Stop(c, 4), c.r, TargetAborts(c));
    TargetStranded(c, Next(Stop(c, 4), Send(c.r, TargetAborts(c))));
  }

  lemma PeerIsStaged(c: Cast, w: World)
    requires Proper(c) && c.r in w.auths && w.auths[c.r] == StagedTarget(c)
    ensures IsStaged(w, c.r, c.t, c.b)
  {
    BothSubjects(c, PrepareReceipt(c, c.a), PrepareReceipt(c, c.b));
  }

  /** A run in which a fellow source gives it up instead, and the target never does. */
  lemma PeerStrandsSource(c: Cast)
    requires Proper(c)
    ensures var w := Run(Script(c, 4) + [Send(c.b, PeerAborts(c))]);
      Stranded(w, c.a, c.t, c.r) && c.r in w.auths && !AbortedAsTarget(w.auths[c.r], c.t)
  {
    AfterFour(c);
    PeerMayAbort(c);
    RunLast(Script(c, 4), Send(c.b, PeerAborts(c)));
    AbortReplaces(Stop(c, 4), c.b, PeerAborts(c));
    PeerStranded(c, Next(Stop(c, 4), Send(c.b, PeerAborts(c))));
  }

  lemma PeerStranded(c: Cast, w: World)
    requires Proper(c) && c.a in w.auths && w.auths[c.a] == PendingSource(c, c.a)
    requires c.r in w.auths && w.auths[c.r] == StagedTarget(c) && c.b in w.auths && AbortedAsSource(w.auths[c.b], c.t)
    ensures Stranded(w, c.a, c.t, c.r) && !AbortedAsTarget(w.auths[c.r], c.t)
  {
    SourceWaits(c, w);
    PeerIsStaged(c, w);
    assert PeerGaveUp(w, c.r, c.t, c.b);
  }

  lemma NobodyAborted(c: Cast, w: World)
    requires Proper(c)
    requires w.auths == map[c.a := PendingSource(c, c.a), c.b := PreparedSource(c, c.b), c.r := StagedTarget(c)]
    ensures !GaveUp(w, c.r, c.t) && StagedBy(w, c.r, c.t) && !Did(w.auths[c.r], c.t, TargetActive)
  {
    forall m ensures !PeerGaveUp(w, c.r, c.t, m) {}
  }

  /** A run in which nobody gives up, but the target has used its last revision to stage. */
  lemma LimitsStrandSource(c: Cast)
    requires Proper(c) && c.lead + 1 == MAX_REVISION
    ensures var w := Run(Script(c, 4)); Stranded(w, c.a, c.t, c.r) && !GaveUp(w, c.r, c.t)
  {
    AfterFour(c);
    NobodyAborted(c, Stop(c, 4));
    SourceWaits(c, Stop(c, 4));
    assert !HasHeadroom(StagedTarget(c));
  }
}
