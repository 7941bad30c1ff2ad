/** Federation of authorities: standalone roots hand their leadership to a successor by
    exchanging receipts only. `Handle` is one authority's answer to one request, `Next` one
    event anywhere in a world of authorities and issued receipts. */
module Federation {
  import opened Basics
  import opened Identifiers
  import opened Sorting
  import P = PlaneModel
  import Policy

  // ---------- receipts and requests ----------

  datatype Phase = SourcePrepared | TargetStaged | SourceFinalized | TargetActive | SubordinateActive | Aborted

  /** The digest is injective, so a receipt stands for its digest. */
  datatype Receipt = Receipt(
    transfer: string, phase: Phase, subject: string, target: string, epoch: nat, revision: nat, capacity: nat,
    members: set<string>, recordedAt: int)

  /** A receipt as it is sent along: the replay mark is not part of the digest. */
  datatype Shown = Shown(receipt: Receipt, replayed: bool)

  datatype Standing = ActiveRoot | Prepared | Staged | Pending | Subordinate | FederationRoot

  datatype Transfer =
    | Prepare(id: string, transfer: string, target: string, expectedRevision: nat, evidence: seq<string>, now: int)
    | Stage(id: string, transfer: string, expectedRevision: nat, sources: seq<Shown>, evidence: seq<string>, now: int)
    | Finalize(id: string, transfer: string, stage: Shown, now: int)
    | Activate(id: string, transfer: string, sources: seq<Shown>, evidence: seq<string>, now: int)
    | Enable(id: string, transfer: string, activation: Shown, now: int)
    | Abort(id: string, transfer: string, expected: Standing, expectedRevision: nat, activationAbsent: bool,
            reason: string, evidence: seq<string>, now: int)

  datatype StepKey = StepKey(transfer: string, phase: Phase)

  datatype Record = Record(request: Transfer, result: Receipt)

  datatype Member = Member(
    id: string, transfer: string, capacity: nat, revision: nat, prepared: Receipt, finalized: Option<Receipt>)

  datatype Authority = Authority(
    id: string, standing: Standing, epoch: nat, parent: Option<string>, transfer: Option<string>, plane: P.State,
    members: seq<Member>, steps: map<StepKey, Record>)

  datatype Refusal =
    | SchemaInvalid | TransferConflict | StateConflict | TransferInvalid | RevisionConflict | DrainRequired
    | ReceiptMismatch | AbortDenied | IntegrityError | TransferFrozen | ShardRequired | RootRequired

  datatype Answer = Issued(receipt: Receipt) | Repeated(receipt: Receipt) | Denied(refusal: Refusal)

  datatype Reply = Reply(authority: Authority, answer: Answer)

  /** Each step issues one phase of receipt, which names it in the step table. */
  function PhaseOf(req: Transfer): Phase {
    match req
    case Prepare(_, _, _, _, _, _) => SourcePrepared
    case Stage(_, _, _, _, _, _) => TargetStaged
    case Finalize(_, _, _, _) => SourceFinalized
    case Activate(_, _, _, _, _) => TargetActive
    case Enable(_, _, _, _) => SubordinateActive
    case Abort(_, _, _, _, _, _, _, _) => Aborted
  }

  function KeyOf(req: Transfer): StepKey { StepKey(req.transfer, PhaseOf(req)) }

  function Shows(req: Transfer): seq<Shown> {
    match req
    case Stage(_, _, _, sources, _, _) => sources
    case Activate(_, _, sources, _, _) => sources
    case Finalize(_, _, stage, _) => [stage]
    case Enable(_, _, activation, _) => [activation]
    case _ => []
  }

  // ---------- validation ----------

  const MAX_REVISION := 2_147_483_647

  predicate Named(r: Receipt) {
    Identifier(r.transfer) && Identifier(r.subject) && Identifier(r.target) && forall m | m in r.members :: Identifier(m)
  }

  predicate ReceiptValid(r: Receipt) {
    && Named(r) && 1 <= r.epoch <= MAX_REVISION && r.revision <= MAX_REVISION
    && 1 <= r.capacity <= 1024 && |r.members| <= 16
  }

  /** The validator sorts the receipts by subject and refuses a repeated one. */
  predicate BySubject(sources: seq<Shown>) {
    forall i, j | 0 <= i < j < |sources| ::
      sources[i].receipt.subject != sources[j].receipt.subject
      && IdLeq(sources[i].receipt.subject, sources[j].receipt.subject)
  }

  /** The names and references of a request. */
  predicate FieldsValid(req: Transfer) {
    && Identifier(req.id) && Identifier(req.transfer)
    && (req.Prepare? ==> Identifier(req.target))
    && (req.Prepare? || req.Stage? || req.Activate? || req.Abort? ==> Evidence(req.evidence))
    && (req.Abort? ==> Identifier(req.reason))
  }

  predicate SchemaOk(req: Transfer) {
    && FieldsValid(req)
    && (forall s | s in Shows(req) :: ReceiptValid(s.receipt))
    && (req.Stage? || req.Activate? ==> 2 <= |req.sources| <= 16 && BySubject(req.sources))
    && (req.Abort? ==> req.expected == Prepared || req.expected == Staged)
    && (req.Prepare? || req.Stage? || req.Abort? ==> req.expectedRevision <= MAX_REVISION)
  }

  // ---------- member rows ----------

  function Subjects(sources: seq<Shown>): set<string> { set s | s in sources :: s.receipt.subject }

  function RowOf(transfer: string): Shown -> Member {
    (s: Shown) => Member(s.receipt.subject, transfer, s.receipt.capacity, s.receipt.revision, s.receipt, None)
  }

  function Ids(rows: seq<Member>): set<string> { set m | m in rows :: m.id }

  function InTransfer(transfer: string): Member -> bool { (m: Member) => m.transfer == transfer }

  function NotInTransfer(transfer: string): Member -> bool { (m: Member) => m.transfer != transfer }

  function TotalCapacity(rows: seq<Member>): nat {
    if rows == [] then 0 else rows[0].capacity + TotalCapacity(rows[1..])
  }

  function ShownCapacity(sources: seq<Shown>): nat {
    if sources == [] then 0 else sources[0].receipt.capacity + ShownCapacity(sources[1..])
  }

  function FinalizeOf(sources: seq<Shown>, id: string): Option<Receipt> {
    if sources == [] then None
    else if sources[0].receipt.subject == id then Some(sources[0].receipt)
    else FinalizeOf(sources[1..], id)
  }

  function Finalized(sources: seq<Shown>, transfer: string): Member -> Member {
    (m: Member) =>
      if m.transfer == transfer && FinalizeOf(sources, m.id).Some? then m.(finalized := FinalizeOf(sources, m.id)) else m
  }

  // ---------- the six steps ----------

  /** A source's own receipt names itself as the only member. */
  predicate FromSource(id: string, transfer: string, phase: Phase, r: Receipt) {
    r.phase == phase && r.transfer == transfer && r.target == id && r.members == {r.subject}
  }

  predicate AllFromSources(id: string, transfer: string, phase: Phase, sources: seq<Shown>) {
    forall s | s in sources :: FromSource(id, transfer, phase, s.receipt)
  }

  /** The refusal of a step whose schema is valid and which is not on record; None when it
      goes ahead. */
  function StepError(a: Authority, req: Transfer): Option<Refusal> {
    match req
    case Prepare(_, _, target, expectedRevision, _, _) =>
      if a.standing != ActiveRoot then Some(StateConflict)
      else if a.id == target then Some(TransferInvalid)
      else if a.plane.revision != expectedRevision then Some(RevisionConflict)
      else if P.Occupancy(a.plane) != 0 then Some(DrainRequired)
      else None
    case Stage(_, transfer, expectedRevision, sources, _, _) =>
      if a.standing != ActiveRoot then Some(StateConflict)
      else if a.plane.revision != expectedRevision then Some(RevisionConflict)
      else if P.Occupancy(a.plane) != 0 then Some(DrainRequired)
      else if a.id in Subjects(sources) then Some(TransferInvalid)
      else if !AllFromSources(a.id, transfer, SourcePrepared, sources) then Some(ReceiptMismatch)
      else if Ids(a.members) * Subjects(sources) != {} then Some(IntegrityError)
      else None
    case Finalize(_, transfer, Shown(stage, _), _) =>
      if a.standing != Prepared || a.transfer != Some(transfer) || stage.phase != TargetStaged
         || stage.transfer != transfer || stage.subject != stage.target || a.id !in stage.members then Some(ReceiptMismatch)
      else if P.Occupancy(a.plane) != 0 then Some(DrainRequired)
      else None
    case Activate(_, transfer, sources, _, _) =>
      if a.standing != Staged || a.transfer != Some(transfer) then Some(StateConflict)
      else if Subjects(sources) != Ids(Filter(a.members, InTransfer(transfer))) then Some(ReceiptMismatch)
      else if !AllFromSources(a.id, transfer, SourceFinalized, sources) then Some(ReceiptMismatch)
      else None
    case Enable(_, transfer, Shown(activation, _), _) =>
      if a.standing != Pending || a.transfer != Some(transfer) || activation.phase != TargetActive
         || activation.transfer != transfer || Some(activation.target) != a.parent || Some(activation.subject) != a.parent
         || a.id !in activation.members then Some(ReceiptMismatch)
      else None
    case Abort(_, transfer, expected, expectedRevision, activationAbsent, _, _, _) =>
      if (a.standing != Prepared && a.standing != Staged) || a.transfer != Some(transfer) || expected != a.standing then
        Some(StateConflict)
      else if a.plane.revision != expectedRevision then Some(RevisionConflict)
      else if !activationAbsent then Some(AbortDenied)
      else None
  }

  /** The authority's metadata and member rows after the step; its event bumps the revision. */
  function Moved(a: Authority, req: Transfer): Authority {
    var b := a.(epoch := a.epoch + 1, plane := P.Bump(a.plane, 1));
    match req
    case Prepare(_, transfer, _, _, _, _) => b.(standing := Prepared, parent := None, transfer := Some(transfer))
    case Stage(_, transfer, _, sources, _, _) =>
      b.(standing := Staged, parent := None, transfer := Some(transfer),
         members := a.members + Map(sources, RowOf(transfer)))
    case Finalize(_, transfer, Shown(stage, _), _) =>
      b.(standing := Pending, parent := Some(stage.target), transfer := Some(transfer))
    case Activate(_, transfer, sources, _, _) =>
      b.(standing := FederationRoot, parent := None, transfer := Some(transfer),
         members := Map(a.members, Finalized(sources, transfer)))
    case Enable(_, transfer, _, _) => b.(standing := Subordinate, transfer := Some(transfer))
    case Abort(_, transfer, _, _, _, _, _, _) =>
      b.(standing := ActiveRoot, parent := None, transfer := None,
         members := if a.standing == Staged then Filter(a.members, NotInTransfer(transfer)) else a.members)
  }

  function ResultTarget(a: Authority, req: Transfer): string {
    match req
    case Prepare(_, _, target, _, _, _) => target
    case Finalize(_, _, Shown(stage, _), _) => stage.target
    case Enable(_, _, _, _) => if a.parent.Some? then a.parent.value else ""
    case _ => a.id
  }

  function ResultMembers(a: Authority, req: Transfer): set<string> {
    match req
    case Stage(_, _, _, sources, _, _) => Subjects(sources)
    case Activate(_, transfer, _, _, _) => Ids(Filter(a.members, InTransfer(transfer)))
    case Abort(_, _, _, _, _, _, _, _) => {}
    case _ => {a.id}
  }

  function ResultCapacity(a: Authority, req: Transfer): nat {
    match req
    case Stage(_, _, _, sources, _, _) => ShownCapacity(sources)
    case Activate(_, transfer, _, _, _) => TotalCapacity(Filter(a.members, InTransfer(transfer)))
    case _ => a.plane.capacity
  }

  function ResultOf(a: Authority, req: Transfer): Receipt {
    Receipt(req.transfer, PhaseOf(req), a.id, ResultTarget(a, req), a.epoch + 1, a.plane.revision + 1,
      ResultCapacity(a, req), ResultMembers(a, req), req.now)
  }

  /** A request id may serve one step only. */
  predicate IdTaken(a: Authority, req: Transfer) {
    exists k | k in a.steps :: a.steps[k].request.id == req.id
  }

  function Handle(a: Authority, req: Transfer): Reply {
    if !SchemaOk(req) then Reply(a, Denied(SchemaInvalid))
    else if KeyOf(req) in a.steps then
      Reply(a, if a.steps[KeyOf(req)].request == req then Repeated(a.steps[KeyOf(req)].result) else Denied(TransferConflict))
    else
      var e := StepError(a, req);
      if e.Some? then Reply(a, Denied(e.value))
      else if IdTaken(a, req) then Reply(a, Denied(IntegrityError))
      else
        var result := ResultOf(a, req);
        Reply(Moved(a, req).(steps := a.steps[KeyOf(req) := Record(req, result)]), Issued(result))
  }

  // ---------- local work ----------

  predicate ForRoots(op: P.Op) {
    op.RecordRule? || (op.Note? && (op.kind.ClassifyDecision? || op.kind.MigrateDecisions?))
  }

  /** `require_operational_authority`. */
  function GateError(standing: Standing, op: P.Op): Option<Refusal> {
    match standing
    case Prepared => Some(TransferFrozen)
    case Staged => Some(TransferFrozen)
    case Pending => Some(TransferFrozen)
    case FederationRoot =>
      if ForRoots(op) || (op.Note? && op.kind.AdoptDispatcher?) then None else Some(ShardRequired)
    case Subordinate => if ForRoots(op) then Some(RootRequired) else None
    case ActiveRoot => None
  }

  function Operate(a: Authority, req: P.Request): Authority {
    if GateError(a.standing, req.op).Some? then a else a.(plane := P.Apply(a.plane, req).state)
  }

  // ---------- the world ----------

  /** Receipts are listed in the order they were issued. */
  datatype World = World(auths: map<string, Authority>, log: seq<Receipt>)

  datatype Event =
    | Create(id: string, plane: P.State)
    | Send(to: string, req: Transfer)
    | Local(to: string, work: P.Request)

  function NewAuthority(id: string, plane: P.State): Authority {
    Authority(id, ActiveRoot, 1, None, None, plane, [], map[])
  }

  /** A store that was just initialized, from a valid ledger. */
  predicate Fresh(plane: P.State) {
    && 1 <= plane.capacity <= 64 && Policy.LedgerValid(plane.rules, plane.policyRevision)
    && plane == P.Initial(plane.capacity, plane.rules, plane.policyRevision)
  }

  predicate AllIssued(w: World, req: Transfer) {
    forall s | s in Shows(req) :: s.receipt in w.log
  }

  /** One event. Receipts may be delayed, repeated or lost, but what is shown was issued. */
  function Next(w: World, e: Event): World {
    match e
    case Create(id, plane) =>
      if id in w.auths || !Identifier(id) || !Fresh(plane) then w
      else w.(auths := w.auths[id := NewAuthority(id, plane)])
    case Local(to, work) =>
      if to !in w.auths then w else w.(auths := w.auths[to := Operate(w.auths[to], work)])
    case Send(to, req) =>
      if to !in w.auths || !AllIssued(w, req) then w
      else
        var reply := Handle(w.auths[to], req);
        World(w.auths[to := reply.authority], if reply.answer.Issued? then w.log + [reply.answer.receipt] else w.log)
  }

  function Run(events: seq<Event>): World
    decreases |events|
  {
    if events == [] then World(map[], []) else Next(Run(events[..|events| - 1]), events[|events| - 1])
  }

  lemma RunLast(events: seq<Event>, e: Event)
    ensures Run(events + [e]) == Next(Run(events), e)
  {
    assert (events + [e])[..|events|] == events;
  }
}
