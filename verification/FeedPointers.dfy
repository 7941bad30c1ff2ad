/** The published feed's pointers (`publish_feed`, `rollback_pointer`): files that change one
    atomic write at a time, so that a crash leaves some first part of an operation's writes. */
module FeedPointers {
  import opened Basics

  datatype Feed = Feed(generatedAt: Option<int>, body: string)

  /** The SHA-256 of the canonical text, taken as injective. */
  datatype Digest = Digest(text: Feed)

  /** The file a digest is stored under. */
  datatype Name = Snapshot(digest: Digest)

  datatype Pointer = Pointer(digest: Digest, snapshot: Name, generatedAt: Option<int>)

  datatype Store = Store(
    snapshots: map<Name, Feed>, current: Option<Pointer>, lkg: Option<Pointer>, previous: Option<Pointer>)

  datatype Write = PutSnapshot(name: Name, feed: Feed) | PutCurrent(p: Pointer) | PutLkg(p: Pointer) | PutPrevious(p: Pointer)

  datatype Failure = SnapshotConflict | LkgInvalid | LkgUnavailable

  /** The writes an operation makes in order, and whether it then fails. */
  datatype Plan = Plan(writes: seq<Write>, failure: Option<Failure>)

  function PointerTo(feed: Feed): Pointer { Pointer(Digest(feed), Snapshot(Digest(feed)), feed.generatedAt) }

  function Put(s: Store, w: Write): Store {
    match w
    case PutSnapshot(name, feed) => s.(snapshots := s.snapshots[name := feed])
    case PutCurrent(p) => s.(current := Some(p))
    case PutLkg(p) => s.(lkg := Some(p))
    case PutPrevious(p) => s.(previous := Some(p))
  }

  function PutAll(s: Store, writes: seq<Write>): Store
    decreases |writes|
  {
    if writes == [] then s else Put(PutAll(s, writes[..|writes| - 1]), writes[|writes| - 1])
  }

  /** Sound: its snapshot is stored and has the digest it says. */
  predicate Sound(s: Store, p: Pointer) {
    p.snapshot in s.snapshots && Digest(s.snapshots[p.snapshot]) == p.digest
  }

  predicate SoundOption(s: Store, p: Option<Pointer>) {
    p.Some? ==> Sound(s, p.value)
  }

  /** Every stored snapshot has the digest in its name, and every pointer that exists is sound. */
  ghost predicate Valid(s: Store) {
    && (forall n | n in s.snapshots :: n == Snapshot(Digest(s.snapshots[n])))
    && SoundOption(s, s.current) && SoundOption(s, s.lkg) && SoundOption(s, s.previous)
  }

  // ---------- the two operations ----------

  /** The pointers move: an old current is kept first, and the new current comes last. */
  function SwitchWrites(current: Option<Pointer>, new_: Pointer): seq<Write> {
    (if current.None? then [PutLkg(new_)]
     else if current.value != new_ then [PutPrevious(current.value), PutLkg(current.value)]
     else []) + [PutCurrent(new_)]
  }

  function StoreWrites(s: Store, feed: Feed): seq<Write> {
    if PointerTo(feed).snapshot in s.snapshots then [] else [PutSnapshot(PointerTo(feed).snapshot, feed)]
  }

  function PublishPlan(s: Store, feed: Feed): Plan {
    var new_ := PointerTo(feed);
    if new_.snapshot in s.snapshots && s.snapshots[new_.snapshot] != feed then Plan([], Some(SnapshotConflict))
    else if !SoundOption(PutAll(s, StoreWrites(s, feed)), s.current) then Plan(StoreWrites(s, feed), Some(LkgInvalid))
    else Plan(StoreWrites(s, feed) + SwitchWrites(s.current, new_), None)
  }

  function RollbackPlan(s: Store): Plan {
    if !SoundOption(s, s.current) || !SoundOption(s, s.lkg) then Plan([], Some(LkgInvalid))
    else if s.lkg.None? || s.current == s.lkg then Plan([], Some(LkgUnavailable))
    else
      Plan([PutCurrent(s.lkg.value)]
           + (if s.current.Some? then [PutPrevious(s.current.value), PutLkg(s.current.value)] else []), None)
  }

  datatype Op = Publish(feed: Feed) | Rollback

  function PlanOf(s: Store, op: Op): Plan {
    match op
    case Publish(feed) => PublishPlan(s, feed)
    case Rollback => RollbackPlan(s)
  }

  /** The operation in full. */
  function Do(s: Store, op: Op): Store { PutAll(s, PlanOf(s, op).writes) }

  // ---------- the operations as they run ----------

  class FeedDirectory {
    var snapshots: map<Name, Feed>
    var current: Option<Pointer>
    var lkg: Option<Pointer>
    var previous: Option<Pointer>
    /** Every state the directory has been in, one a write. */
    ghost var seen: seq<Store>

    constructor ()
      ensures Files() == Store(map[], None, None, None) && seen == []
    {
      snapshots, current, lkg, previous, seen := map[], None, None, None, [];
    }

    function Files(): Store
      reads this
    {
      Store(snapshots, current, lkg, previous)
    }

    /** `atomic_write`: one file is replaced. */
    method Replace(w: Write)
      modifies this
      ensures Files() == Put(old(Files()), w) && seen == old(seen) + [Files()]
    {
      match w {
        case PutSnapshot(name, feed) => snapshots := snapshots[name := feed];
        case PutCurrent(p) => current := Some(p);
        case PutLkg(p) => lkg := Some(p);
        case PutPrevious(p) => previous := Some(p);
      }
      seen := seen + [Files()];
    }

    /** Stores the snapshot under its digest unless it is there already. */
    method StoreSnapshot(feed: Feed) returns (ok: bool)
      modifies this
      ensures var n := PointerTo(feed).snapshot; ok == !(n in old(snapshots) && old(snapshots)[n] != feed)
      ensures !ok ==> Files() == old(Files()) && seen == old(seen)
      ensures ok ==> Files() == PutAll(old(Files()), StoreWrites(old(Files()), feed))
      ensures ok ==> seen == old(seen) + States(old(Files()), StoreWrites(old(Files()), feed))
      ensures current == old(current)
    {
      var n := PointerTo(feed).snapshot;
      if n in snapshots {
        return snapshots[n] == feed;
      }
      ghost var s := Files();
      Replace(PutSnapshot(n, feed));
      Extend(s, [], PutSnapshot(n, feed));
      assert [] + [PutSnapshot(n, feed)] == StoreWrites(s, feed);
      ok := true;
    }

    method SwitchTo(new_: Pointer)
      modifies this
      ensures Files() == PutAll(old(Files()), SwitchWrites(old(current), new_))
      ensures seen == old(seen) + States(old(Files()), SwitchWrites(old(current), new_))
    {
      ghost var s := Files();
      ghost var done: seq<Write> := [];
      if current.None? {
        Replace(PutLkg(new_));
        Extend(s, done, PutLkg(new_));
        done := done + [PutLkg(new_)];
      } else if current.value != new_ {
        var old_ := current.value;
        Replace(PutPrevious(old_));
        Extend(s, done, PutPrevious(old_));
        done := done + [PutPrevious(old_)];
        Replace(PutLkg(old_));
        Extend(s, done, PutLkg(old_));
        done := done + [PutLkg(old_)];
      }
      Replace(PutCurrent(new_));
      Extend(s, done, PutCurrent(new_));
      assert done + [PutCurrent(new_)] == SwitchWrites(s.current, new_);
    }

    /** `publish_feed`. */
    method PublishFeed(feed: Feed) returns (failure: Option<Failure>)
      modifies this
      ensures var plan := PublishPlan(old(Files()), feed);
        failure == plan.failure && Files() == PutAll(old(Files()), plan.writes)
        && seen == old(seen) + States(old(Files()), plan.writes)
    {
      ghost var s := Files();
      var ok := StoreSnapshot(feed);
      if !ok {
        return Some(SnapshotConflict);
      }
      if !SoundOption(Files(), current) {
        return Some(LkgInvalid);
      }
      SwitchTo(PointerTo(feed));
      PutSplits(s, StoreWrites(s, feed), SwitchWrites(s.current, PointerTo(feed)));
      StatesSplit(s, StoreWrites(s, feed), SwitchWrites(s.current, PointerTo(feed)));
      failure := None;
    }

    /** `rollback_pointer`. */
    method RollBack() returns (failure: Option<Failure>)
      modifies this
      ensures var plan := RollbackPlan(old(Files()));
        failure == plan.failure && Files() == PutAll(old(Files()), plan.writes)
        && seen == old(seen) + States(old(Files()), plan.writes)
    {
      ghost var s := Files();
      if !SoundOption(Files(), current) || !SoundOption(Files(), lkg) {
        return Some(LkgInvalid);
      }
      if lkg.None? || current == lkg {
        return Some(LkgUnavailable);
      }
      var was, target := current, lkg.value;
      Replace(PutCurrent(target));
      Extend(s, [], PutCurrent(target));
      ghost var done := [PutCurrent(target)];
      assert [] + [PutCurrent(target)] == done;
      if was.Some? {
        Replace(PutPrevious(was.value));
        Extend(s, done, PutPrevious(was.value));
        done := done + [PutPrevious(was.value)];
        Replace(PutLkg(was.value));
        Extend(s, done, PutLkg(was.value));
        done := done + [PutLkg(was.value)];
      }
      assert done == RollbackPlan(s).writes;
      failure := None;
    }
  }

  /** The states between the writes. */
  function States(s: Store, writes: seq<Write>): seq<Store>
    decreases |writes|
  {
    if writes == [] then [] else States(s, writes[..|writes| - 1]) + [PutAll(s, writes)]
  }

  lemma {:induction false} StatesSplit(s: Store, a: seq<Write>, b: seq<Write>)
    ensures States(s, a + b) == States(s, a) + States(PutAll(s, a), b)
    decreases |b|
  {
    if b == [] {
      assert a + b == a;
    } else {
      assert (a + b)[..|a + b| - 1] == a + b[..|b| - 1];
      StatesSplit(s, a, b[..|b| - 1]);
      PutSplits(s, a, b);
    }
  }

  lemma Extend(s: Store, writes: seq<Write>, w: Write)
    ensures PutAll(s, writes + [w]) == Put(PutAll(s, writes), w)
    ensures States(s, writes + [w]) == States(s, writes) + [PutAll(s, writes + [w])]
  {
    assert (writes + [w])[..|writes|] == writes;
  }

  // ---------- soundness at every write ----------

  /** The write keeps the directory sound. */
  predicate Safe(s: Store, w: Write) {
    match w
    case PutSnapshot(name, feed) => name == Snapshot(Digest(feed))
    case PutCurrent(p) => Sound(s, p)
    case PutLkg(p) => Sound(s, p)
    case PutPrevious(p) => Sound(s, p)
  }

  lemma SafeKeepsValid(s: Store, w: Write)
    requires Valid(s) && Safe(s, w)
    ensures Valid(Put(s, w)) && forall p | Sound(s, p) :: Sound(Put(s, w), p)
  {
  }

  /** Pointers copied to other places, after the snapshot they need. */
  ghost predicate AllSafe(s: Store, writes: seq<Write>) {
    forall i | 0 <= i < |writes| :: Safe(PutAll(s, writes[..i]), writes[i])
  }

  lemma {:induction false} PrefixesValid(s: Store, writes: seq<Write>, k: nat)
    requires Valid(s) && AllSafe(s, writes) && k <= |writes|
    ensures Valid(PutAll(s, writes[..k])) && forall p | Sound(s, p) :: Sound(PutAll(s, writes[..k]), p)
  {
    if k > 0 {
      PrefixesValid(s, writes, k - 1);
      SafeKeepsValid(PutAll(s, writes[..k - 1]), writes[k - 1]);
      assert writes[..k] == writes[..k - 1] + [writes[k - 1]];
      Extend(s, writes[..k - 1], writes[k - 1]);
    }
  }

  lemma {:induction false} StoredPersists(s: Store, writes: seq<Write>, n: Name)
    requires n in s.snapshots && n == Snapshot(Digest(s.snapshots[n]))
    requires forall w | w in writes && w.PutSnapshot? :: w.name == Snapshot(Digest(w.feed))
    ensures n in PutAll(s, writes).snapshots && PutAll(s, writes).snapshots[n] == s.snapshots[n]
    decreases |writes|
  {
    if writes != [] {
      assert forall w | w in writes[..|writes| - 1] :: w in writes;
      StoredPersists(s, writes[..|writes| - 1], n);
      assert writes[|writes| - 1] in writes;
    }
  }

  lemma SafeSplits(s: Store, a: seq<Write>, b: seq<Write>)
    requires AllSafe(s, a) && AllSafe(PutAll(s, a), b)
    ensures AllSafe(s, a + b)
  {
    forall i | 0 <= i < |a + b| ensures Safe(PutAll(s, (a + b)[..i]), (a + b)[i]) {
      if i < |a| {
        assert (a + b)[..i] == a[..i];
      } else {
        assert (a + b)[..i] == a + b[..i - |a|];
        PutSplits(s, a, b[..i - |a|]);
      }
    }
  }

  /** The snapshot of the new feed is in place before any pointer to it. */
  lemma StoredFirst(s: Store, feed: Feed)
    requires Valid(s) && PublishPlan(s, feed).failure.None?
    ensures AllSafe(s, StoreWrites(s, feed)) && Valid(PutAll(s, StoreWrites(s, feed)))
    ensures Sound(PutAll(s, StoreWrites(s, feed)), PointerTo(feed))
    ensures PutAll(s, StoreWrites(s, feed)).current == s.current
  {
    var writes := StoreWrites(s, feed);
    if writes != [] {
      assert writes[..0] == [];
      Two(s, writes[0], writes[0], writes[0]);
    }
  }

  lemma SwitchSafe(s: Store, new_: Pointer)
    requires Valid(s) && Sound(s, new_)
    ensures AllSafe(s, SwitchWrites(s.current, new_))
  {
    var writes := SwitchWrites(s.current, new_);
    forall i | 0 <= i < |writes| ensures Safe(PutAll(s, writes[..i]), writes[i]) {
      StoredPersists(s, writes[..i], new_.snapshot);
      if s.current.Some? {
        StoredPersists(s, writes[..i], s.current.value.snapshot);
      }
    }
  }

  lemma PublishSafe(s: Store, feed: Feed)
    requires Valid(s)
    ensures AllSafe(s, PublishPlan(s, feed).writes)
  {
    PublishSucceeds(s, feed);
    StoredFirst(s, feed);
    SwitchSafe(PutAll(s, StoreWrites(s, feed)), PointerTo(feed));
    SafeSplits(s, StoreWrites(s, feed), SwitchWrites(s.current, PointerTo(feed)));
  }

  lemma {:induction false} PutSplits(s: Store, a: seq<Write>, b: seq<Write>)
    ensures PutAll(s, a + b) == PutAll(PutAll(s, a), b)
    decreases |b|
  {
    if b == [] {
      assert a + b == a;
    } else {
      assert (a + b)[..|a + b| - 1] == a + b[..|b| - 1];
      PutSplits(s, a, b[..|b| - 1]);
    }
  }

  lemma RollbackSafe(s: Store)
    requires Valid(s)
    ensures AllSafe(s, RollbackPlan(s).writes)
  {
    var writes := RollbackPlan(s).writes;
    forall i | 0 <= i < |writes| ensures Safe(PutAll(s, writes[..i]), writes[i]) {
      StoredPersists(s, writes[..i], s.lkg.value.snapshot);
      if s.current.Some? {
        StoredPersists(s, writes[..i], s.current.value.snapshot);
      }
    }
  }

  /** An operation that may have been cut short after some of its writes. */
  datatype Attempt = Attempt(op: Op, completed: nat)

  function Upto(s: Store, a: Attempt): Store {
    var writes := PlanOf(s, a.op).writes;
    PutAll(s, if a.completed <= |writes| then writes[..a.completed] else writes)
  }

  function RunAttempts(attempts: seq<Attempt>): Store
    decreases |attempts|
  {
    if attempts == [] then Store(map[], None, None, None)
    else Upto(RunAttempts(attempts[..|attempts| - 1]), attempts[|attempts| - 1])
  }

  lemma UptoValid(s: Store, a: Attempt)
    requires Valid(s)
    ensures Valid(Upto(s, a))
  {
    var writes := PlanOf(s, a.op).writes;
    if a.op.Publish? {
      PublishSafe(s, a.op.feed);
    } else {
      RollbackSafe(s);
    }
    assert writes[..|writes|] == writes;
    PrefixesValid(s, writes, if a.completed <= |writes| then a.completed else |writes|);
  }

  /** After any run of publishes and rollbacks, each completed or cut off after any of its
      writes, every pointer names a stored snapshot with its digest. */
  lemma {:induction false} EveryWriteIsSound(attempts: seq<Attempt>)
    ensures Valid(RunAttempts(attempts))
    decreases |attempts|
  {
    if attempts != [] {
      EveryWriteIsSound(attempts[..|attempts| - 1]);
      UptoValid(RunAttempts(attempts[..|attempts| - 1]), attempts[|attempts| - 1]);
    }
  }

  // ---------- what completed operations do ----------

  lemma Two(s: Store, a: Write, b: Write, c: Write)
    ensures PutAll(s, [a]) == Put(s, a)
    ensures PutAll(s, [a, b]) == Put(Put(s, a), b)
    ensures PutAll(s, [a, b, c]) == Put(Put(Put(s, a), b), c)
  {
    assert [a][..0] == [] && [a, b][..1] == [a] && [a, b, c][..2] == [a, b];
  }

  /** Into a sound directory every feed can be published. */
  lemma PublishSucceeds(s: Store, feed: Feed)
    requires Valid(s)
    ensures PublishPlan(s, feed) == Plan(StoreWrites(s, feed) + SwitchWrites(s.current, PointerTo(feed)), None)
  {
    if s.current.Some? {
      StoredPersists(s, StoreWrites(s, feed), s.current.value.snapshot);
      PointersUnmoved(s, StoreWrites(s, feed));
    }
  }

  lemma PublishKeepsValid(s: Store, feed: Feed)
    requires Valid(s)
    ensures Valid(Do(s, Publish(feed)))
  {
    var writes := PublishPlan(s, feed).writes;
    PublishSafe(s, feed);
    PrefixesValid(s, writes, |writes|);
    assert writes[..|writes|] == writes;
  }

  /** A publish in full: the new feed is current, and the old current is kept as last known
      good unless it is the same feed. */
  lemma PublishDoes(s: Store, feed: Feed)
    requires Valid(s)
    ensures PublishPlan(s, feed).failure.None? && Valid(Do(s, Publish(feed)))
    ensures Do(s, Publish(feed)).current == Some(PointerTo(feed))
    ensures Do(s, Publish(feed)).lkg == (if s.current.None? then Some(PointerTo(feed))
                                         else if s.current == Some(PointerTo(feed)) then s.lkg else s.current)
  {
    PublishSucceeds(s, feed);
    PublishKeepsValid(s, feed);
    PutSplits(s, StoreWrites(s, feed), SwitchWrites(s.current, PointerTo(feed)));
    PointersUnmoved(s, StoreWrites(s, feed));
    SwitchDoes(PutAll(s, StoreWrites(s, feed)), PointerTo(feed));
  }

  lemma SwitchDoes(s: Store, new_: Pointer)
    ensures var s' := PutAll(s, SwitchWrites(s.current, new_));
      && s'.current == Some(new_)
      && s'.lkg == (if s.current.None? then Some(new_) else if s.current == Some(new_) then s.lkg else s.current)
  {
    var rest := SwitchWrites(s.current, new_);
    if |rest| == 3 {
      Two(s, rest[0], rest[1], rest[2]);
      assert rest == [rest[0], rest[1], rest[2]];
    } else if |rest| == 2 {
      Two(s, rest[0], rest[1], rest[1]);
      assert rest == [rest[0], rest[1]];
    } else {
      Two(s, rest[0], rest[0], rest[0]);
      assert rest == [rest[0]];
    }
  }

  lemma PointersUnmoved(s: Store, writes: seq<Write>)
    requires |writes| <= 1 && forall w | w in writes :: w.PutSnapshot?
    ensures PutAll(s, writes).current == s.current && PutAll(s, writes).lkg == s.lkg
  {
    if |writes| == 1 {
      assert writes[0] in writes && writes == [writes[0]];
      Two(s, writes[0], writes[0], writes[0]);
    }
  }

  /** A rollback in full swaps current and last known good; it is refused exactly when there is
      no distinct one. */
  lemma RollbackDoes(s: Store)
    requires Valid(s)
    ensures RollbackPlan(s).failure == if s.lkg.None? || s.current == s.lkg then Some(LkgUnavailable) else None
    ensures RollbackPlan(s).failure.Some? ==> Do(s, Rollback) == s
    ensures RollbackPlan(s).failure.None? ==> Valid(Do(s, Rollback)) && Do(s, Rollback).current == s.lkg
    ensures RollbackPlan(s).failure.None? ==> Do(s, Rollback).lkg == (if s.current.Some? then s.current else s.lkg)
  {
    var writes := RollbackPlan(s).writes;
    if RollbackPlan(s).failure.None? {
      RollbackSafe(s);
      PrefixesValid(s, writes, |writes|);
      assert writes[..|writes|] == writes;
      if |writes| == 3 {
        Two(s, writes[0], writes[1], writes[2]);
        assert writes == [writes[0], writes[1], writes[2]];
      } else {
        Two(s, writes[0], writes[0], writes[0]);
        assert writes == [writes[0]];
      }
    }
  }

  /** Publishing another feed and rolling back restores the old current pointer, and keeps the
      published one for the next rollback. */
  lemma PublishThenRollback(s: Store, feed: Feed)
    requires Valid(s) && s.current.Some? && s.current != Some(PointerTo(feed))
    ensures var back := Do(Do(s, Publish(feed)), Rollback);
      back.current == s.current && back.lkg == Some(PointerTo(feed))
  {
    PublishDoes(s, feed);
    RollbackDoes(Do(s, Publish(feed)));
  }

  /** Rolling back twice changes neither current nor last known good. */
  lemma RollbackTwice(s: Store)
    requires Valid(s) && s.current.Some? && s.lkg.Some? && s.current != s.lkg
    ensures var twice := Do(Do(s, Rollback), Rollback); twice.current == s.current && twice.lkg == s.lkg
  {
    RollbackDoes(s);
    RollbackDoes(Do(s, Rollback));
  }

  function DoAll(s: Store, ops: seq<Op>): Store
    decreases |ops|
  {
    if ops == [] then s else Do(DoAll(s, ops[..|ops| - 1]), ops[|ops| - 1])
  }

  ghost predicate CanRollBack(s: Store) {
    Valid(s) && s.current.Some? && s.lkg.Some? && s.current != s.lkg
  }

  /** Once there is a distinct last known good, completed operations never lose it. */
  lemma {:induction false} StaysRecoverable(s: Store, ops: seq<Op>)
    requires CanRollBack(s)
    ensures CanRollBack(DoAll(s, ops))
    decreases |ops|
  {
    if ops != [] {
      var before := DoAll(s, ops[..|ops| - 1]);
      StaysRecoverable(s, ops[..|ops| - 1]);
      match ops[|ops| - 1]
      case Publish(feed) => PublishDoes(before, feed);
      case Rollback => RollbackDoes(before);
    }
  }

  // ---------- what a cut loses ----------

  /** The word "completed" matters. A rollback that is cut off loses the way back exactly when its
      first write was made and its last was not: the two pointers are equal in between. */
  lemma CutRollbackExactly(s: Store, k: nat)
    requires CanRollBack(s)
    ensures CanRollBack(Upto(s, Attempt(Rollback, k))) <==> k == 0 || k >= 3
  {
    RollbackDoes(s);
    UptoValid(s, Attempt(Rollback, k));
    var w := RollbackPlan(s).writes;
    assert w == [PutCurrent(s.lkg.value), PutPrevious(s.current.value), PutLkg(s.current.value)];
    assert w[..0] == [] && w[..1] == [w[0]] && w[..2] == [w[0], w[1]] && w[..3] == w;
    Two(s, w[0], w[1], w[2]);
  }

  /** The three writes that move the pointers to another feed. */
  lemma CutSwitch(s: Store, new_: Pointer, k: nat)
    requires s.current.Some? && s.lkg.Some? && s.current != s.lkg && s.current.value != new_ && k <= 3
    ensures |SwitchWrites(s.current, new_)| == 3
    ensures var cut := PutAll(s, SwitchWrites(s.current, new_)[..k]);
      cut.current.Some? && cut.lkg.Some? && (cut.current != cut.lkg <==> k != 2)
  {
    var w := SwitchWrites(s.current, new_);
    assert w == [PutPrevious(s.current.value), PutLkg(s.current.value), PutCurrent(new_)];
    assert w[..0] == [] && w[..1] == [w[0]] && w[..2] == [w[0], w[1]] && w[..3] == w;
    Two(s, w[0], w[1], w[2]);
  }

  lemma StoringIsOneWrite(s: Store, feed: Feed, k: nat)
    requires k <= |StoreWrites(s, feed)|
    ensures |StoreWrites(s, feed)| <= 1
    ensures var cut := PutAll(s, StoreWrites(s, feed)[..k]); cut.current == s.current && cut.lkg == s.lkg
  {
    PointersUnmoved(s, StoreWrites(s, feed)[..k]);
  }

  lemma CutPublishSwitches(s: Store, feed: Feed, k: nat)
    requires CanRollBack(s) && s.current != Some(PointerTo(feed))
    ensures var n := |StoreWrites(s, feed)|; var cut := Upto(s, Attempt(Publish(feed), k));
      cut.current.Some? && cut.lkg.Some? && (cut.current != cut.lkg <==> k != n + 2)
  {
    var store, switch := StoreWrites(s, feed), SwitchWrites(s.current, PointerTo(feed));
    var n, stored := |store|, PutAll(s, store);
    PublishSucceeds(s, feed);
    StoringIsOneWrite(s, feed, n);
    assert store[..n] == store;
    if k <= n {
      StoringIsOneWrite(s, feed, k);
      assert (store + switch)[..k] == store[..k];
    } else {
      var j := if k <= n + 3 then k - n else 3;
      CutSwitch(stored, PointerTo(feed), j);
      PutSplits(s, store, switch[..j]);
      assert (store + switch)[..n + j] == store + switch[..j] && switch[..3] == switch;
    }
  }

  lemma StoredIsCurrent(s: Store, feed: Feed)
    requires Valid(s) && s.current == Some(PointerTo(feed))
    ensures PublishPlan(s, feed) == Plan([PutCurrent(PointerTo(feed))], None)
  {
    PublishSucceeds(s, feed);
  }

  /** Publishing the current feed again loses nothing wherever it is cut. Publishing another one
      loses the way back exactly when it is cut between the last two writes, after the old current
      became last known good and before the new one became current. */
  lemma CutPublishExactly(s: Store, feed: Feed, k: nat)
    requires CanRollBack(s)
    ensures CanRollBack(Upto(s, Attempt(Publish(feed), k)))
       <==> s.current == Some(PointerTo(feed)) || k != |StoreWrites(s, feed)| + 2
  {
    UptoValid(s, Attempt(Publish(feed), k));
    if s.current == Some(PointerTo(feed)) {
      StoredIsCurrent(s, feed);
      var w := [PutCurrent(PointerTo(feed))];
      Two(s, w[0], w[0], w[0]);
      assert w[..0] == [] && w[..1] == w;
    } else {
      CutPublishSwitches(s, feed, k);
    }
  }
}
