/** The receipt-feed exporter (`export_feed`): one receipt survives a fingerprint, dependency
    cycles are refused, and a receipt is runnable only when its dependencies are done. */
module ReceiptFeed {
  import opened Basics
  import opened Sorting

  datatype Lifecycle = SetupReserved | Active | Waiting | OwnerGated | Failed | Done | Acknowledged

  datatype Gate = NoGate | DependencyGate | OwnerGate | ExternalGate | CapacityGate | FailureGate

  /** A projected task. `unresolved` says that some dependency has no identity at all. */
  datatype Item = Item(
    fingerprint: string, revision: nat, lifecycle: Lifecycle, gate: Gate, dependsOn: seq<string>,
    mirrorOf: Option<string>, unresolved: bool)

  datatype Quarantined = Mirror(fingerprint: string, mirrorOf: string) | Duplicate(fingerprint: string)

  // ---------- one receipt a fingerprint ----------

  function Of(f: string): Item -> bool { (x: Item) => x.fingerprint == f }

  function Canonical(): Item -> bool { (x: Item) => x.mirrorOf.None? }

  function IsMirror(): Item -> bool { (x: Item) => x.mirrorOf.Some? }

  /** The canonical items of a fingerprint. */
  function GroupOf(items: seq<Item>, f: string): seq<Item> { Filter(Filter(items, Of(f)), Canonical()) }

  function AtRevision(revision: nat): Item -> bool { (x: Item) => x.revision == revision }

  /** How many items of the group claim the revision. */
  function Claims(group: seq<Item>, revision: nat): nat {
    if group == [] then 0 else (if group[0].revision == revision then 1 else 0) + Claims(group[1..], revision)
  }

  /** Some revision of the group came more than once. */
  predicate Conflicted(group: seq<Item>) {
    exists x | x in group :: Claims(group, x.revision) > 1
  }

  lemma {:induction false} ClaimsAreBucket(group: seq<Item>, revision: nat)
    ensures |Filter(group, AtRevision(revision))| == Claims(group, revision)
  {
    if group != [] {
      ClaimsAreBucket(group[1..], revision);
    }
  }

  /** `max` by revision: the first of the greatest. */
  function Newest(group: seq<Item>): (x: Item)
    requires group != []
    ensures x in group && forall y | y in group :: y.revision <= x.revision
  {
    if |group| == 1 then group[0]
    else
      var rest := Newest(group[1..]);
      if rest.revision <= group[0].revision then group[0] else rest
  }

  function Survivor(group: seq<Item>): Option<Item> {
    if group != [] && !Conflicted(group) then Some(Newest(group)) else None
  }

  function SurvivorOf(items: seq<Item>): string -> Option<Item> { (f: string) => Survivor(GroupOf(items, f)) }

  function Fingerprints(items: seq<Item>): set<string> { set x | x in items :: x.fingerprint }

  function Survivors(items: seq<Item>): map<string, Item> { Table(Fingerprints(items), SurvivorOf(items)) }

  /** A canonical item whose revision is claimed by another item of its group. */
  predicate Repeated(items: seq<Item>, x: Item) {
    x.mirrorOf.None? && Claims(GroupOf(items, x.fingerprint), x.revision) > 1
  }

  function Repeating(items: seq<Item>): Item -> bool { (x: Item) => Repeated(items, x) }

  function AsMirror(): Item -> Quarantined {
    (x: Item) => Mirror(x.fingerprint, if x.mirrorOf.Some? then x.mirrorOf.value else "")
  }

  function AsDuplicate(): Item -> Quarantined { (x: Item) => Duplicate(x.fingerprint) }

  /** What is kept out of the feed and its counts. */
  function Quarantine(items: seq<Item>): multiset<Quarantined> {
    multiset(Map(Filter(items, IsMirror()), AsMirror())) + multiset(Map(Filter(items, Repeating(items)), AsDuplicate()))
  }

  lemma GroupMembers(items: seq<Item>, f: string, x: Item)
    ensures x in GroupOf(items, f) <==> x in items && x.fingerprint == f && x.mirrorOf.None?
  {
  }

  lemma SoleMember(group: seq<Item>, x: Item, y: Item)
    requires !Conflicted(group) && x in group && y in group && x.revision == y.revision
    ensures x == y
  {
    ClaimsAreBucket(group, x.revision);
    var same := Filter(group, AtRevision(x.revision));
    assert x in same && y in same && |same| <= 1;
  }

  /** Each surviving fingerprint has one receipt: a canonical item, newer than every other
      canonical item of that fingerprint. */
  lemma SurvivorIsNewest(items: seq<Item>, f: string)
    requires f in Survivors(items)
    ensures var r := Survivors(items)[f];
      && r in items && r.fingerprint == f && r.mirrorOf.None?
      && forall x | x in items && x.fingerprint == f && x.mirrorOf.None? && x != r :: x.revision < r.revision
  {
    var group := GroupOf(items, f);
    var r := Newest(group);
    GroupMembers(items, f, r);
    forall x | x in items && x.fingerprint == f && x.mirrorOf.None? && x != r ensures x.revision < r.revision {
      GroupMembers(items, f, x);
      if x.revision == r.revision {
        SoleMember(group, x, r);
      }
    }
  }

  lemma ConflictShows(items: seq<Item>, f: string)
    ensures Conflicted(GroupOf(items, f)) <==> exists x | x in items && x.fingerprint == f :: Repeated(items, x)
  {
    var group := GroupOf(items, f);
    if x :| x in group && Claims(group, x.revision) > 1 {
      GroupMembers(items, f, x);
      assert Repeated(items, x);
    }
    if x :| x in items && x.fingerprint == f && Repeated(items, x) {
      GroupMembers(items, f, x);
    }
  }

  /** A fingerprint drops out exactly when all its items are mirrors or one of its revisions was
      claimed twice. */
  lemma DroppedExactlyWhenConflicted(items: seq<Item>, f: string)
    ensures f !in Survivors(items) <==>
      (forall x | x in items && x.fingerprint == f :: x.mirrorOf.Some?)
      || (exists x | x in items && x.fingerprint == f :: Repeated(items, x))
  {
    ConflictShows(items, f);
    forall x ensures x in GroupOf(items, f) <==> x in items && x.fingerprint == f && x.mirrorOf.None? {
      GroupMembers(items, f, x);
    }
    if GroupOf(items, f) != [] {
      assert GroupOf(items, f)[0] in GroupOf(items, f);
    }
  }

  // ---------- cycles ----------

  predicate Edge(receipts: map<string, Item>, a: string, b: string) {
    a in receipts && b in receipts && b in receipts[a].dependsOn
  }

  ghost predicate Walk(receipts: map<string, Item>, p: seq<string>) {
    forall i | 0 <= i < |p| - 1 :: Edge(receipts, p[i], p[i + 1])
  }

  ghost predicate Cyclic(receipts: map<string, Item>) {
    exists p :: |p| >= 2 && Walk(receipts, p) && p[0] == p[|p| - 1]
  }

  /** Every receipt comes after the ones it depends on. */
  ghost predicate Ordered(receipts: map<string, Item>, order: seq<string>) {
    && (forall i, j | 0 <= i < j < |order| :: order[i] != order[j])
    && (forall i, b | 0 <= i < |order| && Edge(receipts, order[i], b) :: b in order[..i])
  }

  lemma {:induction false} WalksDescend(receipts: map<string, Item>, order: seq<string>, p: seq<string>, k: nat)
    requires Ordered(receipts, order) && Walk(receipts, p) && |p| >= 2 && k < |order| && p[0] == order[k]
    ensures p[|p| - 1] in order[..k]
    decreases |p|
  {
    assert Edge(receipts, p[0], p[0 + 1]);
    if |p| > 2 {
      var j :| 0 <= j < k && order[j] == p[1];
      forall i | 0 <= i < |p[1..]| - 1 ensures Edge(receipts, p[1..][i], p[1..][i + 1]) {
        assert Edge(receipts, p[i + 1], p[i + 1 + 1]);
      }
      WalksDescend(receipts, order, p[1..], j);
    }
  }

  lemma OrderedIsAcyclic(receipts: map<string, Item>, order: seq<string>)
    requires Ordered(receipts, order) && forall f | f in receipts :: f in order
    ensures !Cyclic(receipts)
  {
    forall p | |p| >= 2 && Walk(receipts, p) ensures p[0] != p[|p| - 1] {
      assert Edge(receipts, p[0], p[0 + 1]);
      var k :| 0 <= k < |order| && order[k] == p[0];
      WalksDescend(receipts, order, p, k);
    }
  }

  lemma ClosedWalk(receipts: map<string, Item>, path: seq<string>, f: string)
    requires Walk(receipts, path + [f]) && f in path
    ensures Cyclic(receipts)
  {
    var k :| 0 <= k < |path| && path[k] == f;
    var p := path[k..] + [f];
    forall i | 0 <= i < |p| - 1 ensures Edge(receipts, p[i], p[i + 1]) {
      assert Edge(receipts, (path + [f])[k + i], (path + [f])[k + i + 1]);
    }
    assert |p| >= 2 && p[0] == p[|p| - 1];
  }

  lemma WalkOn(receipts: map<string, Item>, path: seq<string>, f: string, dependency: string)
    requires Walk(receipts, path + [f]) && Edge(receipts, f, dependency)
    ensures Walk(receipts, path + [f] + [dependency])
  {
    var p := path + [f] + [dependency];
    forall i | 0 <= i < |p| - 1 ensures Edge(receipts, p[i], p[i + 1]) {
      if i < |path| {
        assert Edge(receipts, (path + [f])[i], (path + [f])[i + 1]);
      }
    }
  }

  /** The depth-first search of the exporter. */
  class CycleCheck {
    const receipts: map<string, Item>
    var visiting: set<string>
    var visited: set<string>
    ghost var order: seq<string>

    constructor (receipts: map<string, Item>)
      ensures this.receipts == receipts && visiting == {} && visited == {} && Valid()
    {
      this.receipts, visiting, visited, order := receipts, {}, {}, [];
    }

    /** What was visited is in dependency order and closed; what is being visited is not in it. */
    ghost predicate Valid()
      reads this
    {
      && visiting <= receipts.Keys && visiting !! visited
      && (forall f :: f in visited <==> f in order) && Ordered(receipts, order)
    }

    /** `path` leads from the first receipt being visited to `f`. */
    method Visit(f: string, ghost path: seq<string>) returns (ok: bool)
      requires Valid() && f in receipts && Walk(receipts, path + [f]) && forall x :: x in path <==> x in visiting
      modifies this
      ensures ok ==> Valid() && visiting == old(visiting) && f in visited && old(visited) <= visited
      ensures !ok ==> Cyclic(receipts)
      decreases |receipts.Keys - visiting|
    {
      if f in visiting {
        ClosedWalk(receipts, path, f);
        return false;
      }
      if f in visited {
        return true;
      }
      visiting := visiting + {f};
      var dependencies := receipts[f].dependsOn;
      for i := 0 to |dependencies|
        invariant Valid() && visiting == old(visiting) + {f} && old(visited) <= visited
        invariant forall j | 0 <= j < i && dependencies[j] in receipts :: dependencies[j] in visited
      {
        if dependencies[i] in receipts {
          WalkOn(receipts, path, f, dependencies[i]);
          Smaller(old(visiting), f);
          ok := Visit(dependencies[i], path + [f]);
          if !ok {
            return;
          }
        }
      }
      Leave(f);
      ok := true;
    }

    /** All dependencies of `f` were visited, so it can follow them. */
    method Leave(f: string)
      requires Valid() && f in visiting
      requires forall d | d in receipts[f].dependsOn && d in receipts :: d in visited
      modifies this
      ensures Valid() && visiting == old(visiting) - {f} && visited == old(visited) + {f}
    {
      OrderGrows(receipts, order, f);
      visiting, visited, order := visiting - {f}, visited + {f}, order + [f];
    }

    lemma Smaller(before: set<string>, f: string)
      requires f in receipts && f !in before
      ensures |receipts.Keys - (before + {f})| < |receipts.Keys - before|
    {
      assert receipts.Keys - before == (receipts.Keys - (before + {f})) + {f};
    }

    /** Visits every receipt, in any order. */
    method Check() returns (ok: bool)
      requires visiting == {} && visited == {} && Valid()
      modifies this
      ensures ok <==> !Cyclic(receipts)
    {
      var rest := receipts.Keys;
      assert Walk(receipts, []);
      while rest != {}
        invariant rest <= receipts.Keys && Valid() && visiting == {}
        invariant forall f | f in receipts && f !in rest :: f in visited
        decreases |rest|
      {
        var f :| f in rest;
        ok := Visit(f, []);
        if !ok {
          return;
        }
        rest := rest - {f};
      }
      OrderedIsAcyclic(receipts, order);
      ok := true;
    }
  }

  lemma OrderGrows(receipts: map<string, Item>, order: seq<string>, f: string)
    requires Ordered(receipts, order) && f !in order && f in receipts
    requires forall d | d in receipts[f].dependsOn && d in receipts :: d in order
    ensures Ordered(receipts, order + [f])
  {
    forall i, b | 0 <= i < |order + [f]| && Edge(receipts, (order + [f])[i], b) ensures b in (order + [f])[..i] {
      assert (order + [f])[..i] == order[..i];
      if i == |order| {
        assert order[..i] == order;
      }
    }
  }

  // ---------- deduplication as a program ----------

  ghost predicate ByFingerprint(items: seq<Item>, groups: map<string, seq<Item>>) {
    groups.Keys == Fingerprints(items) && forall f | f in groups :: groups[f] == Filter(items, Of(f))
  }

  lemma MoreFingerprints(items: seq<Item>, i: nat)
    requires i < |items|
    ensures Fingerprints(items[..i + 1]) == Fingerprints(items[..i]) + {items[i].fingerprint}
    ensures Revisions(items[..i + 1]) == Revisions(items[..i]) + {items[i].revision}
  {
    assert items[..i + 1] == items[..i] + [items[i]];
  }

  lemma BucketGrows(items: seq<Item>, i: nat, f: string)
    requires i < |items|
    ensures Filter(items[..i + 1], Of(f))
         == (if f in Fingerprints(items[..i]) then Filter(items[..i], Of(f)) else [])
          + (if items[i].fingerprint == f then [items[i]] else [])
  {
    FilterStep(items, i, Of(f));
    if f !in Fingerprints(items[..i]) {
      FilterNone(items[..i], Of(f));
    }
  }

  lemma BucketOf(items: seq<Item>, groups: map<string, seq<Item>>, i: nat, g: string)
    requires i < |items| && ByFingerprint(items[..i], groups)
    ensures Filter(items[..i + 1], Of(g))
         == (if g in groups then groups[g] else []) + (if items[i].fingerprint == g then [items[i]] else [])
  {
    BucketGrows(items, i, g);
  }

  /** The item joins the bucket of its fingerprint. */
  function Bucketed(groups: map<string, seq<Item>>, x: Item): map<string, seq<Item>> {
    groups[x.fingerprint := (if x.fingerprint in groups then groups[x.fingerprint] else []) + [x]]
  }

  lemma FingerprintStep(items: seq<Item>, groups: map<string, seq<Item>>, after: map<string, seq<Item>>, i: nat)
    requires i < |items| && ByFingerprint(items[..i], groups) && after == Bucketed(groups, items[i])
    ensures ByFingerprint(items[..i + 1], after)
  {
    MoreFingerprints(items, i);
    assert after.Keys == Fingerprints(items[..i + 1]);
    forall g | g in after ensures after[g] == Filter(items[..i + 1], Of(g)) {
      BucketOf(items, groups, i, g);
    }
  }

  /** Buckets the items by fingerprint. */
  method GroupByFingerprint(items: seq<Item>) returns (groups: map<string, seq<Item>>)
    ensures ByFingerprint(items, groups)
  {
    groups := map[];
    for i := 0 to |items|
      invariant ByFingerprint(items[..i], groups)
    {
      ghost var before := groups;
      groups := Bucketed(groups, items[i]);
      FingerprintStep(items, before, groups, i);
    }
    assert items[..|items|] == items;
  }

  function Revisions(group: seq<Item>): set<nat> { set x | x in group :: x.revision }

  ghost predicate ByRevision(group: seq<Item>, revisions: map<nat, seq<Item>>) {
    revisions.Keys == Revisions(group) && forall r | r in revisions :: revisions[r] == Filter(group, AtRevision(r))
  }

  lemma RevisionGrows(group: seq<Item>, i: nat, r: nat)
    requires i < |group|
    ensures Filter(group[..i + 1], AtRevision(r))
         == (if r in Revisions(group[..i]) then Filter(group[..i], AtRevision(r)) else [])
          + (if group[i].revision == r then [group[i]] else [])
  {
    FilterStep(group, i, AtRevision(r));
    if r !in Revisions(group[..i]) {
      FilterNone(group[..i], AtRevision(r));
    }
  }

  lemma RevisionOf(group: seq<Item>, revisions: map<nat, seq<Item>>, i: nat, r: nat)
    requires i < |group| && ByRevision(group[..i], revisions)
    ensures Filter(group[..i + 1], AtRevision(r))
         == (if r in revisions then revisions[r] else []) + (if group[i].revision == r then [group[i]] else [])
  {
    RevisionGrows(group, i, r);
  }

  lemma RevisionStep(group: seq<Item>, revisions: map<nat, seq<Item>>, after: map<nat, seq<Item>>, i: nat)
    requires i < |group| && ByRevision(group[..i], revisions)
    requires after == revisions[group[i].revision :=
      (if group[i].revision in revisions then revisions[group[i].revision] else []) + [group[i]]]
    ensures ByRevision(group[..i + 1], after)
  {
    MoreFingerprints(group, i);
    assert after.Keys == Revisions(group[..i + 1]);
    forall s | s in after ensures after[s] == Filter(group[..i + 1], AtRevision(s)) {
      RevisionOf(group, revisions, i, s);
    }
  }

  method AddRevision(group: seq<Item>, revisions: map<nat, seq<Item>>, i: nat) returns (after: map<nat, seq<Item>>)
    requires i < |group| && ByRevision(group[..i], revisions)
    ensures ByRevision(group[..i + 1], after)
  {
    var r := group[i].revision;
    after := revisions[r := (if r in revisions then revisions[r] else []) + [group[i]]];
    RevisionStep(group, revisions, after, i);
  }

  /** Buckets a group by revision. */
  method GroupByRevision(group: seq<Item>) returns (revisions: map<nat, seq<Item>>)
    ensures ByRevision(group, revisions)
  {
    revisions := map[];
    for i := 0 to |group|
      invariant ByRevision(group[..i], revisions)
    {
      revisions := AddRevision(group, revisions, i);
    }
    assert group[..|group|] == group;
  }

  function InRevisions(group: seq<Item>, done: set<nat>): Item -> bool {
    (x: Item) => x.revision in done && Claims(group, x.revision) > 1
  }

  /** The quarantine entries of the revisions looked at so far. */
  function DuplicatesIn(group: seq<Item>, done: set<nat>): multiset<Quarantined> {
    multiset(Map(Filter(group, InRevisions(group, done)), AsDuplicate()))
  }

  /** One entry an item of the bucket. */
  method EntryEach(f: string, bucket: seq<Item>) returns (quarantine: multiset<Quarantined>)
    requires forall x | x in bucket :: x.fingerprint == f
    ensures quarantine == multiset(Map(bucket, AsDuplicate()))
  {
    quarantine := multiset{};
    for i := 0 to |bucket|
      invariant quarantine == multiset(Map(bucket[..i], AsDuplicate()))
    {
      assert bucket[..i + 1] == bucket[..i] + [bucket[i]];
      MapAppend(bucket[..i], [bucket[i]], AsDuplicate());
      assert bucket[i] in bucket;
      quarantine := quarantine + multiset{Duplicate(f)};
    }
    assert bucket[..|bucket|] == bucket;
  }

  predicate TwiceAmong(group: seq<Item>, done: set<nat>) {
    exists r | r in done :: Claims(group, r) > 1
  }

  lemma NoRevisionYet(group: seq<Item>)
    ensures !TwiceAmong(group, {}) && DuplicatesIn(group, {}) == multiset{}
  {
    FilterNone(group, InRevisions(group, {}));
  }

  lemma TwiceIsConflict(group: seq<Item>)
    ensures TwiceAmong(group, Revisions(group)) <==> Conflicted(group)
  {
    if r :| r in Revisions(group) && Claims(group, r) > 1 {
      var x :| x in group && x.revision == r;
    }
    if x :| x in group && Claims(group, x.revision) > 1 {
      assert x.revision in Revisions(group);
    }
  }

  /** Quarantines every item of a revision that was claimed more than once. */
  method FindDuplicates(f: string, group: seq<Item>) returns (conflicted: bool, quarantine: multiset<Quarantined>)
    requires forall x | x in group :: x.fingerprint == f
    ensures conflicted == Conflicted(group)
    ensures quarantine == DuplicatesIn(group, Revisions(group))
  {
    var revisions := GroupByRevision(group);
    var rest: set<nat> := revisions.Keys;
    ghost var done: set<nat> := {};
    conflicted, quarantine := false, multiset{};
    NoRevisionYet(group);
    while rest != {}
      invariant SplitInto(revisions.Keys, done, rest)
      invariant conflicted == TwiceAmong(group, done)
      invariant quarantine == DuplicatesIn(group, done)
      decreases rest
    {
      var r :| r in rest;
      MoveAcross(revisions.Keys, done, rest, r);
      RevisionDone(group, done, r);
      if |revisions[r]| > 1 {
        var entries := EntryEach(f, revisions[r]);
        conflicted, quarantine := true, quarantine + entries;
      }
      rest, done := rest - {r}, done + {r};
    }
    assert done == Revisions(group);
    TwiceIsConflict(group);
  }

  lemma {:induction false} FilterEither<T(!new), U>(s: seq<T>, p: T -> bool, q: T -> bool, either: T -> bool, f: T -> U)
    requires forall x | x in s :: either(x) == (p(x) || q(x)) && !(p(x) && q(x))
    ensures multiset(Map(Filter(s, either), f)) == multiset(Map(Filter(s, p), f)) + multiset(Map(Filter(s, q), f))
  {
    if s != [] {
      FilterEither(s[1..], p, q, either, f);
      FilterHead(s, p, f);
      FilterHead(s, q, f);
      FilterHead(s, either, f);
    }
  }

  lemma RevisionDone(group: seq<Item>, done: set<nat>, r: nat)
    requires r !in done
    ensures DuplicatesIn(group, done + {r}) == DuplicatesIn(group, done)
          + (if |Filter(group, AtRevision(r))| > 1 then multiset(Map(Filter(group, AtRevision(r)), AsDuplicate())) else multiset{})
    ensures TwiceAmong(group, done + {r}) <==> TwiceAmong(group, done) || |Filter(group, AtRevision(r))| > 1
  {
    ClaimsAreBucket(group, r);
    FilterEither(group, InRevisions(group, done), InRevisions(group, {r}), InRevisions(group, done + {r}), AsDuplicate());
    if |Filter(group, AtRevision(r))| > 1 {
      FilterSame(group, InRevisions(group, {r}), AtRevision(r));
    } else {
      FilterNone(group, InRevisions(group, {r}));
    }
  }

  // ---------- all fingerprints ----------

  function MirrorsOf(done: set<string>): Item -> bool { (x: Item) => x.mirrorOf.Some? && x.fingerprint in done }

  function RepeatsOf(items: seq<Item>, done: set<string>): Item -> bool {
    (x: Item) => Repeated(items, x) && x.fingerprint in done
  }

  /** The quarantine entries of the fingerprints looked at so far. */
  function QuarantineIn(items: seq<Item>, done: set<string>): multiset<Quarantined> {
    multiset(Map(Filter(items, MirrorsOf(done)), AsMirror())) + multiset(Map(Filter(items, RepeatsOf(items, done)), AsDuplicate()))
  }

  lemma {:induction false} FilterTwice<T(!new)>(s: seq<T>, p: T -> bool, q: T -> bool, both: T -> bool)
    requires forall x | x in s :: both(x) == (p(x) && q(x))
    ensures Filter(Filter(s, p), q) == Filter(s, both)
  {
    if s != [] {
      FilterTwice(s[1..], p, q, both);
      var rest := Filter(s[1..], p);
      if p(s[0]) {
        assert Filter(s, p) == [s[0]] + rest && ([s[0]] + rest)[1..] == rest;
      } else {
        assert Filter(s, p) == rest;
      }
    }
  }

  /** The quarantine entries of one fingerprint's items. */
  function EntriesOf(bucket: seq<Item>): multiset<Quarantined> {
    multiset(Map(Filter(bucket, IsMirror()), AsMirror()))
    + DuplicatesIn(Filter(bucket, Canonical()), Revisions(Filter(bucket, Canonical())))
  }

  /** What one fingerprint adds to the quarantine. */
  lemma FingerprintDone(items: seq<Item>, done: set<string>, f: string)
    requires f !in done
    ensures QuarantineIn(items, done + {f}) == QuarantineIn(items, done) + EntriesOf(Filter(items, Of(f)))
  {
    FilterEither(items, MirrorsOf(done), MirrorsOf({f}), MirrorsOf(done + {f}), AsMirror());
    FilterTwice(items, Of(f), IsMirror(), MirrorsOf({f}));
    FilterEither(items, RepeatsOf(items, done), RepeatsOf(items, {f}), RepeatsOf(items, done + {f}), AsDuplicate());
    RepeatsOfOne(items, f);
  }

  lemma RepeatsOfOne(items: seq<Item>, f: string)
    ensures Filter(items, RepeatsOf(items, {f}))
         == Filter(GroupOf(items, f), InRevisions(GroupOf(items, f), Revisions(GroupOf(items, f))))
  {
    var group := GroupOf(items, f);
    var mine := (x: Item) => x.fingerprint == f && x.mirrorOf.None?;
    FilterTwice(items, Of(f), Canonical(), mine);
    forall x | x in items && mine(x) ensures x in group && x.revision in Revisions(group) {
      GroupMembers(items, f, x);
    }
    FilterTwice(items, mine, InRevisions(group, Revisions(group)), RepeatsOf(items, {f}));
  }

  lemma NothingDone(items: seq<Item>)
    ensures QuarantineIn(items, {}) == multiset{}
  {
    FilterNone(items, MirrorsOf({}));
    FilterNone(items, RepeatsOf(items, {}));
  }

  lemma AllDone(items: seq<Item>)
    ensures QuarantineIn(items, Fingerprints(items)) == Quarantine(items)
  {
    FilterSame(items, MirrorsOf(Fingerprints(items)), IsMirror());
    FilterSame(items, RepeatsOf(items, Fingerprints(items)), Repeating(items));
  }

  /** One fingerprint's bucket: its receipt, if it has one, and its quarantine entries. */
  method SettleFingerprint(f: string, bucket: seq<Item>) returns (receipt: Option<Item>, quarantine: multiset<Quarantined>)
    requires forall x | x in bucket :: x.fingerprint == f
    ensures receipt == Survivor(Filter(bucket, Canonical()))
    ensures quarantine == EntriesOf(bucket)
  {
    var mirrors, canonical := Filter(bucket, IsMirror()), Filter(bucket, Canonical());
    var conflicted, duplicates := FindDuplicates(f, canonical);
    quarantine := multiset(Map(mirrors, AsMirror())) + duplicates;
    receipt := if !conflicted && canonical != [] then Some(Newest(canonical)) else None;
  }

  /** The deduplication loop of `export_feed`, fingerprint by fingerprint. */
  method Deduplicate(items: seq<Item>) returns (receipts: map<string, Item>, quarantine: multiset<Quarantined>)
    ensures receipts == Survivors(items)
    ensures quarantine == Quarantine(items)
  {
    var groups := GroupByFingerprint(items);
    var rest := groups.Keys;
    ghost var done := {};
    receipts, quarantine := map[], multiset{};
    NothingDone(items);
    while rest != {}
      invariant SplitInto(groups.Keys, done, rest)
      invariant receipts == Table(done, SurvivorOf(items))
      invariant quarantine == QuarantineIn(items, done)
      decreases rest
    {
      var f :| f in rest;
      MoveAcross(groups.Keys, done, rest, f);
      FingerprintDone(items, done, f);
      TableGrows(done, SurvivorOf(items), f);
      var receipt, entries := SettleFingerprint(f, groups[f]);
      quarantine := quarantine + entries;
      if receipt.Some? {
        receipts := receipts[f := receipt.value];
      }
      rest, done := rest - {f}, done + {f};
    }
    assert done == Fingerprints(items);
    AllDone(items);
  }

  // ---------- the feed ----------

  predicate Terminal(lifecycle: Lifecycle) { lifecycle == Done || lifecycle == Acknowledged }

  predicate DependenciesKnown(receipts: map<string, Item>, x: Item) {
    !x.unresolved && forall d | d in x.dependsOn :: d in receipts
  }

  predicate DependenciesDone(receipts: map<string, Item>, x: Item) {
    forall d | d in x.dependsOn :: d in receipts && Terminal(receipts[d].lifecycle)
  }

  function OccupiedBy(receipts: map<string, Item>): set<string> {
    set f | f in receipts && receipts[f].lifecycle in {Active, SetupReserved}
  }

  /** None when the feed cannot tell. */
  function Runnable(receipts: map<string, Item>, configured: Option<nat>, x: Item): Option<bool> {
    if configured.None? || !DependenciesKnown(receipts, x) then None
    else Some(
      && x.lifecycle in {SetupReserved, Waiting} && x.gate in {NoGate, DependencyGate, CapacityGate}
      && DependenciesDone(receipts, x) && |OccupiedBy(receipts)| < configured.value)
  }

  datatype Feed = DependencyCycle | Feed(
    receipts: map<string, Item>, runnable: map<string, Option<bool>>, quarantine: multiset<Quarantined>)

  /** What the word runnable promises a reader of the feed. */
  ghost predicate Ready(feed: Feed, configured: Option<nat>, f: string)
    requires feed.Feed? && f in feed.receipts
  {
    && (forall d | d in feed.receipts[f].dependsOn :: d in feed.receipts && Terminal(feed.receipts[d].lifecycle))
    && configured.Some? && |OccupiedBy(feed.receipts)| < configured.value && !Terminal(feed.receipts[f].lifecycle)
  }

  /** Every receipt says whether it is runnable, and a runnable one is ready. */
  ghost predicate Honest(feed: Feed, configured: Option<nat>)
    requires feed.Feed?
  {
    && feed.runnable.Keys == feed.receipts.Keys
    && (forall f | f in feed.receipts :: feed.runnable[f] == Runnable(feed.receipts, configured, feed.receipts[f]))
    && (forall f | f in feed.receipts && feed.runnable[f] == Some(true) :: Ready(feed, configured, f))
  }

  method DeriveFeed(receipts: map<string, Item>, quarantine: multiset<Quarantined>, configured: Option<nat>)
    returns (feed: Feed)
    ensures feed.DependencyCycle? <==> Cyclic(receipts)
    ensures feed.Feed? ==> feed.receipts == receipts && feed.quarantine == quarantine && Honest(feed, configured)
  {
    var check := new CycleCheck(receipts);
    var acyclic := check.Check();
    if !acyclic {
      return DependencyCycle;
    }
    feed := Feed(receipts, map f | f in receipts :: Runnable(receipts, configured, receipts[f]), quarantine);
  }

  /** The derivation of receipts, quarantine and runnability in `export_feed`: refused exactly
      when the surviving receipts depend on each other in a cycle. */
  method ExportFeed(items: seq<Item>, configured: Option<nat>) returns (feed: Feed)
    ensures feed.DependencyCycle? <==> Cyclic(Survivors(items))
    ensures feed.Feed? ==>
      feed.receipts == Survivors(items) && feed.quarantine == Quarantine(items) && Honest(feed, configured)
  {
    var receipts, quarantine := Deduplicate(items);
    feed := DeriveFeed(receipts, quarantine, configured);
  }

  /** A feed without a cycle is never stuck: while some receipt is unfinished, some unfinished
      receipt waits for nothing in the feed. */
  lemma SomethingIsUnblocked(receipts: map<string, Item>, f: string) returns (ready: string)
    requires !Cyclic(receipts) && f in receipts && !Terminal(receipts[f].lifecycle)
    ensures ready in receipts && !Terminal(receipts[ready].lifecycle)
    ensures forall d | Edge(receipts, ready, d) :: Terminal(receipts[d].lifecycle)
  {
    ready := Descend(receipts, [f]);
  }

  lemma SubWalk(receipts: map<string, Item>, p: seq<string>, i: nat, j: nat)
    requires Walk(receipts, p) && i <= j <= |p|
    ensures Walk(receipts, p[i..j])
  {
    var q := p[i..j];
    forall k | 0 <= k < |q| - 1 ensures Edge(receipts, q[k], q[k + 1]) {
      assert Edge(receipts, p[i + k], p[i + k + 1]);
    }
  }

  lemma NoLoop(receipts: map<string, Item>, q: seq<string>)
    requires !Cyclic(receipts) && Walk(receipts, q) && |q| >= 2
    ensures q[0] != q[|q| - 1]
  {
  }

  lemma NeverBack(receipts: map<string, Item>, p: seq<string>, i: nat, j: nat)
    requires !Cyclic(receipts) && Walk(receipts, p) && i < j < |p|
    ensures p[i] != p[j]
  {
    SubWalk(receipts, p, i, j + 1);
    NoLoop(receipts, p[i..j + 1]);
  }

  lemma WalkDistinct(receipts: map<string, Item>, p: seq<string>)
    requires !Cyclic(receipts) && Walk(receipts, p)
    ensures forall i, j | 0 <= i < j < |p| :: p[i] != p[j]
  {
    forall i, j | 0 <= i < j < |p| ensures p[i] != p[j] {
      NeverBack(receipts, p, i, j);
    }
  }

  function Elements(p: seq<string>): set<string> { set x | x in p }

  lemma {:induction false} DistinctCount(p: seq<string>)
    requires forall i, j | 0 <= i < j < |p| :: p[i] != p[j]
    ensures |Elements(p)| == |p|
  {
    if p != [] {
      DistinctCount(p[1..]);
      assert p == [p[0]] + p[1..];
      assert p[0] !in Elements(p[1..]);
      assert Elements(p) == {p[0]} + Elements(p[1..]);
    }
  }

  lemma {:induction false} Fewer(a: set<string>, b: set<string>)
    requires a <= b
    ensures |a| <= |b|
  {
    if a != {} {
      var x :| x in a;
      Fewer(a - {x}, b - {x});
    }
  }

  /** Walks on to an unfinished dependency until there is none; an acyclic walk must end. */
  lemma Descend(receipts: map<string, Item>, p: seq<string>) returns (ready: string)
    requires !Cyclic(receipts) && p != [] && Walk(receipts, p) && forall x | x in p :: x in receipts
    requires !Terminal(receipts[p[|p| - 1]].lifecycle)
    ensures ready in receipts && !Terminal(receipts[ready].lifecycle)
    ensures forall d | Edge(receipts, ready, d) :: Terminal(receipts[d].lifecycle)
    decreases |receipts| - |p|
  {
    var last := p[|p| - 1];
    if d :| Edge(receipts, last, d) && !Terminal(receipts[d].lifecycle) {
      assert p == p[..|p| - 1] + [last];
      WalkOn(receipts, p[..|p| - 1], last, d);
      WalkDistinct(receipts, p + [d]);
      DistinctCount(p + [d]);
      Fewer(Elements(p + [d]), receipts.Keys);
      ready := Descend(receipts, p + [d]);
    } else {
      ready := last;
    }
  }
}
