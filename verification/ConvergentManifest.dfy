/** The convergent deploy's manifest merge (`merge_manifests`) and token: deploys that know
    different entries reach the same manifest without waiting for each other. */
module ConvergentManifest {
  import opened Basics
  import opened Histories
  import opened Sorting

  /** A missing stamp reads as the empty one; stamps compare as text. */
  datatype Entry = Entry(id: string, stamp: string, body: string)

  predicate NotAfter(x: Entry, y: Entry) { IdLeq(x.stamp, y.stamp) }

  // ---------- dictionaries in insertion order ----------

  function Lookup(d: seq<Entry>, id: string): (e: Option<Entry>)
    ensures e.Some? ==> e.value in d && e.value.id == id
    ensures e.None? ==> forall x | x in d :: x.id != id
  {
    if d == [] then None else if d[0].id == id then Some(d[0]) else Lookup(d[1..], id)
  }

  /** Overwrites in place, or appends. */
  function Put(d: seq<Entry>, e: Entry): seq<Entry> {
    if d == [] then [e] else if d[0].id == e.id then [e] + d[1..] else [d[0]] + Put(d[1..], e)
  }

  ghost predicate UniqueIds(d: seq<Entry>) {
    forall i, j | 0 <= i < j < |d| :: d[i].id != d[j].id
  }

  lemma {:induction false} PutLooksUp(d: seq<Entry>, e: Entry, id: string)
    ensures Lookup(Put(d, e), id) == if id == e.id then Some(e) else Lookup(d, id)
  {
    if d != [] && d[0].id != e.id {
      PutLooksUp(d[1..], e, id);
    }
  }

  lemma {:induction false} PutMembers(d: seq<Entry>, e: Entry)
    ensures forall x | x in Put(d, e) :: x == e || x in d
  {
    if d != [] && d[0].id != e.id {
      PutMembers(d[1..], e);
    }
  }

  lemma {:induction false} PutUnique(d: seq<Entry>, e: Entry)
    requires UniqueIds(d)
    ensures UniqueIds(Put(d, e))
  {
    if d != [] && d[0].id != e.id {
      PutUnique(d[1..], e);
      PutMembers(d[1..], e);
      var r := Put(d[1..], e);
      forall j | 0 <= j < |r| ensures r[j].id != d[0].id {
        assert r[j] in r;
      }
    }
  }

  lemma {:induction false} LookupUnique(d: seq<Entry>, x: Entry)
    requires UniqueIds(d) && x in d
    ensures Lookup(d, x.id) == Some(x)
  {
    if d[0] == x {
    } else {
      var i :| 0 < i < |d| && d[i] == x;
      assert d[0].id != d[i].id && d[1..][i - 1] == x;
      LookupUnique(d[1..], x);
    }
  }

  // ---------- the merge ----------

  function Loaded(entries: seq<Entry>): seq<Entry>
    decreases |entries|
  {
    if entries == [] then [] else Put(Loaded(entries[..|entries| - 1]), entries[|entries| - 1])
  }

  /** A local entry takes the place of one that is not newer. */
  function Offer(d: seq<Entry>, e: Entry): seq<Entry> {
    var prev := Lookup(d, e.id);
    if prev.None? || NotAfter(prev.value, e) then Put(d, e) else d
  }

  function Offered(d: seq<Entry>, entries: seq<Entry>): seq<Entry>
    decreases |entries|
  {
    if entries == [] then d else Offer(Offered(d, entries[..|entries| - 1]), entries[|entries| - 1])
  }

  function Merged(local_: seq<Entry>, remote: seq<Entry>): seq<Entry> {
    Sort(Offered(Loaded(remote), local_), NotAfter)
  }

  function IdsOf(d: seq<Entry>): set<string> { set e | e in d :: e.id }

  function EntryId(): Entry -> string { (e: Entry) => e.id }

  function NotIn(ids: set<string>): Entry -> bool { (e: Entry) => e.id !in ids }

  function Adopted(local_: seq<Entry>, remote: seq<Entry>): seq<string> {
    Sort(Map(Filter(Offered(Loaded(remote), local_), NotIn(IdsOf(local_))), EntryId()), IdLeq)
  }

  lemma OneMore(entries: seq<Entry>, i: nat, d: seq<Entry>)
    requires i < |entries|
    ensures Loaded(entries[..i + 1]) == Put(Loaded(entries[..i]), entries[i])
    ensures Offered(d, entries[..i + 1]) == Offer(Offered(d, entries[..i]), entries[i])
  {
    assert entries[..i + 1][..i] == entries[..i];
  }

  /** `merge_manifests`; no remote manifest is an empty one. */
  method MergeManifests(local_: seq<Entry>, remote: Option<seq<Entry>>) returns (merged: seq<Entry>, adopted: seq<string>)
    ensures var theirs := if remote.Some? then remote.value else [];
      merged == Merged(local_, theirs) && adopted == Adopted(local_, theirs)
  {
    var theirs := if remote.Some? then remote.value else [];
    var byId: seq<Entry> := [];
    for i := 0 to |theirs|
      invariant byId == Loaded(theirs[..i])
    {
      OneMore(theirs, i, []);
      byId := Put(byId, theirs[i]);
    }
    assert theirs[..|theirs|] == theirs;
    for i := 0 to |local_|
      invariant byId == Offered(Loaded(theirs), local_[..i])
    {
      OneMore(local_, i, Loaded(theirs));
      var prev := Lookup(byId, local_[i].id);
      if prev.None? || NotAfter(prev.value, local_[i]) {
        byId := Put(byId, local_[i]);
      }
    }
    assert local_[..|local_|] == local_;
    adopted := Sort(Map(Filter(byId, NotIn(IdsOf(local_))), EntryId()), IdLeq);
    merged := Sort(byId, NotAfter);
  }

  // ---------- what a merge holds ----------

  /** Entries that agree on id and stamp are the same entry. */
  ghost predicate Coherent(entries: set<Entry>) {
    forall x, y | x in entries && y in entries && x.id == y.id && x.stamp == y.stamp :: x == y
  }

  /** `e` is the newest entry of its id. */
  ghost predicate IsNewest(entries: set<Entry>, e: Entry) {
    e in entries && forall x | x in entries && x.id == e.id :: NotAfter(x, e)
  }

  function Members(d: seq<Entry>): set<Entry> { set e | e in d }

  /** The manifest holds exactly the newest entry of every id. */
  ghost predicate Holds(d: seq<Entry>, entries: set<Entry>) {
    && UniqueIds(d)
    && (forall e | e in d :: IsNewest(entries, e))
    && (forall x | x in entries :: Lookup(d, x.id).Some?)
  }

  lemma StampsTotal(x: Entry, y: Entry)
    ensures NotAfter(x, y) || NotAfter(y, x)
    ensures NotAfter(x, y) && NotAfter(y, x) ==> x.stamp == y.stamp
  {
    IdOrder();
    IdTotal(x.stamp, y.stamp);
  }

  /** Offering one entry to a manifest that holds the newest of some entries. */
  lemma OfferHolds(d: seq<Entry>, entries: set<Entry>, e: Entry)
    requires Holds(d, entries)
    ensures Holds(Offer(d, e), entries + {e})
  {
    var prev := Lookup(d, e.id);
    PutUnique(d, e);
    forall x | x in entries + {e} ensures Lookup(Offer(d, e), x.id).Some? {
      PutLooksUp(d, e, x.id);
    }
    forall x | x in Offer(d, e) ensures IsNewest(entries + {e}, x) {
      OfferedEntry(d, entries, e, x);
    }
  }

  lemma OfferedEntry(d: seq<Entry>, entries: set<Entry>, e: Entry, x: Entry)
    requires Holds(d, entries) && x in Offer(d, e)
    ensures IsNewest(entries + {e}, x)
  {
    var prev := Lookup(d, e.id);
    StampsTotal(e, e);
    PutMembers(d, e);
    PutUnique(d, e);
    LookupUnique(Offer(d, e), x);
    PutLooksUp(d, e, x.id);
    IdOrder();
    if x == e && prev.Some? && NotAfter(prev.value, e) {
      forall y | y in entries && y.id == e.id ensures NotAfter(y, e) {
        IdTransitive(y.stamp, prev.value.stamp, e.stamp);
      }
    } else if x.id == e.id && prev.Some? {
      StampsTotal(prev.value, e);
    }
  }

  lemma {:induction false} OfferedHolds(d: seq<Entry>, entries: set<Entry>, more: seq<Entry>, all: set<Entry>)
    requires Holds(d, entries) && all == entries + Members(more)
    ensures Holds(Offered(d, more), all)
    decreases |more|
  {
    if more == [] {
      assert all == entries;
    } else {
      var init, last := more[..|more| - 1], more[|more| - 1];
      var before := entries + Members(init);
      OfferedHolds(d, entries, init, before);
      OfferHolds(Offered(d, init), before, last);
      MembersLast(init, last, more);
      assert all == before + {last};
    }
  }

  lemma MembersLast(init: seq<Entry>, last: Entry, more: seq<Entry>)
    requires more != [] && init == more[..|more| - 1] && last == more[|more| - 1]
    ensures Members(more) == Members(init) + {last}
  {
    assert more == init + [last];
  }

  lemma {:induction false} LoadedUnique(entries: seq<Entry>)
    requires UniqueIds(entries)
    ensures Loaded(entries) == entries
    decreases |entries|
  {
    if entries != [] {
      var init, last := entries[..|entries| - 1], entries[|entries| - 1];
      LoadedUnique(init);
      PutAppends(init, last);
      assert entries == init + [last];
    }
  }

  lemma {:induction false} PutAppends(d: seq<Entry>, e: Entry)
    requires forall x | x in d :: x.id != e.id
    ensures Put(d, e) == d + [e]
  {
    if d != [] {
      assert d[0] in d;
      assert forall x | x in d[1..] :: x in d;
      PutAppends(d[1..], e);
      assert d == [d[0]] + d[1..];
    }
  }

  lemma UniqueHolds(d: seq<Entry>)
    requires UniqueIds(d)
    ensures Holds(d, Members(d))
  {
    IdOrder();
    forall e | e in d ensures IsNewest(Members(d), e) && Lookup(d, e.id) == Some(e) {
      LookupUnique(d, e);
      forall x | x in Members(d) && x.id == e.id ensures NotAfter(x, e) {
        LookupUnique(d, x);
        IdTotal(e.stamp, e.stamp);
      }
    }
  }

  lemma HoldsPermutes(d: seq<Entry>, d': seq<Entry>, entries: set<Entry>)
    requires Holds(d, entries) && multiset(d) == multiset(d')
    ensures Holds(d', entries)
  {
    forall e ensures e in d <==> e in d' {
      assert e in d <==> e in multiset(d);
      assert e in d' <==> e in multiset(d');
    }
    UniquePermutes(d, d');
    forall x | x in entries ensures Lookup(d', x.id).Some? {
      var e := Lookup(d, x.id).value;
      LookupUnique(d', e);
    }
  }

  lemma TwiceIn(d: seq<Entry>, i: nat, j: nat)
    requires i < j < |d| && d[i] == d[j]
    ensures multiset(d)[d[i]] >= 2
  {
    assert d == d[..i] + [d[i]] + d[i + 1..j] + [d[j]] + d[j + 1..];
  }

  lemma UniquePermutes(d: seq<Entry>, d': seq<Entry>)
    requires UniqueIds(d) && multiset(d) == multiset(d')
    ensures UniqueIds(d')
  {
    forall i, j | 0 <= i < j < |d'| ensures d'[i].id != d'[j].id {
      if d'[i].id == d'[j].id {
        assert d'[i] in multiset(d) && d'[j] in multiset(d);
        LookupUnique(d, d'[i]);
        LookupUnique(d, d'[j]);
        TwiceIn(d', i, j);
        OnceEach(d, d'[i]);
      }
    }
  }

  lemma OnceEach(d: seq<Entry>, x: Entry)
    requires UniqueIds(d) && x in d
    ensures multiset(d)[x] == 1
  {
    var i :| 0 <= i < |d| && d[i] == x;
    assert d == d[..i] + [d[i]] + d[i + 1..];
    assert x !in d[..i] && x !in d[i + 1..];
  }

  /** One merge of manifests with unique ids: the newest entry of every id of either, and no id
      is dropped. */
  lemma MergeHoldsNewest(local_: seq<Entry>, remote: seq<Entry>)
    requires UniqueIds(remote)
    ensures Holds(Merged(local_, remote), Members(local_) + Members(remote))
  {
    LoadedUnique(remote);
    UniqueHolds(remote);
    OfferedHolds(remote, Members(remote), local_, Members(local_) + Members(remote));
    HoldsPermutes(Offered(Loaded(remote), local_), Merged(local_, remote), Members(local_) + Members(remote));
  }

  // ---------- any order, grouping and repetition ----------

  /** How manifests were merged: who deployed, on top of what. */
  datatype History = Own(manifest: seq<Entry>) | Deploy(local_: History, remote: History)

  function Outcome(h: History): seq<Entry> {
    match h
    case Own(manifest) => manifest
    case Deploy(local_, remote) => Merged(Outcome(local_), Outcome(remote))
  }

  function AllEntries(h: History): set<Entry> {
    match h
    case Own(manifest) => Members(manifest)
    case Deploy(local_, remote) => AllEntries(local_) + AllEntries(remote)
  }

  ghost predicate OwnUnique(h: History) {
    match h
    case Own(manifest) => UniqueIds(manifest)
    case Deploy(local_, remote) => OwnUnique(local_) && OwnUnique(remote)
  }

  /** Holding the newest of two sets of held entries is holding the newest of all. */
  lemma HoldsThrough(d: seq<Entry>, a: seq<Entry>, b: seq<Entry>, ea: set<Entry>, eb: set<Entry>)
    requires Holds(a, ea) && Holds(b, eb) && Holds(d, Members(a) + Members(b))
    ensures Holds(d, ea + eb)
  {
    IdOrder();
    forall e | e in d ensures IsNewest(ea + eb, e) {
      forall x | x in ea + eb && x.id == e.id ensures NotAfter(x, e) {
        var held := if x in ea then Lookup(a, x.id).value else Lookup(b, x.id).value;
        assert held in Members(a) + Members(b);
        IdTransitive(x.stamp, held.stamp, e.stamp);
      }
    }
    forall x | x in ea + eb ensures Lookup(d, x.id).Some? {
      var held := if x in ea then Lookup(a, x.id).value else Lookup(b, x.id).value;
      assert held in Members(a) + Members(b);
    }
  }

  lemma {:induction false} OutcomeHolds(h: History)
    requires OwnUnique(h)
    ensures Holds(Outcome(h), AllEntries(h))
  {
    match h
    case Own(manifest) => UniqueHolds(manifest);
    case Deploy(local_, remote) =>
      OutcomeHolds(local_);
      OutcomeHolds(remote);
      MergeHoldsNewest(Outcome(local_), Outcome(remote));
      HoldsThrough(Outcome(h), Outcome(local_), Outcome(remote), AllEntries(local_), AllEntries(remote));
  }

  lemma HeldIds(d: seq<Entry>, entries: set<Entry>, id: string)
    requires Holds(d, entries)
    ensures Lookup(d, id).Some? <==> exists x | x in entries :: x.id == id
    ensures Lookup(d, id).Some? ==> IsNewest(entries, Lookup(d, id).value)
  {
    if Lookup(d, id).Some? {
      assert IsNewest(entries, Lookup(d, id).value);
    }
  }

  lemma HoldsSame(d: seq<Entry>, d': seq<Entry>, entries: set<Entry>, id: string)
    requires Holds(d, entries) && Holds(d', entries) && Coherent(entries)
    ensures Lookup(d, id) == Lookup(d', id)
  {
    HeldIds(d, entries, id);
    HeldIds(d', entries, id);
    if Lookup(d, id).Some? {
      StampsTotal(Lookup(d, id).value, Lookup(d', id).value);
    }
  }

  /** Deploys that have seen the same entries agree on every id, whatever the order, grouping
      or repetition of their merges, and no id is ever dropped. */
  lemma DeploysConverge(h: History, h': History)
    requires OwnUnique(h) && OwnUnique(h') && AllEntries(h) == AllEntries(h') && Coherent(AllEntries(h))
    ensures forall id :: Lookup(Outcome(h), id) == Lookup(Outcome(h'), id)
    ensures forall x | x in AllEntries(h) :: Lookup(Outcome(h), x.id).Some?
  {
    OutcomeHolds(h);
    OutcomeHolds(h');
    forall id ensures Lookup(Outcome(h), id) == Lookup(Outcome(h'), id) {
      HoldsSame(Outcome(h), Outcome(h'), AllEntries(h), id);
    }
  }

  // ---------- ties ----------

  lemma {:induction false} LookupLast(init: seq<Entry>, last: Entry, id: string)
    ensures Lookup(init + [last], id)
         == if Lookup(init, id).Some? then Lookup(init, id) else if last.id == id then Some(last) else None
  {
    if init != [] {
      assert (init + [last])[1..] == init[1..] + [last];
      LookupLast(init[1..], last, id);
    }
  }

  /** The later entry of an id, and on a tie the one offered. */
  function Winner(held: Option<Entry>, offered: Option<Entry>): Option<Entry> {
    if offered.None? then held
    else if held.None? || NotAfter(held.value, offered.value) then offered else held
  }

  lemma {:induction false} OfferedLooksUp(d: seq<Entry>, more: seq<Entry>, id: string)
    requires UniqueIds(more)
    ensures Lookup(Offered(d, more), id) == Winner(Lookup(d, id), Lookup(more, id))
    decreases |more|
  {
    if more != [] {
      var init, last := more[..|more| - 1], more[|more| - 1];
      assert more == init + [last];
      OfferedLooksUp(d, init, id);
      PutLooksUp(Offered(d, init), last, id);
      LookupLast(init, last, id);
      if last.id == id {
        LookupUnique(more, last);
      }
    }
  }

  lemma SortedLooksUp(d: seq<Entry>, id: string)
    requires UniqueIds(d)
    ensures Lookup(Sort(d, NotAfter), id) == Lookup(d, id)
  {
    SortMembers(d, NotAfter);
    UniquePermutes(d, Sort(d, NotAfter));
    if Lookup(d, id).Some? {
      LookupUnique(Sort(d, NotAfter), Lookup(d, id).value);
    }
  }

  /** What a merge answers for an id: the local entry unless the remote one is newer. */
  lemma MergedLooksUp(local_: seq<Entry>, remote: seq<Entry>, id: string)
    requires UniqueIds(local_) && UniqueIds(remote)
    ensures Lookup(Merged(local_, remote), id) == Winner(Lookup(remote, id), Lookup(local_, id))
  {
    LoadedUnique(remote);
    OfferedLooksUp(remote, local_, id);
    UniqueHolds(remote);
    OfferedHolds(remote, Members(remote), local_, Members(remote) + Members(local_));
    SortedLooksUp(Offered(remote, local_), id);
  }

  /** A tie goes to the local side, so id by id merging commutes exactly when entries that agree
      on id and stamp are equal. */
  lemma CommutesExactlyWhenCoherent(a: seq<Entry>, b: seq<Entry>)
    requires UniqueIds(a) && UniqueIds(b)
    ensures (forall id :: Lookup(Merged(a, b), id) == Lookup(Merged(b, a), id)) <==> Coherent(Members(a) + Members(b))
  {
    var all := Members(a) + Members(b);
    if Coherent(all) {
      MergeHoldsNewest(a, b);
      MergeHoldsNewest(b, a);
      assert Members(b) + Members(a) == all;
      forall id ensures Lookup(Merged(a, b), id) == Lookup(Merged(b, a), id) {
        HoldsSame(Merged(a, b), Merged(b, a), all, id);
      }
    } else {
      var x, y :| x in all && y in all && x.id == y.id && x.stamp == y.stamp && x != y;
      MergedLooksUp(a, b, x.id);
      MergedLooksUp(b, a, x.id);
      StampsTotal(x, y);
      forall e | e in a ensures Lookup(a, e.id) == Some(e) { LookupUnique(a, e); }
      forall e | e in b ensures Lookup(b, e.id) == Some(e) { LookupUnique(b, e); }
    }
  }

  // ---------- the order of the list ----------

  function NotAmong(ids: set<string>): string -> bool { (id: string) => id !in ids }

  /** The ids in the order a merge comes upon them: those underneath, then the new ones. */
  function IdOrderOf(below: seq<Entry>, above: seq<Entry>): seq<string> {
    Map(below, EntryId()) + Filter(Map(above, EntryId()), NotAmong(IdsOf(below)))
  }

  /** The later of the stamps two manifests have for an id. */
  function LastStamp(a: seq<Entry>, b: seq<Entry>, id: string): string {
    var last := Winner(Lookup(a, id), Lookup(b, id));
    if last.Some? then last.value.stamp else ""
  }

  function LastStamped(a: seq<Entry>, b: seq<Entry>, stamp: string): string -> bool {
    (id: string) => LastStamp(a, b, id) == stamp
  }

  /** Among the ids of one stamp, it does not matter which manifest is read first. */
  ghost predicate TiesInOrder(a: seq<Entry>, b: seq<Entry>) {
    forall stamp ::
      Filter(IdOrderOf(a, b), LastStamped(a, b, stamp)) == Filter(IdOrderOf(b, a), LastStamped(a, b, stamp))
  }

  lemma {:induction false} PutKeepsIds(d: seq<Entry>, e: Entry)
    requires Lookup(d, e.id).Some?
    ensures Map(Put(d, e), EntryId()) == Map(d, EntryId())
  {
    if d[0].id != e.id {
      PutKeepsIds(d[1..], e);
      MapHead(Put(d, e), EntryId());
      MapHead(d, EntryId());
    }
  }

  lemma OfferIds(d: seq<Entry>, e: Entry)
    ensures Map(Offer(d, e), EntryId()) == Map(d, EntryId()) + (if Lookup(d, e.id).Some? then [] else [e.id])
  {
    if Lookup(d, e.id).Some? {
      PutKeepsIds(d, e);
    } else {
      PutAppends(d, e);
    }
  }

  lemma LookupIds(d: seq<Entry>, id: string)
    ensures Lookup(d, id).Some? <==> id in IdsOf(d)
  {
  }

  lemma OneMoreId(d: seq<Entry>, init: seq<Entry>, last: Entry)
    ensures IdOrderOf(d, init + [last]) == IdOrderOf(d, init) + (if last.id in IdsOf(d) then [] else [last.id])
  {
    var known, fresh_ := Map(init, EntryId()), NotAmong(IdsOf(d));
    MapAppend(init, [last], EntryId());
    assert Map(init + [last], EntryId()) == known + [last.id];
    FilterAppend(known, [last.id], fresh_);
    assert Filter([last.id], fresh_) == if last.id in IdsOf(d) then [] else [last.id];
    Associative(Map(d, EntryId()), Filter(known, fresh_), Filter([last.id], fresh_));
  }

  lemma NewToOthers(more: seq<Entry>, init: seq<Entry>, last: Entry)
    requires UniqueIds(more) && more == init + [last]
    ensures UniqueIds(init) && Lookup(init, last.id).None?
  {
    forall i | 0 <= i < |init| ensures init[i] == more[i] && init[i].id != last.id {
      assert more[i].id != more[|init|].id;
    }
  }

  lemma {:induction false} OfferedIds(d: seq<Entry>, more: seq<Entry>)
    requires UniqueIds(more)
    ensures Map(Offered(d, more), EntryId()) == IdOrderOf(d, more)
    decreases |more|
  {
    if more == [] {
      assert Map(more, EntryId()) == [];
    } else {
      var init, last := more[..|more| - 1], more[|more| - 1];
      NewToOthers(more, init, last);
      OfferedIds(d, init);
      OfferIds(Offered(d, init), last);
      OfferedLooksUp(d, init, last.id);
      LookupIds(d, last.id);
      OneMoreId(d, init, last);
      assert more == init + [last];
    }
  }

  lemma TieIsStamp(x: Entry, y: Entry)
    ensures TiesWith(x, NotAfter)(y) <==> y.stamp == x.stamp
  {
    StampsTotal(x, y);
  }

  lemma StampOrder()
    ensures TotalPreorder(NotAfter)
  {
    IdOrder();
  }

  /** What a merge keeps carries the later stamp of its id. */
  lemma KeptStamp(d: seq<Entry>, a: seq<Entry>, b: seq<Entry>, x: Entry)
    requires UniqueIds(d) && x in d && (Lookup(d, x.id) == Winner(Lookup(a, x.id), Lookup(b, x.id))
                                        || Lookup(d, x.id) == Winner(Lookup(b, x.id), Lookup(a, x.id)))
    ensures x.stamp == LastStamp(a, b, x.id)
  {
    LookupUnique(d, x);
    if Lookup(a, x.id).Some? && Lookup(b, x.id).Some? {
      StampsTotal(Lookup(a, x.id).value, Lookup(b, x.id).value);
    }
  }

  /** The survivors of one stamp, by their ids. */
  lemma TiedIds(a: seq<Entry>, b: seq<Entry>, below: seq<Entry>, above: seq<Entry>, x: Entry)
    requires UniqueIds(a) && UniqueIds(b) && ((below == a && above == b) || (below == b && above == a))
    ensures UniqueIds(Offered(below, above))
    ensures Map(Filter(Offered(below, above), TiesWith(x, NotAfter)), EntryId())
         == Filter(IdOrderOf(below, above), LastStamped(a, b, x.stamp))
  {
    var d := Offered(below, above);
    OfferedIds(below, above);
    UniqueHolds(below);
    OfferedHolds(below, Members(below), above, Members(below) + Members(above));
    forall e | e in d ensures TiesWith(x, NotAfter)(e) == LastStamped(a, b, x.stamp)(EntryId()(e)) {
      OfferedLooksUp(below, above, e.id);
      KeptStamp(d, a, b, e);
      TieIsStamp(x, e);
    }
    MapFilter(d, EntryId(), TiesWith(x, NotAfter), LastStamped(a, b, x.stamp));
  }

  /** Entries of two lists that answer alike for every id are told apart by their ids. */
  lemma SameIdsSameEntries(d: seq<Entry>, d': seq<Entry>, f: seq<Entry>, f': seq<Entry>)
    requires UniqueIds(d) && UniqueIds(d') && forall id :: Lookup(d, id) == Lookup(d', id)
    requires (forall e | e in f :: e in d) && (forall e | e in f' :: e in d')
    requires Map(f, EntryId()) == Map(f', EntryId())
    ensures f == f'
  {
    forall i | 0 <= i < |f| ensures f[i] == f'[i] {
      assert Map(f, EntryId())[i] == f[i].id && Map(f', EntryId())[i] == f'[i].id;
      LookupUnique(d, f[i]);
      LookupUnique(d', f'[i]);
    }
  }

  lemma MergedSorts(local_: seq<Entry>, remote: seq<Entry>)
    requires UniqueIds(local_) && UniqueIds(remote)
    ensures Merged(local_, remote) == Sort(Offered(remote, local_), NotAfter)
  {
    LoadedUnique(remote);
  }

  lemma OrderedTiesAgree(a: seq<Entry>, b: seq<Entry>)
    requires UniqueIds(a) && UniqueIds(b) && TiesInOrder(a, b)
    requires forall id :: Lookup(Offered(a, b), id) == Lookup(Offered(b, a), id)
    ensures SameTies(Offered(a, b), Offered(b, a), NotAfter)
  {
    var d, d' := Offered(a, b), Offered(b, a);
    forall x ensures Filter(d, TiesWith(x, NotAfter)) == Filter(d', TiesWith(x, NotAfter)) {
      TiedIds(a, b, a, b, x);
      TiedIds(a, b, b, a, x);
      SameIdsSameEntries(d, d', Filter(d, TiesWith(x, NotAfter)), Filter(d', TiesWith(x, NotAfter)));
    }
  }

  lemma AgreeingTiesAreOrdered(a: seq<Entry>, b: seq<Entry>)
    requires UniqueIds(a) && UniqueIds(b) && SameTies(Offered(a, b), Offered(b, a), NotAfter)
    ensures TiesInOrder(a, b)
  {
    forall stamp
      ensures Filter(IdOrderOf(a, b), LastStamped(a, b, stamp)) == Filter(IdOrderOf(b, a), LastStamped(a, b, stamp))
    {
      var x := Entry("", stamp, "");
      TiedIds(a, b, a, b, x);
      TiedIds(a, b, b, a, x);
    }
  }

  /** Two deploys leave the same list, whoever goes last, if and only if entries that agree on id
      and stamp are equal and the ids of each stamp come in the same order from both sides. */
  lemma ListsCommuteExactly(a: seq<Entry>, b: seq<Entry>)
    requires UniqueIds(a) && UniqueIds(b)
    ensures Merged(a, b) == Merged(b, a) <==> Coherent(Members(a) + Members(b)) && TiesInOrder(a, b)
  {
    MergedSorts(a, b);
    MergedSorts(b, a);
    StampOrder();
    SortsAlikeExactly(Offered(a, b), Offered(b, a), NotAfter);
    if Merged(a, b) == Merged(b, a) {
      AgreeingTiesAreOrdered(a, b);
      CommutesExactlyWhenCoherent(a, b);
    } else if Coherent(Members(a) + Members(b)) && TiesInOrder(a, b) {
      CoherentOffersAgree(a, b);
      OrderedTiesAgree(a, b);
    }
  }

  lemma CoherentOffersAgree(a: seq<Entry>, b: seq<Entry>)
    requires UniqueIds(a) && UniqueIds(b) && Coherent(Members(a) + Members(b))
    ensures forall id :: Lookup(Offered(a, b), id) == Lookup(Offered(b, a), id)
  {
    CommutesExactlyWhenCoherent(a, b);
    forall id ensures Lookup(Offered(a, b), id) == Lookup(Offered(b, a), id) {
      MergedLooksUp(a, b, id);
      MergedLooksUp(b, a, id);
      OfferedLooksUp(a, b, id);
      OfferedLooksUp(b, a, id);
    }
  }

  /** No two ids share a stamp. */
  ghost predicate StampsApart(entries: set<Entry>) {
    forall x, y | x in entries && y in entries && x.stamp == y.stamp :: x.id == y.id
  }

  lemma StampsApartSort(d: seq<Entry>, d': seq<Entry>, entries: set<Entry>)
    requires Holds(d, entries) && Holds(d', entries) && Coherent(entries) && StampsApart(entries)
    ensures Sort(d, NotAfter) == Sort(d', NotAfter)
  {
    StampOrder();
    forall e ensures multiset(d)[e] == multiset(d')[e] {
      HoldsSame(d, d', entries, e.id);
      OnceOrNever(d, e);
      OnceOrNever(d', e);
    }
    forall x, y | x in d && y in d && NotAfter(x, y) && NotAfter(y, x) ensures x == y {
      StampsTotal(x, y);
      assert IsNewest(entries, x) && IsNewest(entries, y);
    }
    SortOrderIndependent(d, d', NotAfter);
  }

  lemma OnceOrNever(d: seq<Entry>, x: Entry)
    requires UniqueIds(d)
    ensures multiset(d)[x] == if Lookup(d, x.id) == Some(x) then 1 else 0
  {
    if x in d {
      LookupUnique(d, x);
      OnceEach(d, x);
    } else {
      assert x !in multiset(d);
    }
  }

  /** Merges over entries whose stamps tell their ids apart give one list, in any order, grouping
      and repetition. */
  lemma DeploysConvergeToOneList(h: History, h': History)
    requires OwnUnique(h) && OwnUnique(h') && AllEntries(h) == AllEntries(h')
    requires Coherent(AllEntries(h)) && StampsApart(AllEntries(h)) && h.Deploy? && h'.Deploy?
    ensures Outcome(h) == Outcome(h')
  {
    OutcomeHolds(h);
    OutcomeHolds(h');
    StampsApartSort(Outcome(h), Outcome(h'), AllEntries(h));
    SortedAlready(Offered(Loaded(Outcome(h.remote)), Outcome(h.local_)));
    SortedAlready(Offered(Loaded(Outcome(h'.remote)), Outcome(h'.local_)));
  }

  lemma SortedAlready(d: seq<Entry>)
    ensures Sort(Sort(d, NotAfter), NotAfter) == Sort(d, NotAfter)
  {
    StampOrder();
    SortSorted(d, NotAfter);
    forall x ensures Filter(Sort(d, NotAfter), TiesWith(x, NotAfter)) == Filter(d, TiesWith(x, NotAfter)) {
      SortKeepsTies(d, NotAfter, TiesWith(x, NotAfter));
    }
    SortsAlikeExactly(Sort(d, NotAfter), d, NotAfter);
  }

  /** Two sessions that each bring a new id under one stamp leave different lists. */
  lemma NewIdsOfOneStampDiffer(a: seq<Entry>, b: seq<Entry>, x: Entry, y: Entry)
    requires UniqueIds(a) && UniqueIds(b) && x in a && y in b && x.stamp == y.stamp
    requires x.id !in IdsOf(b) && y.id !in IdsOf(a)
    ensures Merged(a, b) != Merged(b, a)
  {
    if Merged(a, b) == Merged(b, a) {
      ListsCommuteExactly(a, b);
      NewIdsComeLast(a, b, x, y);
    }
  }

  lemma NewIdsComeLast(a: seq<Entry>, b: seq<Entry>, x: Entry, y: Entry)
    requires UniqueIds(a) && UniqueIds(b) && x in a && y in b && x.stamp == y.stamp
    requires x.id !in IdsOf(b) && y.id !in IdsOf(a)
    ensures !TiesInOrder(a, b)
  {
    var p := LastStamped(a, b, x.stamp);
    LookupIds(a, y.id);
    LookupIds(b, x.id);
    LookupUnique(a, x);
    LookupUnique(b, y);
    IdsFirst(a, b, p, x.id, y.id);
    IdsFirst(b, a, p, y.id, x.id);
    var fa, fb := Filter(Map(a, EntryId()), p), Filter(Map(b, EntryId()), p);
    var f, f' := Filter(IdOrderOf(a, b), p), Filter(IdOrderOf(b, a), p);
    PrefixesDiffer(f, f', fa, fb, x.id, y.id);
  }

  lemma PrefixesDiffer(f: seq<string>, f': seq<string>, p: seq<string>, p': seq<string>, x: string, y: string)
    requires p <= f && p' <= f' && x in p && x !in p' && y in p' && y !in p
    ensures f != f'
  {
    var i :| 0 <= i < |p| && p[i] == x;
    var j :| 0 <= j < |p'| && p'[j] == y;
    assert f[i] == x && f'[j] == y;
    assert i < |p'| ==> f'[i] == p'[i];
    assert j < |p| ==> f[j] == p[j];
  }

  /** The ids underneath come first. */
  lemma IdsFirst(below: seq<Entry>, above: seq<Entry>, p: string -> bool, here: string, there: string)
    requires here in IdsOf(below) && there !in IdsOf(below) && p(here)
    ensures Filter(Map(below, EntryId()), p) <= Filter(IdOrderOf(below, above), p)
    ensures here in Filter(Map(below, EntryId()), p) && there !in Filter(Map(below, EntryId()), p)
  {
    FilterAppend(Map(below, EntryId()), Filter(Map(above, EntryId()), NotAmong(IdsOf(below))), p);
    var e :| e in below && e.id == here;
    var i :| 0 <= i < |below| && below[i] == e;
    assert Map(below, EntryId())[i] == here;
  }

  /** The smallest such pair: one new entry on either side. */
  lemma PairSwaps(x: Entry, y: Entry)
    requires x.id != y.id && x.stamp == y.stamp
    ensures Coherent(Members([x]) + Members([y]))
    ensures Merged([x], [y]) == [y, x] && Merged([y], [x]) == [x, y]
  {
    StampsTotal(x, y);
    PairIsCoherent(x, y);
    MergesPair(x, y);
    MergesPair(y, x);
  }

  lemma PairIsCoherent(x: Entry, y: Entry)
    requires x.id != y.id
    ensures Coherent(Members([x]) + Members([y]))
  {
  }

  lemma MergesPair(x: Entry, y: Entry)
    requires x.id != y.id && NotAfter(y, x)
    ensures Merged([x], [y]) == [y, x]
  {
    LoadedUnique([y]);
    assert [x][..0] == [];
    assert Lookup([y], x.id).None?;
    assert Offered([y], [x]) == Put([y], x);
    PutAppends([y], x);
    assert [y] + [x] == [y, x] && [y, x][1..] == [x] && [x][1..] == [];
    assert Sort([x], NotAfter) == [x];
  }
}
