/** Stable sorting as the control plane's scripts use it (`sorted`, `list.sort`), and the
    laws the other modules need: a stable sort permutes, two stable passes are one
    lexicographic pass, and a strict order makes the answer independent of input order. */
module Sorting {

  /** Inserts `x` in front of the first element that is not before it. */
  function Insert<T>(x: T, s: seq<T>, leq: (T, T) -> bool): (r: seq<T>)
    ensures multiset(r) == multiset{x} + multiset(s)
  {
    if s == [] then [x]
    else if leq(x, s[0]) then
      assert s == [s[0]] + s[1..];
      [x] + s
    else
      assert s == [s[0]] + s[1..];
      [s[0]] + Insert(x, s[1..], leq)
  }

  /** Stable insertion sort: equal elements keep their order. */
  function Sort<T>(s: seq<T>, leq: (T, T) -> bool): (r: seq<T>)
    ensures multiset(r) == multiset(s)
    ensures |r| == |s|
  {
    if s == [] then []
    else
      assert s == [s[0]] + s[1..];
      var r := Insert(s[0], Sort(s[1..], leq), leq);
      assert |r| == |multiset(r)|;
      r
  }

  ghost predicate TotalPreorder<T(!new)>(leq: (T, T) -> bool) {
    && (forall x: T, y: T :: leq(x, y) || leq(y, x))
    && (forall x: T, y: T, z: T :: leq(x, y) && leq(y, z) ==> leq(x, z))
  }

  ghost predicate Sorted<T>(s: seq<T>, leq: (T, T) -> bool) {
    forall i, j | 0 <= i < j < |s| :: leq(s[i], s[j])
  }

  lemma {:induction false} InsertSorted<T(!new)>(x: T, s: seq<T>, leq: (T, T) -> bool)
    requires TotalPreorder(leq) && Sorted(s, leq)
    ensures Sorted(Insert(x, s, leq), leq)
  {
    if s != [] && !leq(x, s[0]) {
      InsertSorted(x, s[1..], leq);
      var r := Insert(x, s[1..], leq);
      forall j | 0 <= j < |r| ensures leq(s[0], r[j]) {
        assert r[j] in multiset(r);
        assert r[j] == x || r[j] in s[1..];
      }
    }
  }

  lemma {:induction false} SortSorted<T(!new)>(s: seq<T>, leq: (T, T) -> bool)
    requires TotalPreorder(leq)
    ensures Sorted(Sort(s, leq), leq)
  {
    if s != [] {
      SortSorted(s[1..], leq);
      InsertSorted(s[0], Sort(s[1..], leq), leq);
    }
  }

  lemma SortMembers<T(!new)>(s: seq<T>, leq: (T, T) -> bool)
    ensures forall x :: x in Sort(s, leq) <==> x in s
  {
    forall x ensures x in Sort(s, leq) <==> x in s {
      assert x in Sort(s, leq) <==> x in multiset(Sort(s, leq));
      assert x in s <==> x in multiset(s);
    }
  }

  /** `major` first, `minor` only between `major` ties. */
  function Lex<T>(major: (T, T) -> bool, minor: (T, T) -> bool): (T, T) -> bool {
    (x, y) => major(x, y) && (major(y, x) ==> minor(x, y))
  }

  lemma LexTotal<T(!new)>(major: (T, T) -> bool, minor: (T, T) -> bool)
    requires TotalPreorder(major) && TotalPreorder(minor)
    ensures TotalPreorder(Lex(major, minor))
  {
  }

  lemma {:induction false} InsertsCommute<T(!new)>(x: T, y: T, s: seq<T>, leq: (T, T) -> bool)
    requires TotalPreorder(leq) && !(leq(x, y) && leq(y, x))
    ensures Insert(x, Insert(y, s, leq), leq) == Insert(y, Insert(x, s, leq), leq)
  {
    if s != [] && !leq(x, s[0]) && !leq(y, s[0]) {
      InsertsCommute(x, y, s[1..], leq);
    }
  }

  /** Two orders that agree between `x` and every element insert `x` alike. */
  lemma {:induction false} InsertAgrees<T>(x: T, s: seq<T>, leq: (T, T) -> bool, leq': (T, T) -> bool)
    requires forall y | y in s :: leq(x, y) == leq'(x, y)
    ensures Insert(x, s, leq) == Insert(x, s, leq')
  {
    if s != [] && !leq(x, s[0]) {
      InsertAgrees(x, s[1..], leq, leq');
    }
  }

  lemma {:induction false} SortInsertLex<T(!new)>(
      x: T, s: seq<T>, major: (T, T) -> bool, minor: (T, T) -> bool)
    requires TotalPreorder(major) && TotalPreorder(minor)
    ensures Sort(Insert(x, s, minor), Lex(major, minor)) == Insert(x, Sort(s, Lex(major, minor)), Lex(major, minor))
  {
    var lex := Lex(major, minor);
    LexTotal(major, minor);
    if s != [] && !minor(x, s[0]) {
      SortInsertLex(x, s[1..], major, minor);
      InsertsCommute(s[0], x, Sort(s[1..], lex), lex);
    }
  }

  lemma {:induction false} LexIgnoresMinor<T(!new)>(s: seq<T>, major: (T, T) -> bool, minor: (T, T) -> bool)
    requires TotalPreorder(major) && TotalPreorder(minor)
    ensures Sort(Sort(s, minor), Lex(major, minor)) == Sort(s, Lex(major, minor))
  {
    if s != [] {
      LexIgnoresMinor(s[1..], major, minor);
      SortInsertLex(s[0], Sort(s[1..], minor), major, minor);
    }
  }

  lemma {:induction false} MinorSortedAgrees<T(!new)>(s: seq<T>, major: (T, T) -> bool, minor: (T, T) -> bool)
    requires Sorted(s, minor)
    ensures Sort(s, major) == Sort(s, Lex(major, minor))
  {
    if s != [] {
      MinorSortedAgrees(s[1..], major, minor);
      SortMembers(s[1..], Lex(major, minor));
      InsertAgrees(s[0], Sort(s[1..], Lex(major, minor)), major, Lex(major, minor));
    }
  }

  /** A stable pass by `minor` followed by a stable pass by `major` is one stable pass by
      the lexicographic order, for every input. */
  lemma TwoPassesAreOne<T(!new)>(s: seq<T>, major: (T, T) -> bool, minor: (T, T) -> bool)
    requires TotalPreorder(major) && TotalPreorder(minor)
    ensures Sort(Sort(s, minor), major) == Sort(s, Lex(major, minor))
  {
    SortSorted(s, minor);
    MinorSortedAgrees(Sort(s, minor), major, minor);
    LexIgnoresMinor(s, major, minor);
  }

  lemma {:induction false} SortAgrees<T(!new)>(s: seq<T>, leq: (T, T) -> bool, leq': (T, T) -> bool)
    requires forall x, y | x in s && y in s :: leq(x, y) == leq'(x, y)
    ensures Sort(s, leq) == Sort(s, leq')
  {
    if s != [] {
      SortAgrees(s[1..], leq, leq');
      SortMembers(s[1..], leq);
      InsertAgrees(s[0], Sort(s[1..], leq), leq, leq');
    }
  }

  /** `TwoPassesAreOne` for an order `both` spelled out by the caller. */
  lemma PassesCombine<T(!new)>(s: seq<T>, major: (T, T) -> bool, minor: (T, T) -> bool, both: (T, T) -> bool)
    requires TotalPreorder(major) && TotalPreorder(minor)
    requires forall x, y :: both(x, y) == Lex(major, minor)(x, y)
    ensures TotalPreorder(both)
    ensures Sort(Sort(s, minor), major) == Sort(s, both)
  {
    LexTotal(major, minor);
    TwoPassesAreOne(s, major, minor);
    SortAgrees(s, Lex(major, minor), both);
  }

  /** No two different elements of `s` tie. */
  ghost predicate Decided<T>(s: seq<T>, leq: (T, T) -> bool) {
    forall x, y | x in s && y in s && leq(x, y) && leq(y, x) :: x == y
  }

  lemma {:induction false} SortedUnique<T(!new)>(s: seq<T>, t: seq<T>, leq: (T, T) -> bool)
    requires TotalPreorder(leq) && Decided(s, leq)
    requires Sorted(s, leq) && Sorted(t, leq) && multiset(s) == multiset(t)
    ensures s == t
  {
    if s == [] {
      assert |t| == |multiset(t)|;
    } else {
      assert s[0] in multiset(t) && t[0] in multiset(s);
      HeadsEqual(s, t, leq);
      HeadCancels(s, t);
      SortedUnique(s[1..], t[1..], leq);
    }
  }

  lemma HeadsEqual<T(!new)>(s: seq<T>, t: seq<T>, leq: (T, T) -> bool)
    requires TotalPreorder(leq) && Decided(s, leq) && Sorted(s, leq) && Sorted(t, leq)
    requires s != [] && t != [] && s[0] in t && t[0] in s
    ensures s[0] == t[0]
  {
    var i :| 0 <= i < |t| && t[i] == s[0];
    var j :| 0 <= j < |s| && s[j] == t[0];
    assert leq(s[0], s[j]) && leq(t[0], t[i]);
  }

  lemma HeadCancels<T>(s: seq<T>, t: seq<T>)
    requires multiset(s) == multiset(t) && s != [] && t != [] && s[0] == t[0]
    ensures multiset(s[1..]) == multiset(t[1..])
  {
    assert s == [s[0]] + s[1..] && t == [t[0]] + t[1..];
    assert multiset(s[1..]) == multiset(s) - multiset{s[0]};
    assert multiset(t[1..]) == multiset(t) - multiset{t[0]};
  }

  /** When no two elements tie, sorting forgets the input order. */
  lemma SortOrderIndependent<T(!new)>(s: seq<T>, t: seq<T>, leq: (T, T) -> bool)
    requires TotalPreorder(leq) && Decided(s, leq) && multiset(s) == multiset(t)
    ensures Sort(s, leq) == Sort(t, leq)
  {
    SortSorted(s, leq);
    SortSorted(t, leq);
    SortMembers(s, leq);
    SortedUnique(Sort(s, leq), Sort(t, leq), leq);
  }

  /** Elements of `s` that satisfy `keep`, in order. */
  function Filter<T(!new)>(s: seq<T>, keep: T -> bool): (r: seq<T>)
    ensures forall x :: x in r <==> x in s && keep(x)
    ensures |r| <= |s|
  {
    if s == [] then [] else (if keep(s[0]) then [s[0]] else []) + Filter(s[1..], keep)
  }

  lemma {:induction false} FilterAppend<T(!new)>(s: seq<T>, t: seq<T>, keep: T -> bool)
    ensures Filter(s + t, keep) == Filter(s, keep) + Filter(t, keep)
  {
    if s == [] {
      assert s + t == t;
    } else {
      assert (s + t)[1..] == s[1..] + t;
      FilterAppend(s[1..], t, keep);
    }
  }

  lemma FilterStep<T(!new)>(s: seq<T>, i: nat, keep: T -> bool)
    requires i < |s|
    ensures Filter(s[..i + 1], keep) == Filter(s[..i], keep) + (if keep(s[i]) then [s[i]] else [])
  {
    assert s[..i + 1] == s[..i] + [s[i]];
    FilterAppend(s[..i], [s[i]], keep);
  }

  lemma {:induction false} FilterMultiplicity<T(!new)>(s: seq<T>, keep: T -> bool, x: T)
    ensures multiset(Filter(s, keep))[x] == if keep(x) then multiset(s)[x] else 0
  {
    if s != [] {
      assert s == [s[0]] + s[1..];
      FilterMultiplicity(s[1..], keep, x);
    }
  }

  /** Filtering respects permutation. */
  lemma FilterPermutes<T(!new)>(s: seq<T>, t: seq<T>, keep: T -> bool)
    requires multiset(s) == multiset(t)
    ensures multiset(Filter(s, keep)) == multiset(Filter(t, keep))
  {
    forall x ensures multiset(Filter(s, keep))[x] == multiset(Filter(t, keep))[x] {
      FilterMultiplicity(s, keep, x);
      FilterMultiplicity(t, keep, x);
    }
  }

  // ---------- elements that tie ----------

  /** The elements that neither come before `x` nor after it. */
  function TiesWith<T>(x: T, leq: (T, T) -> bool): T -> bool {
    (y: T) => leq(x, y) && leq(y, x)
  }

  lemma FilterCons<T(!new)>(x: T, s: seq<T>, p: T -> bool)
    ensures Filter([x] + s, p) == if p(x) then [x] + Filter(s, p) else Filter(s, p)
  {
    assert ([x] + s)[1..] == s;
  }

  lemma FilterPast<T(!new)>(x: T, y: T, r: seq<T>, s: seq<T>, p: T -> bool)
    requires Filter(r, p) == Filter([x] + s, p) && !(p(x) && p(y))
    ensures Filter([y] + r, p) == Filter([x] + ([y] + s), p)
  {
    FilterCons(y, r, p);
    FilterCons(x, s, p);
    FilterCons(y, s, p);
    FilterCons(x, [y] + s, p);
  }

  lemma {:induction false} InsertKeepsTies<T(!new)>(x: T, s: seq<T>, leq: (T, T) -> bool, p: T -> bool)
    requires forall y | y in s && p(x) && p(y) :: leq(x, y)
    ensures Filter(Insert(x, s, leq), p) == Filter([x] + s, p)
  {
    if s != [] && !leq(x, s[0]) {
      InsertKeepsTies(x, s[1..], leq, p);
      FilterPast(x, s[0], Insert(x, s[1..], leq), s[1..], p);
      assert s == [s[0]] + s[1..];
    }
  }

  /** Stability: a sort leaves elements that tie in the order they came. */
  lemma {:induction false} SortKeepsTies<T(!new)>(s: seq<T>, leq: (T, T) -> bool, p: T -> bool)
    requires forall x, y | p(x) && p(y) :: leq(x, y)
    ensures Filter(Sort(s, leq), p) == Filter(s, p)
  {
    if s != [] {
      SortKeepsTies(s[1..], leq, p);
      InsertKeepsTies(s[0], Sort(s[1..], leq), leq, p);
      FilterCons(s[0], Sort(s[1..], leq), p);
    }
  }

  ghost predicate SameTies<T(!new)>(s: seq<T>, t: seq<T>, leq: (T, T) -> bool) {
    forall x :: Filter(s, TiesWith(x, leq)) == Filter(t, TiesWith(x, leq))
  }

  lemma SameTiesMember<T(!new)>(s: seq<T>, t: seq<T>, leq: (T, T) -> bool, x: T)
    requires TotalPreorder(leq) && SameTies(s, t, leq) && x in s
    ensures x in t
  {
    assert TiesWith(x, leq)(x);
    assert x in Filter(s, TiesWith(x, leq));
  }

  lemma SameTiesHead<T(!new)>(s: seq<T>, t: seq<T>, leq: (T, T) -> bool)
    requires TotalPreorder(leq) && Sorted(s, leq) && Sorted(t, leq) && SameTies(s, t, leq) && s != [] && t != []
    ensures s[0] == t[0]
  {
    SameTiesMember(s, t, leq, s[0]);
    SameTiesMember(t, s, leq, t[0]);
    var i :| 0 <= i < |t| && t[i] == s[0];
    var j :| 0 <= j < |s| && s[j] == t[0];
    assert leq(s[0], s[j]) && leq(t[0], t[i]);
    assert Filter(s, TiesWith(s[0], leq))[0] == s[0];
    assert Filter(t, TiesWith(s[0], leq))[0] == t[0];
  }

  lemma FilterTail<T(!new)>(s: seq<T>, p: T -> bool)
    requires s != []
    ensures Filter(s[1..], p) == if p(s[0]) then Filter(s, p)[1..] else Filter(s, p)
  {
  }

  lemma SameTiesTail<T(!new)>(s: seq<T>, t: seq<T>, leq: (T, T) -> bool)
    requires SameTies(s, t, leq) && s != [] && t != [] && s[0] == t[0]
    ensures SameTies(s[1..], t[1..], leq)
  {
    forall x ensures Filter(s[1..], TiesWith(x, leq)) == Filter(t[1..], TiesWith(x, leq)) {
      FilterTail(s, TiesWith(x, leq));
      FilterTail(t, TiesWith(x, leq));
    }
  }

  lemma {:induction false} SortedWithSameTies<T(!new)>(s: seq<T>, t: seq<T>, leq: (T, T) -> bool)
    requires TotalPreorder(leq) && Sorted(s, leq) && Sorted(t, leq) && SameTies(s, t, leq)
    ensures s == t
  {
    if s == [] {
      if t != [] {
        SameTiesMember(t, s, leq, t[0]);
      }
    } else {
      SameTiesMember(s, t, leq, s[0]);
      SameTiesHead(s, t, leq);
      SameTiesTail(s, t, leq);
      SortedWithSameTies(s[1..], t[1..], leq);
    }
  }

  /** Two lists sort alike if and only if they have the same elements, with those that tie in
      the same order. */
  lemma SortsAlikeExactly<T(!new)>(s: seq<T>, t: seq<T>, leq: (T, T) -> bool)
    requires TotalPreorder(leq)
    ensures Sort(s, leq) == Sort(t, leq) <==> SameTies(s, t, leq)
  {
    SortSorted(s, leq);
    SortSorted(t, leq);
    forall x
      ensures Filter(Sort(s, leq), TiesWith(x, leq)) == Filter(s, TiesWith(x, leq))
      ensures Filter(Sort(t, leq), TiesWith(x, leq)) == Filter(t, TiesWith(x, leq))
    {
      SortKeepsTies(s, leq, TiesWith(x, leq));
      SortKeepsTies(t, leq, TiesWith(x, leq));
    }
    if SameTies(s, t, leq) {
      SortedWithSameTies(Sort(s, leq), Sort(t, leq), leq);
    }
  }

  /** Applies `f` to every element, in order. */
  function Map<T, U>(s: seq<T>, f: T -> U): (r: seq<U>)
    ensures |r| == |s|
    ensures forall i | 0 <= i < |s| :: r[i] == f(s[i])
  {
    seq(|s|, i requires 0 <= i < |s| => f(s[i]))
  }

  lemma MapAppend<T, U>(s: seq<T>, t: seq<T>, f: T -> U)
    ensures Map(s + t, f) == Map(s, f) + Map(t, f)
  {
  }

  lemma MapMember<T, U>(s: seq<T>, f: T -> U, y: U)
    ensures y in Map(s, f) <==> exists i :: 0 <= i < |s| && f(s[i]) == y
  {
  }

  lemma DropAt<T>(s: seq<T>, i: nat)
    requires i < |s|
    ensures multiset(s) == multiset(s[..i] + s[i + 1..]) + multiset{s[i]}
  {
    assert s == s[..i] + [s[i]] + s[i + 1..];
  }

  lemma MapDropAt<T, U>(s: seq<T>, i: nat, f: T -> U)
    requires i < |s|
    ensures multiset(Map(s, f)) == multiset(Map(s[..i] + s[i + 1..], f)) + multiset{f(s[i])}
  {
    DropAt(Map(s, f), i);
    assert Map(s, f)[..i] + Map(s, f)[i + 1..] == Map(s[..i] + s[i + 1..], f);
  }

  lemma RestsPermute<T>(s: seq<T>, t: seq<T>, i: nat)
    requires multiset(s) == multiset(t) && s != [] && i < |t| && t[i] == s[0]
    ensures multiset(s[..0] + s[1..]) == multiset(t[..i] + t[i + 1..])
  {
    DropAt(s, 0);
    DropAt(t, i);
    assert multiset(s[..0] + s[1..]) == multiset(s) - multiset{s[0]};
    assert multiset(t[..i] + t[i + 1..]) == multiset(t) - multiset{t[i]};
  }

  lemma {:induction false} MapPermutes<T, U>(s: seq<T>, t: seq<T>, f: T -> U)
    requires multiset(s) == multiset(t)
    ensures multiset(Map(s, f)) == multiset(Map(t, f))
    decreases |s|
  {
    if s == [] {
      assert |t| == |multiset(t)|;
    } else {
      assert s[0] in multiset(t);
      var i :| 0 <= i < |t| && t[i] == s[0];
      var rest, rest' := s[..0] + s[1..], t[..i] + t[i + 1..];
      RestsPermute(s, t, i);
      MapDropAt(s, 0, f);
      MapDropAt(t, i, f);
      MapPermutes(rest, rest', f);
    }
  }

  /** Keeping and dropping by `keep` shares the images out with nothing lost. */
  lemma {:induction false} FilterSplits<T(!new), U>(s: seq<T>, keep: T -> bool, drop: T -> bool, f: T -> U)
    requires forall x | x in s :: keep(x) != drop(x)
    ensures multiset(Map(Filter(s, keep), f)) + multiset(Map(Filter(s, drop), f)) == multiset(Map(s, f))
  {
    if s != [] {
      FilterSplits(s[1..], keep, drop, f);
      MapHead(s, f);
      FilterHead(s, keep, f);
      FilterHead(s, drop, f);
    }
  }

  lemma MapHead<T, U>(s: seq<T>, f: T -> U)
    requires s != []
    ensures Map(s, f) == [f(s[0])] + Map(s[1..], f)
  {
  }

  lemma FilterHead<T(!new), U>(s: seq<T>, keep: T -> bool, f: T -> U)
    requires s != []
    ensures Map(Filter(s, keep), f) == (if keep(s[0]) then [f(s[0])] else []) + Map(Filter(s[1..], keep), f)
  {
    if keep(s[0]) {
      MapHead(Filter(s, keep), f);
    } else {
      assert Filter(s, keep) == Filter(s[1..], keep);
    }
  }

  lemma {:induction false} MapFilter<T(!new), U(!new)>(s: seq<T>, f: T -> U, p: T -> bool, q: U -> bool)
    requires forall x | x in s :: p(x) == q(f(x))
    ensures Map(Filter(s, p), f) == Filter(Map(s, f), q)
  {
    if s != [] {
      MapFilter(s[1..], f, p, q);
      MapHead(s, f);
      FilterHead(s, p, f);
      FilterCons(f(s[0]), Map(s[1..], f), q);
    }
  }

  lemma FilterMapStep<T(!new), U>(s: seq<T>, i: nat, keep: T -> bool, f: T -> U)
    requires i < |s|
    ensures Map(Filter(s[..i + 1], keep), f) == Map(Filter(s[..i], keep), f) + (if keep(s[i]) then [f(s[i])] else [])
  {
    FilterStep(s, i, keep);
    MapAppend(Filter(s[..i], keep), if keep(s[i]) then [s[i]] else [], f);
  }

  lemma {:induction false} FilterNone<T(!new)>(s: seq<T>, keep: T -> bool)
    requires forall x | x in s :: !keep(x)
    ensures Filter(s, keep) == []
  {
    if s != [] {
      FilterNone(s[1..], keep);
    }
  }

  lemma {:induction false} FilterSame<T(!new)>(s: seq<T>, p: T -> bool, q: T -> bool)
    requires forall x | x in s :: p(x) == q(x)
    ensures Filter(s, p) == Filter(s, q)
  {
    if s != [] {
      FilterSame(s[1..], p, q);
    }
  }

  /** Identifiers compare code point by code point. */
  predicate IdLeq(a: string, b: string) {
    a == "" || (b != "" && (a[0] < b[0] || (a[0] == b[0] && IdLeq(a[1..], b[1..]))))
  }

  lemma {:induction false} IdTotal(a: string, b: string)
    ensures IdLeq(a, b) || IdLeq(b, a)
    ensures IdLeq(a, b) && IdLeq(b, a) ==> a == b
  {
    if a != "" && b != "" && a[0] == b[0] {
      IdTotal(a[1..], b[1..]);
      assert a == [a[0]] + a[1..] && b == [b[0]] + b[1..];
    }
  }

  lemma {:induction false} IdTransitive(a: string, b: string, c: string)
    requires IdLeq(a, b) && IdLeq(b, c)
    ensures IdLeq(a, c)
  {
    if a != "" && a[0] == b[0] && b[0] == c[0] {
      IdTransitive(a[1..], b[1..], c[1..]);
    }
  }

  lemma IdOrder()
    ensures TotalPreorder(IdLeq)
    ensures forall a, b :: IdLeq(a, b) && IdLeq(b, a) ==> a == b
  {
    forall a, b
      ensures IdLeq(a, b) || IdLeq(b, a)
      ensures IdLeq(a, b) && IdLeq(b, a) ==> a == b
    {
      IdTotal(a, b);
    }
    forall a, b, c | IdLeq(a, b) && IdLeq(b, c) ensures IdLeq(a, c) {
      IdTransitive(a, b, c);
    }
  }
}
