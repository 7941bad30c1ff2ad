/** What holds throughout a history, and histories in which items arrive again: when every
    repetition changes nothing, the run ends as if nothing had been repeated. */
module Histories {
  import opened Sorting

  lemma Associative<T>(a: seq<T>, b: seq<T>, c: seq<T>)
    ensures a + b + c == a + (b + c)
  {
  }

  /** `holds` says of every beginning of the history, the empty one and the whole included. */
  ghost predicate Throughout<T>(xs: seq<T>, holds: seq<T> -> bool) {
    forall i | 0 <= i <= |xs| :: holds(xs[..i])
  }

  lemma ThroughoutSplits<T>(xs: seq<T>, holds: seq<T> -> bool)
    requires xs != []
    ensures Throughout(xs, holds) <==> Throughout(xs[..|xs| - 1], holds) && holds(xs)
  {
    var init := xs[..|xs| - 1];
    assert xs[..|xs|] == xs;
    assert forall i | 0 <= i <= |init| :: init[..i] == xs[..i];
    if Throughout(xs, holds) {
      forall i | 0 <= i <= |init| ensures holds(init[..i]) {
        assert holds(xs[..i]);
      }
      assert holds(xs[..|xs|]);
    }
    if Throughout(init, holds) && holds(xs) {
      forall i | 0 <= i <= |xs| ensures holds(xs[..i]) {
        if i < |xs| {
          assert holds(init[..i]);
        }
      }
    }
  }

  lemma ThroughoutLast<T>(xs: seq<T>, holds: seq<T> -> bool)
    requires Throughout(xs, holds)
    ensures holds(xs)
  {
    assert holds(xs[..|xs|]) && xs[..|xs|] == xs;
  }

  // ---------- repeated deliveries ----------

  /** `again` marks a repetition. */
  datatype Delivery<+T> = Delivery(item: T, again: bool)

  function ItemOf<T>(): Delivery<T> -> T { (d: Delivery<T>) => d.item }

  function IsFirst<T>(): Delivery<T> -> bool { (d: Delivery<T>) => !d.again }

  function Items<T>(ds: seq<Delivery<T>>): seq<T> { Map(ds, ItemOf()) }

  /** The deliveries without the repetitions. */
  function Firsts<T(!new)>(ds: seq<Delivery<T>>): seq<Delivery<T>> { Filter(ds, IsFirst()) }

  /** `repeats(earlier, x)` says that `x` repeats one of the items before it; every delivery that
      is marked does. */
  ghost predicate Faithful<T>(ds: seq<Delivery<T>>, repeats: (seq<T>, T) -> bool) {
    forall i | 0 <= i < |ds| && ds[i].again :: repeats(Items(ds[..i]), ds[i].item)
  }

  /** The outcome of a run depends on its past only through the outcome so far. */
  ghost predicate Folds<T(!new), S>(run: seq<T> -> S) {
    forall a: seq<T>, b: seq<T>, x: T :: run(a) == run(b) ==> run(a + [x]) == run(b + [x])
  }

  ghost predicate Quiet<T(!new), S>(run: seq<T> -> S, repeats: (seq<T>, T) -> bool) {
    forall a: seq<T>, x: T :: repeats(a, x) ==> run(a + [x]) == run(a)
  }

  lemma FaithfulPrefix<T>(ds: seq<Delivery<T>>, repeats: (seq<T>, T) -> bool)
    requires Faithful(ds, repeats) && ds != []
    ensures Faithful(ds[..|ds| - 1], repeats)
  {
    var init := ds[..|ds| - 1];
    forall i | 0 <= i < |init| && init[i].again ensures repeats(Items(init[..i]), init[i].item) {
      assert init[..i] == ds[..i] && repeats(Items(ds[..i]), ds[i].item);
    }
  }

  lemma ItemsGrow<T>(init: seq<Delivery<T>>, d: Delivery<T>)
    ensures Items(init + [d]) == Items(init) + [d.item]
  {
  }

  lemma {:induction false} RepetitionsVanish<T(!new), S>(
      ds: seq<Delivery<T>>, run: seq<T> -> S, repeats: (seq<T>, T) -> bool)
    requires Folds(run) && Quiet(run, repeats) && Faithful(ds, repeats)
    ensures run(Items(ds)) == run(Items(Firsts(ds)))
    decreases |ds|
  {
    if ds != [] {
      var init, last := ds[..|ds| - 1], ds[|ds| - 1];
      assert ds == init + [last];
      FaithfulPrefix(ds, repeats);
      RepetitionsVanish(init, run, repeats);
      ItemsGrow(init, last);
      FilterAppend(init, [last], IsFirst<T>());
      if last.again {
        assert repeats(Items(init), last.item);
        assert Firsts(ds) == Firsts(init);
      } else {
        assert Firsts(ds) == Firsts(init) + [last];
        ItemsGrow(Firsts(init), last);
      }
    }
  }
}
