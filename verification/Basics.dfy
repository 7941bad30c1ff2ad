/** The result shapes shared by the models, and the bookkeeping of a loop over a set. */
module Basics {
  datatype Option<+T> = None | Some(value: T)

  datatype Result<+T, +E> = Ok(value: T) | Err(error: E)

  /** `done` and `rest` share out `all`. */
  ghost predicate SplitInto<T>(all: set<T>, done: set<T>, rest: set<T>) {
    done + rest == all && done !! rest
  }

  lemma MoveAcross<T>(all: set<T>, done: set<T>, rest: set<T>, x: T)
    requires SplitInto(all, done, rest) && x in rest
    ensures SplitInto(all, done + {x}, rest - {x}) && rest - {x} < rest && x !in done && x in all
  {
  }

  /** The keys that have a value, with it. */
  function Table<K, V>(keys: set<K>, value: K -> Option<V>): map<K, V> {
    map k | k in keys && value(k).Some? :: value(k).value
  }

  lemma TableGrows<K, V>(keys: set<K>, value: K -> Option<V>, k: K)
    ensures Table(keys + {k}, value) == if value(k).Some? then Table(keys, value)[k := value(k).value] else Table(keys, value)
  {
  }
}
