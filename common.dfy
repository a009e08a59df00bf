/**
 * Shared vocabulary of the model: an Option type standing for Python's
 * `None`-or-value, Python string truthiness, and two small facts about
 * sequences used by the other modules.
 */
module Common {

  datatype Option<+T> = None | Some(value: T) {
    /** The value, or `default` when there is none (Python's `d.get(key, default)`). */
    function GetOr(default: T): T
    {
      match this
      case Some(v) => v
      case None => default
    }
  }

  /** Python truthiness of an optional string: `None` and `""` are falsy. */
  predicate Truthy(o: Option<string>)
  {
    o.Some? && o.value != ""
  }

  /** `s` starts with `prefix` (Python's `str.startswith`). */
  predicate StartsWith(s: string, prefix: string)
  {
    |prefix| <= |s| && s[..|prefix|] == prefix
  }

  /** The elements of a sequence, as a set. */
  function Elems<T>(s: seq<T>): set<T>
  {
    set x | x in s
  }

  /** No element occurs twice. */
  predicate Distinct<T(==)>(s: seq<T>)
  {
    forall i, j :: 0 <= i < j < |s| ==> s[i] != s[j]
  }

  /** A sequence without repetitions has as many elements as its set. */
  lemma {:induction false} DistinctCard<T>(s: seq<T>)
    requires Distinct(s)
    ensures |Elems(s)| == |s|
  {
    if s != [] {
      var last := s[|s| - 1];
      var init := s[..|s| - 1];
      assert Distinct(init);
      DistinctCard(init);
      assert s == init + [last];
      assert last !in init;
      assert Elems(s) == Elems(init) + {last};
    }
  }

  /** Moving one element `x` from `rest` to the end of `list` keeps the split of `whole` and the list repetition-free. */
  lemma MoveToList<T>(list: seq<T>, rest: set<T>, whole: set<T>, x: T)
    requires Elems(list) + rest == whole && Elems(list) !! rest && Distinct(list) && x in rest
    ensures Elems(list + [x]) + (rest - {x}) == whole && Elems(list + [x]) !! (rest - {x})
    ensures Distinct(list + [x]) && |rest - {x}| < |rest|
  {
    assert Elems(list + [x]) == Elems(list) + {x};
  }

  /** Setting a key after removing it is setting it. */
  lemma RemoveThenSet<K, V>(m: map<K, V>, k: K, v: V)
    ensures (m - {k})[k := v] == m[k := v]
  {
  }

  /** A non-empty suffix splits off its last element. */
  lemma AppendSnoc<T>(a: seq<T>, b: seq<T>)
    requires b != []
    ensures a + b == (a + b[..|b| - 1]) + [b[|b| - 1]]
  {
    assert b == b[..|b| - 1] + [b[|b| - 1]];
  }

  /** Concatenation regroups freely. */
  lemma AppendAssoc<T>(a: seq<T>, b: seq<T>, c: seq<T>)
    ensures (a + b) + c == a + (b + c)
  {
  }
}
