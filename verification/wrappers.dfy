/**
 * Shared value wrappers and small sequence helpers used by every module.
 *
 * `Option` stands for a Java reference that may be null, `Result` for a call
 * that either returns a value or throws. `Failure` distinguishes the checked
 * `SimulationException` (which the command loop catches) from the unchecked
 * exceptions (`RuntimeException`, `IllegalArgumentException`,
 * `NullPointerException`) and from running out of the recursion bound that
 * stands in for Java's bounded call stack.
 */
module Wrappers {

  datatype Option<T> = None | Some(value: T)

  datatype Failure =
    | SimulationException(message: string)
    | RuntimeFailure(message: string)
    | Exhausted

  datatype Result<T> = Ok(value: T) | Err(error: Failure)

  /** The Java `List.contains`-free list: no element occurs twice. */
  predicate NoDup<T(==)>(s: seq<T>)
  {
    forall i, j :: 0 <= i < j < |s| ==> s[i] != s[j]
  }

  /** Concatenation is associative. */
  lemma AppendAssoc<T>(a: seq<T>, b: seq<T>, c: seq<T>)
    ensures (a + b) + c == a + (b + c)
  {
  }

  /** `s` lists the elements of `keys`, each exactly once (an iteration order of a Java set). */
  predicate Enumerates<T(==)>(s: seq<T>, keys: set<T>)
  {
    NoDup(s) && (set x | x in s) == keys
  }

  /** Java `List.remove(Object)`: drop the first occurrence of `x`, if any. */
  function RemoveFirst<T(==)>(s: seq<T>, x: T): (r: seq<T>)
    ensures x !in s ==> r == s
    ensures x in s ==> |r| == |s| - 1 && multiset(r) == multiset(s) - multiset{x}
    ensures forall y :: y in r ==> y in s
    ensures forall y :: y in s && y != x ==> y in r
  {
    if s == [] then []
    else
      assert s == [s[0]] + s[1..];
      if s[0] == x then s[1..]
      else [s[0]] + RemoveFirst(s[1..], x)
  }

  /** Removing an element keeps a list duplicate-free. */
  lemma {:induction false} RemoveFirstNoDup<T>(s: seq<T>, x: T)
    requires NoDup(s)
    ensures NoDup(RemoveFirst(s, x))
  {
    if s != [] && s[0] != x {
      assert NoDup(s[1..]);
      RemoveFirstNoDup(s[1..], x);
      assert s[0] !in s[1..];
      NoDupAppend([s[0]], RemoveFirst(s[1..], x));
    }
  }

  /** A prefix one longer is the shorter prefix and the next element. */
  lemma Snoc<T>(s: seq<T>, i: nat)
    requires i < |s|
    ensures s[..i + 1] == s[..i] + [s[i]]
  {
  }

  /** Java `Map.getOrDefault(key, 0)` on an integer-valued map. */
  function GetOrZero<K(==)>(m: map<K, int>, k: K): (v: int)
    ensures k in m ==> v == m[k]
    ensures k !in m ==> v == 0
  {
    if k in m then m[k] else 0
  }

  /** In a duplicate-free list, removing `x` removes its only occurrence. */
  lemma {:induction false} RemoveFirstAbsent<T>(s: seq<T>, x: T)
    requires NoDup(s)
    ensures x !in RemoveFirst(s, x)
  {
    if s != [] {
      assert s == [s[0]] + s[1..];
      assert NoDup(s[1..]);
      if s[0] == x {
        assert forall i :: 0 < i < |s| ==> s[i] != s[0];
      } else {
        RemoveFirstAbsent(s[1..], x);
      }
    }
  }

  /** Two duplicate-free lists with no element in common concatenate to a duplicate-free list. */
  lemma NoDupAppend<T>(a: seq<T>, b: seq<T>)
    requires NoDup(a) && NoDup(b)
    requires forall x :: x in b ==> x !in a
    ensures NoDup(a + b)
  {
    var c := a + b;
    forall i, j | 0 <= i < j < |c|
      ensures c[i] != c[j]
    {
      if j < |a| {
        assert c[i] == a[i] && c[j] == a[j];
      } else if i < |a| {
        assert c[i] == a[i] && c[j] == b[j - |a|] && b[j - |a|] in b;
      } else {
        assert c[i] == b[i - |a|] && c[j] == b[j - |a|];
      }
    }
  }

  /** A duplicate-free list has as many elements as the set of its elements. */
  lemma {:induction false} NoDupCardinality<T>(s: seq<T>)
    requires NoDup(s)
    ensures |set x | x in s| == |s|
  {
    if s != [] {
      var t := s[..|s| - 1];
      assert NoDup(t);
      NoDupCardinality(t);
      assert (set x | x in s) == (set x | x in t) + {s[|s| - 1]};
      assert s[|s| - 1] !in t;
    }
  }

  /** A subset is no larger than its superset. */
  lemma {:induction false} SubsetCardinality<T>(a: set<T>, b: set<T>)
    requires a <= b
    ensures |a| <= |b|
    decreases |b|
  {
    if a != {} {
      var x :| x in a;
      SubsetCardinality(a - {x}, b - {x});
    }
  }

  /** A proper subset is strictly smaller. */
  lemma StrictSubsetCardinality<T>(a: set<T>, b: set<T>)
    requires a < b
    ensures |a| < |b|
  {
    var x :| x in b && x !in a;
    SubsetCardinality(a, b - {x});
    assert b == (b - {x}) + {x};
  }

  /** Growing `a` towards `u` shrinks what is left of `u`, strictly when `a` grows. */
  lemma RemainderShrinks<T>(u: set<T>, a: set<T>, b: set<T>)
    requires a <= b <= u
    ensures |u - b| <= |u - a|
    ensures a != b ==> |u - b| < |u - a|
  {
    SubsetCardinality(u - b, u - a);
    if a != b {
      var x :| x in b && x !in a;
      assert x in u - a && x !in u - b;
      StrictSubsetCardinality(u - b, u - a);
    }
  }

  /** A duplicate-free list drawn from `keys` is no longer than `keys` has elements. */
  lemma DistinctBound<T>(s: seq<T>, keys: set<T>)
    requires NoDup(s)
    requires forall x :: x in s ==> x in keys
    ensures |s| <= |keys|
  {
    NoDupCardinality(s);
    SubsetCardinality((set x | x in s), keys);
  }

  /**
   * An iteration order of a finite set. Java's `HashMap` views iterate in an
   * order fixed by hashing; the model leaves that order open.
   */
  method EnumerateSet<T(==)>(keys: set<T>) returns (s: seq<T>)
    ensures Enumerates(s, keys)
  {
    s := [];
    var rest := keys;
    while rest != {}
      invariant NoDup(s)
      invariant (set x | x in s) + rest == keys
      invariant forall x :: x in s ==> x !in rest
      decreases |rest|
    {
      var x :| x in rest;
      s := s + [x];
      rest := rest - {x};
    }
  }
}
