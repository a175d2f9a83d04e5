/** Small vocabulary shared by every module of the model. */
module Common {
  datatype Option<+T> = None | Some(value: T)

  datatype Result<+T, +E> = Ok(value: T) | Err(error: E)

  /** The two maps say the same about `k`: both lack it, or both hold the same value for it. */
  ghost predicate SameAt<K, V>(a: map<K, V>, b: map<K, V>, k: K) {
    (k in a <==> k in b) && (k in a ==> a[k] == b[k])
  }

  /** Every entry of `a` is an entry of `b`. */
  ghost predicate SubMap<K, V>(a: map<K, V>, b: map<K, V>) {
    forall k :: k in a ==> k in b && b[k] == a[k]
  }

  ghost predicate NoDuplicates<T>(s: seq<T>) {
    forall i, j :: 0 <= i < j < |s| ==> s[i] != s[j]
  }

  function Max(a: int, b: int): int { if a < b then b else a }

  function Min(a: int, b: int): int { if a < b then a else b }

  lemma SubsetSize<T>(a: set<T>, b: set<T>)
    requires a <= b
    ensures |a| <= |b|
  {
    assert b == a + (b - a);
  }

  lemma SameSize<T>(a: set<T>, b: set<T>)
    requires a <= b && |a| == |b|
    ensures a == b
  {
    assert |b - a| == 0;
  }

  /** A duplicate-free sequence over a finite set is no longer than the set. */
  lemma {:induction false} PigeonHole<T>(s: seq<T>, all: set<T>)
    requires NoDuplicates(s)
    requires forall i :: 0 <= i < |s| ==> s[i] in all
    ensures |s| <= |all|
  {
    if s != [] {
      var last := s[|s| - 1];
      PigeonHole(s[..|s| - 1], all - {last});
    }
  }

  /** A duplicate-free sequence as long as the finite set it draws from lists the whole set. */
  lemma {:induction false} FullPigeonHole<T>(s: seq<T>, all: set<T>, x: T)
    requires NoDuplicates(s) && |s| == |all| && x in all
    requires forall i :: 0 <= i < |s| ==> s[i] in all
    ensures x in s
  {
    if x !in s {
      PigeonHole(s + [x], all);
    }
  }
}
