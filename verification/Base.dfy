/** Vocabulary shared by every component.

    A `datetime` is a whole number of microseconds, which is the resolution of
    the original's clock values; a float is a `real`.
 */
module Base {

  datatype Option<+T> = None | Some(value: T)

  datatype Result<+T> = Ok(value: T) | Err

  type Time = int
  type Id = nat

  const SECOND: int := 1_000_000
  const DAY: int := 86_400 * SECOND

  function MinR(a: real, b: real): real {
    if b < a then b else a
  }

  function MaxR(a: real, b: real): real {
    if b > a then b else a
  }

  function MinI(a: int, b: int): int {
    if b < a then b else a
  }

  function MaxI(a: int, b: int): int {
    if b > a then b else a
  }

  function AbsR(a: real): real {
    if a < 0.0 then -a else a
  }

  /** `int(x)` of a float: truncation toward zero. */
  function Trunc(x: real): int {
    if x >= 0.0 then x.Floor else -((-x).Floor)
  }

  /** The order in which a dictionary is iterated. Every result below holds for any such order. */
  ghost predicate Enumerates<K(!new)>(order: seq<K>, keys: set<K>) {
    && (forall k :: k in order <==> k in keys)
    && NoDuplicates(order)
  }

  ghost predicate NoDuplicates<K>(s: seq<K>) {
    forall i, j :: 0 <= i < j < |s| ==> s[i] != s[j]
  }

  lemma {:induction false} NoDuplicatesCount<K>(s: seq<K>)
    requires NoDuplicates(s)
    ensures forall x :: multiset(s)[x] <= 1
  {
    if s != [] {
      NoDuplicatesCount(s[1..]);
      assert s == [s[0]] + s[1..];
      assert s[0] !in s[1..];
    }
  }

  lemma RepetitionCounts<K>(s: seq<K>, i: nat, j: nat)
    requires i < j < |s|
    ensures s[i] == s[j] ==> multiset(s)[s[j]] >= 2
  {
    assert s == s[..j] + [s[j]] + s[j + 1..];
    assert s[i] in s[..j];
  }

  /** Having no duplicates depends on the elements only, not on their order. */
  lemma NoDuplicatesReordered<K>(a: seq<K>, b: seq<K>)
    requires NoDuplicates(a) && multiset(a) == multiset(b)
    ensures NoDuplicates(b)
    ensures forall x :: x in a <==> x in b
  {
    NoDuplicatesCount(a);
    forall i, j | 0 <= i < j < |b| ensures b[i] != b[j] {
      RepetitionCounts(b, i, j);
    }
    assert forall x :: x in a <==> x in multiset(a);
    assert forall x :: x in b <==> x in multiset(b);
  }
}
