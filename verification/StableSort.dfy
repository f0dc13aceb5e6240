/** `sorted(xs, key=..., reverse=True)`: a stable sort in descending key order.
    The order on keys is given as `above(a, b)`, "the key of a is greater than
    the key of b".
 */
module StableSort {

  /** What Python asks of a key comparison: a strict weak order. */
  ghost predicate StrictWeakOrder<T(!new)>(above: (T, T) -> bool) {
    && (forall a :: !above(a, a))
    && (forall a, b, c :: above(a, b) && above(b, c) ==> above(a, c))
    && (forall a, b, c :: !above(a, b) && !above(b, c) ==> !above(a, c))
  }

  function Insert<T>(x: T, s: seq<T>, above: (T, T) -> bool): seq<T> {
    if s == [] || !above(s[0], x) then [x] + s
    else [s[0]] + Insert(x, s[1..], above)
  }

  function SortDescending<T>(s: seq<T>, above: (T, T) -> bool): seq<T> {
    if s == [] then [] else Insert(s[0], SortDescending(s[1..], above), above)
  }

  ghost predicate Descending<T>(s: seq<T>, above: (T, T) -> bool) {
    forall i, j :: 0 <= i < j < |s| ==> !above(s[j], s[i])
  }

  lemma {:induction false} InsertKeeps<T>(x: T, s: seq<T>, above: (T, T) -> bool)
    ensures multiset(Insert(x, s, above)) == multiset(s) + multiset{x}
    ensures |Insert(x, s, above)| == |s| + 1
  {
    if s == [] || !above(s[0], x) {
    } else {
      InsertKeeps(x, s[1..], above);
      assert s == [s[0]] + s[1..];
    }
  }

  lemma {:induction false} SortKeeps<T>(s: seq<T>, above: (T, T) -> bool)
    ensures multiset(SortDescending(s, above)) == multiset(s)
    ensures |SortDescending(s, above)| == |s|
  {
    if s != [] {
      SortKeeps(s[1..], above);
      InsertKeeps(s[0], SortDescending(s[1..], above), above);
      assert s == [s[0]] + s[1..];
    }
  }

  lemma {:induction false} InsertDescending<T(!new)>(x: T, s: seq<T>, above: (T, T) -> bool)
    requires StrictWeakOrder(above) && Descending(s, above)
    ensures Descending(Insert(x, s, above), above)
  {
    if s == [] {
    } else if !above(s[0], x) {
      forall j | 0 <= j < |s| ensures !above(s[j], x) {
        assert j > 0 ==> !above(s[j], s[0]);
      }
    } else {
      var tail := Insert(x, s[1..], above);
      InsertDescending(x, s[1..], above);
      InsertKeeps(x, s[1..], above);
      forall j | 0 <= j < |tail| ensures !above(tail[j], s[0]) {
        assert tail[j] in multiset(tail);
        if tail[j] != x {
          assert tail[j] in s[1..];
        }
      }
    }
  }

  lemma {:induction false} SortIsDescending<T(!new)>(s: seq<T>, above: (T, T) -> bool)
    requires StrictWeakOrder(above)
    ensures Descending(SortDescending(s, above), above)
  {
    if s != [] {
      SortIsDescending(s[1..], above);
      InsertDescending(s[0], SortDescending(s[1..], above), above);
    }
  }

  /** The head of the stable sort is the first of the greatest elements. */
  lemma {:induction false} HeadIsFirstGreatest<T(!new)>(s: seq<T>, above: (T, T) -> bool) returns (w: nat)
    requires StrictWeakOrder(above) && s != []
    ensures w < |s| && |SortDescending(s, above)| == |s| && SortDescending(s, above)[0] == s[w]
    ensures forall i :: 0 <= i < |s| ==> !above(s[i], s[w])
    ensures forall i :: 0 <= i < w ==> above(s[w], s[i])
  {
    SortKeeps(s, above);
    if |s| == 1 {
      w := 0;
    } else {
      var v := HeadIsFirstGreatest(s[1..], above);
      if above(s[1..][v], s[0]) {
        w := v + 1;
        forall i | 0 <= i < |s| ensures !above(s[i], s[w]) {
          if i > 0 { assert s[i] == s[1..][i - 1]; }
        }
        forall i | 0 <= i < w ensures above(s[w], s[i]) {
          if i > 0 { assert s[i] == s[1..][i - 1]; }
        }
      } else {
        w := 0;
        forall i | 0 <= i < |s| ensures !above(s[i], s[0]) {
          if i > 0 { assert s[i] == s[1..][i - 1] && !above(s[i], s[1..][v]); }
        }
      }
    }
  }
}
