/** Sums of a real-valued function over a finite set. */
module FiniteSums {

  ghost function Sum<T>(s: set<T>, f: T -> real): real {
    if s == {} then 0.0
    else
      var x :| x in s;
      f(x) + Sum(s - {x}, f)
  }

  /** The sum does not depend on the order in which elements are picked. */
  lemma {:induction false} SumExtract<T>(s: set<T>, x: T, f: T -> real)
    requires x in s
    ensures Sum(s, f) == f(x) + Sum(s - {x}, f)
    decreases s
  {
    var y :| y in s && Sum(s, f) == f(y) + Sum(s - {y}, f);
    if y != x {
      SumExtract(s - {y}, x, f);
      SumExtract(s - {x}, y, f);
      assert s - {y} - {x} == s - {x} - {y};
    }
  }

  lemma SumInsert<T>(s: set<T>, x: T, f: T -> real)
    requires x !in s
    ensures Sum(s + {x}, f) == Sum(s, f) + f(x)
  {
    SumExtract(s + {x}, x, f);
    assert s + {x} - {x} == s;
  }

  lemma {:induction false} SumCongruent<T>(s: set<T>, f: T -> real, g: T -> real)
    requires forall x :: x in s ==> f(x) == g(x)
    ensures Sum(s, f) == Sum(s, g)
    decreases s
  {
    if s != {} {
      var x :| x in s;
      SumExtract(s, x, f);
      SumExtract(s, x, g);
      SumCongruent(s - {x}, f, g);
    }
  }

  /** Two functions that agree except at one element. */
  lemma SumUpdate<T>(s: set<T>, x: T, f: T -> real, g: T -> real)
    requires x in s
    requires forall y :: y in s && y != x ==> f(y) == g(y)
    ensures Sum(s, g) == Sum(s, f) - f(x) + g(x)
  {
    SumExtract(s, x, f);
    SumExtract(s, x, g);
    SumCongruent(s - {x}, f, g);
  }

  lemma {:induction false} SumNonNegative<T>(s: set<T>, f: T -> real)
    requires forall x :: x in s ==> f(x) >= 0.0
    ensures Sum(s, f) >= 0.0
    decreases s
  {
    if s != {} {
      var x :| x in s;
      SumExtract(s, x, f);
      SumNonNegative(s - {x}, f);
    }
  }

  lemma {:induction false} SumMonotone<T>(s: set<T>, f: T -> real, g: T -> real)
    requires forall x :: x in s ==> f(x) <= g(x)
    ensures Sum(s, f) <= Sum(s, g)
    decreases s
  {
    if s != {} {
      var x :| x in s;
      SumExtract(s, x, f);
      SumExtract(s, x, g);
      SumMonotone(s - {x}, f, g);
    }
  }

  lemma {:induction false} SumOfZeros<T>(s: set<T>, f: T -> real)
    requires forall x :: x in s ==> f(x) == 0.0
    ensures Sum(s, f) == 0.0
    decreases s
  {
    if s != {} {
      var x :| x in s;
      SumExtract(s, x, f);
      SumOfZeros(s - {x}, f);
    }
  }

  lemma {:induction false} SumPlus<T>(s: set<T>, f: T -> real, g: T -> real, h: T -> real)
    requires forall x :: x in s ==> h(x) == f(x) + g(x)
    ensures Sum(s, h) == Sum(s, f) + Sum(s, g)
    decreases s
  {
    if s != {} {
      var x :| x in s;
      SumExtract(s, x, f);
      SumExtract(s, x, g);
      SumExtract(s, x, h);
      SumPlus(s - {x}, f, g, h);
    }
  }

  lemma {:induction false} SumUnion<T>(a: set<T>, b: set<T>, f: T -> real)
    requires a !! b
    ensures Sum(a + b, f) == Sum(a, f) + Sum(b, f)
    decreases b
  {
    if b == {} {
      assert a + b == a;
    } else {
      var x :| x in b;
      SumUnion(a, b - {x}, f);
      SumExtract(b, x, f);
      SumExtract(a + b, x, f);
      assert a + b - {x} == a + (b - {x});
    }
  }

  /** More elements that sum to nothing. */
  lemma SumExtended<T>(a: set<T>, b: set<T>, f: T -> real)
    requires a <= b && Sum(b - a, f) == 0.0
    ensures Sum(b, f) == Sum(a, f)
  {
    SumUnion(a, b - a, f);
    assert a + (b - a) == b;
  }

  /** A non-negative summand is never more than the sum. */
  lemma SummandAtMost<T>(s: set<T>, x: T, f: T -> real)
    requires x in s && forall y :: y in s ==> f(y) >= 0.0
    ensures f(x) <= Sum(s, f)
  {
    SumExtract(s, x, f);
    SumNonNegative(s - {x}, f);
  }
}
