/** Sums of a function over a finite set. */
module SetSums {

  ghost function Sum<T>(s: set<T>, f: T -> int): int {
    if s == {} then 0 else
      var x :| x in s;
      f(x) + Sum(s - {x}, f)
  }

  /** The sum does not depend on which element is taken out first. */
  lemma {:induction false} SumSplit<T>(s: set<T>, x: T, f: T -> int)
    requires x in s
    ensures Sum(s, f) == f(x) + Sum(s - {x}, f)
    decreases s
  {
    var y :| y in s && Sum(s, f) == f(y) + Sum(s - {y}, f);
    if y != x {
      SumSplit(s - {y}, x, f);
      SumSplit(s - {x}, y, f);
      assert s - {x} - {y} == s - {y} - {x};
    }
  }

  lemma {:induction false} SumSame<T>(s: set<T>, f: T -> int, g: T -> int)
    requires forall x :: x in s ==> f(x) == g(x)
    ensures Sum(s, f) == Sum(s, g)
    decreases s
  {
    if s != {} {
      var x :| x in s;
      SumSplit(s, x, f);
      SumSplit(s, x, g);
      SumSame(s - {x}, f, g);
    }
  }

  /** Changing (or adding) one term changes the sum by the change of that term. */
  lemma SumBump<T>(s: set<T>, x: T, f: T -> int, g: T -> int)
    requires forall y :: y in s && y != x ==> f(y) == g(y)
    ensures Sum(s + {x}, g) == Sum(s, f) + g(x) - (if x in s then f(x) else 0)
  {
    SumSplit(s + {x}, x, g);
    assert s + {x} - {x} == s - {x};
    if x in s {
      SumSplit(s, x, f);
      SumSame(s - {x}, f, g);
    } else {
      assert s - {x} == s;
      SumSame(s, f, g);
    }
  }

  lemma {:induction false} SumPlus<T>(s: set<T>, f: T -> int, g: T -> int, h: T -> int)
    requires forall x :: x in s ==> h(x) == f(x) + g(x)
    ensures Sum(s, h) == Sum(s, f) + Sum(s, g)
    decreases s
  {
    if s != {} {
      var x :| x in s;
      SumSplit(s, x, f);
      SumSplit(s, x, g);
      SumSplit(s, x, h);
      SumPlus(s - {x}, f, g, h);
    }
  }

  lemma {:induction false} SumMonotone<T>(s: set<T>, f: T -> int, g: T -> int)
    requires forall x :: x in s ==> f(x) <= g(x)
    ensures Sum(s, f) <= Sum(s, g)
    decreases s
  {
    if s != {} {
      var x :| x in s;
      SumSplit(s, x, f);
      SumSplit(s, x, g);
      SumMonotone(s - {x}, f, g);
    }
  }

  /** A sum all of whose terms vanish, except possibly the one at x. */
  lemma {:induction false} SumSpike<T>(s: set<T>, x: T, f: T -> int)
    requires forall y :: y in s && y != x ==> f(y) == 0
    ensures Sum(s, f) == if x in s then f(x) else 0
    decreases s
  {
    if s != {} {
      var y :| y in s;
      SumSplit(s, y, f);
      SumSpike(s - {y}, x, f);
    }
  }

  lemma {:induction false} SumZero<T>(s: set<T>, f: T -> int)
    requires forall x :: x in s ==> f(x) == 0
    ensures Sum(s, f) == 0
    decreases s
  {
    if s != {} {
      var x :| x in s;
      SumSplit(s, x, f);
      SumZero(s - {x}, f);
    }
  }

  lemma {:induction false} SumIsNatural<T>(s: set<T>, f: T -> int)
    requires forall y :: y in s ==> f(y) >= 0
    ensures Sum(s, f) >= 0
    decreases |s|
  {
    if s != {} {
      var x :| x in s;
      SumSplit(s, x, f);
      SumIsNatural(s - {x}, f);
    }
  }

  /** Where terms are not negative, a sum of 0 means each is 0. */
  lemma TermOfZeroSum<T>(s: set<T>, f: T -> int, x: T)
    requires forall y :: y in s ==> f(y) >= 0
    requires x in s && Sum(s, f) == 0
    ensures f(x) == 0
  {
    SumSplit(s, x, f);
    SumIsNatural(s - {x}, f);
  }
}
