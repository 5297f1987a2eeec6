/** CPU and memory amounts, and sums over finite sets. */
module Sums {

  datatype Resource = Cpu | Memory

  /** Millicores and bytes, as `resource_requests` counts them. */
  datatype Amount = Amount(cpu: int, memory: int) {
    function Of(r: Resource): int { if r.Cpu? then cpu else memory }
    predicate Le(b: Amount) { cpu <= b.cpu && memory <= b.memory }
  }

  ghost function Sum<T(!new)>(xs: set<T>, f: T -> int): int {
    if xs == {} then 0
    else var x :| x in xs; f(x) + Sum(xs - {x}, f)
  }

  lemma {:induction false} SumSplit<T(!new)>(xs: set<T>, f: T -> int, x: T)
    requires x in xs
    ensures Sum(xs, f) == f(x) + Sum(xs - {x}, f)
  {
    var y :| y in xs && Sum(xs, f) == f(y) + Sum(xs - {y}, f);
    if y != x {
      SumSplit(xs - {y}, f, x);
      SumSplit(xs - {x}, f, y);
      assert xs - {y} - {x} == xs - {x} - {y};
    }
  }

  lemma {:induction false} SumMonotone<T(!new)>(xs: set<T>, f: T -> int, g: T -> int)
    requires forall x :: x in xs ==> f(x) <= g(x)
    ensures Sum(xs, f) <= Sum(xs, g)
  {
    if xs != {} {
      var x :| x in xs;
      SumSplit(xs, f, x);
      SumSplit(xs, g, x);
      SumMonotone(xs - {x}, f, g);
    }
  }

  /** Elements that contribute nothing can be left out. */
  lemma {:induction false} SumSubset<T(!new)>(xs: set<T>, ys: set<T>, f: T -> int)
    requires xs <= ys && forall y :: y in ys - xs ==> f(y) == 0
    ensures Sum(xs, f) == Sum(ys, f)
    decreases ys
  {
    if y :| y in ys && y !in xs {
      SumSplit(ys, f, y);
      SumSubset(xs, ys - {y}, f);
    } else {
      assert xs == ys;
    }
  }

  lemma {:induction false} SumPlus<T(!new)>(xs: set<T>, f: T -> int, g: T -> int, h: T -> int)
    requires forall x :: x in xs ==> h(x) == f(x) + g(x)
    ensures Sum(xs, h) == Sum(xs, f) + Sum(xs, g)
  {
    if xs != {} {
      var x :| x in xs;
      SumSplit(xs, f, x);
      SumSplit(xs, g, x);
      SumSplit(xs, h, x);
      SumPlus(xs - {x}, f, g, h);
    }
  }
}
