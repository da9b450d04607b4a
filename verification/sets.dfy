/** Finite sets: a number that is not in one, and its elements in some order. */
module Sets {

  lemma FreshNumber(used: set<nat>) returns (n: nat)
    ensures n !in used
  {
    n := 0;
    var left := used;
    while left != {}
      invariant left <= used
      invariant forall u :: u in used && u !in left ==> u < n
      decreases left
    {
      var u :| u in left;
      n := if u < n then n else u + 1;
      left := left - {u};
    }
  }

  lemma {:induction false} SomeOrder<T>(s: set<T>) returns (xs: seq<T>)
    ensures forall x :: x in xs <==> x in s
    decreases |s|
  {
    if s == {} {
      xs := [];
    } else {
      var x :| x in s;
      var rest := SomeOrder(s - {x});
      xs := [x] + rest;
    }
  }

  lemma {:induction false} SubsetSize<T>(a: set<T>, b: set<T>)
    requires a <= b
    ensures |a| <= |b|
    decreases |a|
  {
    if a != {} {
      var x :| x in a;
      SubsetSize(a - {x}, b - {x});
    }
  }
}
