/** Stock facts about sets and numbers. */
module Basics {
  lemma Member<T>(s: set<T>) returns (k: T)
    requires s != {}
    ensures k in s
  {
    k :| k in s;
  }

  lemma {:induction false} Smaller<T>(a: set<T>, b: set<T>)
    requires a <= b
    ensures |a| <= |b|
  {
    if a != {} {
      var x := Member(a);
      Smaller(a - {x}, b - {x});
    }
  }

  function Least(a: nat, b: nat): nat {
    if a < b then a else b
  }
}
