/**
 * The string order the recycle bin sorts by. The component calls the host's
 * `localeCompare`; this model stands it in with the lexicographic order on
 * character codes, a total order, and proves the order facts the sort needs.
 */
module Collation {

  /** Negative, zero or positive as `a` sorts before, equal to or after `b`. */
  function Compare(a: string, b: string): (r: int)
    ensures -1 <= r <= 1
    ensures r == 0 <==> a == b
  {
    if a == [] && b == [] then 0
    else if a == [] then -1
    else if b == [] then 1
    else if a[0] < b[0] then -1
    else if a[0] > b[0] then 1
    else
      var r := Compare(a[1..], b[1..]);
      assert r == 0 ==> a == [a[0]] + a[1..] == [b[0]] + b[1..] == b;
      r
  }

  /** `a` sorts no later than `b`. */
  predicate Le(a: string, b: string) {
    Compare(a, b) <= 0
  }

  /** Swapping the arguments negates the comparison. */
  lemma {:induction false} Antisymmetric(a: string, b: string)
    ensures Compare(a, b) == -Compare(b, a)
  {
    if a != [] && b != [] && a[0] == b[0] {
      Antisymmetric(a[1..], b[1..]);
    }
  }

  /** The order is transitive. */
  lemma {:induction false} Transitive(a: string, b: string, c: string)
    requires Le(a, b) && Le(b, c)
    ensures Le(a, c)
  {
    if a != [] && b != [] && c != [] && a[0] == b[0] == c[0] {
      Transitive(a[1..], b[1..], c[1..]);
    }
  }

  /** Any two strings are ordered one way or the other. */
  lemma Total(a: string, b: string)
    ensures Le(a, b) || Le(b, a)
  {
    Antisymmetric(a, b);
  }
}
