/** Lists without duplicates. */
module Sequences {

  predicate NoDup<T(==)>(s: seq<T>) {
    forall i, j :: 0 <= i < j < |s| ==> s[i] != s[j]
  }

  lemma NoDupConcat<T>(a: seq<T>, b: seq<T>)
    requires NoDup(a) && NoDup(b) && forall x :: x in a ==> x !in b
    ensures NoDup(a + b)
  {
    assert forall k :: 0 <= k < |a| ==> (a + b)[k] == a[k] && a[k] in a;
    assert forall k :: |a| <= k < |a + b| ==> (a + b)[k] == b[k - |a|] && b[k - |a|] in b;
  }
}
