/** What the elements of a list weigh together. */
module Sums {

  function Total<T>(weight: T -> nat, items: seq<T>): nat {
    if items == [] then 0 else Total(weight, items[..|items| - 1]) + weight(items[|items| - 1])
  }

  lemma {:induction false} TotalUpdate<T>(weight: T -> nat, items: seq<T>, i: nat, item: T)
    requires i < |items|
    ensures Total(weight, items[i := item]) == Total(weight, items) - weight(items[i]) + weight(item)
  {
    var front := items[..|items| - 1];
    if i < |items| - 1 {
      TotalUpdate(weight, front, i, item);
      assert items[i := item][..|items| - 1] == front[i := item];
    } else {
      assert items[i := item][..|items| - 1] == front;
    }
  }

  lemma {:induction false} TotalOfEqual<T>(weight: T -> nat, items: seq<T>, w: nat)
    requires forall i :: 0 <= i < |items| ==> weight(items[i]) == w
    ensures Total(weight, items) == w * |items|
  {
    if items != [] {
      TotalOfEqual(weight, items[..|items| - 1], w);
    }
  }
}
