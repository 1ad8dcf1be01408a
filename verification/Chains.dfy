/** How long a recursion can go on, for any relation between a call and the calls it makes. */
module Chains {

  /** `n` calls can follow one another, the first made by `x`. */
  ghost predicate Chain<T(!new)>(calls: (T, T) -> bool, x: T, n: nat)
    decreases n
  {
    n == 0 || exists y :: calls(x, y) && Chain(calls, y, n - 1)
  }

  ghost predicate Ends<T(!new)>(calls: (T, T) -> bool, x: T) {
    exists n: nat :: !Chain(calls, x, n)
  }

  lemma {:induction false} ShorterChain<T(!new)>(calls: (T, T) -> bool, x: T, n: nat, m: nat)
    requires m <= n && Chain(calls, x, n)
    ensures Chain(calls, x, m)
    decreases m
  {
    if m > 0 {
      var y :| calls(x, y) && Chain(calls, y, n - 1);
      ShorterChain(calls, y, n - 1, m - 1);
    }
  }

  /** The number of calls that cannot follow one another any more. */
  ghost function Depth<T(!new)>(calls: (T, T) -> bool, x: T): (n: nat)
    requires Ends(calls, x)
    ensures n > 0 && !Chain(calls, x, n) && Chain(calls, x, n - 1)
  {
    var n: nat :| !Chain(calls, x, n);
    FirstFailing(calls, x, n)
  }

  ghost function FirstFailing<T(!new)>(calls: (T, T) -> bool, x: T, n: nat): (m: nat)
    requires !Chain(calls, x, n)
    ensures 0 < m <= n && !Chain(calls, x, m) && Chain(calls, x, m - 1)
  {
    if Chain(calls, x, n - 1) then n else FirstFailing(calls, x, n - 1)
  }

  lemma DepthAtMost<T(!new)>(calls: (T, T) -> bool, x: T, n: nat)
    requires !Chain(calls, x, n)
    ensures Ends(calls, x) && Depth(calls, x) <= n
  {
    if n < Depth(calls, x) {
      ShorterChain(calls, x, Depth(calls, x) - 1, n);
    }
  }

  lemma CallIsShallower<T(!new)>(calls: (T, T) -> bool, x: T, y: T)
    requires Ends(calls, x) && calls(x, y)
    ensures Ends(calls, y) && Depth(calls, y) < Depth(calls, x)
  {
    DepthAtMost(calls, y, Depth(calls, x) - 1);
  }

  /** Where a measure falls with every call, it bounds the calls that follow one another. */
  lemma {:induction false} ChainIsShort<T(!new)>(
    calls: (T, T) -> bool, good: T -> bool, measure: T -> nat, x: T, n: nat)
    requires forall x, y :: good(x) && calls(x, y) ==> good(y) && measure(y) < measure(x)
    requires good(x) && Chain(calls, x, n)
    ensures n <= measure(x)
    decreases n
  {
    if n > 0 {
      var y :| calls(x, y) && Chain(calls, y, n - 1);
      ChainIsShort(calls, good, measure, y, n - 1);
    }
  }

  /** The recursion ends exactly if it ends for each of the finitely many calls made. */
  lemma EndsIff<T(!new)>(calls: (T, T) -> bool, x: T, ys: seq<T>)
    requires forall y :: calls(x, y) <==> y in ys
    ensures Ends(calls, x) <==> forall y :: y in ys ==> Ends(calls, y)
  {
    if Ends(calls, x) {
      forall y | y in ys
        ensures Ends(calls, y)
      {
        CallIsShallower(calls, x, y);
      }
    } else if forall y :: y in ys ==> Ends(calls, y) {
      var n := CommonDepth(calls, ys);
      assert Chain(calls, x, n + 1);
    }
  }

  lemma {:induction false} CommonDepth<T(!new)>(calls: (T, T) -> bool, ys: seq<T>) returns (n: nat)
    requires forall y :: y in ys ==> Ends(calls, y)
    ensures forall y :: y in ys ==> !Chain(calls, y, n)
  {
    if ys == [] {
      n := 0;
    } else {
      var m := CommonDepth(calls, ys[1..]);
      var k := Depth(calls, ys[0]);
      n := if m < k then k else m;
      forall y | y in ys
        ensures !Chain(calls, y, n)
      {
        if Chain(calls, y, n) {
          ShorterChain(calls, y, n, if y == ys[0] then k else m);
        }
      }
    }
  }
}
