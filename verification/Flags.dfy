/** Quality flags of an aggregate, merged from the flags of its source rows. */
module Flags {
  import opened Observations

  /** The missing-flag values that count; anything else is ignored. */
  function Known(flag: int): int {
    if 1 <= flag <= 4 then flag else 0
  }

  predicate IsFlag(flag: int) {
    0 <= flag <= 4
  }

  /** 0 below 4, 4 below 1 and 2, and 3 on top. */
  predicate Leq(a: int, b: int) {
    a == b || a == 0 || b == 3 || (a == 4 && (b == 1 || b == 2))
  }

  function Join(a: int, b: int): int {
    if Leq(a, b) then b else if Leq(b, a) then a else 3
  }

  lemma JoinIsLeastUpperBound(a: int, b: int, bound: int)
    requires IsFlag(a) && IsFlag(b) && IsFlag(bound)
    ensures IsFlag(Join(a, b)) && Leq(a, Join(a, b)) && Leq(b, Join(a, b))
    ensures Leq(a, bound) && Leq(b, bound) ==> Leq(Join(a, b), bound)
  {
  }

  function Fmis(rows: seq<Row>): (fmis: int)
    ensures IsFlag(fmis)
  {
    if rows == [] then 0
    else Join(Fmis(rows[..|rows| - 1]), Known(rows[|rows| - 1].value.control.fmis))
  }

  /** The switch, with its early exits, computes the join. */
  method GetFmis(rows: seq<Row>) returns (fmis: int)
    ensures fmis == Fmis(rows)
  {
    fmis := 0;
    var i := 0;
    while i < |rows|
      invariant 0 <= i <= |rows|
      invariant fmis == Fmis(rows[..i]) && fmis != 3
    {
      assert rows[..i + 1][..i] == rows[..i];
      var flag := rows[i].value.control.fmis;
      if flag == 1 {
        if fmis == 2 {
          FmisGrows(rows, i + 1);
          return 3;
        }
        fmis := 1;
      } else if flag == 2 {
        if fmis == 1 {
          FmisGrows(rows, i + 1);
          return 3;
        }
        fmis := 2;
      } else if flag == 3 {
        FmisGrows(rows, i + 1);
        return 3;
      } else if flag == 4 {
        if fmis == 0 {
          fmis := 4;
        }
      }
      i := i + 1;
    }
    assert rows[..i] == rows;
  }

  lemma {:induction false} FmisGrows(rows: seq<Row>, n: nat)
    requires n <= |rows|
    ensures Leq(Fmis(rows[..n]), Fmis(rows))
  {
    if n == |rows| {
      assert rows[..n] == rows;
    } else {
      var front := rows[..|rows| - 1];
      FmisGrows(front, n);
      assert front[..n] == rows[..n];
    }
  }

  lemma {:induction false} FmisOfConcat(a: seq<Row>, b: seq<Row>)
    ensures Fmis(a + b) == Join(Fmis(a), Fmis(b))
  {
    if b == [] {
      assert a + b == a;
    } else {
      var front := b[..|b| - 1];
      FmisOfConcat(a, front);
      assert (a + b)[..|a + b| - 1] == a + front;
    }
  }

  ghost predicate Bounds(rows: seq<Row>, bound: int) {
    forall r :: r in rows ==> Leq(Known(r.value.control.fmis), bound)
  }

  /** The merged flag is the least one above every row's flag. */
  lemma {:induction false} FmisIsLeastBound(rows: seq<Row>, bound: int)
    requires IsFlag(bound)
    ensures Bounds(rows, Fmis(rows))
    ensures Bounds(rows, bound) ==> Leq(Fmis(rows), bound)
  {
    if rows != [] {
      var front, last := rows[..|rows| - 1], rows[|rows| - 1];
      FmisIsLeastBound(front, bound);
      assert rows == front + [last];
      JoinIsLeastUpperBound(Fmis(front), Known(last.value.control.fmis), bound);
    }
  }

  /** The merged flag depends on which rows there are, not on their order or number. */
  lemma FmisOfSameRows(a: seq<Row>, b: seq<Row>)
    requires forall r :: r in a <==> r in b
    ensures Fmis(a) == Fmis(b)
  {
    FmisIsLeastBound(a, Fmis(b));
    FmisIsLeastBound(b, Fmis(a));
  }

  // ---- The aggregation flag ----

  function UseFlags2(rows: seq<Row>): set<int> {
    set r | r in rows :: r.value.use.flag2
  }

  function UseFlags3(rows: seq<Row>): set<int> {
    set r | r in rows :: r.value.use.flag3
  }

  function AggregateFlag(fmis: int, ui2: set<int>, ui3: set<int>): int {
    if fmis == 2 then 0xB
    else if fmis == 1 && 4 in ui3 then 7
    else if fmis == 4 && 3 in ui3 then 6
    else if (fmis == 1 || fmis == 4) && 6 in ui3 then 9
    else if fmis == 1 && 2 in ui3 then 5
    else if fmis == 4 && 1 in ui3 then 4
    else if (fmis == 1 || fmis == 4) && 5 in ui3 then 8
    else if fmis == 1 || fmis == 3 || fmis == 4 then 0
    else if 9 in ui2 then 0
    else if 2 in ui2 then 3
    else if 1 in ui2 then 2
    else 1
  }

  function FlagOf(rows: seq<Row>): int {
    AggregateFlag(Fmis(rows), UseFlags2(rows), UseFlags3(rows))
  }

  method CalculateAggregateFlag(rows: seq<Row>) returns (fagg: int)
    ensures fagg == FlagOf(rows)
  {
    var fmis := GetFmis(rows);
    if fmis == 2 {
      return 0xB;
    }
    var ui2, ui3 := {}, {};
    var i := 0;
    while i < |rows|
      invariant 0 <= i <= |rows|
      invariant ui2 == UseFlags2(rows[..i]) && ui3 == UseFlags3(rows[..i])
    {
      assert rows[..i + 1] == rows[..i] + [rows[i]];
      ui2 := ui2 + {rows[i].value.use.flag2};
      ui3 := ui3 + {rows[i].value.use.flag3};
      i := i + 1;
    }
    assert rows[..i] == rows;
    fagg := AggregateFlag(fmis, ui2, ui3);
  }

  /** Permuting or repeating source rows cannot change the aggregation flag. */
  lemma FlagOfSameRows(a: seq<Row>, b: seq<Row>)
    requires forall r :: r in a <==> r in b
    ensures FlagOf(a) == FlagOf(b)
  {
    FmisOfSameRows(a, b);
    assert UseFlags2(a) == UseFlags2(b);
    assert UseFlags3(a) == UseFlags3(b);
  }

  /** An aggregate is flagged as made of faultless rows exactly if no row is missing or flagged in use. */
  lemma FaultlessIff(rows: seq<Row>)
    ensures FlagOf(rows) == 1
            <==> forall r :: r in rows ==> Known(r.value.control.fmis) == 0 && r.value.use.flag2 !in {9, 2, 1}
  {
    FmisIsLeastBound(rows, 0);
  }

  // ---- What each result says about the rows ----

  ghost predicate SomeMissing(rows: seq<Row>, flag: int) {
    exists r :: r in rows && r.value.control.fmis == flag
  }

  ghost predicate SomeUse2(rows: seq<Row>, flag: int) {
    exists r :: r in rows && r.value.use.flag2 == flag
  }

  ghost predicate SomeUse3(rows: seq<Row>, flag: int) {
    exists r :: r in rows && r.value.use.flag3 == flag
  }

  /** Some row has missing flag 1; what the others have is 0, 1, 4 or no flag at all. */
  ghost predicate MissingLikeOne(rows: seq<Row>) {
    SomeMissing(rows, 1) && !SomeMissing(rows, 2) && !SomeMissing(rows, 3)
  }

  ghost predicate MissingLikeFour(rows: seq<Row>) {
    SomeMissing(rows, 4) && !SomeMissing(rows, 1) && !SomeMissing(rows, 2) && !SomeMissing(rows, 3)
  }

  ghost predicate NothingMissing(rows: seq<Row>) {
    forall r :: r in rows ==> r.value.control.fmis < 1 || r.value.control.fmis > 4
  }

  /** When the merged flag is which. */
  lemma {:induction false} FmisIff(rows: seq<Row>)
    ensures Fmis(rows) == 0 <==> NothingMissing(rows)
    ensures Fmis(rows) == 1 <==> MissingLikeOne(rows)
    ensures Fmis(rows) == 2 <==> SomeMissing(rows, 2) && !SomeMissing(rows, 1) && !SomeMissing(rows, 3)
    ensures Fmis(rows) == 3 <==> SomeMissing(rows, 3) || (SomeMissing(rows, 1) && SomeMissing(rows, 2))
    ensures Fmis(rows) == 4 <==> MissingLikeFour(rows)
  {
    if rows != [] {
      var front, last := rows[..|rows| - 1], rows[|rows| - 1];
      FmisIff(front);
      assert rows == front + [last];
    }
  }

  /** The results that one kind of missing row leads to. */
  lemma FlagOfOneKindIff(rows: seq<Row>)
    ensures FlagOf(rows) == 0xB <==> SomeMissing(rows, 2) && !SomeMissing(rows, 1) && !SomeMissing(rows, 3)
    ensures FlagOf(rows) == 7 <==> MissingLikeOne(rows) && SomeUse3(rows, 4)
    ensures FlagOf(rows) == 6 <==> MissingLikeFour(rows) && SomeUse3(rows, 3)
    ensures FlagOf(rows) == 5
            <==> MissingLikeOne(rows) && SomeUse3(rows, 2) && !SomeUse3(rows, 4) && !SomeUse3(rows, 6)
    ensures FlagOf(rows) == 4
            <==> MissingLikeFour(rows) && SomeUse3(rows, 1) && !SomeUse3(rows, 3) && !SomeUse3(rows, 6)
  {
    FmisIff(rows);
  }

  /** The results that either kind of missing row leads to. */
  lemma FlagOfEitherKindIff(rows: seq<Row>)
    ensures FlagOf(rows) == 9
            <==> && SomeUse3(rows, 6)
                 && ((MissingLikeOne(rows) && !SomeUse3(rows, 4)) || (MissingLikeFour(rows) && !SomeUse3(rows, 3)))
    ensures FlagOf(rows) == 8
            <==> && SomeUse3(rows, 5) && !SomeUse3(rows, 6)
                 && (|| (MissingLikeOne(rows) && !SomeUse3(rows, 4) && !SomeUse3(rows, 2))
                     || (MissingLikeFour(rows) && !SomeUse3(rows, 3) && !SomeUse3(rows, 1)))
  {
    FmisIff(rows);
  }

  /** Without missing rows the worst flag in use decides. */
  lemma FlagOfNothingMissingIff(rows: seq<Row>)
    ensures FlagOf(rows) == 3 <==> NothingMissing(rows) && SomeUse2(rows, 2) && !SomeUse2(rows, 9)
    ensures FlagOf(rows) == 2
            <==> NothingMissing(rows) && SomeUse2(rows, 1) && !SomeUse2(rows, 2) && !SomeUse2(rows, 9)
  {
    FmisIff(rows);
  }

  /** Nothing is said of rows missing in conflicting ways or for no listed reason, or of undecided use. */
  lemma UnspecifiedIff(rows: seq<Row>)
    ensures FlagOf(rows) == 0
            <==> || SomeMissing(rows, 3)
                 || (SomeMissing(rows, 1) && SomeMissing(rows, 2))
                 || (MissingLikeOne(rows) && forall r :: r in rows ==> r.value.use.flag3 !in {4, 6, 2, 5})
                 || (MissingLikeFour(rows) && forall r :: r in rows ==> r.value.use.flag3 !in {3, 6, 1, 5})
                 || (NothingMissing(rows) && SomeUse2(rows, 9))
  {
    FmisIff(rows);
  }
}
