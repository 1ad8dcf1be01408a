/** Rain sums over twelve and twenty-four hours. */
module RainSums {
  import opened Observations
  import opened Windows
  import opened Rounding
  import Gauge

  const NOTHING: real := -1.0

  predicate AllNegative(source: seq<real>) {
    forall i :: 0 <= i < |source| ==> source[i] < 0.0
  }

  /** The exact sum of the values that count as rain. */
  function SumOfRain(source: seq<real>): real {
    if source == [] then 0.0
    else
      var last := source[|source| - 1];
      SumOfRain(source[..|source| - 1]) + (if last >= 0.0 then last else 0.0)
  }

  /** -1 says that there was nothing to measure at all. */
  function Rr(source: seq<real>): real {
    if AllNegative(source) then NOTHING else SumOfRain(source)
  }

  method Calculate(source: seq<real>) returns (result: real)
    ensures result == Rr(source)
  {
    var nothing := true;
    var sum := 0.0;
    var i := 0;
    while i < |source|
      invariant 0 <= i <= |source|
      invariant sum == SumOfRain(source[..i])
      invariant nothing == AllNegative(source[..i])
    {
      assert source[..i + 1][..i] == source[..i];
      assert forall j :: 0 <= j < i ==> source[..i + 1][j] == source[..i][j];
      if source[i] >= 0.0 {
        sum := sum + source[i];
        assert !(source[..i + 1][i] < 0.0);
        nothing := false;
      }
      i := i + 1;
    }
    assert source[..i] == source;
    return if nothing then NOTHING else sum;
  }

  lemma {:induction false} SumIsNonNegative(source: seq<real>)
    ensures SumOfRain(source) >= 0.0
    ensures AllNegative(source) ==> SumOfRain(source) == 0.0
  {
    if source != [] {
      SumIsNonNegative(source[..|source| - 1]);
    }
  }

  lemma {:induction false} SumOfConcat(a: seq<real>, b: seq<real>)
    ensures SumOfRain(a + b) == SumOfRain(a) + SumOfRain(b)
  {
    if b == [] {
      assert a + b == a;
    } else {
      SumOfConcat(a, b[..|b| - 1]);
      assert (a + b)[..|a + b| - 1] == a + b[..|b| - 1];
    }
  }

  lemma NegativeConcat(a: seq<real>, b: seq<real>)
    ensures AllNegative(a + b) <==> AllNegative(a) && AllNegative(b)
  {
    if AllNegative(a + b) {
      forall i | 0 <= i < |a|
        ensures a[i] < 0.0
      {
        assert (a + b)[i] == a[i];
      }
      forall i | 0 <= i < |b|
        ensures b[i] < 0.0
      {
        assert (a + b)[|a| + i] == b[i];
      }
    }
  }

  lemma RrOfTwo(x: real, y: real)
    ensures AllNegative([x, y]) <==> x < 0.0 && y < 0.0
    ensures SumOfRain([x, y]) == (if x >= 0.0 then x else 0.0) + (if y >= 0.0 then y else 0.0)
  {
    var one, two := [x], [x, y];
    assert one[..|one| - 1] == [] && two[..|two| - 1] == one;
    assert SumOfRain(one) == if x >= 0.0 then x else 0.0;
    assert AllNegative(two) ==> two[0] < 0.0 && two[1] < 0.0;
  }

  /** Summing in two levels is summing at once, sentinel included. */
  lemma RrComposes(a: seq<real>, b: seq<real>)
    ensures Rr(a + b) == Rr([Rr(a), Rr(b)])
  {
    SumIsNonNegative(a);
    SumIsNonNegative(b);
    SumOfConcat(a, b);
    NegativeConcat(a, b);
    RrOfTwo(Rr(a), Rr(b));
  }

  /** One value more: it counts if it is rain, and the first that does replaces the sentinel. */
  lemma OneValueMore(source: seq<real>, x: real)
    ensures Rr([]) == -1.0
    ensures x < 0.0 ==> Rr(source + [x]) == Rr(source)
    ensures x >= 0.0 ==>
              Rr(source + [x]) == if forall i :: 0 <= i < |source| ==> source[i] < 0.0 then x else Rr(source) + x
  {
    SumIsNonNegative(source);
    NegativeConcat(source, [x]);
    assert (source + [x])[..|source|] == source;
    assert AllNegative([x]) <==> [x][0] < 0.0;
  }

  /** The reported 24-hour sum, through two reported 12-hour sums. */
  function Reported24(a: seq<real>, b: seq<real>): real {
    Round(Rr([Round(Rr(a)), Round(Rr(b))]))
  }

  /**
   * Rounding at both levels costs at most 0.15 against the exact sum of the
   * hourly values, and the sentinel survives exactly when nothing was measured.
   */
  lemma Reported24IsCloseToHourly(a: seq<real>, b: seq<real>)
    ensures Reported24(a, b) == NOTHING <==> AllNegative(a + b)
    ensures !AllNegative(a + b) ==> -0.15 <= Reported24(a, b) - SumOfRain(a + b) <= 0.15
  {
    SumIsNonNegative(a);
    SumIsNonNegative(b);
    SumOfConcat(a, b);
    NegativeConcat(a, b);
    RoundIsClose(Rr(a));
    RoundIsClose(Rr(b));
    var x, y := Round(Rr(a)), Round(Rr(b));
    RrOfTwo(x, y);
    SumIsNonNegative([x, y]);
    RoundIsClose(Rr([x, y]));
  }

  // ---- The two sums that make a day ----

  predicate AtTime(r: Row, timeOfDay: int) {
    TimeOfDay(r.key.obstime) == timeOfDay
  }

  predicate ShouldProcess24(trigger: Key, observations: seq<Row>) {
    && Gauge.ReadingTime(trigger.obstime)
    && (exists r :: r in observations && AtTime(r, 6 * HOUR))
    && (exists r :: r in observations && AtTime(r, 18 * HOUR))
  }

  /** For each time of day, search the list from its start. */
  method ShouldProcess(trigger: Key, observations: seq<Row>) returns (accepted: bool)
    ensures accepted == ShouldProcess24(trigger, observations)
  {
    if TimeOfDay(trigger.obstime) !in SIX_AND_SIX {
      return false;
    }
    var g := 0;
    while g < |SIX_AND_SIX|
      invariant 0 <= g <= 2
      invariant g > 0 ==> exists r :: r in observations && AtTime(r, 6 * HOUR)
      invariant g > 1 ==> exists r :: r in observations && AtTime(r, 18 * HOUR)
    {
      var i := 0;
      while i < |observations| && !AtTime(observations[i], SIX_AND_SIX[g])
        invariant 0 <= i <= |observations|
        invariant forall j :: 0 <= j < i ==> !AtTime(observations[j], SIX_AND_SIX[g])
      {
        i := i + 1;
      }
      if i == |observations| {
        return false;
      }
      assert observations[i] in observations;
      g := g + 1;
    }
    return true;
  }

  function RowsAt(rows: seq<Row>, timeOfDay: int): seq<Row> {
    if rows == [] then []
    else
      var last := rows[|rows| - 1];
      RowsAt(rows[..|rows| - 1], timeOfDay) + (if AtTime(last, timeOfDay) then [last] else [])
  }

  method ExtractUsefulData(dataIn: seq<Row>) returns (out: seq<Row>)
    ensures out == RowsAt(dataIn, 6 * HOUR) + RowsAt(dataIn, 18 * HOUR)
  {
    out := [];
    var g := 0;
    while g < |SIX_AND_SIX|
      invariant 0 <= g <= 2
      invariant out == (if g > 0 then RowsAt(dataIn, 6 * HOUR) else [])
                       + (if g > 1 then RowsAt(dataIn, 18 * HOUR) else [])
    {
      var before := out;
      var i := 0;
      while i < |dataIn|
        invariant 0 <= i <= |dataIn|
        invariant out == before + RowsAt(dataIn[..i], SIX_AND_SIX[g])
      {
        assert dataIn[..i + 1][..i] == dataIn[..i];
        if AtTime(dataIn[i], SIX_AND_SIX[g]) {
          out := out + [dataIn[i]];
        }
        i := i + 1;
      }
      assert dataIn[..i] == dataIn;
      g := g + 1;
    }
  }

  /** In a window of a day, one time of day occurs once. */
  lemma {:induction false} RowsAtSingle(rows: seq<Row>, timeOfDay: int, end: int, i: nat)
    requires DistinctTimes(rows) && InWindow(rows, end - DAY, end)
    requires i < |rows| && AtTime(rows[i], timeOfDay)
    ensures RowsAt(rows, timeOfDay) == [rows[i]]
  {
    var n := |rows| - 1;
    if i == n {
      forall j | 0 <= j < n
        ensures !AtTime(rows[..n][j], timeOfDay)
      {
      }
      RowsAtNone(rows[..n], timeOfDay);
    } else {
      RowsAtSingle(rows[..n], timeOfDay, end, i);
    }
  }

  lemma OncePerDay(t: int, u: int, end: int)
    requires end - DAY < t <= end && end - DAY < u <= end && TimeOfDay(t) == TimeOfDay(u)
    ensures t == u
  {
  }

  lemma {:induction false} RowsAtNone(rows: seq<Row>, timeOfDay: int)
    requires forall i :: 0 <= i < |rows| ==> !AtTime(rows[i], timeOfDay)
    ensures RowsAt(rows, timeOfDay) == []
  {
    if rows != [] {
      RowsAtNone(rows[..|rows| - 1], timeOfDay);
    }
  }

  /** An accepted day consists of exactly its morning and its evening sum, in that order. */
  lemma TwoSumsMakeADay(trigger: Key, observations: seq<Row>)
    requires ShouldProcess24(trigger, observations)
    requires DistinctTimes(observations)
    requires var span := GetTimeSpan(24, SIX_AM, trigger.obstime); InWindow(observations, span.first, span.second)
    ensures var end := GetTimeSpan(24, SIX_AM, trigger.obstime).second;
            exists morning, evening ::
              && RowsAt(observations, 6 * HOUR) + RowsAt(observations, 18 * HOUR) == [morning, evening]
              && morning in observations && morning.key.obstime == end
              && evening in observations && evening.key.obstime == end - 12 * HOUR
  {
    var end := GetTimeSpan(24, SIX_AM, trigger.obstime).second;
    DayEnds(trigger.obstime);
    var m := IndexAt(observations, 6 * HOUR, end, end);
    var e := IndexAt(observations, 18 * HOUR, end, end - 12 * HOUR);
    Pair(observations, RowsAt(observations, 6 * HOUR), RowsAt(observations, 18 * HOUR), m, e);
  }

  lemma Pair(rows: seq<Row>, x: seq<Row>, y: seq<Row>, m: nat, e: nat)
    requires m < |rows| && e < |rows| && x == [rows[m]] && y == [rows[e]]
    ensures x + y == [rows[m], rows[e]] && rows[m] in rows && rows[e] in rows
  {
  }

  /** A day is accepted exactly with a sum at its end, one twelve hours earlier, and a trigger at such a time. */
  lemma AcceptedDayIff(trigger: Key, observations: seq<Row>)
    requires DistinctTimes(observations)
    requires var span := GetTimeSpan(24, SIX_AM, trigger.obstime); InWindow(observations, span.first, span.second)
    ensures var end := GetTimeSpan(24, SIX_AM, trigger.obstime).second;
            ShouldProcess24(trigger, observations)
            <==> && trigger.obstime % 43200 == 21600
                 && (exists r :: r in observations && r.key.obstime == end)
                 && (exists r :: r in observations && r.key.obstime == end - 43200)
  {
    var end := GetTimeSpan(24, SIX_AM, trigger.obstime).second;
    DayEnds(trigger.obstime);
    Gauge.ReadingTimeIff(trigger.obstime);
    forall r | r in observations
      ensures AtTime(r, 6 * HOUR) <==> r.key.obstime == end
      ensures AtTime(r, 18 * HOUR) <==> r.key.obstime == end - 43200
    {
      var i :| 0 <= i < |observations| && observations[i] == r;
      if AtTime(r, 6 * HOUR) {
        OncePerDay(r.key.obstime, end, end);
      }
      if AtTime(r, 18 * HOUR) {
        OncePerDay(r.key.obstime, end - 43200, end);
      }
    }
  }

  lemma DayEnds(obstime: int)
    ensures var span := GetTimeSpan(24, SIX_AM, obstime);
            && span.first == span.second - DAY
            && TimeOfDay(span.second) == 6 * HOUR && TimeOfDay(span.second - 12 * HOUR) == 18 * HOUR
  {
    DailyScheduleHasGap(6 * HOUR);
    WindowEndIsNextScheduled(SIX_AM, obstime);
  }

  lemma IndexAt(rows: seq<Row>, timeOfDay: int, end: int, t: int) returns (i: nat)
    requires DistinctTimes(rows) && InWindow(rows, end - DAY, end)
    requires exists r :: r in rows && AtTime(r, timeOfDay)
    requires TimeOfDay(t) == timeOfDay && end - DAY < t <= end
    ensures i < |rows| && rows[i].key.obstime == t && RowsAt(rows, timeOfDay) == [rows[i]]
  {
    var r :| r in rows && AtTime(r, timeOfDay);
    i :| i < |rows| && rows[i] == r;
    RowsAtSingle(rows, timeOfDay, end, i);
    OncePerDay(rows[i].key.obstime, t, end);
  }
}
