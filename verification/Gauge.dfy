/** Rainfall from a rain gauge that is read every twelve hours. */
module Gauge {
  import opened Wrappers
  import opened Observations
  import opened Windows
  import opened Rounding
  import opened StandardAggregators

  const TWELVE := 12 * HOUR

  predicate ReadingTime(t: int) {
    TimeOfDay(t) == 6 * HOUR || TimeOfDay(t) == 18 * HOUR
  }

  lemma ReadingTimeIff(t: int)
    ensures ReadingTime(t) <==> t % 43200 == 21600
  {
  }

  // ---- Windows ----

  function TimeOffset(forward: bool): int {
    if forward then 12 else -12
  }

  function GaugeSpan(forward: bool, obstime: int): TimeSpan {
    var ts := GetTimeSpan(25, SIX_AND_SIX, obstime);
    if forward then
      TimeSpan(ts.first + (TimeOffset(forward) + 1) * HOUR, ts.second + TimeOffset(forward) * HOUR)
    else ts
  }

  /** From a reading time the window ends at the reading, or at the next one. */
  lemma SpanOfReading(forward: bool, t: int)
    requires ReadingTime(t)
    ensures GaugeSpan(forward, t)
            == if forward then TimeSpan(t - TWELVE, t + TWELVE) else TimeSpan(t - 25 * HOUR, t)
  {
    TwiceDailyScheduleHasGap();
    assert Scheduled(SIX_AND_SIX, t);
    NextScheduledIsUnique(SIX_AND_SIX, t, t);
  }

  // ---- Selection ----

  function ReadingsOnly(rows: seq<Row>): seq<Row> {
    if rows == [] then []
    else
      var last := rows[|rows| - 1];
      ReadingsOnly(rows[..|rows| - 1]) + (if ReadingTime(last.key.obstime) then [last] else [])
  }

  /** The library's list sort, by obstime. */
  function InsertByTime(sorted: seq<Row>, r: Row): seq<Row> {
    if sorted == [] || sorted[|sorted| - 1].key.obstime <= r.key.obstime then sorted + [r]
    else InsertByTime(sorted[..|sorted| - 1], r) + [sorted[|sorted| - 1]]
  }

  function SortByTime(rows: seq<Row>): seq<Row> {
    if rows == [] then [] else InsertByTime(SortByTime(rows[..|rows| - 1]), rows[|rows| - 1])
  }

  predicate Ascending(rows: seq<Row>) {
    forall i, j :: 0 <= i < j < |rows| ==> rows[i].key.obstime <= rows[j].key.obstime
  }

  predicate ShouldProcess(trigger: Key, observations: seq<Row>) {
    && |observations| > 1
    && ReadingTime(trigger.obstime)
    && (exists r :: r in observations && TimeOfDay(r.key.obstime) == 6 * HOUR)
    && (exists r :: r in observations && TimeOfDay(r.key.obstime) == 18 * HOUR)
  }

  /** A reading is used exactly when the window has one from the morning and one from the evening. */
  lemma AcceptedIff(trigger: Key, observations: seq<Row>)
    ensures ShouldProcess(trigger, observations)
            <==> && trigger.obstime % 43200 == 21600
                 && (exists r :: r in observations && r.key.obstime % 86400 == 21600)
                 && (exists r :: r in observations && r.key.obstime % 86400 == 64800)
  {
    ReadingTimeIff(trigger.obstime);
    if (exists r :: r in observations && r.key.obstime % 86400 == 21600)
       && exists r :: r in observations && r.key.obstime % 86400 == 64800 {
      var morning :| morning in observations && morning.key.obstime % 86400 == 21600;
      var evening :| evening in observations && evening.key.obstime % 86400 == 64800;
    }
  }

  function HoursBetween(a: int, b: int): int {
    if a < b then (b - a) / HOUR else (a - b) / HOUR
  }

  /** The readings of a window in order; two must lie a period apart, and no other number than two or three will do. */
  function Extract(observations: seq<Row>): Option<seq<Row>> {
    var ret := SortByTime(ReadingsOnly(observations));
    if |ret| == 2 then
      if HoursBetween(ret[0].key.obstime, ret[1].key.obstime) != 12 then None else Some(ret)
    else if |ret| != 3 then None
    else Some(ret)
  }

  method ExtractUsefulData(forward: bool, dataIn: seq<Row>) returns (out: Option<seq<Row>>)
    ensures out == Extract(dataIn)
  {
    var ret := [];
    var i := 0;
    while i < |dataIn|
      invariant 0 <= i <= |dataIn|
      invariant ret == ReadingsOnly(dataIn[..i])
    {
      assert dataIn[..i + 1][..i] == dataIn[..i];
      if ReadingTime(dataIn[i].key.obstime) {
        ret := ret + [dataIn[i]];
      }
      i := i + 1;
    }
    assert dataIn[..i] == dataIn;
    ret := SortByTime(ret);
    if |ret| == 2 {
      var t1, t2 := ret[0].key.obstime, ret[1].key.obstime;
      var offset := TimeOffset(forward);
      if HoursBetween(t1, t2) != (if offset < 0 then -offset else offset) {
        return None;
      }
    } else if |ret| != 3 {
      return None;
    }
    out := Some(ret);
  }

  lemma {:induction false} ReadingsMembers(rows: seq<Row>)
    ensures forall r :: r in ReadingsOnly(rows) <==> r in rows && ReadingTime(r.key.obstime)
  {
    if rows != [] {
      ReadingsMembers(rows[..|rows| - 1]);
      assert rows == rows[..|rows| - 1] + [rows[|rows| - 1]];
    }
  }

  lemma {:induction false} ReadingsDistinct(rows: seq<Row>)
    requires DistinctTimes(rows)
    ensures DistinctTimes(ReadingsOnly(rows))
  {
    if rows != [] {
      var front := rows[..|rows| - 1];
      var kept := ReadingsOnly(front);
      ReadingsDistinct(front);
      ReadingsMembers(front);
      forall i | 0 <= i < |kept|
        ensures kept[i].key.obstime != rows[|rows| - 1].key.obstime
      {
        assert kept[i] in front;
      }
    }
  }

  lemma {:induction false} InsertMembers(sorted: seq<Row>, r: Row)
    ensures multiset(InsertByTime(sorted, r)) == multiset(sorted) + multiset{r}
    ensures forall x :: x in InsertByTime(sorted, r) <==> x in sorted || x == r
  {
    if sorted != [] && sorted[|sorted| - 1].key.obstime > r.key.obstime {
      InsertMembers(sorted[..|sorted| - 1], r);
      assert sorted == sorted[..|sorted| - 1] + [sorted[|sorted| - 1]];
    }
  }

  lemma {:induction false} InsertKeepsOrder(sorted: seq<Row>, r: Row)
    requires Ascending(sorted)
    ensures Ascending(InsertByTime(sorted, r))
  {
    if sorted != [] && sorted[|sorted| - 1].key.obstime > r.key.obstime {
      var front, last := sorted[..|sorted| - 1], sorted[|sorted| - 1];
      var inner := InsertByTime(front, r);
      InsertKeepsOrder(front, r);
      InsertMembers(front, r);
      forall i | 0 <= i < |inner|
        ensures inner[i].key.obstime <= last.key.obstime
      {
        assert inner[i] in inner;
      }
    }
  }

  lemma LastRow(rows: seq<Row>)
    requires rows != []
    ensures multiset(rows) == multiset(rows[..|rows| - 1]) + multiset{rows[|rows| - 1]}
    ensures forall x :: x in rows <==> x in rows[..|rows| - 1] || x == rows[|rows| - 1]
  {
    assert rows == rows[..|rows| - 1] + [rows[|rows| - 1]];
  }

  /** Sorting yields the same rows, in order of time. */
  lemma {:induction false} SortSorts(rows: seq<Row>)
    ensures Ascending(SortByTime(rows))
    ensures multiset(SortByTime(rows)) == multiset(rows)
    ensures forall x :: x in SortByTime(rows) <==> x in rows
  {
    if rows != [] {
      var front := rows[..|rows| - 1];
      SortSorts(front);
      InsertKeepsOrder(SortByTime(front), rows[|rows| - 1]);
      InsertMembers(SortByTime(front), rows[|rows| - 1]);
      LastRow(rows);
    }
  }

  predicate StrictlyAscending(rows: seq<Row>) {
    forall i, j :: 0 <= i < j < |rows| ==> rows[i].key.obstime < rows[j].key.obstime
  }

  lemma SortOfDistinct(rows: seq<Row>)
    requires DistinctTimes(rows)
    ensures StrictlyAscending(SortByTime(rows))
  {
    var sorted := SortByTime(rows);
    SortSorts(rows);
    forall i, j | 0 <= i < j < |sorted|
      ensures sorted[i].key.obstime < sorted[j].key.obstime
    {
      if sorted[i].key.obstime == sorted[j].key.obstime {
        OneRowPerTime(rows, sorted[i], sorted[j]);
        TwiceInSequence(sorted, i, j);
        DistinctMeansOnce(rows, sorted[i]);
      }
    }
  }

  lemma TwiceInSequence(rows: seq<Row>, i: nat, j: nat)
    requires i < j < |rows| && rows[i] == rows[j]
    ensures multiset(rows)[rows[i]] >= 2
  {
    assert rows == rows[..j] + rows[j..];
    assert rows[i] in rows[..j] && rows[j] in rows[j..];
  }

  lemma {:induction false} DistinctMeansOnce(rows: seq<Row>, r: Row)
    requires DistinctTimes(rows)
    ensures multiset(rows)[r] <= 1
  {
    if rows != [] {
      var front, last := rows[..|rows| - 1], rows[|rows| - 1];
      DistinctMeansOnce(front, r);
      assert rows == front + [last];
      assert last !in front;
    }
  }

  // ---- Accepted selections never fail ----

  /** What the aggregation handler hands over: a window's rows, one for each time, the trigger among them. */
  ghost predicate WindowRows(forward: bool, trigger: Key, observations: seq<Row>) {
    var span := GaugeSpan(forward, trigger.obstime);
    && DistinctTimes(observations)
    && InWindow(observations, span.first, span.second)
    && HasTime(observations, trigger.obstime)
  }

  lemma ReadingTimesNear(t: int, u: int)
    requires ReadingTime(t) && ReadingTime(u)
    requires t - 25 * HOUR < u <= t + TWELVE
    ensures u == t - 2 * TWELVE || u == t - TWELVE || u == t || u == t + TWELVE
    ensures u == t || u == t - 2 * TWELVE <==> TimeOfDay(u) == TimeOfDay(t)
  {
  }

  /** Strictly ascending rows drawn from three times, the latest two present. */
  lemma LatestTwo(rows: seq<Row>, a: int, b: int, c: int)
    requires StrictlyAscending(rows) && a < b < c
    requires forall i :: 0 <= i < |rows| ==> rows[i].key.obstime in {a, b, c}
    requires HasTime(rows, b) && HasTime(rows, c)
    ensures 2 <= |rows| <= 3
    ensures rows[|rows| - 1].key.obstime == c && rows[|rows| - 2].key.obstime == b
    ensures |rows| == 3 ==> rows[0].key.obstime == a
    ensures |rows| == 3 <==> HasTime(rows, a)
  {
    var n := |rows|;
    var last, second := TimeIndex(rows, c), TimeIndex(rows, b);
    Later(rows, last, n - 1);
    assert last == n - 1;
    Later(rows, second, n - 1);
    Later(rows, second, n - 2);
    Later(rows, n - 2, n - 1);
    assert second == n - 2;
    if n > 3 {
      Later(rows, 0, 1);
      Later(rows, 1, second);
      assert false;
    }
    Later(rows, 0, second);
    if HasTime(rows, a) {
      var first := TimeIndex(rows, a);
    }
    if n == 3 {
      assert rows[0] in rows;
    }
  }

  lemma Later(rows: seq<Row>, i: nat, j: nat)
    requires StrictlyAscending(rows) && i <= j < |rows|
    ensures rows[i].key.obstime <= rows[j].key.obstime
    ensures i < j ==> rows[i].key.obstime < rows[j].key.obstime
  {
  }

  ghost function TimeIndex(rows: seq<Row>, t: int): (i: nat)
    requires HasTime(rows, t)
    ensures i < |rows| && rows[i].key.obstime == t
  {
    var r :| r in rows && r.key.obstime == t;
    var i :| 0 <= i < |rows| && rows[i] == r;
    i
  }

  lemma KeptTimes(observations: seq<Row>, t: int)
    requires ReadingTime(t)
    ensures HasTime(SortByTime(ReadingsOnly(observations)), t) <==> HasTime(observations, t)
  {
    ReadingsMembers(observations);
    SortSorts(ReadingsOnly(observations));
  }

  lemma Sorted(observations: seq<Row>)
    requires DistinctTimes(observations)
    ensures var out := SortByTime(ReadingsOnly(observations));
            && StrictlyAscending(out)
            && forall r :: r in out <==> r in observations && ReadingTime(r.key.obstime)
  {
    ReadingsMembers(observations);
    ReadingsDistinct(observations);
    SortSorts(ReadingsOnly(observations));
    SortOfDistinct(ReadingsOnly(observations));
  }

  /** A reading from the other half of the day than the trigger's. */
  lemma OtherReading(observations: seq<Row>, t: int) returns (other: int)
    requires ReadingTime(t)
    requires exists r :: r in observations && TimeOfDay(r.key.obstime) == 6 * HOUR
    requires exists r :: r in observations && TimeOfDay(r.key.obstime) == 18 * HOUR
    ensures HasTime(observations, other) && ReadingTime(other) && TimeOfDay(other) != TimeOfDay(t)
  {
    var timeOfDay := if TimeOfDay(t) == 6 * HOUR then 18 * HOUR else 6 * HOUR;
    var r :| r in observations && TimeOfDay(r.key.obstime) == timeOfDay;
    other := r.key.obstime;
  }

  lemma ExtractSucceeds(observations: seq<Row>)
    requires var ret := SortByTime(ReadingsOnly(observations));
             |ret| == 3 || (|ret| == 2 && ret[1].key.obstime - ret[0].key.obstime == TWELVE)
    ensures Extract(observations) == Some(SortByTime(ReadingsOnly(observations)))
  {
  }

  /**
   * Exactly when a selection is made: of three readings, or of two that lie a
   * period apart; it is these readings in order of time.
   */
  lemma ExtractIff(observations: seq<Row>, out: seq<Row>)
    requires DistinctTimes(observations) && StrictlyAscending(out)
    requires forall r :: r in out <==> r in observations && ReadingTime(r.key.obstime)
    ensures Extract(observations)
            == if |out| == 3 || (|out| == 2 && 12 * 3600 <= out[1].key.obstime - out[0].key.obstime < 13 * 3600)
               then Some(out) else None
  {
    Sorted(observations);
    SameAscending(SortByTime(ReadingsOnly(observations)), out);
  }

  /** An ascending list is determined by its rows. */
  lemma {:induction false} SameAscending(a: seq<Row>, b: seq<Row>)
    requires StrictlyAscending(a) && StrictlyAscending(b) && forall r :: r in a <==> r in b
    ensures a == b
    decreases |a|
  {
    SomeRow(b);
    if a != [] {
      var last := a[|a| - 1];
      assert last in a;
      var x, y := a[..|a| - 1], b[..|b| - 1];
      SameLast(a, b);
      SameFronts(a, b, x, y, last);
      SameAscending(x, y);
      assert a == x + [last] && b == y + [last];
    }
  }

  lemma SameFronts(a: seq<Row>, b: seq<Row>, x: seq<Row>, y: seq<Row>, last: Row)
    requires forall r :: r in a <==> r in b
    requires forall r :: r in x <==> r in a && r != last
    requires forall r :: r in y <==> r in b && r != last
    ensures forall r :: r in x <==> r in y
  {
  }

  lemma SameLast(a: seq<Row>, b: seq<Row>)
    requires StrictlyAscending(a) && StrictlyAscending(b) && a != [] && b != []
    requires forall r :: r in a <==> r in b
    ensures a[|a| - 1] == b[|b| - 1]
  {
    assert a[|a| - 1] in a;
    assert b[|b| - 1] in b;
    var i := IndexOf(b, a[|a| - 1]);
    var j := IndexOf(a, b[|b| - 1]);
    Later(b, i, |b| - 1);
    Later(a, j, |a| - 1);
  }

  lemma IndexOf(rows: seq<Row>, r: Row) returns (i: nat)
    requires r in rows
    ensures i < |rows| && rows[i] == r
  {
    i :| 0 <= i < |rows| && rows[i] == r;
  }

  lemma ReadingTimesRecur(t: int)
    requires ReadingTime(t)
    ensures ReadingTime(t - 2 * TWELVE) && ReadingTime(t - TWELVE) && ReadingTime(t + TWELVE)
  {
  }

  lemma BackwardRange(t: int, observations: seq<Row>)
    requires ReadingTime(t) && DistinctTimes(observations) && InWindow(observations, t - 25 * HOUR, t)
    ensures var out := SortByTime(ReadingsOnly(observations));
            forall i :: 0 <= i < |out| ==> out[i].key.obstime in {t - 2 * TWELVE, t - TWELVE, t}
  {
    var out := SortByTime(ReadingsOnly(observations));
    Sorted(observations);
    forall i | 0 <= i < |out|
      ensures out[i].key.obstime in {t - 2 * TWELVE, t - TWELVE, t}
    {
      assert out[i] in out;
      ReadingTimesNear(t, out[i].key.obstime);
    }
  }

  lemma BackwardTimes(trigger: Key, observations: seq<Row>)
    requires WindowRows(false, trigger, observations) && ShouldProcess(trigger, observations)
    ensures var t, out := trigger.obstime, SortByTime(ReadingsOnly(observations));
            && HasTime(out, t) && HasTime(out, t - TWELVE)
            && (HasTime(out, t - 2 * TWELVE) <==> HasTime(observations, t - 2 * TWELVE))
  {
    var t := trigger.obstime;
    SpanOfReading(false, t);
    var other := OtherReading(observations, t);
    ReadingTimesNear(t, other);
    ReadingTimesRecur(t);
    KeptTimes(observations, t);
    KeptTimes(observations, other);
    KeptTimes(observations, t - 2 * TWELVE);
  }

  /**
   * Backward: an accepted window yields the readings at T-12h and T, and the one
   * at T-24h if there is one.
   */
  lemma BackwardSelection(trigger: Key, observations: seq<Row>)
    requires WindowRows(false, trigger, observations) && ShouldProcess(trigger, observations)
    ensures Extract(observations).Some?
    ensures var t, out := trigger.obstime, Extract(observations).value;
            && 2 <= |out| <= 3 && StrictlyAscending(out)
            && out[|out| - 1].key.obstime == t == GaugeSpan(false, t).second
            && out[|out| - 2].key.obstime == t - TWELVE
            && (|out| == 3 ==> out[0].key.obstime == t - 2 * TWELVE)
            && (|out| == 3 <==> HasTime(observations, t - 2 * TWELVE))
            && forall r :: r in out <==> r in observations && ReadingTime(r.key.obstime)
  {
    var t := trigger.obstime;
    SpanOfReading(false, t);
    BackwardTimes(trigger, observations);
    BackwardRange(t, observations);
    Sorted(observations);
    LatestTwo(SortByTime(ReadingsOnly(observations)), t - 2 * TWELVE, t - TWELVE, t);
    ExtractSucceeds(observations);
  }

  lemma ForwardTimes(trigger: Key, observations: seq<Row>)
    requires WindowRows(true, trigger, observations) && ShouldProcess(trigger, observations)
    ensures var t, out := trigger.obstime, SortByTime(ReadingsOnly(observations));
            && HasTime(out, t) && HasTime(out, t + TWELVE) && !HasTime(out, t - TWELVE)
            && forall i :: 0 <= i < |out| ==> out[i].key.obstime in {t - TWELVE, t, t + TWELVE}
  {
    var t, out := trigger.obstime, SortByTime(ReadingsOnly(observations));
    SpanOfReading(true, t);
    var other := OtherReading(observations, t);
    ReadingTimesNear(t, other);
    KeptTimes(observations, t);
    KeptTimes(observations, other);
    Sorted(observations);
    forall i | 0 <= i < |out|
      ensures out[i].key.obstime in {t, t + TWELVE}
    {
      assert out[i] in out;
      ReadingTimesNear(t, out[i].key.obstime);
    }
  }

  /** Forward: an accepted window yields exactly the readings at T and T+12h. */
  lemma ForwardSelection(trigger: Key, observations: seq<Row>)
    requires WindowRows(true, trigger, observations) && ShouldProcess(trigger, observations)
    ensures Extract(observations).Some?
    ensures var t, out := trigger.obstime, Extract(observations).value;
            && |out| == 2
            && out[0].key.obstime == t && out[1].key.obstime == t + TWELVE == GaugeSpan(true, t).second
            && forall r :: r in out <==> r in observations && ReadingTime(r.key.obstime)
  {
    var t := trigger.obstime;
    SpanOfReading(true, t);
    ForwardTimes(trigger, observations);
    Sorted(observations);
    LatestTwo(SortByTime(ReadingsOnly(observations)), t - TWELVE, t, t + TWELVE);
    ExtractSucceeds(observations);
  }

  // ---- Rainfall ----

  const ZERO := 0.01

  function Calculate(source: seq<real>): real {
    var result :=
      if |source| == 2 then source[1] - source[0]
      else if |source| == 3 then
        var diff12h := source[2] - source[1];
        if diff12h < ZERO then 0.0
        else
          var diff24h := source[2] - source[0];
          var diff12hPrevious := source[1] - source[0];
          if diff12hPrevious <= -100.0 then diff12h
          else if diff24h <= ZERO then 0.0
          else if diff12hPrevious >= ZERO then diff12h
          else diff24h
      else 0.0;
    if result < 0.0001 then 0.0 else result
  }

  function GaugeAggregator(forward: bool): StandardAggregator {
    StandardAggregator(RA, RR_12,
                       t => GaugeSpan(forward, t),
                       (trigger, observations) => ShouldProcess(trigger, observations),
                       (trigger, observations) => Extract(observations),
                       (trigger, kind, values) => Some(Calculate(values)))
  }

  /** An accepted gauge window always produces a row, dated at its last reading. */
  lemma AcceptedGaugeProducesRow(forward: bool, trigger: Key, observations: seq<Row>)
    requires WindowRows(forward, trigger, observations) && ShouldProcess(trigger, observations)
    ensures Process(GaugeAggregator(forward), trigger, observations).Some?
    ensures var r := Process(GaugeAggregator(forward), trigger, observations).value;
            var used := Extract(observations).value;
            && r.key.param == RR_12
            && r.key.obstime == used[|used| - 1].key.obstime
            && r.value.originalMissing == AnyMissing(used)
            && (!AnyMissing(used) ==> r.value.original == Round(Calculate(Originals(used))))
            && r.value.valid == !AnyInvalid(used)
            && (!AnyInvalid(used) ==> r.value.corrected == Round(Calculate(Correcteds(used))))
  {
    var a := GaugeAggregator(forward);
    var used := SelectedRows(forward, trigger, observations);
    RainIsNonNegative(Originals(used));
    RainIsNonNegative(Correcteds(used));
    NonNegativeMonotone(0.0, Calculate(Correcteds(used)));
    var original, corrected := OriginalOf(a, trigger, used), CorrectedOf(a, trigger, used);
    var end := GaugeSpan(forward, trigger.obstime).second;
    assert Process(a, trigger, observations)
           == Some(GetDataObject(trigger, RR_12, end, original.value, corrected.value, used));
    EmittedRow(trigger, RR_12, end, original.value, corrected.value, used);
  }

  lemma SelectedRows(forward: bool, trigger: Key, observations: seq<Row>) returns (used: seq<Row>)
    requires WindowRows(forward, trigger, observations) && ShouldProcess(trigger, observations)
    ensures Extract(observations) == Some(used) && |used| > 0
    ensures var end := GaugeSpan(forward, trigger.obstime).second;
            used[|used| - 1].key.obstime == end && DatedAt(GaugeSpan(forward, trigger.obstime)) == end
  {
    var t := trigger.obstime;
    SpanOfReading(forward, t);
    if forward {
      ForwardSelection(trigger, observations);
    } else {
      BackwardSelection(trigger, observations);
    }
    used := Extract(observations).value;
    FullHour(t);
    FullHour(t + TWELVE);
  }

  lemma FullHour(t: int)
    requires ReadingTime(t) || ReadingTime(t - TWELVE)
    ensures Midnight(t) + HourOfDay(t) * HOUR == t
  {
  }

  lemma RainIsNonNegative(source: seq<real>)
    ensures Calculate(source) >= 0.0
  {
  }

  function Shifted(source: seq<real>, offset: real): seq<real> {
    seq(|source|, i requires 0 <= i < |source| => source[i] + offset)
  }

  /** Only differences matter: where the gauge's zero lies does not. */
  lemma RainIgnoresGaugeZero(source: seq<real>, offset: real)
    ensures Calculate(Shifted(source, offset)) == Calculate(source)
  {
  }

  /** The rainfall of period `i` of a series of readings. */
  function RainAt(readings: seq<real>, i: nat): real
    requires 1 <= i < |readings|
  {
    if i == 1 then Calculate([readings[0], readings[1]])
    else Calculate([readings[i - 2], readings[i - 1], readings[i]])
  }

  function Rise(readings: seq<real>, i: nat): real
    requires 1 <= i < |readings|
  {
    readings[i] - readings[i - 1]
  }

  function PositiveRise(readings: seq<real>, i: nat): real
    requires 1 <= i < |readings|
  {
    if Rise(readings, i) > 0.0 then Rise(readings, i) else 0.0
  }

  /** Totals over the first `n` periods. */
  function TotalRain(readings: seq<real>, n: nat): real
    requires n < |readings|
  {
    if n == 0 then 0.0 else TotalRain(readings, n - 1) + RainAt(readings, n)
  }

  function TotalReported(readings: seq<real>, n: nat): real
    requires n < |readings|
  {
    if n == 0 then 0.0 else TotalReported(readings, n - 1) + Round(RainAt(readings, n))
  }

  function TotalRise(readings: seq<real>, n: nat): real
    requires n < |readings|
  {
    if n == 0 then 0.0 else TotalRise(readings, n - 1) + PositiveRise(readings, n)
  }

  /** No rain is invented: the total never exceeds the rises by more than a hundredth per period. */
  lemma {:induction false} TotalBoundedByRises(readings: seq<real>, n: nat)
    requires n < |readings|
    ensures 0.0 <= TotalRain(readings, n) <= TotalRise(readings, n) + ZERO * n as real
  {
    if n > 0 {
      TotalBoundedByRises(readings, n - 1);
    }
  }

  /** No rain is lost: while every reading rises, the totals telescope. */
  lemma {:induction false} SteadyRainTelescopes(readings: seq<real>, n: nat)
    requires n < |readings|
    requires forall i :: 1 <= i <= n ==> Rise(readings, i) >= ZERO
    ensures TotalRain(readings, n) == readings[n] - readings[0]
  {
    if n > 0 {
      SteadyRainTelescopes(readings, n - 1);
      assert Rise(readings, n) >= ZERO;
      assert n > 1 ==> Rise(readings, n - 1) >= ZERO;
    }
  }

  /** The first period has only the one difference to go by. */
  lemma RainOfFirstPeriod(readings: seq<real>)
    requires |readings| > 1
    ensures RainAt(readings, 1)
            == if readings[1] - readings[0] < 0.0001 then 0.0 else readings[1] - readings[0]
  {
  }

  /** While the level does not rise by a hundredth, no rain is reported. */
  lemma NoRiseIsNoRain(readings: seq<real>, i: nat)
    requires 2 <= i < |readings| && readings[i] - readings[i - 1] < 0.01
    ensures RainAt(readings, i) == 0.0
  {
  }

  /** After a period in which it rained, or in which the gauge was emptied, a rise is rain in full. */
  lemma RiseAfterRainOrEmptying(readings: seq<real>, i: nat)
    requires 2 <= i < |readings| && readings[i] - readings[i - 1] >= 0.01
    requires readings[i - 1] - readings[i - 2] >= 0.01 || readings[i - 1] - readings[i - 2] <= -100.0
    ensures RainAt(readings, i) == readings[i] - readings[i - 1]
  {
  }

  /**
   * After a small drop a rise counts from the level before it: what evaporated
   * is made good first. For two periods together the rain reported is what the
   * level rose on balance, if that is more than a hundredth.
   */
  lemma DipIsMadeGood(readings: seq<real>, i: nat)
    requires 2 <= i < |readings| && readings[i] - readings[i - 1] >= 0.01
    requires -100.0 < readings[i - 1] - readings[i - 2] < 0.0001
    ensures RainAt(readings, i - 1) + RainAt(readings, i)
            == if readings[i] - readings[i - 2] > 0.01 then readings[i] - readings[i - 2] else 0.0
    ensures RainAt(readings, i - 1) == 0.0
  {
  }

  /** A rise too small to be reported is reported with the next one; only in the first period is it counted twice. */
  lemma SmallRiseIsCarried(readings: seq<real>, i: nat)
    requires 2 <= i < |readings| && readings[i] - readings[i - 1] >= 0.01
    requires 0.0001 <= readings[i - 1] - readings[i - 2] < 0.01
    ensures RainAt(readings, i) == readings[i] - readings[i - 2]
    ensures RainAt(readings, i - 1) == if i == 2 then readings[1] - readings[0] else 0.0
  {
  }

  /** What is reported differs from what fell by at most half a tenth per period. */
  lemma {:induction false} ReportedIsCloseToRain(readings: seq<real>, n: nat)
    requires n < |readings|
    ensures -0.05 * n as real <= TotalReported(readings, n) - TotalRain(readings, n) <= 0.05 * n as real
  {
    if n > 0 {
      ReportedIsCloseToRain(readings, n - 1);
      RoundIsClose(RainAt(readings, n));
    }
  }

  /**
   * The forward aggregator sees two readings where the backward one sees three.
   * The rain they calculate for a period is the same exactly in these cases.
   */
  lemma ForwardAgreesWithBackwardIff(x0: real, x1: real, x2: real)
    ensures Calculate([x1, x2]) == Calculate([x0, x1, x2])
            <==> || x2 - x1 < 0.0001
                 || (x2 - x1 >= ZERO && (x1 - x0 <= -100.0 || x1 - x0 >= ZERO))
                 || (x2 - x1 > ZERO && x1 == x0)
  {
  }

  lemma InsertLast(sorted: seq<Row>, r: Row)
    requires sorted == [] || sorted[|sorted| - 1].key.obstime <= r.key.obstime
    ensures InsertByTime(sorted, r) == sorted + [r]
  {
  }

  lemma {:induction false} SortOfSorted(rows: seq<Row>)
    requires Ascending(rows)
    ensures SortByTime(rows) == rows
  {
    if rows != [] {
      var front := rows[..|rows| - 1];
      SortOfSorted(front);
      InsertLast(front, rows[|rows| - 1]);
      assert rows == front + [rows[|rows| - 1]];
    }
  }

  lemma {:induction false} ReadingsOfReadings(rows: seq<Row>)
    requires forall i :: 0 <= i < |rows| ==> ReadingTime(rows[i].key.obstime)
    ensures ReadingsOnly(rows) == rows
  {
    if rows != [] {
      ReadingsOfReadings(rows[..|rows| - 1]);
      assert rows == rows[..|rows| - 1] + [rows[|rows| - 1]];
    }
  }

  /** Three readings of one gauge, twelve hours apart, none of them missing. */
  predicate ThreeReadings(r0: Row, r1: Row, r2: Row) {
    && ReadingTime(r2.key.obstime)
    && r1.key == r2.key.(obstime := r2.key.obstime - TWELVE)
    && r0.key == r2.key.(obstime := r2.key.obstime - 2 * TWELVE)
    && !r0.value.originalMissing && !r1.value.originalMissing && !r2.value.originalMissing
  }

  lemma ReadingsExtracted(rows: seq<Row>)
    requires StrictlyAscending(rows) && forall i :: 0 <= i < |rows| ==> ReadingTime(rows[i].key.obstime)
    requires |rows| == 3 || (|rows| == 2 && rows[1].key.obstime - rows[0].key.obstime == TWELVE)
    ensures Extract(rows) == Some(rows)
  {
    ReadingsOfReadings(rows);
    SortOfSorted(rows);
    ExtractSucceeds(rows);
  }

  /** A list with readings of either half of the day, in the trigger's window. */
  lemma ReadingsAccepted(forward: bool, trigger: Key, rows: seq<Row>, a: Row, b: Row)
    requires DistinctTimes(rows) && |rows| > 1 && a in rows && b in rows
    requires ReadingTime(trigger.obstime) && HasTime(rows, trigger.obstime)
    requires InWindow(rows, GaugeSpan(forward, trigger.obstime).first, GaugeSpan(forward, trigger.obstime).second)
    requires ReadingTime(b.key.obstime) && a.key.obstime == b.key.obstime - TWELVE
    ensures WindowRows(forward, trigger, rows) && ShouldProcess(trigger, rows)
  {
    HalfDaysDiffer(b.key.obstime);
  }

  lemma ThreeReadingsAccepted(r0: Row, r1: Row, r2: Row)
    requires ThreeReadings(r0, r1, r2)
    ensures WindowRows(false, r2.key, [r0, r1, r2]) && ShouldProcess(r2.key, [r0, r1, r2])
    ensures Extract([r0, r1, r2]) == Some([r0, r1, r2])
  {
    ReadingTimesRecur(r2.key.obstime);
    SpanOfReading(false, r2.key.obstime);
    assert r1 in [r0, r1, r2] && r2 in [r0, r1, r2];
    ReadingsExtracted([r0, r1, r2]);
    ReadingsAccepted(false, r2.key, [r0, r1, r2], r1, r2);
  }

  lemma TwoReadingsAccepted(r0: Row, r1: Row, r2: Row)
    requires ThreeReadings(r0, r1, r2)
    ensures WindowRows(true, r1.key, [r1, r2]) && ShouldProcess(r1.key, [r1, r2])
    ensures Extract([r1, r2]) == Some([r1, r2])
  {
    ReadingTimesRecur(r2.key.obstime);
    SpanOfReading(true, r1.key.obstime);
    assert r1 in [r1, r2] && r2 in [r1, r2];
    ReadingsExtracted([r1, r2]);
    ReadingsAccepted(true, r1.key, [r1, r2], r1, r2);
  }

  lemma HalfDaysDiffer(t: int)
    requires ReadingTime(t)
    ensures TimeOfDay(t) == 6 * HOUR <==> TimeOfDay(t - TWELVE) == 18 * HOUR
    ensures TimeOfDay(t) == 18 * HOUR <==> TimeOfDay(t - TWELVE) == 6 * HOUR
  {
  }

  /** The row made of a list of readings that is used as it is. */
  lemma EmittedRain(forward: bool, trigger: Key, rows: seq<Row>)
    requires WindowRows(forward, trigger, rows) && ShouldProcess(trigger, rows)
    requires Extract(rows) == Some(rows) && rows != [] && !AnyMissing(rows)
    ensures var made := Process(GaugeAggregator(forward), trigger, rows);
            && made.Some? && made.value.value.original == Round(Calculate(Originals(rows)))
            && made.value.key == trigger.(param := RR_12, obstime := rows[|rows| - 1].key.obstime,
                                          typeId := Negative(trigger.typeId))
  {
    AcceptedGaugeProducesRow(forward, trigger, rows);
    ProcessedRow(GaugeAggregator(forward), trigger, rows);
  }

  /** Both aggregators emit a row for the period, with one key and each with its own rain. */
  lemma BothEmit(r0: Row, r1: Row, r2: Row)
    requires ThreeReadings(r0, r1, r2)
    ensures var backward := Process(GaugeAggregator(false), r2.key, [r0, r1, r2]);
            var forward := Process(GaugeAggregator(true), r1.key, [r1, r2]);
            && backward.Some? && forward.Some? && backward.value.key == forward.value.key
            && backward.value.value.original
               == Round(Calculate([r0.value.original, r1.value.original, r2.value.original]))
            && forward.value.value.original == Round(Calculate([r1.value.original, r2.value.original]))
  {
    BackwardEmits(r0, r1, r2);
    ForwardEmits(r0, r1, r2);
  }

  lemma BackwardEmits(r0: Row, r1: Row, r2: Row)
    requires ThreeReadings(r0, r1, r2)
    ensures var made := Process(GaugeAggregator(false), r2.key, [r0, r1, r2]);
            && made.Some? && made.value.key == r2.key.(param := RR_12, typeId := Negative(r2.key.typeId))
            && made.value.value.original
               == Round(Calculate([r0.value.original, r1.value.original, r2.value.original]))
  {
    ThreeReadingsAccepted(r0, r1, r2);
    OriginalsOfThree(r0, r1, r2);
    EmittedRain(false, r2.key, [r0, r1, r2]);
  }

  lemma OriginalsOfThree(r0: Row, r1: Row, r2: Row)
    requires ThreeReadings(r0, r1, r2)
    ensures Originals([r0, r1, r2]) == [r0.value.original, r1.value.original, r2.value.original]
    ensures Originals([r1, r2]) == [r1.value.original, r2.value.original]
    ensures !AnyMissing([r0, r1, r2]) && !AnyMissing([r1, r2])
  {
  }

  lemma ForwardEmits(r0: Row, r1: Row, r2: Row)
    requires ThreeReadings(r0, r1, r2)
    ensures var made := Process(GaugeAggregator(true), r1.key, [r1, r2]);
            && made.Some? && made.value.key == r2.key.(param := RR_12, typeId := Negative(r2.key.typeId))
            && made.value.value.original == Round(Calculate([r1.value.original, r2.value.original]))
  {
    TwoReadingsAccepted(r0, r1, r2);
    OriginalsOfThree(r0, r1, r2);
    EmittedRain(true, r1.key, [r1, r2]);
  }

  /** The rows emitted can differ: the level sinks by five and rises by five again. */
  lemma EmittedRowsMayDiffer(r0: Row, r1: Row, r2: Row)
    requires ThreeReadings(r0, r1, r2)
    requires r0.value.original == 10.0 && r1.value.original == 5.0 && r2.value.original == 10.0
    ensures var backward := Process(GaugeAggregator(false), r2.key, [r0, r1, r2]);
            var forward := Process(GaugeAggregator(true), r1.key, [r1, r2]);
            && backward.Some? && forward.Some? && backward.value.key == forward.value.key
            && backward.value.value.original == 0.0 && forward.value.value.original == 5.0
  {
    BothEmit(r0, r1, r2);
    RoundIsNearest(0.0, 0);
    RoundIsNearest(5.0, 50);
  }
}
