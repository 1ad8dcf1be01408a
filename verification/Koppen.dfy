/** Daily means: from 24 or 8 observations, or from three by Köppen's formula. */
module Koppen {
  import opened Wrappers
  import opened Observations
  import opened Windows
  import opened Rounding
  import opened Flags
  import opened Tables
  import opened StandardAggregators

  predicate FullHour(t: int) {
    TimeOfDay(t) % HOUR == 0
  }

  function FullHours(rows: seq<Row>): seq<Row> {
    if rows == [] then []
    else
      var last := rows[|rows| - 1];
      FullHours(rows[..|rows| - 1]) + (if FullHour(last.key.obstime) then [last] else [])
  }

  method FilterByFullHour(observations: seq<Row>) returns (ret: seq<Row>)
    ensures ret == FullHours(observations)
  {
    ret := [];
    var i := 0;
    while i < |observations|
      invariant 0 <= i <= |observations|
      invariant ret == FullHours(observations[..i])
    {
      assert observations[..i + 1][..i] == observations[..i];
      if FullHour(observations[i].key.obstime) {
        ret := ret + [observations[i]];
      }
      i := i + 1;
    }
    assert observations[..i] == observations;
  }

  // ---- Acceptance ----

  predicate MeanShouldProcess(observations: seq<Row>) {
    || |observations| == 24
    || (|observations| == 8 && forall i :: 0 <= i < |observations| ==> HourOfDay(observations[i].key.obstime) % 3 == 0)
  }

  method MeanDecision(observations: seq<Row>) returns (accepted: bool)
    ensures accepted == MeanShouldProcess(observations)
  {
    if |observations| == 24 {
      return true;
    }
    if |observations| == 8 {
      var i := 0;
      while i < |observations|
        invariant 0 <= i <= |observations|
        invariant forall j :: 0 <= j < i ==> HourOfDay(observations[j].key.obstime) % 3 == 0
      {
        if HourOfDay(observations[i].key.obstime) % 3 != 0 {
          return false;
        }
        i := i + 1;
      }
      return true;
    }
    return false;
  }

  /** Three observations six hours apart, on the first row's date. */
  predicate Matching(observations: seq<Row>, firstObs: int)
    requires observations != []
  {
    var day := Midnight(observations[0].key.obstime);
    && HasTime(observations, day + firstObs)
    && HasTime(observations, day + firstObs + 6 * HOUR)
    && HasTime(observations, day + firstObs + 12 * HOUR)
  }

  method MatchingObsTimes(observations: seq<Row>, firstObs: int) returns (matching: bool)
    requires observations != []
    ensures matching == Matching(observations, firstObs)
  {
    var day := Midnight(observations[0].key.obstime);
    var c := firstObs;
    for i := 0 to 3
      invariant c == firstObs + 6 * HOUR * i
      invariant i > 0 ==> HasTime(observations, day + firstObs)
      invariant i > 1 ==> HasTime(observations, day + firstObs + 6 * HOUR)
      invariant i > 2 ==> HasTime(observations, day + firstObs + 12 * HOUR)
    {
      if !HasTime(observations, day + c) {
        return false;
      }
      c := c + 6 * HOUR;
    }
    return true;
  }

  function OffsetFrom6(trigger: Key): int {
    HourOfDay(trigger.obstime) % 6
  }

  predicate ShouldProcess(trigger: Key, observations: seq<Row>)
    requires observations != []
  {
    || MeanShouldProcess(observations)
    || (OffsetFrom6(trigger) == 0 && Matching(observations, 6 * HOUR))
    || (OffsetFrom6(trigger) == 1 && |observations| == 3 && Matching(observations, 7 * HOUR))
  }

  // ---- Selection ----

  function FindHour(rows: seq<Row>, hour: int): Option<Row> {
    if rows == [] then None
    else if HourOfDay(rows[0].key.obstime) == hour then Some(rows[0])
    else FindHour(rows[1..], hour)
  }

  /** One row for each sixth hour of the rest of the day, or `None` at the first that is missing. */
  function PickHours(rows: seq<Row>, hour: int): Option<seq<Row>>
    decreases 24 - hour
  {
    if hour >= 24 then Some([])
    else
      var found := FindHour(rows, hour);
      if found.None? then None
      else
        var rest := PickHours(rows, hour + 6);
        if rest.None? then None else Some([found.value] + rest.value)
  }

  function Extract(trigger: Key, dataIn: seq<Row>): Option<seq<Row>> {
    if MeanShouldProcess(dataIn) then Some(dataIn) else PickHours(dataIn, 6 + OffsetFrom6(trigger))
  }

  method ExtractUsefulData(trigger: Key, dataIn: seq<Row>) returns (out: Option<seq<Row>>)
    ensures out == Extract(trigger, dataIn)
  {
    var mean := MeanDecision(dataIn);
    if mean {
      return Some(dataIn);
    }
    var picked := [];
    var hour := 6 + OffsetFrom6(trigger);
    if PickHours(dataIn, hour).Some? {
      assert picked + PickHours(dataIn, hour).value == PickHours(dataIn, hour).value;
    }
    while hour < 24
      invariant PickHours(dataIn, 6 + OffsetFrom6(trigger))
                == (if PickHours(dataIn, hour).None? then None else Some(picked + PickHours(dataIn, hour).value))
      decreases 24 - hour
    {
      var found := FindHour(dataIn, hour);
      if found.None? {
        return None;
      }
      assert PickHours(dataIn, hour + 6).Some? ==>
          picked + ([found.value] + PickHours(dataIn, hour + 6).value)
          == (picked + [found.value]) + PickHours(dataIn, hour + 6).value;
      picked := picked + [found.value];
      hour := hour + 6;
    }
    assert picked + [] == picked;
    out := Some(picked);
  }

  /** What is left of one aggregation window after filtering. */
  ghost predicate DayOfFullHours(trigger: Key, rows: seq<Row>) {
    var span := GetTimeSpan(24, ELEVEN_PM, trigger.obstime);
    && rows != [] && DistinctTimes(rows)
    && InWindow(rows, span.first, span.second)
    && forall i :: 0 <= i < |rows| ==> FullHour(rows[i].key.obstime)
  }

  /** All full hours of a window fall on the date of its end. */
  lemma OneDate(trigger: Key, rows: seq<Row>, i: nat)
    requires DayOfFullHours(trigger, rows) && i < |rows|
    ensures Midnight(rows[i].key.obstime) == Midnight(GenerationTime(ELEVEN_PM, trigger.obstime))
    ensures rows[i].key.obstime
            == Midnight(GenerationTime(ELEVEN_PM, trigger.obstime)) + HourOfDay(rows[i].key.obstime) * HOUR
  {
    DailyScheduleHasGap(23 * HOUR);
    WindowEndIsNextScheduled(ELEVEN_PM, trigger.obstime);
  }

  /** In one day, the row at a full hour is found wherever it stands in the list. */
  lemma FindFullHour(trigger: Key, rows: seq<Row>, hour: int, r: Row)
    requires DayOfFullHours(trigger, rows) && r in rows
    requires r.key.obstime == Midnight(GenerationTime(ELEVEN_PM, trigger.obstime)) + hour * HOUR && 0 <= hour < 24
    ensures FindHour(rows, hour) == Some(r)
  {
    var i :| 0 <= i < |rows| && rows[i] == r;
    OneDate(trigger, rows, i);
    forall j | 0 <= j < |rows| && HourOfDay(rows[j].key.obstime) == hour
      ensures rows[j] == rows[i]
    {
      OneDate(trigger, rows, j);
    }
  }

  /** The date all rows share, and the hour of the first of the three rows. */
  ghost function FirstTime(trigger: Key): int {
    Midnight(GenerationTime(ELEVEN_PM, trigger.obstime)) + (6 + OffsetFrom6(trigger)) * HOUR
  }

  ghost predicate IsRowAt(rows: seq<Row>, r: Row, t: int) {
    r in rows && r.key.obstime == t
  }

  /**
   * Once accepted, selection cannot throw: it takes all 24 or 8 rows, or the
   * rows at 06, 12 and 18 (or 07, 13 and 19) in that order.
   */
  lemma AcceptedSelectionIsTotal(trigger: Key, rows: seq<Row>)
    requires DayOfFullHours(trigger, rows) && ShouldProcess(trigger, rows)
    ensures Extract(trigger, rows).Some?
    ensures var out := Extract(trigger, rows).value;
            if MeanShouldProcess(rows) then out == rows
            else |out| == 3 && forall i :: 0 <= i < 3 ==> IsRowAt(rows, out[i], FirstTime(trigger) + i * 6 * HOUR)
  {
    if !MeanShouldProcess(rows) {
      var hour := 6 + OffsetFrom6(trigger);
      OneDate(trigger, rows, 0);
      var a, b, c := Found(trigger, rows, hour), Found(trigger, rows, hour + 6), Found(trigger, rows, hour + 12);
      PickThree(rows, hour, a, b, c);
    }
  }

  lemma PickThree(rows: seq<Row>, hour: int, a: Row, b: Row, c: Row)
    requires 6 <= hour <= 7
    requires FindHour(rows, hour) == Some(a) && FindHour(rows, hour + 6) == Some(b)
    requires FindHour(rows, hour + 12) == Some(c)
    ensures PickHours(rows, hour) == Some([a, b, c])
  {
    assert PickHours(rows, hour + 18) == Some([]);
    assert [c] + [] == [c];
    assert PickHours(rows, hour + 12) == Some([c]);
    assert [b] + [c] == [b, c];
    assert PickHours(rows, hour + 6) == Some([b, c]);
    assert [a] + [b, c] == [a, b, c];
  }

  ghost function Found(trigger: Key, rows: seq<Row>, hour: int): (r: Row)
    requires DayOfFullHours(trigger, rows) && 0 <= hour < 24
    requires HasTime(rows, Midnight(GenerationTime(ELEVEN_PM, trigger.obstime)) + hour * HOUR)
    ensures IsRowAt(rows, r, Midnight(GenerationTime(ELEVEN_PM, trigger.obstime)) + hour * HOUR)
    ensures FindHour(rows, hour) == Some(r)
  {
    var t := Midnight(GenerationTime(ELEVEN_PM, trigger.obstime)) + hour * HOUR;
    var r :| r in rows && r.key.obstime == t;
    FindFullHour(trigger, rows, hour, r);
    r
  }

  // ---- Values ----

  function Sum(values: seq<real>): real {
    if values == [] then 0.0 else Sum(values[..|values| - 1]) + values[|values| - 1]
  }

  /** Three values are for Köppen's formula, any other number for the mean. */
  function Calculate(formula: (Key, CalculationDataType, seq<real>) -> Option<real>,
                     trigger: Key, kind: CalculationDataType, source: seq<real>): Option<real> {
    if |source| == 3 then formula(trigger, kind, source)
    else if source == [] then None
    else Some(Sum(source) / |source| as real)
  }

  /** `formula` is a subclass's Köppen formula, with its metadata and minimum temperature looked up. */
  function KoppenAggregator(param: int, writeParam: int,
                            formula: (Key, CalculationDataType, seq<real>) -> Option<real>): StandardAggregator {
    StandardAggregator(
      param, writeParam,
      t => GetTimeSpan(24, ELEVEN_PM, t),
      (trigger, observations) =>
        FullHours(observations) != [] && ShouldProcess(trigger, FullHours(observations)),
      (trigger, observations) => Extract(trigger, FullHours(observations)),
      (trigger, kind, values) => Calculate(formula, trigger, kind, values))
  }

  // ---- Independence of the order of the rows ----

  lemma {:induction false} FullHoursMembers(rows: seq<Row>)
    ensures forall r :: r in FullHours(rows) <==> r in rows && FullHour(r.key.obstime)
  {
    if rows != [] {
      FullHoursMembers(rows[..|rows| - 1]);
      assert rows == rows[..|rows| - 1] + [rows[|rows| - 1]];
    }
  }

  lemma {:induction false} FullHoursDistinct(rows: seq<Row>)
    requires DistinctTimes(rows)
    ensures DistinctTimes(FullHours(rows))
  {
    if rows != [] {
      var front := rows[..|rows| - 1];
      var kept := FullHours(front);
      FullHoursDistinct(front);
      FullHoursMembers(front);
      forall i | 0 <= i < |kept|
        ensures kept[i].key.obstime != rows[|rows| - 1].key.obstime
      {
        assert kept[i] in front;
      }
    }
  }

  /** Lists without repeated rows are permutations of each other when they have the same rows. */
  ghost predicate SameRows(a: seq<Row>, b: seq<Row>) {
    forall r :: r in a <==> r in b
  }

  /** The position of the row at one time. */
  ghost function RemoveAt(rows: seq<Row>, i: nat): seq<Row>
    requires i < |rows|
  {
    rows[..i] + rows[i + 1..]
  }

  lemma RemoveFromDistinct(rows: seq<Row>, i: nat)
    requires DistinctTimes(rows) && i < |rows|
    ensures DistinctTimes(RemoveAt(rows, i))
    ensures forall r :: r in RemoveAt(rows, i) <==> r in rows && r != rows[i]
  {
    var rest := RemoveAt(rows, i);
    assert forall j :: 0 <= j < |rest| ==> rest[j] == rows[if j < i then j else j + 1];
    forall r | r in rows && r != rows[i]
      ensures r in rest
    {
      var j :| 0 <= j < |rows| && rows[j] == r;
      assert rest[if j < i then j else j - 1] == r;
    }
  }

  lemma {:induction false} SumWithout(rows: seq<Row>, kind: CalculationDataType, i: nat)
    requires i < |rows|
    ensures Sum(Values(rows, kind)) == Sum(Values(RemoveAt(rows, i), kind)) + ValueOf(rows[i], kind)
  {
    var n := |rows| - 1;
    SumLast(rows, kind);
    if i < n {
      SumWithout(rows[..n], kind, i);
      RemoveBeforeLast(rows, i);
      SumLast(RemoveAt(rows, i), kind);
    } else {
      assert RemoveAt(rows, i) == rows[..n];
    }
  }

  lemma RemoveBeforeLast(rows: seq<Row>, i: nat)
    requires i < |rows| - 1
    ensures |RemoveAt(rows, i)| == |rows| - 1
    ensures RemoveAt(rows, i)[..|rows| - 2] == RemoveAt(rows[..|rows| - 1], i)
    ensures RemoveAt(rows, i)[|rows| - 2] == rows[|rows| - 1]
  {
  }

  function ValueOf(r: Row, kind: CalculationDataType): real {
    if kind.Original? then r.value.original else r.value.corrected
  }

  function Values(rows: seq<Row>, kind: CalculationDataType): seq<real> {
    seq(|rows|, i requires 0 <= i < |rows| => ValueOf(rows[i], kind))
  }

  lemma SumLast(rows: seq<Row>, kind: CalculationDataType)
    requires rows != []
    ensures Sum(Values(rows, kind)) == Sum(Values(rows[..|rows| - 1], kind)) + ValueOf(rows[|rows| - 1], kind)
  {
    assert Values(rows, kind)[..|rows| - 1] == Values(rows[..|rows| - 1], kind);
  }

  lemma {:induction false} SumOfSameRows(a: seq<Row>, b: seq<Row>, kind: CalculationDataType)
    requires DistinctTimes(a) && DistinctTimes(b) && SameRows(a, b)
    ensures |a| == |b| && Sum(Values(a, kind)) == Sum(Values(b, kind))
    decreases |a|
  {
    if a == [] {
      SomeRow(b);
    } else {
      var last := a[|a| - 1];
      assert last in a;
      var j :| 0 <= j < |b| && b[j] == last;
      RemoveFromDistinct(a, |a| - 1);
      RemoveFromDistinct(b, j);
      SumOfSameRows(RemoveAt(a, |a| - 1), RemoveAt(b, j), kind);
      SumWithout(a, kind, |a| - 1);
      SumWithout(b, kind, j);
    }
  }

  lemma SameAcceptance(trigger: Key, a: seq<Row>, b: seq<Row>)
    requires DayOfFullHours(trigger, a) && DayOfFullHours(trigger, b) && SameRows(a, b)
    ensures |a| == |b|
    ensures MeanShouldProcess(a) == MeanShouldProcess(b)
    ensures ShouldProcess(trigger, a) == ShouldProcess(trigger, b)
  {
    SumOfSameRows(a, b, Original);
    SameMatches(trigger, a, b, 6 * HOUR);
    SameMatches(trigger, a, b, 7 * HOUR);
  }

  lemma SameMatches(trigger: Key, a: seq<Row>, b: seq<Row>, firstObs: int)
    requires DayOfFullHours(trigger, a) && DayOfFullHours(trigger, b) && SameRows(a, b)
    ensures Matching(a, firstObs) == Matching(b, firstObs)
  {
    OneDate(trigger, a, 0);
    OneDate(trigger, b, 0);
    assert forall t :: HasTime(a, t) == HasTime(b, t);
  }

  /** Where Köppen's formula applies, the selection itself does not depend on the order. */
  lemma SameSelection(trigger: Key, a: seq<Row>, b: seq<Row>)
    requires DayOfFullHours(trigger, a) && DayOfFullHours(trigger, b) && SameRows(a, b)
    requires ShouldProcess(trigger, a) && !MeanShouldProcess(a)
    ensures ShouldProcess(trigger, b) && Extract(trigger, a) == Extract(trigger, b)
  {
    SameAcceptance(trigger, a, b);
    AcceptedSelectionIsTotal(trigger, a);
    AcceptedSelectionIsTotal(trigger, b);
    var x, y := Extract(trigger, a).value, Extract(trigger, b).value;
    forall i | 0 <= i < 3
      ensures x[i] == y[i]
    {
      assert IsRowAt(a, x[i], FirstTime(trigger) + i * 6 * HOUR);
      assert IsRowAt(b, y[i], FirstTime(trigger) + i * 6 * HOUR);
      OneRowPerTime(a, x[i], y[i]);
    }
    assert x == y;
  }

  lemma MeanIsOrderFree(formula: (Key, CalculationDataType, seq<real>) -> Option<real>,
                        trigger: Key, a: seq<Row>, b: seq<Row>)
    requires DistinctTimes(a) && DistinctTimes(b) && SameRows(a, b) && |a| > 3
    ensures var agg := KoppenAggregator(TA, TAM_24, formula);
            && OriginalOf(agg, trigger, a) == OriginalOf(agg, trigger, b)
            && CorrectedOf(agg, trigger, a) == CorrectedOf(agg, trigger, b)
  {
    SumOfSameRows(a, b, Original);
    SumOfSameRows(a, b, Corrected);
    assert Originals(a) == Values(a, Original) && Originals(b) == Values(b, Original);
    assert Correcteds(a) == Values(a, Corrected) && Correcteds(b) == Values(b, Corrected);
    assert AnyMissing(a) == AnyMissing(b);
    assert AnyInvalid(a) == AnyInvalid(b);
  }

  ghost predicate DayOfRows(trigger: Key, rows: seq<Row>) {
    var span := GetTimeSpan(24, ELEVEN_PM, trigger.obstime);
    DistinctTimes(rows) && InWindow(rows, span.first, span.second) && FullHours(rows) != []
  }

  lemma FilteredDay(trigger: Key, rows: seq<Row>)
    requires DayOfRows(trigger, rows)
    ensures DayOfFullHours(trigger, FullHours(rows))
  {
    var kept := FullHours(rows);
    FullHoursMembers(rows);
    FullHoursDistinct(rows);
    forall i | 0 <= i < |kept|
      ensures kept[i] in rows && FullHour(kept[i].key.obstime)
    {
      assert kept[i] in kept;
    }
  }

  /** What the common course makes of the rows at full hours. */
  lemma KoppenProcess(formula: (Key, CalculationDataType, seq<real>) -> Option<real>, trigger: Key, rows: seq<Row>)
    requires FullHours(rows) != [] && ShouldProcess(trigger, FullHours(rows))
    requires Extract(trigger, FullHours(rows)).Some?
    ensures var agg := KoppenAggregator(TA, TAM_24, formula);
            Process(agg, trigger, rows) == Emitted(agg, trigger, Extract(trigger, FullHours(rows)).value)
  {
  }

  /** Accepted either for the mean of all rows or for the same three rows. */
  lemma SameEmission(formula: (Key, CalculationDataType, seq<real>) -> Option<real>,
                     trigger: Key, x: seq<Row>, y: seq<Row>)
    requires DayOfFullHours(trigger, x) && DayOfFullHours(trigger, y) && SameRows(x, y)
    requires ShouldProcess(trigger, x) && ShouldProcess(trigger, y)
    ensures Extract(trigger, x).Some? && Extract(trigger, y).Some?
    ensures var agg := KoppenAggregator(TA, TAM_24, formula);
            Emitted(agg, trigger, Extract(trigger, x).value) == Emitted(agg, trigger, Extract(trigger, y).value)
  {
    AcceptedSelectionIsTotal(trigger, x);
    SameAcceptance(trigger, x, y);
    if MeanShouldProcess(x) {
      MeanIsOrderFree(formula, trigger, x, y);
      FlagOfSameRows(x, y);
    } else {
      SameSelection(trigger, x, y);
    }
  }

  /** Whatever order the rows of a day come in, the emitted row is the same, flags included. */
  lemma DailyValueIsOrderFree(formula: (Key, CalculationDataType, seq<real>) -> Option<real>,
                              trigger: Key, a: seq<Row>, b: seq<Row>)
    requires DayOfRows(trigger, a) && DayOfRows(trigger, b) && SameRows(a, b)
    ensures var agg := KoppenAggregator(TA, TAM_24, formula);
            Process(agg, trigger, a) == Process(agg, trigger, b)
  {
    var x, y := FullHours(a), FullHours(b);
    FilteredDay(trigger, a);
    FilteredDay(trigger, b);
    FullHoursMembers(a);
    FullHoursMembers(b);
    SameAcceptance(trigger, x, y);
    if ShouldProcess(trigger, x) {
      SameEmission(formula, trigger, x, y);
      KoppenProcess(formula, trigger, a);
      KoppenProcess(formula, trigger, b);
    }
  }

  // ---- Köppen's formula for temperature ----

  const MISSING_MINIMUM: real := -32767.0

  function Minimum(a: real, b: real): real {
    if b < a then b else a
  }

  /** The two 12-hour minima of the day, as originals and as corrected values. */
  function OriginalMinimum(data: seq<Row>): real
    requires |data| >= 2
  {
    var a, b := data[0].value, data[|data| - 1].value;
    if a.originalMissing || b.originalMissing then MISSING_MINIMUM else Minimum(a.original, b.original)
  }

  function CorrectedMinimum(data: seq<Row>): real
    requires |data| >= 2
  {
    var a, b := data[0].value, data[|data| - 1].value;
    if !a.valid || !b.valid then MISSING_MINIMUM else Minimum(a.corrected, b.corrected)
  }

  /** The 12-hour minima of the trigger's day: from one second before 06 up to 18 o'clock. */
  function MinimumQuery(trigger: Key): Query {
    Query(trigger.station, Midnight(trigger.obstime) + 6 * HOUR - 1, Midnight(trigger.obstime) + 18 * HOUR, TAN_12,
          trigger.typeId, trigger.sensor, trigger.level)
  }

  /** Minima are dated at 06 and 18 o'clock. */
  predicate DatedTwiceDaily(rows: seq<Row>) {
    forall i :: 0 <= i < |rows| ==> Scheduled(SIX_AND_SIX, rows[i].key.obstime)
  }

  /**
   * An answer that suffices is the morning's and the evening's minimum, and which
   * of them comes first does not matter.
   */
  lemma MinimaAreTwo(trigger: Key, data: seq<Row>)
    requires DistinctTimes(data) && DatedTwiceDaily(data) && |data| >= 2
    requires InWindow(data, MinimumQuery(trigger).from, MinimumQuery(trigger).to)
    ensures |data| == 2
    ensures HasTime(data, Midnight(trigger.obstime) + 6 * HOUR) && HasTime(data, Midnight(trigger.obstime) + 18 * HOUR)
    ensures OriginalMinimum([data[1], data[0]]) == OriginalMinimum(data)
    ensures CorrectedMinimum([data[1], data[0]]) == CorrectedMinimum(data)
  {
    var morning, evening := Midnight(trigger.obstime) + 6 * HOUR, Midnight(trigger.obstime) + 18 * HOUR;
    forall i | 0 <= i < |data|
      ensures data[i].key.obstime == morning || data[i].key.obstime == evening
    {
    }
    AtMostTwo(data, morning, evening);
    assert data[0] in data && data[1] in data;
  }

  lemma AtMostTwo(rows: seq<Row>, t: int, u: int)
    requires DistinctTimes(rows)
    requires forall i :: 0 <= i < |rows| ==> rows[i].key.obstime == t || rows[i].key.obstime == u
    ensures |rows| <= 2
  {
    if |rows| > 2 {
      ThreeDiffer(rows);
      assert false;
    }
  }

  lemma ThreeDiffer(rows: seq<Row>)
    requires DistinctTimes(rows) && |rows| > 2
    ensures rows[0].key.obstime != rows[1].key.obstime
    ensures rows[2].key.obstime != rows[0].key.obstime && rows[2].key.obstime != rows[1].key.obstime
  {
  }

  /**
   * The minima are looked up once, at the first question; both calculations of
   * one aggregation use the same answer, even if the store has changed since.
   */
  class ExtraCalculationData {
    const trigger: Key
    var gotData: bool
    var originalTan24: real
    var correctedTan24: real

    constructor (trigger: Key)
      ensures this.trigger == trigger && !gotData
    {
      this.trigger := trigger;
      gotData, originalTan24, correctedTan24 := false, MISSING_MINIMUM, MISSING_MINIMUM;
    }

    /** `read` is the store as it is now; `None` is the exception for too short an answer. */
    method MinimumTemperature(read: Query -> seq<Row>, kind: CalculationDataType) returns (minimum: Option<real>)
      modifies this
      ensures old(gotData) ==>
                && gotData && originalTan24 == old(originalTan24) && correctedTan24 == old(correctedTan24)
                && minimum == Some(if kind.Original? then originalTan24 else correctedTan24)
      ensures !old(gotData) ==>
                && minimum == MinimumOver(read, trigger, kind) && gotData == minimum.Some?
                && (gotData ==>
                      && originalTan24 == MinimumOver(read, trigger, Original).value
                      && correctedTan24 == MinimumOver(read, trigger, Corrected).value)
    {
      if !gotData {
        var data := read(MinimumQuery(trigger));
        if |data| < 2 {
          return None;
        }
        originalTan24 := OriginalMinimum(data);
        correctedTan24 := CorrectedMinimum(data);
        gotData := true;
      }
      return Some(if kind.Original? then originalTan24 else correctedTan24);
    }
  }

  /** The day's minimum by one look at the store. */
  function MinimumOver(read: Query -> seq<Row>, trigger: Key, kind: CalculationDataType): (minimum: Option<real>)
    ensures minimum.Some? <==> |read(MinimumQuery(trigger))| >= 2
  {
    var data := read(MinimumQuery(trigger));
    if |data| < 2 then None else Some(if kind.Original? then OriginalMinimum(data) else CorrectedMinimum(data))
  }

  function TemperatureFormula(source: seq<real>, factor: real, minimum: real): real {
    if minimum == MISSING_MINIMUM then INVALID
    else
      var n := Sum(source) / 3.0;
      n - factor * (n - minimum)
  }

  /** Köppen's formula over one look at the store; `None` is an exception of either lookup. */
  function TemperatureBy(factor: Option<real>, read: Query -> seq<Row>)
    : (Key, CalculationDataType, seq<real>) -> Option<real>
  {
    (trigger: Key, kind: CalculationDataType, source: seq<real>) =>
      var minimum := MinimumOver(read, trigger, kind);
      if factor.None? || minimum.None? then None else Some(TemperatureFormula(source, factor.value, minimum.value))
  }

  /** The look at the store that counts: the one at the first calculation that is made. */
  function StoreThatCounts(trigger: Key, observations: seq<Row>, first: Query -> seq<Row>, second: Query -> seq<Row>)
    : Query -> seq<Row>
  {
    var relevant := Extract(trigger, FullHours(observations));
    if relevant.Some? && AnyMissing(relevant.value) then second else first
  }

  method CalculateTemperature(extra: ExtraCalculationData, kind: CalculationDataType, source: seq<real>,
                              factor: Option<real>, read: Query -> seq<Row>)
    returns (value: Option<real>)
    modifies extra
    ensures |source| != 3 ==>
              && extra.gotData == old(extra.gotData)
              && value == if source == [] then None else Some(Sum(source) / |source| as real)
    ensures |source| == 3 && factor.None? ==> value == None
    ensures |source| == 3 && factor.Some? && !old(extra.gotData) ==>
              && extra.gotData == MinimumOver(read, extra.trigger, Original).Some?
              && (extra.gotData ==>
                    && extra.originalTan24 == MinimumOver(read, extra.trigger, Original).value
                    && extra.correctedTan24 == MinimumOver(read, extra.trigger, Corrected).value)
    ensures |source| == 3 && factor.Some? && old(extra.gotData) ==>
              extra.gotData && extra.originalTan24 == old(extra.originalTan24)
              && extra.correctedTan24 == old(extra.correctedTan24)
    ensures |source| == 3 && factor.Some? ==>
              var minimum := if kind.Original? then extra.originalTan24 else extra.correctedTan24;
              value == if !extra.gotData then None else Some(TemperatureFormula(source, factor.value, minimum))
  {
    if |source| != 3 {
      return if source == [] then None else Some(Sum(source) / |source| as real);
    }
    if factor.None? {
      return None;
    }
    var minimum := extra.MinimumTemperature(read, kind);
    value := if minimum.None? then None else Some(TemperatureFormula(source, factor.value, minimum.value));
  }

  /** The two calculations on the selected rows, with one look at the store between them. */
  method EmitTemperature(trigger: Key, relevant: seq<Row>, factor: Option<real>,
                         first: Query -> seq<Row>, second: Query -> seq<Row>)
    returns (made: Option<Row>)
    ensures var read := if AnyMissing(relevant) then second else first;
            made == Emitted(KoppenAggregator(TA, TAM_24, TemperatureBy(factor, read)), trigger, relevant)
  {
    var extra := new ExtraCalculationData(trigger);
    var original, corrected := Some(INVALID), Some(INVALID);
    if !AnyMissing(relevant) {
      original := CalculateTemperature(extra, Original, Originals(relevant), factor, first);
      if original.None? {
        return None;
      }
    }
    if !AnyInvalid(relevant) {
      corrected := CalculateTemperature(extra, Corrected, Correcteds(relevant), factor, second);
      if corrected.None? {
        return None;
      }
    }
    made := Some(GetDataObject(trigger, TAM_24, DatedAt(GetTimeSpan(24, ELEVEN_PM, trigger.obstime)),
                               original.value, corrected.value, relevant));
  }

  /**
   * A whole aggregation. The store may say something else at the second
   * calculation than at the first: the row emitted is the one made from a single
   * look at it.
   */
  method ProcessTemperatures(trigger: Key, observations: seq<Row>, factor: Option<real>,
                             first: Query -> seq<Row>, second: Query -> seq<Row>)
    returns (made: Option<Row>)
    ensures var read := StoreThatCounts(trigger, observations, first, second);
            made == Process(KoppenAggregator(TA, TAM_24, TemperatureBy(factor, read)), trigger, observations)
  {
    var filtered := FilterByFullHour(observations);
    if filtered == [] || !ShouldProcess(trigger, filtered) {
      return None;
    }
    var relevant := ExtractUsefulData(trigger, filtered);
    if relevant.None? {
      return None;
    }
    made := EmitTemperature(trigger, relevant.value, factor, first, second);
  }

  /** The formula moves the mean towards the minimum, and no further for factors up to one. */
  lemma FormulaLiesBetween(source: seq<real>, factor: real, minimum: real)
    requires minimum != MISSING_MINIMUM && 0.0 <= factor <= 1.0 && minimum <= Sum(source) / 3.0
    ensures minimum <= TemperatureFormula(source, factor, minimum) <= Sum(source) / 3.0
  {
    FractionOf(factor, Sum(source) / 3.0 - minimum);
  }

  lemma FractionOf(factor: real, gap: real)
    requires 0.0 <= factor <= 1.0 && 0.0 <= gap
    ensures 0.0 <= factor * gap <= gap
  {
    assert gap - factor * gap == (1.0 - factor) * gap;
  }

  // ---- What the formula says ----

  lemma {:induction false} SumOfConcat(a: seq<real>, b: seq<real>)
    ensures Sum(a + b) == Sum(a) + Sum(b)
  {
    if b == [] {
      assert a + b == a;
    } else {
      SumOfConcat(a, b[..|b| - 1]);
      assert (a + b)[..|a + b| - 1] == a + b[..|b| - 1];
    }
  }

  lemma SumOfThree(a: real, b: real, c: real)
    ensures Sum([a, b, c]) == a + b + c
  {
    SumOfConcat([a], [b]);
    SumOfConcat([a] + [b], [c]);
    assert [a] + [b] + [c] == [a, b, c];
  }

  /**
   * The result lies below the mean by the factor's part of the distance to the
   * minimum; without a minimum it is the error value.
   */
  lemma FormulaLaw(a: real, b: real, c: real, factor: real, minimum: real)
    ensures var mean, result := (a + b + c) / 3.0, TemperatureFormula([a, b, c], factor, minimum);
            if minimum == -32767.0 then result == -32768.0
            else mean - result == factor * (mean - minimum)
  {
    SumOfThree(a, b, c);
  }

  /** From the mean at factor nought to the minimum at factor one. */
  lemma FormulaAtTheEnds(a: real, b: real, c: real, minimum: real)
    requires minimum != -32767.0
    ensures TemperatureFormula([a, b, c], 0.0, minimum) == (a + b + c) / 3.0
    ensures TemperatureFormula([a, b, c], 1.0, minimum) == minimum
  {
    FormulaLaw(a, b, c, 0.0, minimum);
    FormulaLaw(a, b, c, 1.0, minimum);
  }

  /** The larger the factor, the lower the daily value, on every day that was warmer than its minimum. */
  lemma FormulaFallsWithFactor(a: real, b: real, c: real, factor: real, larger: real, minimum: real)
    requires minimum != -32767.0 && minimum < (a + b + c) / 3.0 && factor < larger
    ensures TemperatureFormula([a, b, c], larger, minimum) < TemperatureFormula([a, b, c], factor, minimum)
  {
    FormulaLaw(a, b, c, factor, minimum);
    FormulaLaw(a, b, c, larger, minimum);
  }

  /** The mean of more or fewer than three values: as many times the mean is their sum. */
  lemma MeanTimesCount(formula: (Key, CalculationDataType, seq<real>) -> Option<real>,
                       trigger: Key, kind: CalculationDataType, source: seq<real>)
    requires |source| != 3
    ensures Calculate(formula, trigger, kind, source) == None <==> source == []
    ensures source != [] ==> Calculate(formula, trigger, kind, source).value * |source| as real == Sum(source)
  {
  }

  // ---- From the observations of a day to its row ----

  lemma FullHourIff(t: int)
    ensures FullHour(t) <==> t % 3600 == 0
  {
  }

  ghost function WindowDate(trigger: Key): int {
    Midnight(GenerationTime(ELEVEN_PM, trigger.obstime))
  }

  /** The rows at three hours of the window's date. */
  ghost predicate HasThree(trigger: Key, rows: seq<Row>, a: int, b: int, c: int) {
    && (exists r :: r in rows && r.key.obstime == WindowDate(trigger) + a * 3600)
    && (exists r :: r in rows && r.key.obstime == WindowDate(trigger) + b * 3600)
    && (exists r :: r in rows && r.key.obstime == WindowDate(trigger) + c * 3600)
  }

  /**
   * Exactly which days are accepted: those with all 24 hours, with the eight
   * hours that three divides and no others, with 06, 12 and 18 when the trigger's
   * hour is one of 00, 06, 12 and 18, or with 07, 13 and 19 alone when it is 01,
   * 07, 13 or 19.
   */
  lemma AcceptedIff(trigger: Key, rows: seq<Row>)
    requires DayOfFullHours(trigger, rows)
    ensures ShouldProcess(trigger, rows)
            <==> || |rows| == 24
                 || (|rows| == 8
                     && forall r :: r in rows ==> (r.key.obstime - WindowDate(trigger)) % 10800 == 0)
                 || ((trigger.obstime - Midnight(trigger.obstime)) / 3600 in {0, 6, 12, 18}
                     && HasThree(trigger, rows, 6, 12, 18))
                 || ((trigger.obstime - Midnight(trigger.obstime)) / 3600 in {1, 7, 13, 19}
                     && |rows| == 3 && HasThree(trigger, rows, 7, 13, 19))
  {
    OneDate(trigger, rows, 0);
    TriggerHour(trigger.obstime);
    EveryThirdHour(trigger, rows);
  }

  lemma TriggerHour(t: int)
    ensures HourOfDay(t) % 6 == 0 <==> (t - Midnight(t)) / 3600 in {0, 6, 12, 18}
    ensures HourOfDay(t) % 6 == 1 <==> (t - Midnight(t)) / 3600 in {1, 7, 13, 19}
  {
    assert 0 <= HourOfDay(t) < 24;
  }

  lemma EveryThirdHour(trigger: Key, rows: seq<Row>)
    requires DayOfFullHours(trigger, rows)
    ensures (forall i :: 0 <= i < |rows| ==> HourOfDay(rows[i].key.obstime) % 3 == 0)
            <==> forall r :: r in rows ==> (r.key.obstime - WindowDate(trigger)) % 10800 == 0
  {
    forall i | 0 <= i < |rows|
      ensures HourOfDay(rows[i].key.obstime) % 3 == 0
              <==> (rows[i].key.obstime - WindowDate(trigger)) % 10800 == 0
    {
      OneDate(trigger, rows, i);
    }
  }

  /** The rows asked for: of the series' minima, those of the trigger's date from 06 to 18 o'clock. */
  lemma MinimaAskedFor(trigger: Key, stored: seq<Row>, r: Row)
    requires trigger.station != ALL_STATIONS && PlainSensor(trigger.sensor) && r.key.sensor == trigger.sensor
    ensures r in StoreReads(stored)(MinimumQuery(trigger))
            <==> && r in stored && r.key.param == 214
                 && r.key.station == trigger.station && r.key.typeId == trigger.typeId
                 && r.key.level == trigger.level
                 && 6 * 3600 <= r.key.obstime - Midnight(trigger.obstime) <= 18 * 3600
  {
    KeepMembers(ByQuery(SourceSide, MinimumQuery(trigger)), stored);
  }

  /** The lower of the values at both ends of an answer. */
  ghost predicate Lowest(minimum: real, a: real, b: real) {
    minimum <= a && minimum <= b && (minimum == a || minimum == b)
  }

  lemma MinimumIsLowest(read: Query -> seq<Row>, trigger: Key)
    requires |read(MinimumQuery(trigger))| >= 2
    ensures var data := read(MinimumQuery(trigger));
            var a, b := data[0].value, data[|data| - 1].value;
            && (!a.originalMissing && !b.originalMissing ==>
                  Lowest(MinimumOver(read, trigger, Original).value, a.original, b.original))
            && (a.originalMissing || b.originalMissing ==> MinimumOver(read, trigger, Original).value == -32767.0)
            && (a.valid && b.valid ==>
                  Lowest(MinimumOver(read, trigger, Corrected).value, a.corrected, b.corrected))
            && (!a.valid || !b.valid ==> MinimumOver(read, trigger, Corrected).value == -32767.0)
  {
  }

  /** The day is left to Köppen's formula, over the rows at 06, 12 and 18 or those at 07, 13 and 19. */
  ghost predicate ThreeOfDay(trigger: Key, rows: seq<Row>, a: Row, b: Row, c: Row) {
    var first := if HourOfDay(trigger.obstime) in {0, 6, 12, 18} then 6 else 7;
    && !MeanShouldProcess(rows)
    && (HourOfDay(trigger.obstime) in {0, 6, 12, 18}
        || (HourOfDay(trigger.obstime) in {1, 7, 13, 19} && |rows| == 3))
    && IsRowAt(rows, a, WindowDate(trigger) + first * 3600)
    && IsRowAt(rows, b, WindowDate(trigger) + (first + 6) * 3600)
    && IsRowAt(rows, c, WindowDate(trigger) + (first + 12) * 3600)
  }

  lemma SelectsThree(trigger: Key, rows: seq<Row>, a: Row, b: Row, c: Row)
    requires DayOfFullHours(trigger, rows) && ThreeOfDay(trigger, rows, a, b, c)
    ensures ShouldProcess(trigger, rows) && Extract(trigger, rows) == Some([a, b, c])
  {
    var first := if HourOfDay(trigger.obstime) in {0, 6, 12, 18} then 6 else 7;
    TriggerHour(trigger.obstime);
    OneDate(trigger, rows, 0);
    FindFullHour(trigger, rows, first, a);
    FindFullHour(trigger, rows, first + 6, b);
    FindFullHour(trigger, rows, first + 12, c);
    PickThree(rows, first, a, b, c);
  }

  /** Three values and a minimum, as original or as corrected ones, and what is reported of them. */
  ghost predicate Reported(usable: bool, reported: real, x: real, y: real, z: real, factor: real, minimum: real) {
    var mean := (x + y + z) / 3.0;
    var exact := mean - factor * (mean - minimum);
    if minimum == -32767.0 then !usable
    else exact != -32768.0 && Round(exact) != -32768.0 ==> usable && reported == Round(exact)
  }

  /**
   * The row of a day left to the formula, from its three observations and the two
   * minima: the mean, less the factor times what the mean is above the minimum.
   */
  lemma DailyTemperature(trigger: Key, observations: seq<Row>, factor: real, read: Query -> seq<Row>,
                         a: Row, b: Row, c: Row)
    requires DayOfRows(trigger, observations) && ThreeOfDay(trigger, FullHours(observations), a, b, c)
    requires |read(MinimumQuery(trigger))| >= 2
    ensures var made := Process(KoppenAggregator(TA, TAM_24, TemperatureBy(Some(factor), read)), trigger, observations);
            made.Some? && made.value.key.param == 253 && made.value.key.obstime == WindowDate(trigger) + 23 * 3600
    ensures var v := Process(KoppenAggregator(TA, TAM_24, TemperatureBy(Some(factor), read)), trigger, observations)
                     .value.value;
            var minimum := MinimumOver(read, trigger, Original).value;
            if a.value.originalMissing || b.value.originalMissing || c.value.originalMissing then v.originalMissing
            else Reported(!v.originalMissing, v.original, a.value.original, b.value.original, c.value.original,
                          factor, minimum)
    ensures var v := Process(KoppenAggregator(TA, TAM_24, TemperatureBy(Some(factor), read)), trigger, observations)
                     .value.value;
            var minimum := MinimumOver(read, trigger, Corrected).value;
            if !a.value.valid || !b.value.valid || !c.value.valid then !v.valid
            else Reported(v.valid, v.corrected, a.value.corrected, b.value.corrected, c.value.corrected,
                          factor, minimum)
  {
    var agg := KoppenAggregator(TA, TAM_24, TemperatureBy(Some(factor), read));
    FilteredDay(trigger, observations);
    SelectsThree(trigger, FullHours(observations), a, b, c);
    KoppenProcess(TemperatureBy(Some(factor), read), trigger, observations);
    DateOfTheDay(trigger);
    OriginalOfThree(trigger, factor, read, a, b, c);
    CorrectedOfThree(trigger, factor, read, a, b, c);
    var original, corrected := OriginalOf(agg, trigger, [a, b, c]), CorrectedOf(agg, trigger, [a, b, c]);
    EmittedRow(trigger, TAM_24, DatedAt(agg.span(trigger.obstime)), original.value, corrected.value, [a, b, c]);
  }

  lemma FormulaIs(a: real, b: real, c: real, factor: real, minimum: real)
    ensures var mean := (a + b + c) / 3.0;
            TemperatureFormula([a, b, c], factor, minimum)
            == if minimum == -32767.0 then -32768.0 else mean - factor * (mean - minimum)
  {
    SumOfThree(a, b, c);
  }

  lemma DateOfTheDay(trigger: Key)
    ensures DatedAt(GetTimeSpan(24, ELEVEN_PM, trigger.obstime)) == WindowDate(trigger) + 23 * 3600
  {
    DailyScheduleHasGap(23 * HOUR);
    WindowEndIsNextScheduled(ELEVEN_PM, trigger.obstime);
    DatedAtWindowEnd(24, ELEVEN_PM, trigger.obstime);
  }

  lemma OriginalOfThree(trigger: Key, factor: real, read: Query -> seq<Row>, a: Row, b: Row, c: Row)
    requires |read(MinimumQuery(trigger))| >= 2
    ensures OriginalOf(KoppenAggregator(TA, TAM_24, TemperatureBy(Some(factor), read)), trigger, [a, b, c])
            == if a.value.originalMissing || b.value.originalMissing || c.value.originalMissing then Some(INVALID)
               else
                 Some(TemperatureFormula([a.value.original, b.value.original, c.value.original], factor,
                                         MinimumOver(read, trigger, Original).value))
    ensures var minimum := MinimumOver(read, trigger, Original).value;
            var mean := (a.value.original + b.value.original + c.value.original) / 3.0;
            TemperatureFormula([a.value.original, b.value.original, c.value.original], factor, minimum)
            == if minimum == -32767.0 then -32768.0 else mean - factor * (mean - minimum)
  {
    FormulaIs(a.value.original, b.value.original, c.value.original, factor, MinimumOver(read, trigger, Original).value);
    assert a in [a, b, c] && b in [a, b, c] && c in [a, b, c];
    assert Originals([a, b, c]) == [a.value.original, b.value.original, c.value.original];
  }

  lemma CorrectedOfThree(trigger: Key, factor: real, read: Query -> seq<Row>, a: Row, b: Row, c: Row)
    requires |read(MinimumQuery(trigger))| >= 2
    ensures CorrectedOf(KoppenAggregator(TA, TAM_24, TemperatureBy(Some(factor), read)), trigger, [a, b, c])
            == if !a.value.valid || !b.value.valid || !c.value.valid then Some(INVALID)
               else
                 Some(TemperatureFormula([a.value.corrected, b.value.corrected, c.value.corrected], factor,
                                         MinimumOver(read, trigger, Corrected).value))
    ensures var minimum := MinimumOver(read, trigger, Corrected).value;
            var mean := (a.value.corrected + b.value.corrected + c.value.corrected) / 3.0;
            TemperatureFormula([a.value.corrected, b.value.corrected, c.value.corrected], factor, minimum)
            == if minimum == -32767.0 then -32768.0 else mean - factor * (mean - minimum)
  {
    FormulaIs(a.value.corrected, b.value.corrected, c.value.corrected, factor,
              MinimumOver(read, trigger, Corrected).value);
    assert a in [a, b, c] && b in [a, b, c] && c in [a, b, c];
    assert Correcteds([a, b, c]) == [a.value.corrected, b.value.corrected, c.value.corrected];
  }
}
