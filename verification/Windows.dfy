/** Aggregation windows: which source times belong to one generated value. */
module Windows {
  import opened Observations

  /** Exclusive start, inclusive end. */
  datatype TimeSpan = TimeSpan(first: int, second: int)

  const SIX_AND_SIX: seq<int> := [6 * HOUR, 18 * HOUR]
  const SIX_AM: seq<int> := [6 * HOUR]
  const ELEVEN_PM: seq<int> := [23 * HOUR]
  const MIDNIGHT: seq<int> := [0]

  /** Times of day in ascending order, as an ordered set holds them. */
  predicate ValidSchedule(schedule: seq<int>) {
    && schedule != []
    && (forall i :: 0 <= i < |schedule| ==> 0 <= schedule[i] < DAY)
    && (forall i, j :: 0 <= i < j < |schedule| ==> schedule[i] < schedule[j])
  }

  function LowerBound(schedule: seq<int>, timeOfDay: int): (i: nat)
    ensures i <= |schedule|
    ensures forall j :: 0 <= j < i ==> schedule[j] < timeOfDay
    ensures i < |schedule| ==> timeOfDay <= schedule[i]
  {
    if schedule == [] || timeOfDay <= schedule[0] then 0
    else 1 + LowerBound(schedule[1..], timeOfDay)
  }

  function GenerationTime(schedule: seq<int>, obstime: int): int
    requires schedule != []
  {
    var i := LowerBound(schedule, TimeOfDay(obstime));
    if i == |schedule| then Midnight(obstime) + DAY + schedule[0] else Midnight(obstime) + schedule[i]
  }

  function GetTimeSpan(interestingHours: int, schedule: seq<int>, obstime: int): TimeSpan
    requires schedule != []
  {
    var genTime := GenerationTime(schedule, obstime);
    TimeSpan(genTime - interestingHours * HOUR, genTime)
  }

  predicate Inside(span: TimeSpan, t: int) {
    span.first < t <= span.second
  }

  /** The instant recurs every day. */
  predicate Scheduled(schedule: seq<int>, t: int) {
    TimeOfDay(t) in schedule
  }

  /** A window ends at the first scheduled instant at or after the observation, over all days. */
  lemma WindowEndIsNextScheduled(schedule: seq<int>, obstime: int)
    requires ValidSchedule(schedule)
    ensures var end := GenerationTime(schedule, obstime);
            && Scheduled(schedule, end) && obstime <= end
            && forall u :: obstime <= u < end ==> !Scheduled(schedule, u)
  {
    var end := GenerationTime(schedule, obstime);
    var i := LowerBound(schedule, TimeOfDay(obstime));
    if i < |schedule| {
    } else {
    }
    forall u | obstime <= u < end
      ensures !Scheduled(schedule, u)
    {
      if u < Midnight(obstime) + DAY {
      } else {
      }
    }
  }

  lemma NextScheduledIsUnique(schedule: seq<int>, obstime: int, end: int)
    requires ValidSchedule(schedule) && Scheduled(schedule, end) && obstime <= end
    requires forall u :: obstime <= u < end ==> !Scheduled(schedule, u)
    ensures GenerationTime(schedule, obstime) == end
  {
    WindowEndIsNextScheduled(schedule, obstime);
  }

  /** Scheduled instants lie exactly `gap` seconds apart. */
  ghost predicate ConstantGap(schedule: seq<int>, gap: int) {
    && gap > 0
    && forall u :: Scheduled(schedule, u) ==>
         Scheduled(schedule, u - gap) && forall v :: u - gap < v < u ==> !Scheduled(schedule, v)
  }

  /** Every time lies in the window of exactly the times that share its window. */
  ghost predicate WindowsPartitionTime(interestingHours: int, schedule: seq<int>)
    requires schedule != []
  {
    forall s, t ::
      Inside(GetTimeSpan(interestingHours, schedule, t), s)
      <==> GetTimeSpan(interestingHours, schedule, s) == GetTimeSpan(interestingHours, schedule, t)
  }

  lemma FullGapMeansSameWindow(schedule: seq<int>, gap: int, s: int, t: int)
    requires ValidSchedule(schedule) && ConstantGap(schedule, gap)
    ensures var end := GenerationTime(schedule, t);
            end - gap < s <= end <==> GenerationTime(schedule, s) == end
  {
    var end := GenerationTime(schedule, t);
    WindowEndIsNextScheduled(schedule, t);
    WindowEndIsNextScheduled(schedule, s);
    if end - gap < s <= end {
      NextScheduledIsUnique(schedule, s, end);
    } else {
      assert Scheduled(schedule, end - gap);
    }
  }

  /** Windows partition time exactly when they are as long as the schedule's gap. */
  lemma PartitionIff(interestingHours: int, schedule: seq<int>, gap: int)
    requires ValidSchedule(schedule) && ConstantGap(schedule, gap)
    ensures WindowsPartitionTime(interestingHours, schedule) <==> interestingHours * HOUR == gap
  {
    var length := interestingHours * HOUR;
    if length == gap {
      forall s, t
        ensures Inside(GetTimeSpan(interestingHours, schedule, t), s)
                <==> GetTimeSpan(interestingHours, schedule, s) == GetTimeSpan(interestingHours, schedule, t)
      {
        FullGapMeansSameWindow(schedule, gap, s, t);
      }
    } else {
      var end := GenerationTime(schedule, 0);
      var s := end - (if length < gap then Max(length, 0) else gap);
      FullGapMeansSameWindow(schedule, gap, s, 0);
      assert Inside(GetTimeSpan(interestingHours, schedule, 0), s)
             != (GetTimeSpan(interestingHours, schedule, s) == GetTimeSpan(interestingHours, schedule, 0));
    }
  }

  lemma DailyScheduleHasGap(timeOfDay: int)
    requires 0 <= timeOfDay < DAY
    ensures ValidSchedule([timeOfDay]) && ConstantGap([timeOfDay], DAY)
  {
    forall u | Scheduled([timeOfDay], u)
      ensures Scheduled([timeOfDay], u - DAY)
      ensures forall v :: u - DAY < v < u ==> !Scheduled([timeOfDay], v)
    {
    }
  }

  lemma TwiceDailyScheduleHasGap()
    ensures ValidSchedule(SIX_AND_SIX) && ConstantGap(SIX_AND_SIX, 12 * HOUR)
  {
    forall u | Scheduled(SIX_AND_SIX, u)
      ensures Scheduled(SIX_AND_SIX, u - 12 * HOUR)
      ensures forall v :: u - 12 * HOUR < v < u ==> !Scheduled(SIX_AND_SIX, v)
    {
      HalfDayBefore(u);
      forall v | u - 12 * HOUR < v < u
        ensures !Scheduled(SIX_AND_SIX, v)
      {
        NothingBetween(u, v);
      }
    }
  }

  lemma HalfDayBefore(u: int)
    requires Scheduled(SIX_AND_SIX, u)
    ensures Scheduled(SIX_AND_SIX, u - 12 * HOUR)
  {
  }

  lemma NothingBetween(u: int, v: int)
    requires Scheduled(SIX_AND_SIX, u) && u - 12 * HOUR < v < u
    ensures !Scheduled(SIX_AND_SIX, v)
  {
  }

  /** The rain sums and daily means use every observation for exactly one value; the gauge windows overlap. */
  lemma ConfiguredWindows()
    ensures WindowsPartitionTime(12, SIX_AND_SIX)
    ensures WindowsPartitionTime(24, SIX_AM)
    ensures WindowsPartitionTime(24, ELEVEN_PM)
    ensures WindowsPartitionTime(24, MIDNIGHT)
    ensures !WindowsPartitionTime(25, SIX_AND_SIX)
  {
    TwiceDailyScheduleHasGap();
    PartitionIff(12, SIX_AND_SIX, 12 * HOUR);
    PartitionIff(25, SIX_AND_SIX, 12 * HOUR);
    DailyScheduleHasGap(6 * HOUR);
    PartitionIff(24, SIX_AM, DAY);
    DailyScheduleHasGap(23 * HOUR);
    PartitionIff(24, ELEVEN_PM, DAY);
    DailyScheduleHasGap(0);
    PartitionIff(24, MIDNIGHT, DAY);
  }

  /** The time a generated row is dated: the window's end, cut down to the full hour. */
  function DatedAt(span: TimeSpan): int {
    Midnight(span.second) + HourOfDay(span.second) * HOUR
  }

  /** With a schedule of full hours the generated row is dated at the window's end. */
  lemma DatedAtWindowEnd(interestingHours: int, schedule: seq<int>, obstime: int)
    requires ValidSchedule(schedule)
    requires forall i :: 0 <= i < |schedule| ==> schedule[i] % HOUR == 0
    ensures var span := GetTimeSpan(interestingHours, schedule, obstime);
            DatedAt(span) == span.second
  {
    WindowEndIsNextScheduled(schedule, obstime);
  }
}
