/** Which incoming rows aggregation starts from. */
module CheckDecision {
  import opened Wrappers
  import opened Observations
  import opened Tables

  const FOREIGN_STATIONS := 100000
  const LAST_STATION := 0x7FFF_FFFF
  const WHITE_LIST: set<int> := {RA, RR_01, RR_1, RR_12, RR_24}

  /** Foreign stations are aggregated for precipitation only. */
  predicate StationInRange(k: Key) {
    !(FOREIGN_STATIONS <= k.station <= LAST_STATION && k.param !in WHITE_LIST)
  }

  type DataAccess = Option<Query -> seq<Row>>

  /** The last eleven hours of another parameter of the same series. */
  function LookBack(k: Key, param: int): Query {
    Query(k.station, k.obstime - 11 * HOUR, k.obstime, param, k.typeId, k.sensor, k.level)
  }

  predicate Usable(r: Row) {
    !r.value.originalMissing && r.value.valid
  }

  predicate AllUsable(rows: seq<Row>) {
    forall r :: r in rows ==> Usable(r)
  }

  /** Hourly rain takes precedence over the gauge, unless the gauge has data and an hour is unusable. */
  predicate Rr1OverridesRa(dataAccess: DataAccess, k: Key) {
    dataAccess.Some? ==>
      var hourly := dataAccess.value(LookBack(k, RR_1));
      && hourly != []
      && (dataAccess.value(LookBack(k, RA)) != [] ==> AllUsable(hourly))
  }

  method Rr1ShouldOverrideRa(dataAccess: DataAccess, k: Key) returns (overrides: bool)
    ensures overrides == Rr1OverridesRa(dataAccess, k)
  {
    if dataAccess.Some? {
      var data := dataAccess.value(LookBack(k, RR_1));
      if data == [] {
        return false;
      }
      var raData := dataAccess.value(LookBack(k, RA));
      if raData != [] {
        var i := 0;
        while i < |data|
          invariant 0 <= i <= |data|
          invariant AllUsable(data[..i])
        {
          if data[i].value.originalMissing || !data[i].value.valid {
            assert data[i] in data;
            return false;
          }
          i := i + 1;
        }
        assert data[..i] == data;
      }
      return true;
    }
    return true;
  }

  /** Same station, type, sensor and level; the time is not compared. */
  predicate StationHasParamid(r: Row, param: int, k: Key) {
    && r.key.param == param
    && r.key.typeId == k.typeId
    && r.key.station == k.station
    && r.key.sensor == k.sensor
    && r.key.level == k.level
  }

  predicate ShouldRunChecksOn(dataAccess: DataAccess, k: Key, batch: seq<Row>) {
    if k.param == RA then
      (exists r :: r in batch && StationHasParamid(r, RR_1, k)) ==> !Rr1OverridesRa(dataAccess, k)
    else k.param == RR_1 ==> Rr1OverridesRa(dataAccess, k)
  }

  predicate CompleteDecision(dataAccess: DataAccess, k: Key, batch: seq<Row>) {
    StationInRange(k) && ShouldRunChecksOn(dataAccess, k, batch)
  }

  method Decide(dataAccess: DataAccess, k: Key, batch: seq<Row>) returns (run: bool)
    ensures run == CompleteDecision(dataAccess, k, batch)
  {
    if FOREIGN_STATIONS <= k.station <= LAST_STATION && k.param !in WHITE_LIST {
      return false;
    }
    if k.param == RA {
      var found := FindRr1(k, batch);
      if found {
        var overrides := Rr1ShouldOverrideRa(dataAccess, k);
        return !overrides;
      }
    } else if k.param == RR_1 {
      run := Rr1ShouldOverrideRa(dataAccess, k);
      return;
    }
    return true;
  }

  method FindRr1(k: Key, batch: seq<Row>) returns (found: bool)
    ensures found <==> exists r :: r in batch && StationHasParamid(r, RR_1, k)
  {
    var i := 0;
    while i < |batch|
      invariant 0 <= i <= |batch|
      invariant forall j :: 0 <= j < i ==> !StationHasParamid(batch[j], RR_1, k)
    {
      if StationHasParamid(batch[i], RR_1, k) {
        assert batch[i] in batch;
        return true;
      }
      i := i + 1;
    }
    return false;
  }

  /**
   * Gauge and hourly rain of one series and time, delivered together, are never
   * both aggregated and never both ignored.
   */
  lemma ExactlyOneSourceOfRain(dataAccess: DataAccess, ra: Row, rr1: Row, batch: seq<Row>)
    requires ra in batch && rr1 in batch
    requires ra.key.param == RA && rr1.key == ra.key.(param := RR_1)
    ensures CompleteDecision(dataAccess, ra.key, batch) <==> !CompleteDecision(dataAccess, rr1.key, batch)
  {
    assert StationHasParamid(rr1, RR_1, ra.key);
    assert LookBack(ra.key, RR_1) == LookBack(rr1.key, RR_1);
    assert LookBack(ra.key, RA) == LookBack(rr1.key, RA);
  }

  /** Once both have reached the store, the gauge is used exactly if one of the hourly values is unusable. */
  lemma GaugeIsFallback(read: Query -> seq<Row>, ra: Row, rr1: Row, batch: seq<Row>)
    requires ra in batch && rr1 in batch
    requires ra.key.param == RA && rr1.key == ra.key.(param := RR_1)
    requires rr1 in read(LookBack(rr1.key, RR_1)) && ra in read(LookBack(ra.key, RA))
    ensures CompleteDecision(Some(read), ra.key, batch) <==> !AllUsable(read(LookBack(ra.key, RR_1)))
  {
    assert StationHasParamid(rr1, RR_1, ra.key);
    assert LookBack(ra.key, RR_1) == LookBack(rr1.key, RR_1);
    assert read(LookBack(ra.key, RA)) != [] && read(LookBack(ra.key, RR_1)) != [];
  }

  // ---- Different times in one batch ----

  predicate SameButTime(a: Key, b: Key) {
    a.(obstime := b.obstime) == b
  }

  /** A gauge row and an hourly row of one series, each at its own time. */
  predicate Siblings(ra: Row, rr1: Row, batch: seq<Row>) {
    ra in batch && rr1 in batch && ra.key.param == RA && SameButTime(rr1.key, ra.key.(param := RR_1))
  }

  predicate BothRun(read: Query -> seq<Row>, ra: Row, rr1: Row, batch: seq<Row>) {
    CompleteDecision(Some(read), ra.key, batch) && CompleteDecision(Some(read), rr1.key, batch)
  }

  predicate NeitherRuns(read: Query -> seq<Row>, ra: Row, rr1: Row, batch: seq<Row>) {
    !CompleteDecision(Some(read), ra.key, batch) && !CompleteDecision(Some(read), rr1.key, batch)
  }

  /** Whatever the store answers, exactly one of the two runs if, and only if, their times are equal. */
  lemma ExclusiveForAnyAccessIff(ra: Row, rr1: Row, batch: seq<Row>)
    requires Siblings(ra, rr1, batch)
    ensures (forall read :: !BothRun(read, ra, rr1, batch)) <==> ra.key.obstime == rr1.key.obstime
    ensures (forall read :: !NeitherRuns(read, ra, rr1, batch)) <==> ra.key.obstime == rr1.key.obstime
  {
    assert StationHasParamid(rr1, RR_1, ra.key);
    if ra.key.obstime == rr1.key.obstime {
      forall read: Query -> seq<Row>
        ensures !BothRun(read, ra, rr1, batch) && !NeitherRuns(read, ra, rr1, batch)
      {
        ExactlyOneSourceOfRain(Some(read), ra, rr1, batch);
      }
    } else {
      var usable := Row(rr1.key, rr1.value.(originalMissing := false, valid := true));
      var atHourly := (q: Query) => if q.param == RR_1 && q.to == rr1.key.obstime then [usable] else [];
      var atGauge := (q: Query) => if q.param == RR_1 && q.to == ra.key.obstime then [usable] else [];
      assert BothRun(atHourly, ra, rr1, batch);
      assert NeitherRuns(atGauge, ra, rr1, batch);
    }
  }

  predicate InLookBack(r: Row, k: Key, param: int) {
    Selects(SourceSide, LookBack(k, param), r.key)
  }

  predicate AnyInLookBack(stored: seq<Row>, k: Key, param: int) {
    exists r :: r in stored && InLookBack(r, k, param)
  }

  lemma OverridesOverStore(stored: seq<Row>, k: Key)
    ensures Rr1OverridesRa(Some(StoreReads(stored)), k)
            <==> && AnyInLookBack(stored, k, RR_1)
                 && (AnyInLookBack(stored, k, RA) ==> forall r :: r in stored && InLookBack(r, k, RR_1) ==> Usable(r))
  {
    StoreAnswers(stored, k, RR_1);
    StoreAnswers(stored, k, RA);
  }

  lemma StoreAnswers(stored: seq<Row>, k: Key, param: int)
    ensures forall r :: r in StoreReads(stored)(LookBack(k, param)) <==> r in stored && InLookBack(r, k, param)
    ensures StoreReads(stored)(LookBack(k, param)) != [] <==> AnyInLookBack(stored, k, param)
  {
    var answer := StoreReads(stored)(LookBack(k, param));
    KeepMembers(ByQuery(SourceSide, LookBack(k, param)), stored);
    if answer != [] {
      assert answer[0] in answer;
    }
  }

  /** `r` is a row of `param`, from the last eleven hours of the series of `k`. */
  ghost predicate Recent(r: Row, k: Key, param: int) {
    && r.key.param == param
    && r.key.station == k.station && r.key.typeId == k.typeId && r.key.level == k.level
    && r.key.sensor in {k.sensor, k.sensor - 48, k.sensor + 48}
    && k.obstime - 39600 < r.key.obstime <= k.obstime
  }

  /** Stored hourly rain is used: there is some, and with a gauge reading beside it all of it is good. */
  ghost predicate HourlyRainIsUsed(stored: seq<Row>, k: Key) {
    && (exists r :: r in stored && Recent(r, k, 106))
    && ((forall r :: r in stored ==> !Recent(r, k, 104))
        || forall r :: r in stored && Recent(r, k, 106) ==> !r.value.originalMissing && r.value.valid)
  }

  lemma OverridesIff(stored: seq<Row>, k: Key)
    requires k.station != 0
    ensures Rr1OverridesRa(Some(StoreReads(stored)), k) <==> HourlyRainIsUsed(stored, k)
  {
    OverridesOverStore(stored, k);
    forall r | r in stored
      ensures InLookBack(r, k, 106) <==> Recent(r, k, 106)
      ensures InLookBack(r, k, 104) <==> Recent(r, k, 104)
    {
    }
  }

  /**
   * Over any store: abroad only precipitation is aggregated; hourly rain where
   * it is used, a gauge reading where it is not or where the batch brings no
   * hourly row of the very same series.
   */
  lemma DecisionIff(stored: seq<Row>, k: Key, batch: seq<Row>)
    requires k.station != 0
    ensures CompleteDecision(Some(StoreReads(stored)), k, batch)
            <==> && (k.station < 100000 || k.station > 2147483647 || k.param in {104, 105, 106, 109, 110})
                 && (k.param == 106 ==> HourlyRainIsUsed(stored, k))
                 && (k.param == 104 && HourlyRainIsUsed(stored, k) ==>
                       forall r :: r in batch ==> r.key.(obstime := 0) != k.(param := 106, obstime := 0))
  {
    OverridesIff(stored, k);
    forall r | r in batch
      ensures StationHasParamid(r, 106, k) <==> r.key.(obstime := 0) == k.(param := 106, obstime := 0)
    {
    }
  }

  /** Stores that hold what was delivered. */
  ghost predicate Holds(stored: seq<Row>, ra: Row, rr1: Row) {
    UniqueKeys(stored) && ra in stored && rr1 in stored
  }

  /**
   * Over stores that hold both rows, two different times rule out that both run
   * in one case only: the hourly value is unusable and the gauge was read within
   * the eleven hours before it.
   */
  lemma NeverBothOverStoresIff(ra: Row, rr1: Row, batch: seq<Row>)
    requires Siblings(ra, rr1, batch)
    ensures (forall stored :: Holds(stored, ra, rr1) ==> !BothRun(StoreReads(stored), ra, rr1, batch))
            <==> || ra.key.obstime == rr1.key.obstime
                 || (!Usable(rr1) && rr1.key.obstime - 11 * HOUR < ra.key.obstime < rr1.key.obstime)
  {
    assert StationHasParamid(rr1, RR_1, ra.key);
    if ra.key.obstime == rr1.key.obstime {
      ExclusiveForAnyAccessIff(ra, rr1, batch);
    } else if !Usable(rr1) && rr1.key.obstime - 11 * HOUR < ra.key.obstime < rr1.key.obstime {
      forall stored | Holds(stored, ra, rr1)
        ensures !BothRun(StoreReads(stored), ra, rr1, batch)
      {
        OverridesOverStore(stored, rr1.key);
        assert InLookBack(ra, rr1.key, RA) && InLookBack(rr1, rr1.key, RR_1);
      }
    } else {
      var stored := BothRunOver(ra, rr1, batch);
    }
  }

  /** A store over which both run: the two rows, and an unusable hour if the gauge was read later. */
  lemma BothRunOver(ra: Row, rr1: Row, batch: seq<Row>) returns (stored: seq<Row>)
    requires Siblings(ra, rr1, batch) && ra.key.obstime != rr1.key.obstime
    requires Usable(rr1) || !(rr1.key.obstime - 11 * HOUR < ra.key.obstime < rr1.key.obstime)
    ensures Holds(stored, ra, rr1) && BothRun(StoreReads(stored), ra, rr1, batch)
  {
    if ra.key.obstime < rr1.key.obstime {
      stored := [ra, rr1];
      BothRunGaugeFirst(ra, rr1, batch);
    } else {
      var unusable := Row(ra.key.(param := RR_1), rr1.value.(valid := false));
      stored := [ra, rr1, unusable];
      BothRunGaugeLast(ra, rr1, unusable, batch);
    }
  }

  /** At the gauge's time there is no hourly value yet. */
  lemma BothRunGaugeFirst(ra: Row, rr1: Row, batch: seq<Row>)
    requires Siblings(ra, rr1, batch) && ra.key.obstime < rr1.key.obstime
    requires Usable(rr1) || ra.key.obstime <= rr1.key.obstime - 11 * HOUR
    ensures Holds([ra, rr1], ra, rr1) && BothRun(StoreReads([ra, rr1]), ra, rr1, batch)
  {
    assert StationHasParamid(rr1, RR_1, ra.key);
    OverridesOverStore([ra, rr1], ra.key);
    OverridesOverStore([ra, rr1], rr1.key);
    assert InLookBack(rr1, rr1.key, RR_1);
  }

  /** At the hourly value's time the gauge has not been read, and at the gauge's an hour is unusable. */
  lemma BothRunGaugeLast(ra: Row, rr1: Row, unusable: Row, batch: seq<Row>)
    requires Siblings(ra, rr1, batch) && ra.key.obstime > rr1.key.obstime
    requires unusable.key == ra.key.(param := RR_1) && !Usable(unusable)
    ensures var stored := [ra, rr1, unusable];
            Holds(stored, ra, rr1) && BothRun(StoreReads(stored), ra, rr1, batch)
  {
    var stored := [ra, rr1, unusable];
    assert StationHasParamid(rr1, RR_1, ra.key);
    OverridesOverStore(stored, ra.key);
    OverridesOverStore(stored, rr1.key);
    assert InLookBack(rr1, rr1.key, RR_1);
    assert InLookBack(ra, ra.key, RA) && InLookBack(unusable, ra.key, RR_1);
  }

  /**
   * Over such stores, two different times rule out that neither runs in one case
   * only: the hourly value is unusable and within the eleven hours before the
   * gauge was read.
   */
  lemma NeverNeitherOverStoresIff(ra: Row, rr1: Row, batch: seq<Row>)
    requires Siblings(ra, rr1, batch)
    ensures (forall stored :: Holds(stored, ra, rr1) ==> !NeitherRuns(StoreReads(stored), ra, rr1, batch))
            <==> || ra.key.obstime == rr1.key.obstime
                 || (!Usable(rr1) && ra.key.obstime - 11 * HOUR < rr1.key.obstime < ra.key.obstime)
  {
    assert StationHasParamid(rr1, RR_1, ra.key);
    if ra.key.obstime == rr1.key.obstime {
      ExclusiveForAnyAccessIff(ra, rr1, batch);
    } else if !Usable(rr1) && ra.key.obstime - 11 * HOUR < rr1.key.obstime < ra.key.obstime {
      forall stored | Holds(stored, ra, rr1)
        ensures !NeitherRuns(StoreReads(stored), ra, rr1, batch)
      {
        OverridesOverStore(stored, ra.key);
        assert InLookBack(ra, ra.key, RA) && InLookBack(rr1, ra.key, RR_1);
      }
    } else {
      var stored := NeitherRunsOver(ra, rr1, batch);
    }
  }

  /**
   * A store over which neither runs: beside the two rows, a good hour at the
   * gauge's time, a gauge reading at the hourly value's time, and an unusable
   * hour that only the hourly value looks back on.
   */
  lemma NeitherRunsOver(ra: Row, rr1: Row, batch: seq<Row>) returns (stored: seq<Row>)
    requires Siblings(ra, rr1, batch) && ra.key.obstime != rr1.key.obstime
    requires Usable(rr1) || !(ra.key.obstime - 11 * HOUR < rr1.key.obstime < ra.key.obstime)
    ensures Holds(stored, ra, rr1) && NeitherRuns(StoreReads(stored), ra, rr1, batch)
  {
    var good := Row(ra.key.(param := RR_1), rr1.value.(originalMissing := false, valid := true));
    var reading := Row(rr1.key.(param := RA), ra.value);
    var bad := Row(OnlyHourlyLooksBackOn(ra.key, rr1.key), rr1.value.(valid := false));
    stored := [ra, rr1, good, reading, bad];
    GaugeIsOverridden(ra, rr1, good, reading, bad, batch);
    HourlyIsRefused(ra, rr1, good, reading, bad, batch);
  }

  /** The same sensor in its other spelling, or the first second the hourly value looks back on. */
  function OnlyHourlyLooksBackOn(ra: Key, rr1: Key): Key {
    if ra.obstime < rr1.obstime then rr1.(sensor := rr1.sensor + '0' as int)
    else rr1.(obstime := rr1.obstime - 11 * HOUR + 1)
  }

  lemma GaugeIsOverridden(ra: Row, rr1: Row, good: Row, reading: Row, bad: Row, batch: seq<Row>)
    requires Siblings(ra, rr1, batch) && ra.key.obstime != rr1.key.obstime
    requires Usable(rr1) || !(ra.key.obstime - 11 * HOUR < rr1.key.obstime < ra.key.obstime)
    requires good.key == ra.key.(param := RR_1) && Usable(good)
    requires reading.key == rr1.key.(param := RA) && bad.key == OnlyHourlyLooksBackOn(ra.key, rr1.key)
    ensures !CompleteDecision(Some(StoreReads([ra, rr1, good, reading, bad])), ra.key, batch)
  {
    var stored := [ra, rr1, good, reading, bad];
    assert StationHasParamid(rr1, RR_1, ra.key);
    OverridesOverStore(stored, ra.key);
    assert InLookBack(good, ra.key, RR_1) && good in stored;
    assert !InLookBack(bad, ra.key, RR_1);
    assert InLookBack(rr1, ra.key, RR_1) ==> Usable(rr1);
  }

  lemma HourlyIsRefused(ra: Row, rr1: Row, good: Row, reading: Row, bad: Row, batch: seq<Row>)
    requires Siblings(ra, rr1, batch) && ra.key.obstime != rr1.key.obstime
    requires reading.key == rr1.key.(param := RA)
    requires bad.key == OnlyHourlyLooksBackOn(ra.key, rr1.key) && !Usable(bad)
    ensures !CompleteDecision(Some(StoreReads([ra, rr1, good, reading, bad])), rr1.key, batch)
  {
    var stored := [ra, rr1, good, reading, bad];
    OverridesOverStore(stored, rr1.key);
    assert InLookBack(reading, rr1.key, RA) && reading in stored;
    assert InLookBack(bad, rr1.key, RR_1) && bad in stored;
  }

  /** Over every store that holds both rows exactly one of them runs if, and only if, their times are equal. */
  lemma ExclusiveOverStoresIff(ra: Row, rr1: Row, batch: seq<Row>)
    requires Siblings(ra, rr1, batch)
    ensures (forall stored :: Holds(stored, ra, rr1) ==>
               && !BothRun(StoreReads(stored), ra, rr1, batch)
               && !NeitherRuns(StoreReads(stored), ra, rr1, batch))
            <==> ra.key.obstime == rr1.key.obstime
  {
    NeverBothOverStoresIff(ra, rr1, batch);
    NeverNeitherOverStoresIff(ra, rr1, batch);
  }

  /** A batch of one hour, and a store that has exactly its rows, where gauge and hourly rain are both aggregated. */
  lemma DifferentTimesMayBothRun()
    ensures exists stored: seq<Row>, ra: Row, rr1: Row ::
              && Siblings(ra, rr1, stored) && UniqueKeys(stored)
              && 0 <= ra.key.obstime < HOUR && 0 <= rr1.key.obstime < HOUR
              && BothRun(StoreReads(stored), ra, rr1, stored)
  {
    var value := Value(1.0, 1.0, false, true, ControlInfo(0, 0, ""), UseInfo(0, 0, ""));
    var ra := Row(Key(42, 0, RA, 0, 0, 302), value);
    var rr1 := Row(Key(42, HOUR / 2, RR_1, 0, 0, 302), value);
    var stored := [ra, rr1];
    assert ra in stored && rr1 in stored;
    assert StationHasParamid(rr1, RR_1, ra.key);
    OverridesOverStore(stored, ra.key);
    OverridesOverStore(stored, rr1.key);
    assert InLookBack(rr1, rr1.key, RR_1);
    assert BothRun(StoreReads(stored), ra, rr1, stored);
  }

  /** A batch of one hour, and a store that holds it, where neither is aggregated. */
  lemma DifferentTimesMayNeitherRun()
    ensures exists stored: seq<Row>, ra: Row, rr1: Row, batch: seq<Row> ::
              && Siblings(ra, rr1, batch) && Holds(stored, ra, rr1)
              && (forall r :: r in batch ==> 0 <= r.key.obstime < HOUR && r in stored)
              && NeitherRuns(StoreReads(stored), ra, rr1, batch)
  {
    var value := Value(1.0, 1.0, false, true, ControlInfo(0, 0, ""), UseInfo(0, 0, ""));
    var ra := Row(Key(42, 0, RA, 0, 0, 302), value);
    var rr1 := Row(Key(42, HOUR / 2, RR_1, 0, 0, 302), value);
    var batch := [ra, rr1];
    assert ra in batch && rr1 in batch;
    var stored := NeitherRunsOver(ra, rr1, batch);
    forall r | r in batch
      ensures 0 <= r.key.obstime < HOUR && r in stored
    {
      assert r == ra || r == rr1;
    }
    assert Siblings(ra, rr1, batch) && Holds(stored, ra, rr1) && NeitherRuns(StoreReads(stored), ra, rr1, batch);
  }
}
