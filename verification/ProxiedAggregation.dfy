/** The aggregation handler on top of the caching proxy. */
module ProxiedAggregation {
  import opened Wrappers
  import opened Observations
  import opened Tables
  import opened ProxyRuns
  import opened ProxySpec
  import opened Handler
  import opened Rounding
  import Gauge
  import SA = StandardAggregators

  /** The handler's data access is a proxy with these tables and this watermark. */
  ghost predicate ReadsThroughProxy(setup: Setup, t: Contents, watermark: int) {
    forall q: Query :: setup.read(q) == SplitRead(t.stored, t.cached, Some(watermark), q)
  }

  /** Through a proxy, a read can leave its window exactly if kvalobs has a row dated on the watermark. */
  lemma ProxyAnswersStayInWindowIff(setup: Setup, t: Contents, watermark: int)
    requires ReadsThroughProxy(setup, t, watermark) && UniqueKeys(t.stored) && UniqueKeys(t.cached)
    ensures AnswersInWindow(setup) <==> forall k :: k in View(t.stored) ==> k.obstime != watermark
  {
    forall q: Query | q.from < q.to
      ensures InWindow(setup.read(q), q.from, q.to)
              <==> !(StartsOnWatermark(watermark, q) && RowsAtStart(View(t.stored), q) != map[])
    {
      ReadsStayInWindow(t.stored, t.cached, watermark, q);
    }
    if k :| k in View(t.stored) && k.obstime == watermark {
      var q := Query(k.station, watermark, watermark + 1, k.param, k.typeId, k.sensor, k.level);
      assert k in RowsAtStart(View(t.stored), q);
      assert !InWindow(setup.read(q), q.from, q.to);
    }
  }

  /** A read that starts exactly on the watermark and finds a row there. */
  predicate FindsWatermarkRow(t: Contents, watermark: int, q: Query) {
    StartsOnWatermark(watermark, q) && RowsAtStart(View(t.stored), q) != map[]
  }

  /** Is one of the aggregator's reads for the trigger such a read? */
  predicate MeetsWatermarkRow(t: Contents, watermark: int, a: Aggregator, k: Key) {
    exists p :: p in ReadParams(a) && FindsWatermarkRow(t, watermark, SourceQuery(k, Span(a, k.obstime), p))
  }

  /**
   * One aggregator on one trigger: it throws exactly if it runs, its window
   * starts on the watermark, and kvalobs has a row of a series it reads there.
   */
  lemma StepThrowsOnWatermarkIff(setup: Setup, t: Contents, watermark: int, a: Aggregator, data: Row)
    requires ReadsThroughProxy(setup, t, watermark) && UniqueKeys(t.stored) && UniqueKeys(t.cached)
    requires Span(a, data.key.obstime).first < Span(a, data.key.obstime).second
    ensures Step(setup, a, data).Threw?
            <==> (a.Standard? ==> a.interested(data.key)) && MeetsWatermarkRow(t, watermark, a, data.key)
  {
    var span := Span(a, data.key.obstime);
    StepThrowsIff(setup, a, data);
    forall p
      ensures !InWindow(setup.read(SourceQuery(data.key, span, p)), span.first, span.second)
              <==> FindsWatermarkRow(t, watermark, SourceQuery(data.key, span, p))
    {
      ReadsStayInWindow(t.stored, t.cached, watermark, SourceQuery(data.key, span, p));
    }
  }

  /** Some aggregator that runs on the row meets a row dated on the watermark. */
  ghost predicate RunsIntoWatermark(setup: Setup, t: Contents, watermark: int, r: Row) {
    && Admitted(setup, r.key)
    && exists j :: 0 <= j < |HandlersFor(setup, r.key.param)| &&
         var a := HandlersFor(setup, r.key.param)[j];
         (a.Standard? ==> a.interested(r.key)) && MeetsWatermarkRow(t, watermark, a, r.key)
  }

  lemma ThrowsOnWatermarkIff(setup: Setup, t: Contents, watermark: int, r: Row)
    requires ProperSpans(setup)
    requires ReadsThroughProxy(setup, t, watermark) && UniqueKeys(t.stored) && UniqueKeys(t.cached)
    ensures ThrowsOn(setup, r) <==> RunsIntoWatermark(setup, t, watermark, r)
  {
    forall j | 0 <= j < |HandlersFor(setup, r.key.param)|
      ensures var a := HandlersFor(setup, r.key.param)[j];
              Step(setup, a, r).Threw?
              <==> (a.Standard? ==> a.interested(r.key)) && MeetsWatermarkRow(t, watermark, a, r.key)
    {
      StepThrowsOnWatermarkIff(setup, t, watermark, HandlersFor(setup, r.key.param)[j], r);
    }
  }

  /**
   * A trigger ends in an exception exactly if an aggregator that runs on it, or
   * on a row it has produced on the way, reads from the watermark on a series of
   * which kvalobs has a row at that instant.
   */
  lemma AggregationThrowsIff(setup: Setup, t: Contents, watermark: int, data: Row)
    requires Ends(setup, data) && ProperSpans(setup)
    requires ReadsThroughProxy(setup, t, watermark) && UniqueKeys(t.stored) && UniqueKeys(t.cached)
    ensures Results(setup, data).threw
            <==> || RunsIntoWatermark(setup, t, watermark, data)
                 || exists r :: r in Results(setup, data).rows && RunsIntoWatermark(setup, t, watermark, r)
  {
    ThrowsIff(setup, data);
    ThrowsOnWatermarkIff(setup, t, watermark, data);
    forall r
      ensures ThrowsOn(setup, r) <==> RunsIntoWatermark(setup, t, watermark, r)
    {
      ThrowsOnWatermarkIff(setup, t, watermark, r);
    }
  }

  /** No trigger ends in an exception exactly if none of the possible rows meets a row on the watermark itself. */
  lemma NothingThrowsIff(setup: Setup, t: Contents, watermark: int)
    requires ProperSpans(setup) && forall data :: Ends(setup, data)
    requires ReadsThroughProxy(setup, t, watermark) && UniqueKeys(t.stored) && UniqueKeys(t.cached)
    ensures (forall data :: !Results(setup, data).threw) <==> forall r :: !RunsIntoWatermark(setup, t, watermark, r)
  {
    if r :| RunsIntoWatermark(setup, t, watermark, r) {
      AggregationThrowsIff(setup, t, watermark, r);
      assert Results(setup, r).threw;
    } else {
      forall data
        ensures !Results(setup, data).threw
      {
        AggregationThrowsIff(setup, t, watermark, data);
      }
    }
  }

  // ---- Sea level pressure ----

  /** Sea level pressure is always reported, never generated. */
  predicate ReportedPressure(rows: seq<Row>) {
    forall r :: r in rows && r.key.param == PR ==> r.key.typeId > 0
  }

  predicate PressureIsReported(t: Contents) {
    ReportedPressure(t.stored) && ReportedPressure(t.cached)
  }

  lemma NothingKept(c: Criterion, rows: seq<Row>)
    requires forall r :: r in rows ==> !Accepts(c, r.key)
    ensures Keep(c, rows) == []
  {
    KeepMembers(c, rows);
    if Keep(c, rows) != [] {
      assert Keep(c, rows)[0] in Keep(c, rows);
    }
  }

  /** Over tables without generated sea level pressure the recursion ends, whatever the trigger. */
  lemma ProxyHasNoGeneratedPressure(setup: Setup, t: Contents, watermark: int, k: Key)
    requires ReadsThroughProxy(setup, t, watermark) && PressureIsReported(t)
    ensures NoGeneratedPressure(setup, k)
  {
    forall q: Query | q.param == PR && q.typeId == Negative(k.typeId)
      ensures setup.read(q) == []
    {
      NothingKept(ByQuery(SourceSide, q.(to := Min(q.to, watermark))), t.stored);
      NothingKept(ByQuery(CacheSide, q.(from := Max(q.from, watermark))), t.cached);
      assert SplitRead(t.stored, t.cached, Some(watermark), q) == [];
    }
  }

  /** The handler with its reads going through a proxy. */
  ghost function Through(base: Setup, p: Served): Setup {
    base.(read := q => SplitRead(p.tables.stored, p.tables.cached, Some(p.watermark), q))
  }

  /** What happens to a running program: the proxy's operations, and triggers whose results are sent. */
  datatype Activity =
    | Serve(op: Operation)
    | Aggregate(trigger: Row, accepted: bool)

  ghost predicate BringsReportedPressure(act: Activity) {
    match act
    case Serve(Send(d)) => ReportedPressure(d.data)
    case Serve(Ingest(batch)) => ReportedPressure(batch)
    case _ => true
  }

  ghost predicate AllBringReportedPressure(run: seq<Activity>) {
    forall i :: 0 <= i < |run| ==> BringsReportedPressure(run[i])
  }

  lemma DoKeepsPressureReported(p: Served, interesting: set<int>, op: Operation)
    requires PressureIsReported(p.tables) && BringsReportedPressure(Serve(op))
    ensures PressureIsReported(Do(p, interesting, op).tables)
  {
    var Contents(stored, cached) := p.tables;
    match op
    case Send(d) =>
      var sent := ToSend(stored, cached, Some(p.watermark), interesting, d.data);
      ToSendMembers(stored, cached, Some(p.watermark), interesting, d.data);
      UpsertAllMembers(stored, sent);
      UpsertAllMembers(cached, sent);
    case Ingest(batch) =>
      KeepMembers(OfParameters(interesting), batch);
      UpsertAllMembers(stored, batch);
      UpsertAllMembers(cached, Keep(OfParameters(interesting), batch));
    case Cleanup(limit) =>
      KeepMembers(NotOlderThan(limit), cached);
    case Populate(from, to) =>
      KeepMembers(ByInterval(ALL_STATIONS, from, to), stored);
      UpsertAllMembers(cached, Keep(ByInterval(ALL_STATIONS, from, to), stored));
  }

  /** One activity; a trigger's results are offered to the proxy. */
  ghost function Next(base: Setup, p: Served, interesting: set<int>, act: Activity): (next: Served)
    requires Ranked(base) && PressureIsReported(p.tables) && BringsReportedPressure(act)
    ensures PressureIsReported(next.tables)
  {
    match act
    case Serve(op) =>
      DoKeepsPressureReported(p, interesting, op);
      Do(p, interesting, op)
    case Aggregate(trigger, accepted) =>
      AllWellFormed(base, p);
      WellFormedEnds(Through(base, p), trigger);
      var made := Results(Through(base, p), trigger).rows;
      ResultsReportNoPressure(Through(base, p), trigger);
      DoKeepsPressureReported(p, interesting, Send(Delivery(made, accepted)));
      Do(p, interesting, Send(Delivery(made, accepted)))
  }

  ghost function After(base: Setup, p: Served, interesting: set<int>, run: seq<Activity>): (after: Served)
    requires Ranked(base) && PressureIsReported(p.tables) && AllBringReportedPressure(run)
    ensures PressureIsReported(after.tables)
  {
    if run == [] then p
    else Next(base, After(base, p, interesting, run[..|run| - 1]), interesting, run[|run| - 1])
  }

  /**
   * Every aggregation of a run ends: if kvalobs and the incoming batches hold
   * reported sea level pressure only, then so do kvalobs and the cache for ever,
   * because nothing that aggregation sends is sea level pressure.
   */
  lemma EveryAggregationEnds(base: Setup, p: Served, interesting: set<int>, run: seq<Activity>, trigger: Row)
    requires Ranked(base) && PressureIsReported(p.tables) && AllBringReportedPressure(run)
    ensures Ends(Through(base, After(base, p, interesting, run)), trigger)
  {
    AllWellFormed(base, After(base, p, interesting, run));
    WellFormedEnds(Through(base, After(base, p, interesting, run)), trigger);
  }

  lemma ResultsReportNoPressure(setup: Setup, data: Row)
    requires Ranked(setup) && Ends(setup, data)
    ensures ReportedPressure(Results(setup, data).rows)
  {
    if Admitted(setup, data.key) {
      ResultsAreNotPressure(setup, data, 0);
    }
  }

  lemma AllWellFormed(base: Setup, p: Served)
    requires Ranked(base) && PressureIsReported(p.tables)
    ensures forall k :: WellFormed(Through(base, p), k)
  {
    assert forall param :: HandlersFor(Through(base, p), param) == HandlersFor(base, param);
    forall k
      ensures NoGeneratedPressure(Through(base, p), k)
    {
      ProxyHasNoGeneratedPressure(Through(base, p), p.tables, p.watermark, k);
    }
  }

  // ---- A trigger that throws ----

  /** A store with one row, and the watermark at that row's time. */
  function OnWatermark(row: Row): Served {
    Served(Contents([row], []), row.key.obstime)
  }

  /** Is the aggregator the backward gauge aggregator? */
  ghost predicate IsGauge(a: Aggregator, forward: bool) {
    a.Standard? && a.standard == Gauge.GaugeAggregator(forward)
  }

  /** The gauge's window starts on the watermark, where its series has a row. */
  lemma OlderIsFound(a: Aggregator, data: Row, older: Row)
    requires IsGauge(a, false) && data.key.param == RA && Gauge.ReadingTime(data.key.obstime)
    requires older.key == data.key.(obstime := data.key.obstime - 25 * HOUR)
    ensures MeetsWatermarkRow(OnWatermark(older).tables, older.key.obstime, a, data.key)
  {
    Gauge.SpanOfReading(false, data.key.obstime);
    var q := SourceQuery(data.key, Span(a, data.key.obstime), RA);
    assert older.key in RowsAtStart(View([older]), q);
    assert FindsWatermarkRow(OnWatermark(older).tables, older.key.obstime, q) && RA in ReadParams(a);
  }

  /**
   * In any table with a backward gauge aggregator an ordinary gauge reading
   * throws, although the cache agrees with kvalobs, when kvalobs has another
   * reading of its series exactly 25 hours before and the watermark lies there.
   */
  lemma ReadingOnWatermarkThrows(base: Setup, i: nat, data: Row, older: Row)
    requires Ranked(base) && ProperSpans(base)
    requires i < |HandlersFor(base, RA)| && IsGauge(HandlersFor(base, RA)[i], false)
    requires HandlersFor(base, RA)[i].interested(data.key) && Admitted(base, data.key)
    requires data.key.param == RA && Gauge.ReadingTime(data.key.obstime)
    requires older.key == data.key.(obstime := data.key.obstime - 25 * HOUR)
    ensures var setup := Through(base, OnWatermark(older));
            && AgreeAbove(View([older]), View([]), older.key.obstime, {RA})
            && Ends(setup, data) && Results(setup, data).threw
  {
    var setup := Through(base, OnWatermark(older));
    AllWellFormed(base, OnWatermark(older));
    WellFormedEnds(setup, data);
    OlderIsFound(HandlersFor(base, RA)[i], data, older);
    SameHandlers(base, OnWatermark(older));
    assert RunsIntoWatermark(setup, OnWatermark(older).tables, older.key.obstime, data);
    AggregationThrowsIff(setup, OnWatermark(older).tables, older.key.obstime, data);
  }

  lemma SameHandlers(base: Setup, p: Served)
    ensures forall param :: HandlersFor(Through(base, p), param) == HandlersFor(base, param)
    ensures ProperSpans(base) ==> ProperSpans(Through(base, p))
  {
  }

  // ---- From the cache to the rain gauge ----

  lemma UniqueWithinIsDistinct(rows: seq<Row>, keys: iset<Key>, k: Key)
    requires UniqueKeys(rows) && AliasFree(keys)
    requires forall x :: x in View(rows) ==> x in keys && SameSeriesKey(x, k)
    ensures DistinctTimes(rows)
  {
    forall i, j | 0 <= i < j < |rows|
      ensures rows[i].key.obstime != rows[j].key.obstime
    {
      ViewAt(rows, i);
      ViewAt(rows, j);
      assert rows[i].key.obstime == rows[j].key.obstime ==> SameButSensor(rows[i].key, rows[j].key);
    }
  }

  /** One series up to the spelling of the sensor. */
  predicate SameSeriesKey(x: Key, k: Key) {
    x.station == k.station && x.param == k.param && x.typeId == k.typeId && x.level == k.level
  }

  /** The list that a gauge aggregator receives for a trigger. */
  function GaugeList(t: Contents, watermark: int, forward: bool, data: Row): seq<Row> {
    ListOf(WithTrigger(map[RA := GaugeRead(t, watermark, forward, data)], data), RA)
  }

  /** What the read behind it returned. */
  function GaugeRead(t: Contents, watermark: int, forward: bool, data: Row): seq<Row> {
    var span := Gauge.GaugeSpan(forward, data.key.obstime);
    SplitRead(t.stored, t.cached, Some(watermark), SourceQuery(data.key, span, RA))
  }

  /** The list has the keys of the read, and the trigger's. */
  lemma GaugeListKeys(t: Contents, watermark: int, forward: bool, data: Row)
    requires UniqueKeys(t.stored) && UniqueKeys(t.cached) && data.key.param == RA
    ensures UniqueKeys(GaugeList(t, watermark, forward, data))
    ensures View(GaugeList(t, watermark, forward, data)).Keys
            == View(GaugeRead(t, watermark, forward, data)).Keys + {data.key}
  {
    var span := Gauge.GaugeSpan(forward, data.key.obstime);
    var lists := map[RA := GaugeRead(t, watermark, forward, data)];
    SplitReadView(t.stored, t.cached, Some(watermark), SourceQuery(data.key, span, RA));
    StoredRowWins(lists, data);
    WithTriggerKeys(lists, data);
  }

  lemma GaugeListTimes(t: Contents, watermark: int, interesting: set<int>, keys: iset<Key>, forward: bool, data: Row)
    requires Clean(t, watermark, interesting, keys) && RA in interesting
    requires data.key in keys && data.key.param == RA && Gauge.ReadingTime(data.key.obstime)
    ensures DistinctTimes(GaugeList(t, watermark, forward, data))
  {
    var span := Gauge.GaugeSpan(forward, data.key.obstime);
    Gauge.SpanOfReading(forward, data.key.obstime);
    GaugeListKeys(t, watermark, forward, data);
    ReadKeys(t, watermark, interesting, keys, SourceQuery(data.key, span, RA), data.key);
    UniqueWithinIsDistinct(GaugeList(t, watermark, forward, data), keys, data.key);
  }

  lemma GaugeListInWindow(t: Contents, watermark: int, forward: bool, data: Row)
    requires UniqueKeys(t.stored) && UniqueKeys(t.cached)
    requires data.key.param == RA && Gauge.ReadingTime(data.key.obstime)
    requires watermark != Gauge.GaugeSpan(forward, data.key.obstime).first
    ensures var span := Gauge.GaugeSpan(forward, data.key.obstime);
            InWindow(GaugeList(t, watermark, forward, data), span.first, span.second)
  {
    var span := Gauge.GaugeSpan(forward, data.key.obstime);
    var q := SourceQuery(data.key, span, RA);
    Gauge.SpanOfReading(forward, data.key.obstime);
    GaugeListKeys(t, watermark, forward, data);
    SplitReadView(t.stored, t.cached, Some(watermark), q);
    ReadsStayInWindow(t.stored, t.cached, watermark, q);
    WindowByKeys(GaugeRead(t, watermark, forward, data), span.first, span.second);
    WindowByKeys(GaugeList(t, watermark, forward, data), span.first, span.second);
  }

  lemma GaugeListIsWindow(t: Contents, watermark: int, interesting: set<int>, keys: iset<Key>, forward: bool, data: Row)
    requires Clean(t, watermark, interesting, keys) && RA in interesting
    requires data.key in keys && data.key.param == RA && Gauge.ReadingTime(data.key.obstime)
    requires watermark != Gauge.GaugeSpan(forward, data.key.obstime).first
    ensures Gauge.WindowRows(forward, data.key, GaugeList(t, watermark, forward, data))
  {
    GaugeListTimes(t, watermark, interesting, keys, forward, data);
    GaugeListInWindow(t, watermark, forward, data);
    GaugeListKeys(t, watermark, forward, data);
  }

  /** A read returns stored keys of the series asked for. */
  lemma ReadKeys(t: Contents, watermark: int, interesting: set<int>, keys: iset<Key>, q: Query, k: Key)
    requires Clean(t, watermark, interesting, keys) && q.param in interesting && q.from <= q.to
    requires q == Query(k.station, q.from, q.to, k.param, k.typeId, k.sensor, k.level) && k in keys
    ensures forall x :: x in View(SplitRead(t.stored, t.cached, Some(watermark), q)) ==>
              x in keys && SameSeriesKey(x, k)
  {
    forall x | x in View(t.stored)
      ensures x in keys
    {
      ViewKeysWithin(t.stored, keys, x);
    }
    forall x | x in View(SplitRead(t.stored, t.cached, Some(watermark), q))
      ensures x in keys && SameSeriesKey(x, k)
    {
      SplitReadAt(t.stored, t.cached, watermark, q, x);
      assert x.obstime > watermark && x.param in interesting ==> Get(View(t.stored), x) == Get(View(t.cached), x);
    }
  }

  /**
   * From cache to rainfall: while the proxy is clean and the window does not
   * start on the watermark, every gauge reading that is accepted yields a row.
   */
  lemma AcceptedGaugeReadingYieldsRain(
    t: Contents, watermark: int, interesting: set<int>, keys: iset<Key>, forward: bool, data: Row)
    requires Clean(t, watermark, interesting, keys) && RA in interesting
    requires data.key in keys && data.key.param == RA
    requires watermark != Gauge.GaugeSpan(forward, data.key.obstime).first
    requires Gauge.ShouldProcess(data.key, GaugeList(t, watermark, forward, data))
    ensures var made := SA.Process(Gauge.GaugeAggregator(forward), data.key, GaugeList(t, watermark, forward, data));
            && made.Some? && SameSeries(made.value, data.key) && made.value.key.param == RR_12
            && made.value.key.obstime == Gauge.GaugeSpan(forward, data.key.obstime).second
  {
    GaugeListIsWindow(t, watermark, interesting, keys, forward, data);
    var list := GaugeList(t, watermark, forward, data);
    Gauge.AcceptedGaugeProducesRow(forward, data.key, list);
    var used := Gauge.SelectedRows(forward, data.key, list);
    SA.ProcessedRow(Gauge.GaugeAggregator(forward), data.key, list);
  }

  /** What the handler hands to a gauge aggregator is that list. */
  lemma GaugeStep(setup: Setup, t: Contents, watermark: int, forward: bool, a: Aggregator, data: Row)
    requires ReadsThroughProxy(setup, t, watermark) && UniqueKeys(t.stored) && UniqueKeys(t.cached)
    requires IsGauge(a, forward) && a.interested(data.key)
    requires data.key.param == RA && Gauge.ReadingTime(data.key.obstime)
    requires watermark != Gauge.GaugeSpan(forward, data.key.obstime).first
    ensures Step(setup, a, data)
            == match SA.Process(a.standard, data.key, GaugeList(t, watermark, forward, data))
               case None => Nothing
               case Some(made) => Produced(made)
  {
    var span := Gauge.GaugeSpan(forward, data.key.obstime);
    Gauge.SpanOfReading(forward, data.key.obstime);
    ReadsStayInWindow(t.stored, t.cached, watermark, SourceQuery(data.key, span, RA));
    assert [] + [RA] == [RA];
    ListsOfMore(setup, data.key, span, [], RA);
    assert RelevantLists(setup, data.key, span, [RA]) == Some(map[RA := GaugeRead(t, watermark, forward, data)]);
  }

  /**
   * From a delivered reading to the rows sent: in a table whose first reader of
   * gauge levels is a gauge aggregator, the first result of an accepted reading
   * is the rainfall of its period.
   */
  lemma AcceptedReadingIsAggregated(
    base: Setup, p: Served, interesting: set<int>, keys: iset<Key>, forward: bool, data: Row)
    requires Ranked(base) && PressureIsReported(p.tables)
    requires base.allowedParameters == [] || RA in base.allowedParameters
    requires base.allowedStations == [] || data.key.station in base.allowedStations
    requires base.allowedTypes == [] || data.key.typeId in base.allowedTypes
    requires Clean(p.tables, p.watermark, interesting, keys) && RA in interesting
    requires data.key in keys && data.key.param == RA
    requires HandlersFor(base, RA) != [] && IsGauge(HandlersFor(base, RA)[0], forward)
    requires HandlersFor(base, RA)[0].interested(data.key)
    requires p.watermark != Gauge.GaugeSpan(forward, data.key.obstime).first
    requires Gauge.ShouldProcess(data.key, GaugeList(p.tables, p.watermark, forward, data))
    ensures Ends(Through(base, p), data)
    ensures var rows := Results(Through(base, p), data).rows;
            && rows != []
            && rows[0].key == data.key.(param := RR_12, obstime := Gauge.GaugeSpan(forward, data.key.obstime).second,
                                        typeId := if data.key.typeId > 0 then -data.key.typeId
                                                  else data.key.typeId)
  {
    var setup := Through(base, p);
    AllWellFormed(base, p);
    WellFormedEnds(setup, data);
    SameHandlers(base, p);
    AcceptedGaugeReadingYieldsRain(p.tables, p.watermark, interesting, keys, forward, data);
    GaugeStep(setup, p.tables, p.watermark, forward, HandlersFor(setup, RA)[0], data);
    FirstResult(setup, data);
  }
}
