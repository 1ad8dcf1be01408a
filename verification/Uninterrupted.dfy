/**
 * The two views of the proxy agree: taken without interruption, the steps of an
 * operation amount to the operation as a whole, and the steps of a read to the
 * split read.
 */
module Uninterrupted {
  import opened Wrappers
  import opened Observations
  import opened Tables
  import opened ProxySpec
  import opened ProxyRuns
  import opened CacheProtocol
  import opened Schedules
  import Proxy

  /** The state of the protocol shows these tables and this watermark, with nobody in the middle of anything. */
  ghost predicate Shows(s: State, p: Served) {
    && AtRest(s)
    && UniqueKeys(p.tables.stored) && UniqueKeys(p.tables.cached)
    && s.source == View(p.tables.stored) && s.cache == View(p.tables.cached)
    && s.oldest == p.watermark
  }

  /** Kvalobs takes a batch; its interesting rows are cached one by one. */
  function IngestSteps(interesting: set<int>, batch: seq<Row>): seq<Event> {
    [Store(batch)] + InOrder(|Keep(OfParameters(interesting), batch)|)
  }

  /** What the threads do for an operation. */
  function Steps(p: Served, interesting: set<int>, op: Operation): seq<Event> {
    match op
    case Send(d) =>
      if d.accepted then
        IngestSteps(interesting, ToSend(p.tables.stored, p.tables.cached, Some(p.watermark), interesting, d.data))
      else []
    case Ingest(batch) => IngestSteps(interesting, batch)
    case Cleanup(limit) => [RaiseWatermark(limit), DeleteOld]
    case Populate(from, to) =>
      var rows := Keep(ByInterval(ALL_STATIONS, from, to), p.tables.stored);
      [Snapshot(from, to, rows)] + InOrder(|rows|) + [LowerWatermark]
  }

  // ---- Caching a list of rows ----

  /** The first `n` rows of a list that is all that waits to be cached are cached. */
  ghost predicate Cached(s: State, end: State, rows: seq<Row>, fill: bool, n: nat)
    requires n <= |rows|
  {
    end == s.(cache := s.cache + View(rows[..n]), pending := Writes(rows[n..], fill))
  }

  lemma CacheNext(s: State, mid: State, interesting: set<int>, rows: seq<Row>, fill: bool, n: nat)
    requires n < |rows| && Cached(s, mid, rows, fill, n)
    ensures Possible(mid, CacheRow(0))
    ensures Cached(s, Apply(mid, interesting, CacheRow(0)), rows, fill, n + 1)
  {
    assert rows[..n + 1] == rows[..n] + [rows[n]];
    ViewAppend(rows[..n], rows[n]);
    UpdateOfSum(s.cache, View(rows[..n]), rows[n].key, rows[n].value);
    assert mid.pending[..0] + mid.pending[1..] == Writes(rows[n + 1..], fill);
  }

  lemma {:induction false} CachingAll(s0: State, interesting: set<int>, before: seq<Event>, s: State, rows: seq<Row>,
                                      fill: bool, n: nat)
    returns (end: State)
    requires Run(s0, interesting, before) == Some(s) && s.pending == Writes(rows, fill) && n <= |rows|
    ensures Run(s0, interesting, before + InOrder(n)) == Some(end) && Cached(s, end, rows, fill, n)
  {
    if n == 0 {
      end := s;
      assert before + InOrder(0) == before;
      assert rows[..0] == [] && rows[0..] == rows;
      NothingAdded(s.cache);
    } else {
      var mid := CachingAll(s0, interesting, before, s, rows, fill, n - 1);
      CacheNext(s, mid, interesting, rows, fill, n - 1);
      end := Apply(mid, interesting, CacheRow(0));
      RunNext(s0, interesting, before + InOrder(n - 1), mid, CacheRow(0));
      InOrderMore(n - 1);
      assert before + InOrder(n) == before + InOrder(n - 1) + [CacheRow(0)];
    }
  }

  // ---- The operations ----

  lemma IngestAsSteps(s: State, p: Served, interesting: set<int>, batch: seq<Row>) returns (end: State)
    requires Shows(s, p)
    ensures Run(s, interesting, IngestSteps(interesting, batch)) == Some(end)
    ensures Shows(end, Do(p, interesting, Ingest(batch)))
  {
    var kept := Keep(OfParameters(interesting), batch);
    var s1 := Apply(s, interesting, Store(batch));
    assert s1.pending == Writes(kept, false);
    end := CachingAll(s, interesting, [Store(batch)], s1, kept, false, |kept|);
    assert kept[..|kept|] == kept && Writes(kept[|kept|..], false) == [];
    UpsertAllRefines(p.tables.stored, batch);
    UpsertAllRefines(p.tables.cached, kept);
  }

  /** What is sent on is of interest, so that storing it caches it all. */
  lemma SendIsIngest(p: Served, interesting: set<int>, d: Delivery)
    requires d.accepted
    ensures var sent := ToSend(p.tables.stored, p.tables.cached, Some(p.watermark), interesting, d.data);
            Do(p, interesting, Send(d)) == Do(p, interesting, Ingest(sent))
  {
    var sent := ToSend(p.tables.stored, p.tables.cached, Some(p.watermark), interesting, d.data);
    Proxy.UpdatesAreInteresting(p.tables.stored, p.tables.cached, Some(p.watermark), interesting, d.data);
    Proxy.KeepNothingOut(OfParameters(interesting), sent);
  }

  lemma SendAsSteps(s: State, p: Served, interesting: set<int>, d: Delivery) returns (end: State)
    requires Shows(s, p)
    ensures Run(s, interesting, Steps(p, interesting, Send(d))) == Some(end)
    ensures Shows(end, Do(p, interesting, Send(d)))
  {
    if d.accepted {
      var sent := ToSend(p.tables.stored, p.tables.cached, Some(p.watermark), interesting, d.data);
      SendIsIngest(p, interesting, d);
      end := IngestAsSteps(s, p, interesting, sent);
    } else {
      end := s;
    }
  }

  lemma CleanupAsSteps(s: State, p: Served, interesting: set<int>, limit: int) returns (end: State)
    requires Shows(s, p)
    ensures Run(s, interesting, [RaiseWatermark(limit), DeleteOld]) == Some(end)
    ensures Shows(end, Do(p, interesting, Cleanup(limit)))
  {
    var s1 := Apply(s, interesting, RaiseWatermark(limit));
    end := Apply(s1, interesting, DeleteOld);
    RunOfTwo(s, interesting, RaiseWatermark(limit), DeleteOld);
    KeepRefines(NotOlderThan(limit), p.tables.cached);
    KeepUnique(NotOlderThan(limit), p.tables.cached);
  }

  lemma FillingAll(s: State, p: Served, interesting: set<int>, from: int, to: int) returns (mid: State)
    requires Shows(s, p) && from <= to
    ensures var rows := Keep(ByInterval(ALL_STATIONS, from, to), p.tables.stored);
            var fill := Snapshot(from, to, rows);
            && Possible(s, fill) && Run(s, interesting, [fill] + InOrder(|rows|)) == Some(mid)
            && mid == Apply(s, interesting, fill).(cache := s.cache + View(rows), pending := [])
  {
    var c := ByInterval(ALL_STATIONS, from, to);
    var rows := Keep(c, p.tables.stored);
    KeepRefines(c, p.tables.stored);
    KeepUnique(c, p.tables.stored);
    var fill := Snapshot(from, to, rows);
    var s1 := Apply(s, interesting, fill);
    assert s1.pending == Writes(rows, true);
    mid := CachingAll(s, interesting, [fill], s1, rows, true, |rows|);
    assert rows[..|rows|] == rows && Writes(rows[|rows|..], true) == [];
  }

  lemma PopulateAsSteps(s: State, p: Served, interesting: set<int>, from: int, to: int) returns (end: State)
    requires Shows(s, p) && from <= to
    ensures Run(s, interesting, Steps(p, interesting, Populate(from, to))) == Some(end)
    ensures Shows(end, Do(p, interesting, Populate(from, to)))
  {
    var rows := Keep(ByInterval(ALL_STATIONS, from, to), p.tables.stored);
    var mid := FillingAll(s, p, interesting, from, to);
    end := Apply(mid, interesting, LowerWatermark);
    RunNext(s, interesting, [Snapshot(from, to, rows)] + InOrder(|rows|), mid, LowerWatermark);
    UpsertAllRefines(p.tables.cached, rows);
  }

  /** Every operation is possible at rest, and its steps lead to what the operation as a whole makes. */
  lemma OperationAsSteps(s: State, p: Served, interesting: set<int>, op: Operation) returns (end: State)
    requires Shows(s, p) && (op.Populate? ==> op.from <= op.to)
    ensures Run(s, interesting, Steps(p, interesting, op)) == Some(end)
    ensures Shows(end, Do(p, interesting, op))
  {
    match op
    case Send(d) => end := SendAsSteps(s, p, interesting, d);
    case Ingest(batch) => end := IngestAsSteps(s, p, interesting, batch);
    case Cleanup(limit) => end := CleanupAsSteps(s, p, interesting, limit);
    case Populate(from, to) => end := PopulateAsSteps(s, p, interesting, from, to);
  }

  // ---- Reading ----

  /** A read is possible at rest, gives the answer of the split read, and leaves no trace. */
  lemma ReadAsSteps(s: State, p: Served, interesting: set<int>, id: nat, q: Query)
    requires Shows(s, p) && q.from <= q.to
    ensures var started := Run(s, interesting, [BeginRead(id, q), ReadKvalobs(id, s.source)]);
            && started.Some? && Possible(started.value, ReadCache(id))
            && Answer(started.value, id) == View(SplitRead(p.tables.stored, p.tables.cached, Some(p.watermark), q))
            && Apply(started.value, interesting, ReadCache(id)) == s
  {
    RunOfTwo(s, interesting, BeginRead(id, q), ReadKvalobs(id, s.source));
    SplitReadView(p.tables.stored, p.tables.cached, Some(p.watermark), q);
    KeepRefines(ByQuery(SourceSide, q.(to := Min(q.to, p.watermark))), p.tables.stored);
    KeepRefines(ByQuery(CacheSide, q.(from := Max(q.from, p.watermark))), p.tables.cached);
    ViewOfNothing();
  }

  lemma ViewOfNothing()
    ensures View([]) == map[]
  {
  }
}
