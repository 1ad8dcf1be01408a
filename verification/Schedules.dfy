/**
 * What the protocol makes of particular schedules: a cache that is filled anew,
 * rows brought home in order, a cleaning with other steps inside it, and the
 * schedules that spoil the cache.
 */
module Schedules {
  import opened Wrappers
  import opened Observations
  import opened Tables
  import opened ProxySpec
  import opened CacheProtocol

  lemma RunNext(s: State, interesting: set<int>, events: seq<Event>, mid: State, e: Event)
    requires Run(s, interesting, events) == Some(mid) && Possible(mid, e)
    ensures Run(s, interesting, events + [e]) == Some(Apply(mid, interesting, e))
  {
    assert (events + [e])[..|events + [e]| - 1] == events;
  }

  lemma RunOfTwo(s: State, interesting: set<int>, a: Event, b: Event)
    requires Possible(s, a) && Possible(Apply(s, interesting, a), b)
    ensures Run(s, interesting, [a, b]) == Some(Apply(Apply(s, interesting, a), interesting, b))
  {
    assert [] + [a] == [a] && [a] + [b] == [a, b];
    RunNext(s, interesting, [], s, a);
    RunNext(s, interesting, [a], Apply(s, interesting, a), b);
  }

  // ---- Filling anew ----

  /** What may happen while the cache is filled anew: anything but another clearing, or a cleaning. */
  ghost predicate Refilling(s: State, e: Event, now: int)
    requires Possible(s, e)
  {
    match e
    case CacheRow(i) =>
      forall j :: 0 <= j < i ==> s.pending[j].row.key != s.pending[i].row.key
    case Snapshot(from, to, rows) =>
      View(rows) == KeepView(ByInterval(ALL_STATIONS, from, to), s.source) && now <= to
    case _ => !e.Clear? && !e.RaiseWatermark? && !e.DeleteOld?
  }

  ghost predicate RefillRun(s: State, interesting: set<int>, events: seq<Event>, now: int) {
    events == [] ||
    var front, e := events[..|events| - 1], events[|events| - 1];
    && RefillRun(s, interesting, front, now)
    && var mid := Run(s, interesting, front);
       mid.Some? && Possible(mid.value, e) ==> Refilling(mid.value, e, now)
  }

  /** Rows dated after `now` have all come by, and fills reach up to `now`. */
  ghost predicate NothingMissedAhead(s: State, interesting: set<int>, now: int) {
    && (forall k :: k in s.source && k.param in interesting ==> k in s.taken || k.obstime <= now)
    && (s.filling.Some? ==> now <= s.filling.value.1)
    && s.deleting.None?
  }

  lemma RefillingMissesNothing(s: State, interesting: set<int>, e: Event, now: int)
    requires NothingMissedAhead(s, interesting, now) && Possible(s, e) && Refilling(s, e, now)
    ensures Disciplined(s, interesting, e) && NothingMissedAhead(Apply(s, interesting, e), interesting, now)
  {
    if e.Store? {
      forall k | k in View(e.batch)
        ensures exists r :: r in e.batch && r.key == k
      {
        ViewRowListed(e.batch, k);
      }
    }
  }

  lemma {:induction false} RefillIsDisciplined(s: State, interesting: set<int>, events: seq<Event>, now: int)
    requires NothingMissedAhead(s, interesting, now) && RefillRun(s, interesting, events, now)
    ensures DisciplinedRun(s, interesting, events)
    ensures var end := Run(s, interesting, events);
            end.Some? ==> NothingMissedAhead(end.value, interesting, now)
  {
    if events != [] {
      var front, e := events[..|events| - 1], events[|events| - 1];
      RefillIsDisciplined(s, interesting, front, now);
      var mid := Run(s, interesting, front);
      if mid.Some? && Possible(mid.value, e) {
        RefillingMissesNothing(mid.value, interesting, e, now);
      }
    }
  }

  /**
   * Clearing and filling anew, whatever the cache held before: if kvalobs has no
   * row dated after `now` when the cache is cleared, and fills reach up to `now`,
   * then all along, with rows arriving for any time and reads going on, the cache
   * is trustworthy; and once nothing is pending it agrees with kvalobs.
   */
  lemma RefilledCacheAgrees(s: State, interesting: set<int>, t: int, now: int, events: seq<Event>, end: State)
    requires AtRest(s) && Honest(s) && now <= t
    requires forall k :: k in s.source && k.param in interesting ==> k.obstime <= now
    requires RefillRun(Apply(s, interesting, Clear(t)), interesting, events, now)
    requires Run(Apply(s, interesting, Clear(t)), interesting, events) == Some(end)
    ensures Inv(end, interesting)
    ensures end.pending == [] ==> AgreeAbove(end.source, end.cache, end.oldest, interesting)
  {
    var cleared := Apply(s, interesting, Clear(t));
    StepKeepsHonest(s, interesting, Clear(t));
    ClearKeepsTrustIff(s, interesting, t);
    RefillIsDisciplined(cleared, interesting, events, now);
    DisciplineKeepsInv(cleared, interesting, events);
    if end.pending == [] {
      NothingPendingAgrees(end, interesting);
    }
  }

  // ---- Draining ----

  function InOrder(n: nat): seq<Event> {
    seq(n, _ => CacheRow(0))
  }

  ghost predicate Drained(s: State, end: State, n: nat)
    requires n <= |s.pending|
  {
    end.pending == s.pending[n..] && end.source == s.source && end.oldest == s.oldest
  }

  /**
   * Whatever is in flight, caching it in order is possible and orderly, and
   * changes neither kvalobs nor the watermark.
   */
  lemma {:induction false} DrainingIsOrderly(s: State, interesting: set<int>, n: nat) returns (end: State)
    requires n <= |s.pending|
    ensures OrderlyRun(s, interesting, InOrder(n)) && Run(s, interesting, InOrder(n)) == Some(end)
    ensures Drained(s, end, n)
  {
    if n == 0 {
      assert InOrder(0) == [];
      end := s;
    } else {
      var mid := DrainingIsOrderly(s, interesting, n - 1);
      end := DrainOne(s, interesting, mid, n - 1);
    }
  }

  lemma DrainOne(s: State, interesting: set<int>, mid: State, n: nat) returns (end: State)
    requires n < |s.pending| && Drained(s, mid, n)
    requires OrderlyRun(s, interesting, InOrder(n)) && Run(s, interesting, InOrder(n)) == Some(mid)
    ensures OrderlyRun(s, interesting, InOrder(n + 1)) && Run(s, interesting, InOrder(n + 1)) == Some(end)
    ensures Drained(s, end, n + 1)
  {
    FirstOfItsKeyIsOrderly(mid, interesting, 0);
    InOrderMore(n);
    end := Apply(mid, interesting, CacheRow(0));
  }

  lemma InOrderMore(n: nat)
    ensures InOrder(n + 1) == InOrder(n) + [CacheRow(0)]
  {
  }

  /** Once everything in flight is cached, in order, cache and source agree above the watermark. */
  lemma DrainingSettles(s: State, interesting: set<int>)
    requires Inv(s, interesting)
    ensures OrderlyRun(s, interesting, InOrder(|s.pending|))
    ensures var end := Run(s, interesting, InOrder(|s.pending|));
            && end.Some? && end.value.source == s.source && end.value.oldest == s.oldest
            && AgreeAbove(s.source, end.value.cache, s.oldest, interesting)
  {
    var end := DrainingIsOrderly(s, interesting, |s.pending|);
    RunKeepsInv(s, interesting, InOrder(|s.pending|));
    NothingPendingAgrees(end, interesting);
  }

  // ---- Cleaning ----

  /**
   * A cleaning, with anything disciplined between its two steps and whatever the
   * watermark was before: the first step moves the watermark up to the limit
   * unless it is higher already, and the second leaves the cache trustworthy and
   * without rows older than the limit.
   */
  lemma CleaningCompletes(s: State, interesting: set<int>, t: int, events: seq<Event>, mid: State)
    requires Inv(s, interesting) && TakenIsSettled(s, interesting)
    requires Possible(s, RaiseWatermark(t)) && (s.filling.None? || t <= s.filling.value.0)
    requires DisciplinedRun(Apply(s, interesting, RaiseWatermark(t)), interesting, events)
    requires Run(Apply(s, interesting, RaiseWatermark(t)), interesting, events) == Some(mid)
    requires mid.deleting == Some(t)
    ensures Apply(s, interesting, RaiseWatermark(t)).oldest == if s.oldest < t then t else s.oldest
    ensures mid.oldest >= t && Possible(mid, DeleteOld) && Orderly(mid, interesting, DeleteOld)
    ensures var end := Apply(mid, interesting, DeleteOld);
            && Inv(end, interesting) && end.oldest == mid.oldest && end.source == mid.source
            && forall k :: k in end.cache <==> k in mid.cache && k.obstime >= t
  {
    var raised := Apply(s, interesting, RaiseWatermark(t));
    DisciplinedIsOrderly(s, interesting, RaiseWatermark(t));
    StepKeepsInvIff(s, interesting, RaiseWatermark(t));
    DisciplineKeepsTaken(s, interesting, RaiseWatermark(t));
    DisciplineKeepsInv(raised, interesting, events);
    CleaningIsOrderly(mid, interesting);
    StepKeepsInvIff(mid, interesting, DeleteOld);
  }

  /** Caching in order is disciplined, so what is in flight can always be brought home. */
  lemma {:induction false} DrainingIsDisciplined(s: State, interesting: set<int>, n: nat)
    requires n <= |s.pending|
    ensures DisciplinedRun(s, interesting, InOrder(n))
  {
    if n > 0 {
      DrainingIsDisciplined(s, interesting, n - 1);
      InOrderMore(n - 1);
      DisciplinedMore(s, interesting, InOrder(n - 1), CacheRow(0));
    }
  }

  lemma DisciplinedMore(s: State, interesting: set<int>, events: seq<Event>, e: Event)
    requires DisciplinedRun(s, interesting, events)
    requires var mid := Run(s, interesting, events);
             mid.Some? && Possible(mid.value, e) ==> Disciplined(mid.value, interesting, e)
    ensures DisciplinedRun(s, interesting, events + [e])
  {
    assert (events + [e])[..|events + [e]| - 1] == events;
  }

  // ---- Schedules that go wrong ----

  /**
   * Two workers that cache two batches of one key in the wrong order leave a
   * stale row above the watermark, with nothing pending that would correct it.
   */
  lemma OvertakingLeavesStaleRow(s: State, older: Row, newer: Row)
    requires Init(s, {older.key.param})
    requires older.key == newer.key && older.value != newer.value && older.key.obstime > s.oldest
    ensures var interesting := {older.key.param};
            var end := Run(s, interesting, [Store([older]), Store([newer]), CacheRow(1), CacheRow(0)]);
            && end.Some? && end.value.pending == []
            && !AgreeAbove(end.value.source, end.value.cache, end.value.oldest, interesting)
  {
    var interesting := {older.key.param};
    var k := older.key;
    var s1 := Apply(s, interesting, Store([older]));
    var s2 := Apply(s1, interesting, Store([newer]));
    StoringOne(s, interesting, older);
    StoringOne(s1, interesting, newer);
    assert s2.pending == [Write(older, false), Write(newer, false)];
    var s3 := Apply(s2, interesting, CacheRow(1));
    assert s3.pending == [Write(older, false)];
    var s4 := Apply(s3, interesting, CacheRow(0));
    assert s4.pending == [] && s4.cache[k] == older.value && s4.source[k] == newer.value;
    assert Get(s4.source, k) != Get(s4.cache, k);
    RunOfFour(s, interesting, Store([older]), Store([newer]), CacheRow(1), CacheRow(0));
  }

  lemma StoringOne(s: State, interesting: set<int>, r: Row)
    requires r.key.param in interesting
    ensures var s' := Apply(s, interesting, Store([r]));
            && s'.source == s.source[r.key := r.value] && s'.cache == s.cache
            && s'.pending == s.pending + [Write(r, false)] && s'.oldest == s.oldest
  {
    OneRow(OfParameters(interesting), r);
    assert Writes([r], false) == [Write(r, false)];
  }

  lemma OneRow(c: Criterion, r: Row)
    ensures View([r]) == map[r.key := r.value]
    ensures Keep(c, [r]) == if Accepts(c, r.key) then [r] else []
  {
    assert [r][..0] == [];
  }

  lemma RunOfFour(s: State, interesting: set<int>, a: Event, b: Event, c: Event, d: Event)
    requires Possible(s, a)
    requires Possible(Apply(s, interesting, a), b)
    requires Possible(Apply(Apply(s, interesting, a), interesting, b), c)
    requires Possible(Apply(Apply(Apply(s, interesting, a), interesting, b), interesting, c), d)
    ensures Run(s, interesting, [a, b, c, d])
            == Some(Apply(Apply(Apply(Apply(s, interesting, a), interesting, b), interesting, c), interesting, d))
  {
    var s2 := Apply(Apply(s, interesting, a), interesting, b);
    assert [a, b] + [c] == [a, b, c] && [a, b, c] + [d] == [a, b, c, d];
    RunOfTwo(s, interesting, a, b);
    RunNext(s, interesting, [a, b], s2, c);
    RunNext(s, interesting, [a, b, c], Apply(s2, interesting, c), d);
  }

  /**
   * A fill that kvalobs refuses lowers the watermark all the same, and the cache
   * then denies every row it was to receive.
   */
  lemma RefusedFillDeniesRows(s: State, interesting: set<int>, from: int, to: int, k: Key)
    requires Init(s, interesting) && k.param in interesting && k in s.source && k !in s.cache
    requires from < k.obstime <= to
    ensures var end := Run(s, interesting, [Snapshot(from, to, []), LowerWatermark]);
            && end.Some? && end.value.pending == []
            && k.obstime > end.value.oldest && Get(end.value.cache, k) != Get(end.value.source, k)
  {
    var s1 := Apply(s, interesting, Snapshot(from, to, []));
    assert s1.pending == [];
    RunOfTwo(s, interesting, Snapshot(from, to, []), LowerWatermark);
  }

  /**
   * A fill that reaches further back than the cleaning limit, with a cleaning
   * between its last row and its watermark, loses the rows before the limit.
   */
  lemma CleaningInsideFillLosesRow(s: State, interesting: set<int>, r: Row, from: int, limit: int)
    requires Init(s, interesting) && r.key.param in interesting && s.source == map[r.key := r.value]
    requires from < r.key.obstime < limit
    ensures var fill := Snapshot(from, r.key.obstime, [r]);
            var end := Run(s, interesting, [fill, CacheRow(0), RaiseWatermark(limit), DeleteOld, LowerWatermark]);
            && end.Some? && end.value.pending == []
            && r.key.obstime > end.value.oldest && Get(end.value.cache, r.key) != Get(end.value.source, r.key)
  {
    var fill := Snapshot(from, r.key.obstime, [r]);
    var s2 := FilledWithOne(s, interesting, r, from);
    var s4 := CleanedOf(s2, interesting, r, limit);
    RunOfFour(s, interesting, fill, CacheRow(0), RaiseWatermark(limit), DeleteOld);
    assert [fill, CacheRow(0), RaiseWatermark(limit), DeleteOld] + [LowerWatermark]
           == [fill, CacheRow(0), RaiseWatermark(limit), DeleteOld, LowerWatermark];
    RunNext(s, interesting, [fill, CacheRow(0), RaiseWatermark(limit), DeleteOld], s4, LowerWatermark);
  }

  lemma CleanedOf(s2: State, interesting: set<int>, r: Row, limit: int) returns (s4: State)
    requires s2.readers == map[] && s2.deleting.None? && s2.pending == [] && r.key.obstime < limit
    ensures Possible(s2, RaiseWatermark(limit)) && Possible(Apply(s2, interesting, RaiseWatermark(limit)), DeleteOld)
    ensures s4 == Apply(Apply(s2, interesting, RaiseWatermark(limit)), interesting, DeleteOld)
    ensures s4.source == s2.source && s4.pending == [] && s4.readers == map[] && s4.filling == s2.filling
    ensures r.key !in s4.cache
  {
    s4 := Apply(Apply(s2, interesting, RaiseWatermark(limit)), interesting, DeleteOld);
  }

  lemma FilledWithOne(s: State, interesting: set<int>, r: Row, from: int) returns (s2: State)
    requires Init(s, interesting) && s.source == map[r.key := r.value] && from < r.key.obstime
    ensures var fill := Snapshot(from, r.key.obstime, [r]);
            && Possible(s, fill) && Possible(Apply(s, interesting, fill), CacheRow(0))
            && s2 == Apply(Apply(s, interesting, fill), interesting, CacheRow(0))
    ensures s2.source == s.source && s2.pending == [] && s2.readers == map[] && s2.deleting.None?
    ensures s2.filling == Some((from, r.key.obstime))
  {
    var fill := Snapshot(from, r.key.obstime, [r]);
    OneRow(OfParameters(interesting), r);
    var s1 := Apply(s, interesting, fill);
    assert s1.pending == [Write(r, true)];
    s2 := Apply(s1, interesting, CacheRow(0));
    assert s2.pending == [];
  }

  /**
   * A row that goes unsent although kvalobs holds another value: it repeats what
   * the cache says, while a newer row of its key waits to be cached.
   */
  lemma RowSuppressedByStaleCache(s: State, interesting: set<int>, id: nat, k: Key, newer: Value)
    requires Init(s, interesting) && Readable(PointQuery(k), interesting)
    requires k in s.source && k.obstime > s.oldest && !Close(newer, s.source[k])
    ensures var end := Run(s, interesting, StaleTest(s, id, k, newer));
            && end.Some? && Possible(end.value, ReadCache(id))
            && Get(Answer(end.value, id), k) == Some(s.source[k])
            && k in end.value.source && !Close(end.value.source[k], s.source[k])
  {
    var stored, begin := Store([Row(k, newer)]), BeginRead(id, PointQuery(k));
    var read := ReadKvalobs(id, s.source + View([Row(k, newer)]));
    StoringOne(s, interesting, Row(k, newer));
    var s2 := Apply(Apply(s, interesting, stored), interesting, begin);
    RunOfTwo(s, interesting, stored, begin);
    assert [stored, begin] + [read] == StaleTest(s, id, k, newer);
    RunNext(s, interesting, [stored, begin], s2, read);
    CacheAnswers(s, Apply(s2, interesting, read), interesting, id, k);
  }

  /** The cache's half of a point read above the watermark. */
  lemma CacheAnswers(s: State, end: State, interesting: set<int>, id: nat, k: Key)
    requires Init(s, interesting) && Readable(PointQuery(k), interesting) && k in s.source && k.obstime > s.oldest
    requires end.cache == s.cache && id in end.readers
    requires end.readers[id].query == PointQuery(k) && end.readers[id].watermark == s.oldest
    requires end.readers[id].older == Some(map[])
    ensures Get(Answer(end, id), k) == Some(s.source[k])
  {
    assert Get(s.source, k) == Get(s.cache, k);
  }

  /** kvalobs takes a newer row; before it is cached, a read of its key gets as far as the cache's half. */
  ghost function StaleTest(s: State, id: nat, k: Key, newer: Value): seq<Event> {
    [Store([Row(k, newer)]), BeginRead(id, PointQuery(k)), ReadKvalobs(id, s.source + View([Row(k, newer)]))]
  }
}
