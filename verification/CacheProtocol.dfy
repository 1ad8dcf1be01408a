/**
 * The proxy under concurrency: every statement that touches kvalobs, the cache
 * table or the watermark is a step of its own, and steps of ingest, sending,
 * populating, cleaning and reading interleave freely.
 *
 * A row that kvalobs has taken but that has not reached the cache table yet is
 * a pending write. `Possible` holds what the locks enforce. `Orderly` is the
 * exact condition under which a possible step keeps the cache trustworthy.
 */
module CacheProtocol {
  import opened Wrappers
  import opened Observations
  import opened Tables
  import opened ProxySpec

  datatype Write = Write(row: Row, fill: bool)

  /**
   * A call of `getData`, which holds the read lock from its first step to its
   * last. `shown` is what kvalobs answered from: all it had then, or less if
   * the request failed.
   */
  datatype Reader = Reader(query: Query, watermark: int, older: Option<Store>, shown: Store)

  datatype State = State(
    source: Store,
    past: iset<Row>,            // every row kvalobs has ever held
    taken: iset<Key>,           // keys kvalobs took since the cache was cleared, unless deleted as old since
    cache: Store,
    oldest: int,
    pending: seq<Write>,        // oldest first
    filling: Option<(int, int)>,
    deleting: Option<int>,
    readers: map<nat, Reader>)

  datatype Event =
    | Clear(t: int)
    | Store(batch: seq<Row>)
    | CacheRow(i: nat)
    | RaiseWatermark(t: int)
    | DeleteOld
    | Snapshot(from: int, to: int, rows: seq<Row>)
    | LowerWatermark
    | BeginRead(id: nat, query: Query)
    | ReadKvalobs(id: nat, shown: Store)
    | ReadCache(id: nat)

  /** What the cache will say about a key once the pending writes are through, in order. */
  function Latest(pending: seq<Write>, k: Key, cached: Option<Value>): Option<Value> {
    if pending == [] then cached
    else
      var last := pending[|pending| - 1];
      if last.row.key == k then Some(last.row.value) else Latest(pending[..|pending| - 1], k, cached)
  }

  predicate Settled(s: State, k: Key) {
    Latest(s.pending, k, Get(s.cache, k)) == Get(s.source, k)
  }

  /** The keys the cache must answer for: above the watermark, or being filled in. */
  predicate Covered(s: State, interesting: set<int>, k: Key) {
    && k.param in interesting
    && (|| k.obstime > s.oldest
        || (s.filling.Some? && SourceInterval(s.filling.value.0, s.filling.value.1, k.obstime)))
  }

  function Writes(rows: seq<Row>, fill: bool): seq<Write> {
    seq(|rows|, i requires 0 <= i < |rows| => Write(rows[i], fill))
  }

  /** The kvalobs half of a read. */
  function OlderAnswer(source: Store, watermark: int, q: Query): Store {
    if q.from <= watermark then KeepView(ByQuery(SourceSide, q.(to := Min(q.to, watermark))), source) else map[]
  }

  /** The cache half of a read. */
  function NewerAnswer(cache: Store, watermark: int, q: Query): Store {
    if q.to > watermark then KeepView(ByQuery(CacheSide, q.(from := Max(q.from, watermark))), cache) else map[]
  }

  ghost predicate Submap(part: Store, whole: Store) {
    forall k :: k in part ==> k in whole && part[k] == whole[k]
  }

  /** No thread is in the middle of anything. */
  predicate AtRest(s: State) {
    s.pending == [] && s.filling.None? && s.deleting.None? && s.readers == map[]
  }

  ghost predicate Possible(s: State, e: Event) {
    match e
    case Clear(t) => AtRest(s)
    case Store(batch) => true
    case CacheRow(i) => i < |s.pending|
    case RaiseWatermark(t) => s.deleting.None? && s.readers == map[]
    case DeleteOld => s.deleting.Some?
    case Snapshot(from, to, rows) =>
      && s.filling.None? && from <= to
      && UniqueKeys(rows)
      && Submap(View(rows), KeepView(ByInterval(ALL_STATIONS, from, to), s.source))
    case LowerWatermark =>
      && s.filling.Some? && s.readers == map[]
      && forall i :: 0 <= i < |s.pending| ==> !s.pending[i].fill
    case BeginRead(id, q) => id !in s.readers
    case ReadKvalobs(id, shown) => id in s.readers && s.readers[id].older.None? && Submap(shown, s.source)
    case ReadCache(id) => id in s.readers && s.readers[id].older.Some?
  }

  ghost function Apply(s: State, interesting: set<int>, e: Event): State
    requires Possible(s, e)
  {
    match e
    case Clear(t) =>
      s.(cache := map[], oldest := t, taken := iset{})
    case Store(batch) =>
      s.(source := s.source + View(batch),
         past := s.past + (iset r | r in batch),
         taken := s.taken + (iset r | r in batch :: r.key),
         pending := s.pending + Writes(Keep(OfParameters(interesting), batch), false))
    case CacheRow(i) =>
      var r := s.pending[i].row;
      s.(cache := s.cache[r.key := r.value], pending := s.pending[..i] + s.pending[i + 1..])
    case RaiseWatermark(t) =>
      s.(oldest := Max(s.oldest, t), deleting := Some(t))
    case DeleteOld =>
      s.(cache := KeepView(NotOlderThan(s.deleting.value), s.cache),
         taken := (iset k | k in s.taken && k.obstime >= s.deleting.value),
         deleting := None)
    case Snapshot(from, to, rows) =>
      s.(pending := s.pending + Writes(rows, true), filling := Some((from, to)))
    case LowerWatermark =>
      s.(oldest := Min(s.oldest, s.filling.value.0), filling := None)
    case BeginRead(id, q) =>
      s.(readers := s.readers[id := Reader(q, s.oldest, None, map[])])
    case ReadKvalobs(id, shown) =>
      var r := s.readers[id];
      s.(readers := s.readers[id := r.(older := Some(OlderAnswer(shown, r.watermark, r.query)), shown := shown)])
    case ReadCache(id) =>
      s.(readers := s.readers - {id})
  }

  /**
   * Clearing may leave no row above the watermark; a
   * row may overtake another of its key only if it says the same; a deletion
   * may take a covered row only if it is about to be written again; a fill must
   * bring every row of its interval that is not settled; the watermark may only
   * drop over times that are settled.
   */
  ghost predicate Orderly(s: State, interesting: set<int>, e: Event)
    requires Possible(s, e)
  {
    match e
    case Clear(t) =>
      forall k :: k in s.source && k.param in interesting ==> k.obstime <= t
    case CacheRow(i) =>
      var r := s.pending[i].row;
      Covered(s, interesting, r.key) ==>
        || Latest(s.pending[i + 1..], r.key, None).Some?
        || Latest(s.pending[..i], r.key, Some(r.value)) == Some(r.value)
    case DeleteOld =>
      forall k :: k in s.cache && Covered(s, interesting, k) && k.obstime < s.deleting.value ==>
        Latest(s.pending, k, None).Some?
    case Snapshot(from, to, rows) =>
      forall k: Key :: k.param in interesting && SourceInterval(from, to, k.obstime) && k !in View(rows) ==>
        Settled(s, k)
    case LowerWatermark =>
      forall k: Key :: k.param in interesting && s.filling.value.1 < k.obstime <= s.oldest ==> Settled(s, k)
    case _ => true
  }

  /** The cache can be trusted wherever it is asked, up to pending writes. */
  ghost predicate Trustworthy(s: State, interesting: set<int>) {
    forall k: Key :: Covered(s, interesting, k) ==> Settled(s, k)
  }

  /** No row anywhere was invented. */
  ghost predicate Honest(s: State) {
    && (forall r :: r in s.past ==> r.key in s.source)
    && (forall k :: k in s.source ==> Row(k, s.source[k]) in s.past)
    && (forall k :: k in s.cache ==> Row(k, s.cache[k]) in s.past)
    && (forall i :: 0 <= i < |s.pending| ==> s.pending[i].row in s.past)
  }

  /** Readers still see the watermark they started with, and remember what kvalobs told them. */
  ghost predicate ReadersLocked(s: State) {
    forall id :: id in s.readers ==>
      var r := s.readers[id];
      && r.watermark == s.oldest
      && (r.older.Some? ==> r.older.value == OlderAnswer(r.shown, r.watermark, r.query))
  }

  ghost predicate Inv(s: State, interesting: set<int>) {
    && Trustworthy(s, interesting) && Honest(s) && ReadersLocked(s)
    && (s.filling.Some? ==> s.filling.value.0 <= s.filling.value.1)
  }

  /** Start-up: nothing in flight, and an old cache file at most repeats rows kvalobs once held. */
  ghost predicate Init(s: State, interesting: set<int>) {
    && AtRest(s) && s.taken == iset{}
    && Honest(s)
    && AgreeAbove(s.source, s.cache, s.oldest, interesting)
  }

  // ---- Each step, exactly ----

  lemma ClearKeepsTrustIff(s: State, interesting: set<int>, t: int)
    requires AtRest(s)
    ensures Trustworthy(Apply(s, interesting, Clear(t)), interesting) <==> Orderly(s, interesting, Clear(t))
  {
    var s' := Apply(s, interesting, Clear(t));
    if Trustworthy(s', interesting) {
      forall k | k in s.source && k.param in interesting
        ensures k.obstime <= t
      {
        assert Covered(s', interesting, k) ==> Settled(s', k);
      }
    }
  }

  lemma StoreKeepsTrust(s: State, interesting: set<int>, batch: seq<Row>)
    requires Trustworthy(s, interesting)
    ensures Trustworthy(Apply(s, interesting, Store(batch)), interesting)
  {
    var s' := Apply(s, interesting, Store(batch));
    var kept := Keep(OfParameters(interesting), batch);
    KeepRefines(OfParameters(interesting), batch);
    forall k: Key | Covered(s', interesting, k)
      ensures Settled(s', k)
    {
      assert Covered(s, interesting, k) && Settled(s, k);
      LatestAfterWrites(s.pending, kept, false, k, Get(s.cache, k));
    }
  }

  lemma CacheRowKeepsTrustIff(s: State, interesting: set<int>, i: nat)
    requires Trustworthy(s, interesting) && i < |s.pending|
    ensures Trustworthy(Apply(s, interesting, CacheRow(i)), interesting) <==> Orderly(s, interesting, CacheRow(i))
  {
    var s' := Apply(s, interesting, CacheRow(i));
    var r := s.pending[i].row;
    LatestAfterCaching(s, interesting, i, r.key);
    if Latest(s.pending[i + 1..], r.key, None).None? {
      NewestOfItsKey(s, i);
    }
    assert Covered(s, interesting, r.key) ==> Settled(s, r.key);
    assert Covered(s', interesting, r.key) == Covered(s, interesting, r.key);
    assert Orderly(s, interesting, CacheRow(i)) <==> (Covered(s', interesting, r.key) ==> Settled(s', r.key));
    forall k: Key | k != r.key && Covered(s', interesting, k)
      ensures Settled(s', k)
    {
      assert Covered(s, interesting, k) && Settled(s, k);
      LatestAfterCaching(s, interesting, i, k);
    }
  }

  lemma DeleteKeepsTrustIff(s: State, interesting: set<int>)
    requires Trustworthy(s, interesting) && Honest(s) && s.deleting.Some?
    ensures Trustworthy(Apply(s, interesting, DeleteOld), interesting) <==> Orderly(s, interesting, DeleteOld)
  {
    var s' := Apply(s, interesting, DeleteOld);
    forall k: Key
      ensures Covered(s', interesting, k) ==>
                (Settled(s', k) <==>
                 !(k in s.cache && k.obstime < s.deleting.value && Latest(s.pending, k, None).None?))
    {
      if Covered(s', interesting, k) {
        assert Covered(s, interesting, k) && Settled(s, k);
        LatestDefault(s.pending, k, Get(s.cache, k));
        LatestDefault(s.pending, k, Get(s'.cache, k));
        if k in s.cache {
          assert Row(k, s.cache[k]) in s.past;
        }
      }
    }
    if Trustworthy(s', interesting) {
      forall k | k in s.cache && Covered(s, interesting, k) && k.obstime < s.deleting.value
        ensures Latest(s.pending, k, None).Some?
      {
        assert Covered(s', interesting, k) && Settled(s', k);
      }
    }
  }

  lemma SnapshotKeepsTrustIff(s: State, interesting: set<int>, from: int, to: int, rows: seq<Row>)
    requires Trustworthy(s, interesting) && Possible(s, Snapshot(from, to, rows))
    ensures Trustworthy(Apply(s, interesting, Snapshot(from, to, rows)), interesting)
            <==> Orderly(s, interesting, Snapshot(from, to, rows))
  {
    var s' := Apply(s, interesting, Snapshot(from, to, rows));
    forall k: Key
      ensures Settled(s', k) <==> k in View(rows) || Settled(s, k)
      ensures Covered(s', interesting, k) <==>
              Covered(s, interesting, k) || (k.param in interesting && SourceInterval(from, to, k.obstime))
    {
      SettledAfterSnapshot(s, interesting, from, to, rows, k);
    }
    if Trustworthy(s', interesting) {
      forall k: Key | k.param in interesting && SourceInterval(from, to, k.obstime) && k !in View(rows)
        ensures Settled(s, k)
      {
        assert Covered(s', interesting, k) && Settled(s', k);
      }
    }
  }

  /** A fill for which kvalobs answered in full is orderly. */
  lemma CompleteSnapshotIsOrderly(s: State, interesting: set<int>, from: int, to: int, rows: seq<Row>)
    requires Honest(s) && Possible(s, Snapshot(from, to, rows))
    requires View(rows) == KeepView(ByInterval(ALL_STATIONS, from, to), s.source)
    ensures Orderly(s, interesting, Snapshot(from, to, rows))
  {
    forall k: Key | SourceInterval(from, to, k.obstime) && k !in View(rows)
      ensures Settled(s, k)
    {
      UnknownKeyIsSettled(s, k);
    }
  }

  lemma LowerKeepsTrustIff(s: State, interesting: set<int>)
    requires Trustworthy(s, interesting) && Possible(s, LowerWatermark)
    requires s.filling.value.0 <= s.filling.value.1
    ensures Trustworthy(Apply(s, interesting, LowerWatermark), interesting) <==> Orderly(s, interesting, LowerWatermark)
  {
    var s' := Apply(s, interesting, LowerWatermark);
    var (from, to) := s.filling.value;
    forall k: Key
      ensures Settled(s', k) == Settled(s, k)
      ensures Covered(s', interesting, k) ==>
                Covered(s, interesting, k) || (k.param in interesting && to < k.obstime <= s.oldest)
      ensures k.param in interesting && to < k.obstime <= s.oldest ==> Covered(s', interesting, k)
    {
    }
    if Trustworthy(s', interesting) {
      forall k: Key | k.param in interesting && to < k.obstime <= s.oldest
        ensures Settled(s, k)
      {
        assert Covered(s', interesting, k) && Settled(s', k);
      }
    } else {
      var k: Key :| Covered(s', interesting, k) && !Settled(s', k);
      assert !Covered(s, interesting, k) || Settled(s, k);
    }
  }

  lemma StepKeepsHonest(s: State, interesting: set<int>, e: Event)
    requires Honest(s) && Possible(s, e)
    ensures Honest(Apply(s, interesting, e))
  {
    match e
    case Store(batch) =>
      KeepMembers(OfParameters(interesting), batch);
      StoredBatchIsPast(s, interesting, batch);
    case Snapshot(from, to, rows) =>
      FillIsPast(s, from, to, rows);
    case _ =>
  }

  // ---- Runs ----

  /**
   * From a trustworthy state, a possible step leads to a trustworthy state
   * exactly if it is orderly; the other parts of the invariant hold regardless.
   */
  lemma StepKeepsInvIff(s: State, interesting: set<int>, e: Event)
    requires Inv(s, interesting) && Possible(s, e)
    ensures Inv(Apply(s, interesting, e), interesting) <==> Orderly(s, interesting, e)
  {
    var s' := Apply(s, interesting, e);
    StepKeepsHonest(s, interesting, e);
    match e
    case Clear(t) => ClearKeepsTrustIff(s, interesting, t);
    case Store(batch) => StoreKeepsTrust(s, interesting, batch);
    case CacheRow(i) => CacheRowKeepsTrustIff(s, interesting, i);
    case DeleteOld => DeleteKeepsTrustIff(s, interesting);
    case Snapshot(from, to, rows) => SnapshotKeepsTrustIff(s, interesting, from, to, rows);
    case LowerWatermark => LowerKeepsTrustIff(s, interesting);
    case _ =>
      assert forall k: Key :: Covered(s', interesting, k) ==> Covered(s, interesting, k) && Settled(s, k);
  }

  ghost function Run(s: State, interesting: set<int>, events: seq<Event>): Option<State> {
    if events == [] then Some(s)
    else
      match Run(s, interesting, events[..|events| - 1])
      case None => None
      case Some(mid) =>
        var e := events[|events| - 1];
        if Possible(mid, e) then Some(Apply(mid, interesting, e)) else None
  }

  /** Every step of the run was orderly in the state it found. */
  ghost predicate OrderlyRun(s: State, interesting: set<int>, events: seq<Event>) {
    events == [] ||
    var front, e := events[..|events| - 1], events[|events| - 1];
    && OrderlyRun(s, interesting, front)
    && var mid := Run(s, interesting, front);
       mid.Some? && Possible(mid.value, e) ==> Orderly(mid.value, interesting, e)
  }

  lemma InitIsInv(s: State, interesting: set<int>)
    requires Init(s, interesting)
    ensures Inv(s, interesting)
  {
    forall k: Key | Covered(s, interesting, k)
      ensures Settled(s, k)
    {
      assert Get(s.source, k) == Get(s.cache, k);
    }
  }

  lemma {:induction false} RunKeepsInv(s: State, interesting: set<int>, events: seq<Event>)
    requires Inv(s, interesting) && OrderlyRun(s, interesting, events)
    ensures Run(s, interesting, events).Some? ==> Inv(Run(s, interesting, events).value, interesting)
  {
    if events != [] {
      var front, e := events[..|events| - 1], events[|events| - 1];
      RunKeepsInv(s, interesting, front);
      var mid := Run(s, interesting, front);
      if mid.Some? && Possible(mid.value, e) {
        StepKeepsInvIff(mid.value, interesting, e);
      }
    }
  }

  // ---- What readers see ----

  /** The answer of a read that is about to take the cache's half. */
  function Answer(s: State, id: nat): Store
    requires id in s.readers && s.readers[id].older.Some?
  {
    var r := s.readers[id];
    NewerAnswer(s.cache, r.watermark, r.query) + r.older.value
  }

  /**
   * A read that spans any number of other steps: below its watermark it shows
   * what kvalobs answered at the read's first half, above it kvalobs as it is at
   * the second half, except for rows whose caching is still pending.
   */
  lemma ReadersSeeTheSource(s: State, interesting: set<int>, id: nat, k: Key)
    requires Inv(s, interesting) && Possible(s, ReadCache(id))
    requires Readable(s.readers[id].query, interesting)
    requires PlainSensors(s.source) && PlainSensors(s.readers[id].shown)
    requires !StartsOnWatermark(s.oldest, s.readers[id].query)
    ensures var r := s.readers[id];
            var answer := Get(Answer(s, id), k);
            if !Selects(SourceSide, r.query, k) then answer == None
            else if k.obstime <= s.oldest then answer == Get(r.shown, k)
            else answer == Get(s.cache, k) && (Latest(s.pending, k, None).None? ==> answer == Get(s.source, k))
  {
    var r := s.readers[id];
    CachedKeysAreStored(s);
    if k in s.source || k in r.shown {
      FiltersAgree(r.query, k);
    }
    if Selects(SourceSide, r.query, k) && k.obstime > s.oldest {
      assert Covered(s, interesting, k) && Settled(s, k);
      LatestDefault(s.pending, k, Get(s.cache, k));
    }
  }

  /** Whatever a read returns from the cache, kvalobs held it at some time. */
  lemma NothingIsInvented(s: State, interesting: set<int>, id: nat, k: Key)
    requires Inv(s, interesting) && Possible(s, ReadCache(id))
    requires k in NewerAnswer(s.cache, s.readers[id].watermark, s.readers[id].query)
    ensures Row(k, NewerAnswer(s.cache, s.readers[id].watermark, s.readers[id].query)[k]) in s.past
  {
    assert Row(k, s.cache[k]) in s.past;
  }

  /** With nothing pending, every reachable state satisfies the premise of `SplitReadRefines`. */
  lemma QuiescentStatesAgree(s: State, interesting: set<int>, events: seq<Event>)
    requires Init(s, interesting) && OrderlyRun(s, interesting, events)
    requires Run(s, interesting, events).Some? && Run(s, interesting, events).value.pending == []
    ensures var s' := Run(s, interesting, events).value;
            AgreeAbove(s'.source, s'.cache, s'.oldest, interesting)
  {
    InitIsInv(s, interesting);
    RunKeepsInv(s, interesting, events);
    NothingPendingAgrees(Run(s, interesting, events).value, interesting);
  }

  /**
   * Reads refine the source: after any orderly run, once nothing is pending, the
   * split read is the direct read, except that a read that starts exactly on the
   * watermark also returns what kvalobs has at that instant.
   */
  lemma SettledReadsAreDirectIff(
    s: State, interesting: set<int>, events: seq<Event>, end: State, stored: seq<Row>, cached: seq<Row>, q: Query)
    requires Init(s, interesting) && OrderlyRun(s, interesting, events)
    requires Run(s, interesting, events) == Some(end) && end.pending == []
    requires UniqueKeys(stored) && View(stored) == end.source && UniqueKeys(cached) && View(cached) == end.cache
    requires PlainSensors(end.source) && Readable(q, interesting)
    ensures UniqueKeys(SplitRead(stored, cached, Some(end.oldest), q))
    ensures View(SplitRead(stored, cached, Some(end.oldest), q)) == View(DirectRead(stored, q))
            <==> !(StartsOnWatermark(end.oldest, q) && RowsAtStart(end.source, q) != map[])
  {
    QuiescentStatesAgree(s, interesting, events);
    SplitReadView(stored, cached, Some(end.oldest), q);
    SplitReadIsDirectReadIff(stored, cached, end.oldest, q, interesting);
  }

  // ---- Sending in the middle of it ----

  /**
   * A row that is not sent, because the read before it found no difference: below
   * the watermark kvalobs' answer was close to it. Above, kvalobs is close to it
   * at that moment exactly if no row of its key waits to be cached, or the newest
   * one that does is close to it as well.
   */
  lemma SuppressedIsCloseIff(s: State, interesting: set<int>, id: nat, r: Row)
    requires Inv(s, interesting) && Possible(s, ReadCache(id)) && s.readers[id].query == PointQuery(r.key)
    requires Readable(PointQuery(r.key), interesting)
    requires PlainSensors(s.source) && PlainSensors(s.readers[id].shown)
    requires Get(Answer(s, id), r.key).Some? && !Different(Get(Answer(s, id), r.key).value, r.value)
    ensures r.key.obstime <= s.oldest ==>
              r.key in s.readers[id].shown && Close(s.readers[id].shown[r.key], r.value)
    ensures r.key.obstime > s.oldest ==>
              && r.key in s.source
              && var newest := Latest(s.pending, r.key, None);
                 Close(s.source[r.key], r.value) <==> (newest.Some? ==> Close(newest.value, r.value))
  {
    ReadersSeeTheSource(s, interesting, id, r.key);
    if r.key.obstime > s.oldest {
      assert Covered(s, interesting, r.key) && Settled(s, r.key);
      LatestDefault(s.pending, r.key, Get(s.cache, r.key));
    }
  }

  // ---- Discipline ----

  /**
   * What the threads can see to without looking at the cache: rows of one key
   * are cached in their order; a fill brings its whole interval; a cleaning and a
   * fill do not reach into each other; and the watermark drops only if all that
   * kvalobs has between the fill and the old watermark came by since the cache
   * was cleared. Clearing leaves the watermark ahead of all rows.
   */
  ghost predicate Disciplined(s: State, interesting: set<int>, e: Event)
    requires Possible(s, e)
  {
    match e
    case Clear(t) =>
      forall k :: k in s.source && k.param in interesting ==> k.obstime <= t
    case CacheRow(i) =>
      forall j :: 0 <= j < i ==> s.pending[j].row.key != s.pending[i].row.key
    case RaiseWatermark(t) =>
      s.filling.None? || t <= s.filling.value.0
    case Snapshot(from, to, rows) =>
      && View(rows) == KeepView(ByInterval(ALL_STATIONS, from, to), s.source)
      && (s.deleting.None? || s.deleting.value <= from)
    case LowerWatermark =>
      forall k :: k in s.source && k.param in interesting && s.filling.value.1 < k.obstime <= s.oldest ==> k in s.taken
    case _ => true
  }

  /** While a deletion is due, the watermark has been raised for it, and no fill reaches below its limit. */
  ghost predicate RaisedFirst(s: State) {
    s.deleting.Some? ==>
      s.deleting.value <= s.oldest && (s.filling.Some? ==> s.deleting.value <= s.filling.value.0)
  }

  lemma DisciplineKeepsRaised(s: State, interesting: set<int>, e: Event)
    requires RaisedFirst(s) && Possible(s, e) && Disciplined(s, interesting, e)
    ensures RaisedFirst(Apply(s, interesting, e))
  {
  }

  /** What came by since the cache was cleared is in the cache, or on its way. */
  ghost predicate TakenIsSettled(s: State, interesting: set<int>) {
    forall k :: k in s.taken && k.param in interesting ==> Settled(s, k)
  }

  /** Caching the rows of each key in the order in which kvalobs took them is orderly. */
  lemma FirstOfItsKeyIsOrderly(s: State, interesting: set<int>, i: nat)
    requires i < |s.pending|
    requires forall j :: 0 <= j < i ==> s.pending[j].row.key != s.pending[i].row.key
    ensures Orderly(s, interesting, CacheRow(i))
  {
    NoWriteOfKey(s.pending[..i], s.pending[i].row.key, Some(s.pending[i].row.value));
  }

  /** Once the watermark has been raised for it, a deletion is orderly. */
  lemma CleaningIsOrderly(s: State, interesting: set<int>)
    requires s.deleting.Some? && RaisedFirst(s)
    ensures Orderly(s, interesting, DeleteOld)
  {
  }

  lemma DisciplinedIsOrderly(s: State, interesting: set<int>, e: Event)
    requires Honest(s) && TakenIsSettled(s, interesting) && RaisedFirst(s)
    requires Possible(s, e) && Disciplined(s, interesting, e)
    ensures Orderly(s, interesting, e)
  {
    match e
    case CacheRow(i) => FirstOfItsKeyIsOrderly(s, interesting, i);
    case DeleteOld => CleaningIsOrderly(s, interesting);
    case Snapshot(from, to, rows) => CompleteSnapshotIsOrderly(s, interesting, from, to, rows);
    case LowerWatermark =>
      forall k: Key | k.param in interesting && s.filling.value.1 < k.obstime <= s.oldest
        ensures Settled(s, k)
      {
        if k !in s.source {
          UnknownKeyIsSettled(s, k);
        }
      }
    case _ =>
  }

  lemma DisciplineKeepsTaken(s: State, interesting: set<int>, e: Event)
    requires TakenIsSettled(s, interesting) && Possible(s, e) && Disciplined(s, interesting, e)
    ensures TakenIsSettled(Apply(s, interesting, e), interesting)
  {
    var s' := Apply(s, interesting, e);
    forall k | k in s'.taken && k.param in interesting
      ensures Settled(s', k)
    {
      match e
      case Store(batch) =>
        if k !in s.taken {
          BatchKeys(batch, k);
        }
        StoreSettles(s, interesting, batch, k);
      case CacheRow(i) => InOrderKeepsSettled(s, interesting, i, k);
      case Snapshot(from, to, rows) => SettledAfterSnapshot(s, interesting, from, to, rows, k);
      case _ =>
    }
  }

  ghost predicate DisciplinedRun(s: State, interesting: set<int>, events: seq<Event>) {
    events == [] ||
    var front, e := events[..|events| - 1], events[|events| - 1];
    && DisciplinedRun(s, interesting, front)
    && var mid := Run(s, interesting, front);
       mid.Some? && Possible(mid.value, e) ==> Disciplined(mid.value, interesting, e)
  }

  /** Whatever threads do, in any order and for any length of time: discipline keeps the invariant. */
  lemma {:induction false} DisciplineKeepsInv(s: State, interesting: set<int>, events: seq<Event>)
    requires Inv(s, interesting) && TakenIsSettled(s, interesting) && RaisedFirst(s)
    requires DisciplinedRun(s, interesting, events)
    ensures OrderlyRun(s, interesting, events)
    ensures var end := Run(s, interesting, events);
            end.Some? ==>
              Inv(end.value, interesting) && TakenIsSettled(end.value, interesting) && RaisedFirst(end.value)
  {
    if events != [] {
      var front, e := events[..|events| - 1], events[|events| - 1];
      DisciplineKeepsInv(s, interesting, front);
      var mid := Run(s, interesting, front);
      if mid.Some? && Possible(mid.value, e) {
        DisciplinedIsOrderly(mid.value, interesting, e);
        StepKeepsInvIff(mid.value, interesting, e);
        DisciplineKeepsTaken(mid.value, interesting, e);
        DisciplineKeepsRaised(mid.value, interesting, e);
      }
    }
  }

  /**
   * Reads refine the source: after any disciplined run, once nothing is pending,
   * the split read is the direct read, with the one exception at the watermark.
   */
  lemma DisciplinedReadsAreDirectIff(
    s: State, interesting: set<int>, events: seq<Event>, end: State, stored: seq<Row>, cached: seq<Row>, q: Query)
    requires Init(s, interesting) && DisciplinedRun(s, interesting, events)
    requires Run(s, interesting, events) == Some(end) && end.pending == []
    requires UniqueKeys(stored) && View(stored) == end.source && UniqueKeys(cached) && View(cached) == end.cache
    requires PlainSensors(end.source) && Readable(q, interesting)
    ensures UniqueKeys(SplitRead(stored, cached, Some(end.oldest), q))
    ensures View(SplitRead(stored, cached, Some(end.oldest), q)) == View(DirectRead(stored, q))
            <==> !(StartsOnWatermark(end.oldest, q) && RowsAtStart(end.source, q) != map[])
  {
    InitIsInv(s, interesting);
    DisciplineKeepsInv(s, interesting, events);
    SettledReadsAreDirectIff(s, interesting, events, end, stored, cached, q);
  }

  // ---- Pending writes ----

  lemma {:induction false} LatestSplit(a: seq<Write>, b: seq<Write>, k: Key, cached: Option<Value>)
    ensures Latest(a + b, k, cached) == Latest(b, k, Latest(a, k, cached))
  {
    if b == [] {
      assert a + b == a;
    } else {
      assert (a + b)[..|a + b| - 1] == a + b[..|b| - 1];
      LatestSplit(a, b[..|b| - 1], k, cached);
    }
  }

  lemma {:induction false} LatestDefault(pending: seq<Write>, k: Key, cached: Option<Value>)
    ensures Latest(pending, k, cached)
            == if Latest(pending, k, None).Some? then Latest(pending, k, None) else cached
  {
    if pending != [] {
      LatestDefault(pending[..|pending| - 1], k, cached);
    }
  }

  lemma {:induction false} LatestOfWrites(rows: seq<Row>, fill: bool, k: Key, cached: Option<Value>)
    ensures Latest(Writes(rows, fill), k, cached) == if k in View(rows) then Some(View(rows)[k]) else cached
  {
    if rows != [] {
      var front := rows[..|rows| - 1];
      assert Writes(rows, fill)[..|rows| - 1] == Writes(front, fill);
      LatestOfWrites(front, fill, k, cached);
    }
  }

  lemma LatestAfterWrites(pending: seq<Write>, rows: seq<Row>, fill: bool, k: Key, cached: Option<Value>)
    ensures Latest(pending + Writes(rows, fill), k, cached)
            == if k in View(rows) then Some(View(rows)[k]) else Latest(pending, k, cached)
  {
    LatestSplit(pending, Writes(rows, fill), k, cached);
    LatestOfWrites(rows, fill, k, Latest(pending, k, cached));
  }

  lemma LatestOfTwo(a: seq<Write>, b: seq<Write>, k: Key, cached: Option<Value>)
    ensures Latest(a + b, k, cached)
            == if Latest(b, k, None).Some? then Latest(b, k, None) else Latest(a, k, cached)
  {
    LatestSplit(a, b, k, cached);
    LatestDefault(b, k, Latest(a, k, cached));
  }

  lemma LatestAround(pending: seq<Write>, i: nat, k: Key, cached: Option<Value>)
    requires i < |pending|
    ensures Latest(pending, k, cached)
            == if Latest(pending[i + 1..], k, None).Some? then Latest(pending[i + 1..], k, None)
               else if pending[i].row.key == k then Some(pending[i].row.value)
               else Latest(pending[..i], k, cached)
  {
    var upTo := pending[..i + 1];
    assert pending == upTo + pending[i + 1..];
    LatestOfTwo(upTo, pending[i + 1..], k, cached);
    assert upTo[..i] == pending[..i] && upTo[i] == pending[i];
  }

  /** Taking a write out of the queue and into the cache, seen from one key. */
  lemma LatestAfterCaching(s: State, interesting: set<int>, i: nat, k: Key)
    requires i < |s.pending|
    ensures var r := s.pending[i].row;
            var s' := Apply(s, interesting, CacheRow(i));
            Latest(s'.pending, k, Get(s'.cache, k)) ==
            if k == r.key && Latest(s.pending[i + 1..], k, None).None?
            then Latest(s.pending[..i], k, Some(r.value))
            else Latest(s.pending, k, Get(s.cache, k))
  {
    var s' := Apply(s, interesting, CacheRow(i));
    LatestOfTwo(s.pending[..i], s.pending[i + 1..], k, Get(s'.cache, k));
    LatestAround(s.pending, i, k, Get(s.cache, k));
  }

  lemma SettledAfterSnapshot(s: State, interesting: set<int>, from: int, to: int, rows: seq<Row>, k: Key)
    requires Possible(s, Snapshot(from, to, rows))
    ensures Settled(Apply(s, interesting, Snapshot(from, to, rows)), k) <==> k in View(rows) || Settled(s, k)
  {
    LatestAfterWrites(s.pending, rows, true, k, Get(s.cache, k));
  }

  lemma NothingPendingAgrees(s: State, interesting: set<int>)
    requires Inv(s, interesting) && s.pending == []
    ensures AgreeAbove(s.source, s.cache, s.oldest, interesting)
  {
    forall k: Key | k.param in interesting && k.obstime > s.oldest
      ensures Get(s.source, k) == Get(s.cache, k)
    {
      assert Covered(s, interesting, k) && Settled(s, k);
    }
  }

  lemma NewestOfItsKey(s: State, i: nat)
    requires i < |s.pending| && Latest(s.pending[i + 1..], s.pending[i].row.key, None).None?
    ensures Latest(s.pending, s.pending[i].row.key, Get(s.cache, s.pending[i].row.key)) == Some(s.pending[i].row.value)
  {
    LatestAround(s.pending, i, s.pending[i].row.key, Get(s.cache, s.pending[i].row.key));
  }

  lemma CachedKeysAreStored(s: State)
    requires Honest(s)
    ensures s.cache.Keys <= s.source.Keys
  {
    forall k | k in s.cache
      ensures k in s.source
    {
      assert Row(k, s.cache[k]) in s.past;
    }
  }

  lemma UnknownKeyIsSettled(s: State, k: Key)
    requires Honest(s) && k !in s.source
    ensures Settled(s, k)
  {
    NoWriteOfUnknownKey(s, s.pending, k);
    CachedKeysAreStored(s);
  }

  lemma {:induction false} NoWriteOfUnknownKey(s: State, pending: seq<Write>, k: Key)
    requires Honest(s) && k !in s.source
    requires forall i :: 0 <= i < |pending| ==> pending[i].row in s.past
    ensures Latest(pending, k, Get(s.cache, k)) == Get(s.cache, k)
  {
    if pending != [] {
      NoWriteOfUnknownKey(s, pending[..|pending| - 1], k);
    }
  }

  lemma StoredBatchIsPast(s: State, interesting: set<int>, batch: seq<Row>)
    requires Honest(s)
    ensures Honest(Apply(s, interesting, Store(batch)))
  {
    var s' := Apply(s, interesting, Store(batch));
    var kept := Keep(OfParameters(interesting), batch);
    KeepMembers(OfParameters(interesting), batch);
    forall r | r in s'.past
      ensures r.key in s'.source
    {
      if r in batch {
        var i :| 0 <= i < |batch| && batch[i] == r;
        ViewHas(batch, r.key);
      }
    }
    forall k | k in View(batch)
      ensures Row(k, View(batch)[k]) in batch
    {
      ViewRowListed(batch, k);
    }
    forall i | 0 <= i < |s'.pending|
      ensures s'.pending[i].row in s'.past
    {
      if i >= |s.pending| {
        assert s'.pending[i].row == kept[i - |s.pending|];
        assert kept[i - |s.pending|] in kept;
      }
    }
  }

  lemma {:induction false} ViewRowListed(rows: seq<Row>, k: Key)
    requires k in View(rows)
    ensures Row(k, View(rows)[k]) in rows
  {
    if rows[|rows| - 1].key != k {
      ViewRowListed(rows[..|rows| - 1], k);
    }
  }

  lemma FillIsPast(s: State, from: int, to: int, rows: seq<Row>)
    requires Honest(s) && Possible(s, Snapshot(from, to, rows))
    ensures forall i :: 0 <= i < |rows| ==> rows[i] in s.past
  {
    forall i | 0 <= i < |rows|
      ensures rows[i] in s.past
    {
      ViewAt(rows, i);
      assert rows[i] == Row(rows[i].key, s.source[rows[i].key]);
    }
  }

  lemma {:induction false} NoWriteOfKey(pending: seq<Write>, k: Key, cached: Option<Value>)
    requires forall j :: 0 <= j < |pending| ==> pending[j].row.key != k
    ensures Latest(pending, k, cached) == cached
  {
    if pending != [] {
      NoWriteOfKey(pending[..|pending| - 1], k, cached);
    }
  }

  /** In order, caching changes nothing about which keys are settled. */
  lemma InOrderKeepsSettled(s: State, interesting: set<int>, i: nat, k: Key)
    requires i < |s.pending|
    requires forall j :: 0 <= j < i ==> s.pending[j].row.key != s.pending[i].row.key
    ensures Settled(Apply(s, interesting, CacheRow(i)), k) == Settled(s, k)
  {
    LatestAfterCaching(s, interesting, i, k);
    if k == s.pending[i].row.key && Latest(s.pending[i + 1..], k, None).None? {
      NoWriteOfKey(s.pending[..i], k, Some(s.pending[i].row.value));
      NewestOfItsKey(s, i);
    }
  }

  lemma StoreSettles(s: State, interesting: set<int>, batch: seq<Row>, k: Key)
    requires k.param in interesting && (Settled(s, k) || k in View(batch))
    ensures Settled(Apply(s, interesting, Store(batch)), k)
  {
    KeepRefines(OfParameters(interesting), batch);
    LatestAfterWrites(s.pending, Keep(OfParameters(interesting), batch), false, k, Get(s.cache, k));
  }

  lemma BatchKeys(batch: seq<Row>, k: Key)
    requires exists r :: r in batch && r.key == k
    ensures k in View(batch)
  {
    ViewHas(batch, k);
    var r :| r in batch && r.key == k;
    var i :| 0 <= i < |batch| && batch[i] == r;
  }
}
