/**
 * Runs of the proxy: deliveries, batches that reach kvalobs and then the cache,
 * cleanings and fills, one after the other in any order.
 */
module ProxyRuns {
  import opened Wrappers
  import opened Observations
  import opened Tables
  import opened ProxySpec
  import Proxy

  /** What kvalobs and the cache hold, and the watermark. */
  datatype Served = Served(tables: Contents, watermark: int)

  datatype Operation =
    | Send(delivery: Delivery)
    | Ingest(batch: seq<Row>)
    | Cleanup(limit: int)
    | Populate(from: int, to: int)

  function Do(p: Served, interesting: set<int>, op: Operation): Served {
    var Contents(stored, cached) := p.tables;
    match op
    case Send(d) =>
      Served(Deliver(p.tables, p.watermark, interesting, d), p.watermark)
    case Ingest(batch) =>
      Served(Contents(UpsertAll(stored, batch), UpsertAll(cached, Keep(OfParameters(interesting), batch))), p.watermark)
    case Cleanup(limit) =>
      Served(Contents(stored, Keep(NotOlderThan(limit), cached)), Max(p.watermark, limit))
    case Populate(from, to) =>
      var data := Keep(ByInterval(ALL_STATIONS, from, to), stored);
      Served(Contents(stored, UpsertAll(cached, data)), Min(p.watermark, from))
  }

  ghost predicate Good(p: Served, interesting: set<int>, keys: iset<Key>) {
    && Clean(p.tables, p.watermark, interesting, keys)
    && View(p.tables.cached).Keys <= View(p.tables.stored).Keys
  }

  /** What callers see to: plain keys, and no fill that leaves out rows below the watermark. */
  ghost predicate Sensible(p: Served, interesting: set<int>, keys: iset<Key>, op: Operation) {
    match op
    case Send(d) => UniqueKeys(d.data) && KeysWithin(d.data, keys)
    case Ingest(batch) => KeysWithin(batch, keys)
    case Cleanup(limit) => true
    case Populate(from, to) =>
      && from <= to
      && forall k :: k in View(p.tables.stored) && k.param in interesting ==> !(to < k.obstime <= p.watermark)
  }

  // ---- One operation ----

  lemma UpsertedWithin(rows: seq<Row>, data: seq<Row>, keys: iset<Key>)
    requires KeysWithin(rows, keys) && KeysWithin(data, keys)
    ensures KeysWithin(UpsertAll(rows, data), keys)
  {
    UpsertAllMembers(rows, data);
  }

  lemma IngestKeepsGood(p: Served, interesting: set<int>, keys: iset<Key>, batch: seq<Row>)
    requires Good(p, interesting, keys) && KeysWithin(batch, keys)
    ensures Good(Do(p, interesting, Ingest(batch)), interesting, keys)
  {
    var kept := Keep(OfParameters(interesting), batch);
    UpsertAllRefines(p.tables.stored, batch);
    UpsertAllRefines(p.tables.cached, kept);
    KeepRefines(OfParameters(interesting), batch);
    UpsertedWithin(p.tables.stored, batch, keys);
    IngestAgrees(View(p.tables.stored), View(p.tables.cached), View(batch), p.watermark, interesting);
  }

  lemma IngestAgrees(source: Store, cache: Store, batch: Store, watermark: int, interesting: set<int>)
    requires AgreeAbove(source, cache, watermark, interesting) && cache.Keys <= source.Keys
    ensures var cache' := cache + KeepView(OfParameters(interesting), batch);
            AgreeAbove(source + batch, cache', watermark, interesting) && cache'.Keys <= (source + batch).Keys
  {
    var cache' := cache + KeepView(OfParameters(interesting), batch);
    forall k: Key | k.param in interesting && k.obstime > watermark
      ensures Get(source + batch, k) == Get(cache', k)
    {
      assert Get(source, k) == Get(cache, k);
    }
  }

  lemma CleanupKeepsGood(p: Served, interesting: set<int>, keys: iset<Key>, limit: int)
    requires Good(p, interesting, keys)
    ensures Good(Do(p, interesting, Cleanup(limit)), interesting, keys)
  {
    KeepUnique(NotOlderThan(limit), p.tables.cached);
    KeepRefines(NotOlderThan(limit), p.tables.cached);
  }

  lemma PopulateKeepsGood(p: Served, interesting: set<int>, keys: iset<Key>, from: int, to: int)
    requires Good(p, interesting, keys) && Sensible(p, interesting, keys, Populate(from, to))
    ensures Good(Do(p, interesting, Populate(from, to)), interesting, keys)
  {
    var c := ByInterval(ALL_STATIONS, from, to);
    UpsertAllRefines(p.tables.cached, Keep(c, p.tables.stored));
    KeepRefines(c, p.tables.stored);
    Proxy.FillingAgreesIff(View(p.tables.stored), View(p.tables.cached), from, to, Some(p.watermark), interesting);
  }

  lemma DoKeepsGood(p: Served, interesting: set<int>, keys: iset<Key>, op: Operation)
    requires Good(p, interesting, keys) && Sensible(p, interesting, keys, op)
    ensures Good(Do(p, interesting, op), interesting, keys)
  {
    match op
    case Send(d) =>
      DeliverKeepsClean(p.tables, p.watermark, interesting, keys, d);
      if d.accepted {
        DeliverStores(p.tables, p.watermark, interesting, d.data);
      }
    case Ingest(batch) => IngestKeepsGood(p, interesting, keys, batch);
    case Cleanup(limit) => CleanupKeepsGood(p, interesting, keys, limit);
    case Populate(from, to) => PopulateKeepsGood(p, interesting, keys, from, to);
  }

  // ---- Runs ----

  function DoAll(p: Served, interesting: set<int>, ops: seq<Operation>): Served {
    if ops == [] then p
    else Do(DoAll(p, interesting, ops[..|ops| - 1]), interesting, ops[|ops| - 1])
  }

  ghost predicate SensibleRun(p: Served, interesting: set<int>, keys: iset<Key>, ops: seq<Operation>) {
    ops == [] ||
    var front := ops[..|ops| - 1];
    && SensibleRun(p, interesting, keys, front)
    && Sensible(DoAll(p, interesting, front), interesting, keys, ops[|ops| - 1])
  }

  lemma {:induction false} RunKeepsGood(p: Served, interesting: set<int>, keys: iset<Key>, ops: seq<Operation>)
    requires Good(p, interesting, keys) && SensibleRun(p, interesting, keys, ops)
    ensures Good(DoAll(p, interesting, ops), interesting, keys)
  {
    if ops != [] {
      var front := ops[..|ops| - 1];
      RunKeepsGood(p, interesting, keys, front);
      DoKeepsGood(DoAll(p, interesting, front), interesting, keys, ops[|ops| - 1]);
    }
  }

  /** Does the operation say anything about the key that kvalobs takes? */
  ghost predicate Touches(op: Operation, k: Key) {
    match op
    case Send(d) => Offers(d, k)
    case Ingest(batch) => exists r :: r in batch && r.key == k
    case Cleanup(limit) => false
    case Populate(from, to) => false
  }

  lemma UntouchedIsStored(p: Served, interesting: set<int>, keys: iset<Key>, op: Operation, k: Key)
    requires Good(p, interesting, keys) && !Touches(op, k)
    ensures Get(View(Do(p, interesting, op).tables.stored), k) == Get(View(p.tables.stored), k)
  {
    match op
    case Send(d) =>
      if d.accepted {
        assert d == Delivery(d.data, true);
        DeliverStores(p.tables, p.watermark, interesting, d.data);
        UnofferedNotSent(p.tables, p.watermark, interesting, d, k);
      }
    case Ingest(batch) =>
      UpsertAllRefines(p.tables.stored, batch);
      ViewHas(batch, k);
      forall i | 0 <= i < |batch|
        ensures batch[i].key != k
      {
        assert batch[i] in batch;
      }
    case _ =>
  }

  /**
   * Sub-threshold changes never accumulate: after any run of deliveries, other
   * batches, cleanings and fills, the store is within one threshold of the value
   * last offered and accepted for a key, however many smaller changes were
   * suppressed on the way.
   */
  lemma {:induction false} DriftNeverAccumulates(
    p: Served, interesting: set<int>, keys: iset<Key>, ops: seq<Operation>, i: nat, r: Row)
    requires Good(p, interesting, keys) && SensibleRun(p, interesting, keys, ops)
    requires i < |ops| && ops[i].Send? && ops[i].delivery.accepted
    requires r in ops[i].delivery.data && r.key.param in interesting
    requires forall j :: i < j < |ops| ==> !Touches(ops[j], r.key)
    ensures var after := View(DoAll(p, interesting, ops).tables.stored);
            r.key in after && Close(after[r.key], r.value)
  {
    var front, last := ops[..|ops| - 1], ops[|ops| - 1];
    var mid := DoAll(p, interesting, front);
    RunKeepsGood(p, interesting, keys, front);
    if i == |ops| - 1 {
      assert last.delivery == Delivery(last.delivery.data, true);
      SendKeepsStoreClose(mid.tables, mid.watermark, interesting, keys, last.delivery.data, r);
    } else {
      DriftNeverAccumulates(p, interesting, keys, front, i, r);
      UntouchedIsStored(mid, interesting, keys, last, r.key);
      assert Get(View(mid.tables.stored), r.key).Some?;
    }
  }
}
