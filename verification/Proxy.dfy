/** The caching proxy in front of kvalobs, one caller at a time. */
module Proxy {
  import opened Wrappers
  import opened Observations
  import opened Tables
  import opened DataAccess
  import opened ProxySpec

  datatype SendResult = NothingToSend | Sent | Refused

  const RETENTION := 35 * DAY

  /** How many hours a start-up fill covers. */
  const FILLED_HOURS := 24

  lemma {:induction false} KeepNothingOut(c: Criterion, rows: seq<Row>)
    requires forall r :: r in rows ==> Accepts(c, r.key)
    ensures Keep(c, rows) == rows
  {
    if rows != [] {
      var front := rows[..|rows| - 1];
      assert rows == front + [rows[|rows| - 1]];
      KeepNothingOut(c, front);
    }
  }

  /** Nothing but later rows of the batch may contradict what kvalobs holds. */
  ghost predicate MatchesAbove(batch: Store, source: Store, watermark: int, interesting: set<int>) {
    forall k :: k in batch && k.param in interesting && k.obstime > watermark ==> Get(source, k) == Some(batch[k])
  }

  ghost predicate AllInteresting(rows: seq<Row>, interesting: set<int>) {
    forall r :: r in rows ==> r.key.param in interesting
  }

  lemma UpdatesAreInteresting(
    stored: seq<Row>, cached: seq<Row>, watermark: Option<int>, interesting: set<int>, data: seq<Row>)
    ensures AllInteresting(ToSend(stored, cached, watermark, interesting, data), interesting)
  {
    ToSendMembers(stored, cached, watermark, interesting, data);
  }

  /** Agreement on the times after `to` that the old watermark, if any, did not vouch for. */
  ghost predicate AgreeBetween(source: Store, cache: Store, to: int, watermark: Option<int>, interesting: set<int>) {
    forall k: Key :: k.param in interesting && to < k.obstime && (watermark.None? || k.obstime <= watermark.value) ==>
      Get(source, k) == Get(cache, k)
  }

  /** Both tables take exactly the rows sent, or nothing changes. */
  ghost predicate SendOutcome(before: Contents, after: Contents, sent: seq<Row>, accepts: bool, res: SendResult) {
    && res == (if sent == [] then NothingToSend else if accepts then Sent else Refused)
    && after == (if res != Sent then before
                 else Contents(UpsertAll(before.stored, sent), UpsertAll(before.cached, sent)))
  }

  class KvalobsProxy {
    var oldestInProxy: Option<int>
    var interestingParameters: set<int>
    const cache: CachedDataAccess
    const kvalobs: KvalobsDataAccess

    ghost predicate Valid()
      reads this, cache, kvalobs
    {
      cache.Valid() && kvalobs.Valid()
    }

    ghost function Tables(): Contents
      reads cache, kvalobs
    {
      Contents(kvalobs.stored, cache.rows)
    }

    /** The cache can be trusted above the watermark. */
    ghost predicate Coherent()
      reads this, cache, kvalobs
    {
      && Valid()
      && oldestInProxy.Some?
      && AgreeAbove(View(kvalobs.stored), View(cache.rows), oldestInProxy.value, interestingParameters)
    }

    /**
     * A new proxy keeps what its database file holds, and trusts it from two hours
     * ahead of `now`. No parameter is interesting yet; `StartUp` says what that
     * trust amounts to once the parameters are known.
     */
    constructor (now: int, kvalobs: KvalobsDataAccess, file: seq<Row>)
      requires kvalobs.Valid() && UniqueKeys(file)
      ensures Valid() && fresh(cache) && this.kvalobs == kvalobs
      ensures cache.rows == file && interestingParameters == {} && oldestInProxy == Some(now + 2 * 3600)
    {
      oldestInProxy := Some(now + 2 * HOUR);
      interestingParameters := {};
      cache := new CachedDataAccess(file);
      this.kvalobs := kvalobs;
    }

    /**
     * The program's start: open the database, fill it anew if so configured, then
     * register the handlers' parameters. The proxy is coherent then exactly if
     * the old file agrees with kvalobs on the rows more than two hours ahead; or,
     * after a fill, if all that kvalobs has after its start was filled in.
     */
    static method StartUp(now: int, kvalobs: KvalobsDataAccess, file: seq<Row>, repopulate: bool, params: seq<int>)
      returns (proxy: KvalobsProxy)
      requires kvalobs.Valid() && UniqueKeys(file)
      ensures fresh(proxy) && proxy.Valid() && proxy.kvalobs == kvalobs
      ensures proxy.interestingParameters == set p | p in params
      ensures proxy.oldestInProxy == Some(if repopulate then now - 24 * 3600 else now + 2 * 3600)
      ensures !repopulate ==>
                (proxy.Coherent() <==>
                 AgreeAbove(View(kvalobs.stored), View(file), now + 2 * 3600, proxy.interestingParameters))
      ensures repopulate ==>
                (proxy.Coherent() <==>
                 FilledCovers(View(kvalobs.stored), kvalobs.answers, now - 24 * 3600, now,
                              proxy.interestingParameters))
    {
      proxy := new KvalobsProxy(now, kvalobs, file);
      if repopulate {
        proxy.DbRepopulate(now, FILLED_HOURS);
      }
      ghost var rows, watermark := proxy.cache.rows, proxy.oldestInProxy;
      var i := 0;
      while i < |params|
        invariant 0 <= i <= |params|
        invariant fresh(proxy) && proxy.Valid() && proxy.kvalobs == kvalobs
        invariant proxy.cache.rows == rows && proxy.oldestInProxy == watermark
        invariant proxy.interestingParameters == set p | p in params[..i]
      {
        assert params[..i + 1] == params[..i] + [params[i]];
        proxy.AddInteresting(params[i]);
        i := i + 1;
      }
      assert params[..i] == params;
      if repopulate {
        RepopulatedAgreesIff(View(kvalobs.stored), View(kvalobs.Visible()), now - FILLED_HOURS * HOUR, now,
                             proxy.interestingParameters);
      }
    }

    /** A further parameter keeps the proxy coherent exactly if its rows above the watermark agree. */
    method AddInteresting(param: int)
      modifies this`interestingParameters
      ensures interestingParameters == old(interestingParameters) + {param}
      ensures old(Coherent()) ==>
                (Coherent() <==> AgreeAbove(View(kvalobs.stored), View(cache.rows), oldestInProxy.value, {param}))
    {
      interestingParameters := interestingParameters + {param};
    }

    method GetData(q: Query) returns (data: seq<Row>)
      ensures data == SplitRead(kvalobs.Visible(), cache.rows, oldestInProxy, q)
    {
      data := [];
      if oldestInProxy.None? || q.from <= oldestInProxy.value {
        var to := if oldestInProxy.None? then q.to else Min(q.to, oldestInProxy.value);
        data := kvalobs.GetData(q.(to := to));
      }
      var older := data;
      if oldestInProxy.None? || q.to > oldestInProxy.value {
        var from := if oldestInProxy.None? then q.from else Max(q.from, oldestInProxy.value);
        var proxyData := cache.GetData(q.(from := from));
        data := Merge(older, proxyData);
      }
    }

    /** `find_if` over the answer so far, `push_back` when nothing is found. */
    static method Merge(older: seq<Row>, proxyData: seq<Row>) returns (data: seq<Row>)
      ensures data == MergeNew(older, proxyData)
    {
      data := older;
      var i := 0;
      while i < |proxyData|
        invariant 0 <= i <= |proxyData|
        invariant data == MergeNew(older, proxyData[..i])
      {
        var find := FindKey(data, proxyData[i].key);
        assert proxyData[..i + 1] == proxyData[..i] + [proxyData[i]];
        if find == |data| {
          data := data + [proxyData[i]];
        }
        i := i + 1;
      }
      assert proxyData[..i] == proxyData;
    }

    static method InterestingRows(data: seq<Row>, interesting: set<int>) returns (toSave: seq<Row>)
      ensures toSave == Keep(OfParameters(interesting), data)
    {
      toSave := [];
      var i := 0;
      while i < |data|
        invariant 0 <= i <= |data|
        invariant toSave == Keep(OfParameters(interesting), data[..i])
      {
        assert data[..i + 1] == data[..i] + [data[i]];
        if data[i].key.param in interesting {
          toSave := toSave + [data[i]];
        }
        i := i + 1;
      }
      assert data[..i] == data;
    }

    /**
     * Cache the interesting rows of a batch. The proxy stays coherent exactly if
     * the batch does not contradict kvalobs above the watermark.
     */
    method CacheData(data: seq<Row>)
      requires Valid()
      modifies cache
      ensures Valid()
      ensures cache.rows == UpsertAll(old(cache.rows), Keep(OfParameters(interestingParameters), data))
      ensures old(Coherent()) ==>
                (Coherent() <==>
                 MatchesAbove(View(data), View(kvalobs.stored), oldestInProxy.value, interestingParameters))
    {
      var toSave := InterestingRows(data, interestingParameters);
      ghost var before := View(cache.rows);
      UpsertAllRefines(cache.rows, toSave);
      KeepRefines(OfParameters(interestingParameters), data);
      if toSave != [] {
        cache.SendData(toSave);
      }
      if old(Coherent()) {
        CachingAgreesIff(View(kvalobs.stored), before, View(data), oldestInProxy.value, interestingParameters);
      }
    }

    /** What a batch has that is news to kvalobs. */
    ghost function News(data: seq<Row>): seq<Row>
      reads this, cache, kvalobs
    {
      ToSend(kvalobs.Visible(), cache.rows, oldestInProxy, interestingParameters, data)
    }

    /** Which of the batch's rows are news to kvalobs; nothing is changed yet. */
    method SelectUpdates(data: seq<Row>) returns (l: seq<Row>)
      requires Valid()
      ensures l == News(data) && AllInteresting(l, interestingParameters)
    {
      l := [];
      var i := 0;
      while i < |data|
        invariant 0 <= i <= |data|
        invariant l == News(data[..i])
      {
        NewsOfOneMore(data, i);
        if data[i].key.param in interestingParameters {
          var found := GetData(PointQuery(data[i].key));
          if found == [] || Different(found[0].value, data[i].value) {
            l := l + [data[i]];
          }
        }
        i := i + 1;
      }
      assert data[..i] == data;
      UpdatesAreInteresting(kvalobs.Visible(), cache.rows, oldestInProxy, interestingParameters, data);
    }

    lemma NewsOfOneMore(data: seq<Row>, i: nat)
      requires i < |data|
      ensures News(data[..i + 1])
              == News(data[..i])
                 + (if && data[i].key.param in interestingParameters
                       && UpdatesKvalobs(kvalobs.Visible(), cache.rows, oldestInProxy, data[i])
                    then [data[i]] else [])
    {
      assert data[..i + 1][..i] == data[..i];
    }

    /** Deliver rows to kvalobs; cache them when kvalobs accepts them. */
    method SendOn(l: seq<Row>) returns (ok: bool)
      requires Valid() && AllInteresting(l, interestingParameters)
      modifies cache, kvalobs`stored
      ensures Valid() && ok == kvalobs.accepts
      ensures Tables() ==
              if ok then Contents(UpsertAll(old(kvalobs.stored), l), UpsertAll(old(cache.rows), l)) else old(Tables())
      ensures old(Coherent()) ==> Coherent()
    {
      ghost var before := Tables();
      ok := kvalobs.SendData(l);
      if ok {
        KeepNothingOut(OfParameters(interestingParameters), l);
        CacheData(l);
        if old(Coherent()) {
          StoringTwiceAgrees(before, l, oldestInProxy.value, interestingParameters);
        }
      }
    }

    /** Nothing is delivered, and kvalobs not asked, when there is nothing to send. */
    method SendIfAny(l: seq<Row>) returns (res: SendResult)
      requires Valid() && AllInteresting(l, interestingParameters)
      modifies cache, kvalobs`stored
      ensures Valid()
      ensures SendOutcome(old(Tables()), Tables(), l, kvalobs.accepts, res)
      ensures old(Coherent()) ==> Coherent()
    {
      if l == [] {
        res := NothingToSend;
      } else {
        var ok := SendOn(l);
        res := if ok then Sent else Refused;
      }
    }

    /** Send what is news to kvalobs; cache it when kvalobs accepts it. */
    method SendData(data: seq<Row>) returns (res: SendResult)
      requires Valid()
      modifies cache, kvalobs`stored
      ensures Valid()
      ensures SendOutcome(old(Tables()), Tables(), old(News(data)), kvalobs.accepts, res)
      ensures old(Coherent()) ==> Coherent()
    {
      var l := SelectUpdates(data);
      res := SendIfAny(l);
    }

    /** Forget everything; coherent exactly if kvalobs has no interesting row more than an hour ahead. */
    method DbClear(now: int)
      requires Valid()
      modifies this`oldestInProxy, cache
      ensures Valid() && cache.rows == [] && oldestInProxy == Some(now + 3600)
      ensures Coherent()
              <==> forall k :: k in View(kvalobs.stored) && k.param in interestingParameters ==> k.obstime <= now + 3600
    {
      oldestInProxy := Some(now + HOUR);
      cache.Clear();
    }

    /** Clear, then fill the hours up to now. */
    method DbRepopulate(now: int, hours: nat)
      requires Valid() && hours > 0
      modifies this`oldestInProxy, cache
      ensures Valid() && oldestInProxy == Some(now - hours * 3600)
      ensures View(cache.rows) == KeepView(ByInterval(ALL_STATIONS, now - hours * 3600, now), View(kvalobs.Visible()))
    {
      DbClear(now);
      DbPopulate(now - hours * HOUR, now);
      UpsertAllRefines([], Keep(ByInterval(ALL_STATIONS, now - hours * HOUR, now), kvalobs.Visible()));
      KeepRefines(ByInterval(ALL_STATIONS, now - hours * HOUR, now), kvalobs.Visible());
    }

    /**
     * Fill from kvalobs, then lower the watermark, or set it if it was unset,
     * whether or not kvalobs answered. Coherent afterwards exactly if the times
     * that were not filled, up to the old watermark, agreed already.
     */
    method DbPopulate(from: int, to: int)
      requires Valid() && from <= to
      modifies this`oldestInProxy, cache
      ensures Valid()
      ensures oldestInProxy == Some(if old(oldestInProxy).None? then from else Min(old(oldestInProxy).value, from))
      ensures cache.rows == UpsertAll(old(cache.rows), Keep(ByInterval(ALL_STATIONS, from, to), kvalobs.Visible()))
      ensures old((Coherent() || oldestInProxy.None?) && View(cache.rows).Keys <= View(kvalobs.stored).Keys) ==>
                && View(cache.rows).Keys <= View(kvalobs.stored).Keys
                && (Coherent() <==>
                    AgreeBetween(View(kvalobs.stored), View(old(cache.rows)), if kvalobs.answers then to else from,
                                 old(oldestInProxy), interestingParameters))
    {
      ghost var before := View(cache.rows);
      var data := kvalobs.GetAllData(ALL_STATIONS, from, to);
      UpsertAllRefines(cache.rows, data);
      KeepRefines(ByInterval(ALL_STATIONS, from, to), kvalobs.stored);
      cache.SendData(data);
      if old((Coherent() || oldestInProxy.None?) && View(cache.rows).Keys <= View(kvalobs.stored).Keys) {
        if kvalobs.answers {
          FillingAgreesIff(View(kvalobs.stored), before, from, to, oldestInProxy, interestingParameters);
        } else {
          LoweringAgreesIff(View(kvalobs.stored), before, from, oldestInProxy, interestingParameters);
        }
      }
      oldestInProxy := if oldestInProxy.None? then Some(from) else Some(Min(oldestInProxy.value, from));
    }

    /** Raise the watermark to 35 days ago, then delete what is older. */
    method DbCleanup(now: int)
      requires Valid()
      modifies this`oldestInProxy, cache
      ensures Valid()
      ensures oldestInProxy == Some(if old(oldestInProxy).None? then now - 35 * 86400
                                    else Max(old(oldestInProxy).value, now - 35 * 86400))
      ensures cache.rows == Keep(NotOlderThan(now - 35 * 86400), old(cache.rows))
      ensures old(Coherent()) ==> Coherent()
    {
      var t := now - RETENTION;
      oldestInProxy := if oldestInProxy.None? then Some(t) else Some(Max(oldestInProxy.value, t));
      KeepRefines(NotOlderThan(t), cache.rows);
      cache.DeleteOldData(t);
    }
  }

  /** All that kvalobs has of the parameters after `from` lies in an interval for which it answered. */
  ghost predicate FilledCovers(source: Store, answered: bool, from: int, to: int, interesting: set<int>) {
    forall k :: k in source && k.param in interesting && k.obstime > from ==> answered && k.obstime <= to
  }

  /** A cache that holds what kvalobs showed of an interval, and nothing else. */
  lemma RepopulatedAgreesIff(source: Store, shown: Store, from: int, to: int, interesting: set<int>)
    requires from < to && (shown == source || shown == map[])
    ensures AgreeAbove(source, KeepView(ByInterval(ALL_STATIONS, from, to), shown), from, interesting)
            <==> FilledCovers(source, shown == source, from, to, interesting)
  {
    var filled := KeepView(ByInterval(ALL_STATIONS, from, to), shown);
    forall k: Key | k.obstime > from
      ensures Get(filled, k) == if k.obstime <= to then Get(shown, k) else None
    {
    }
    if AgreeAbove(source, filled, from, interesting) {
      forall k | k in source && k.param in interesting && k.obstime > from
        ensures shown == source && k.obstime <= to
      {
        assert Get(source, k) == Get(filled, k);
      }
    }
  }

  lemma StoringTwiceAgrees(t: Contents, rows: seq<Row>, watermark: int, interesting: set<int>)
    requires UniqueKeys(t.stored) && UniqueKeys(t.cached)
    requires AgreeAbove(View(t.stored), View(t.cached), watermark, interesting)
    ensures AgreeAbove(View(UpsertAll(t.stored, rows)), View(UpsertAll(t.cached, rows)), watermark, interesting)
  {
    UpsertAllRefines(t.stored, rows);
    UpsertAllRefines(t.cached, rows);
  }

  lemma CachingAgreesIff(source: Store, cache: Store, batch: Store, watermark: int, interesting: set<int>)
    requires AgreeAbove(source, cache, watermark, interesting)
    ensures AgreeAbove(source, cache + KeepView(OfParameters(interesting), batch), watermark, interesting)
            <==> MatchesAbove(batch, source, watermark, interesting)
  {
    var saved := KeepView(OfParameters(interesting), batch);
    forall k: Key | k.param in interesting && k.obstime > watermark
      ensures Get(cache + saved, k) == if k in batch then Some(batch[k]) else Get(source, k)
    {
      assert Get(source, k) == Get(cache, k);
    }
    if AgreeAbove(source, cache + saved, watermark, interesting) {
      forall k | k in batch && k.param in interesting && k.obstime > watermark
        ensures Get(source, k) == Some(batch[k])
      {
        assert Get(source, k) == Get(cache + saved, k);
      }
    }
  }

  lemma FillingAgreesIff(source: Store, cache: Store, from: int, to: int, watermark: Option<int>, interesting: set<int>)
    requires watermark.Some? ==> AgreeAbove(source, cache, watermark.value, interesting)
    requires from <= to && cache.Keys <= source.Keys
    ensures var filled := cache + KeepView(ByInterval(ALL_STATIONS, from, to), source);
            var lowered := if watermark.None? then from else Min(watermark.value, from);
            && filled.Keys <= source.Keys
            && (AgreeAbove(source, filled, lowered, interesting)
                <==> AgreeBetween(source, cache, to, watermark, interesting))
  {
    var filled := cache + KeepView(ByInterval(ALL_STATIONS, from, to), source);
    var lowered := if watermark.None? then from else Min(watermark.value, from);
    forall k: Key | k.param in interesting && k.obstime > lowered
      ensures Get(filled, k) == if from < k.obstime <= to then Get(source, k) else Get(cache, k)
    {
    }
    if AgreeAbove(source, filled, lowered, interesting) {
      forall k: Key | k.param in interesting && to < k.obstime && (watermark.None? || k.obstime <= watermark.value)
        ensures Get(source, k) == Get(cache, k)
      {
        assert Get(source, k) == Get(filled, k);
      }
    }
  }

  /** Lowering the watermark without having filled anything. */
  lemma LoweringAgreesIff(source: Store, cache: Store, from: int, watermark: Option<int>, interesting: set<int>)
    requires watermark.Some? ==> AgreeAbove(source, cache, watermark.value, interesting)
    ensures var lowered := if watermark.None? then from else Min(watermark.value, from);
            AgreeAbove(source, cache, lowered, interesting)
            <==> AgreeBetween(source, cache, from, watermark, interesting)
  {
  }
}
