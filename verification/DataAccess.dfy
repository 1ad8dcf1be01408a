/** The two data access objects behind the proxy: the cache database and kvalobs itself. */
module DataAccess {
  import opened Observations
  import opened Tables

  /** The local SQL table, keyed by the six columns of its UNIQUE constraint. */
  class CachedDataAccess {
    var rows: seq<Row>

    ghost predicate Valid()
      reads this
    {
      UniqueKeys(rows)
    }

    /** Opens a database file, which may hold rows of an earlier run. */
    constructor (file: seq<Row>)
      requires UniqueKeys(file)
      ensures Valid() && rows == file
    {
      rows := file;
    }

    method GetData(q: Query) returns (data: seq<Row>)
      ensures data == Keep(ByQuery(CacheSide, q), rows)
    {
      data := [];
      var i := 0;
      while i < |rows|
        invariant 0 <= i <= |rows|
        invariant data == Keep(ByQuery(CacheSide, q), rows[..i])
      {
        assert rows[..i + 1] == rows[..i] + [rows[i]];
        if Selects(CacheSide, q, rows[i].key) {
          data := data + [rows[i]];
        }
        i := i + 1;
      }
      assert rows[..i] == rows;
    }

    /** An SQL insert: refused when the UNIQUE constraint would be broken. */
    method Insert(r: Row) returns (inserted: bool)
      requires Valid()
      modifies this
      ensures Valid()
      ensures inserted <==> r.key !in View(old(rows))
      ensures rows == if inserted then old(rows) + [r] else old(rows)
    {
      var i := FindKey(rows, r.key);
      inserted := i == |rows|;
      if inserted {
        AppendNewKey(rows, r);
        rows := rows + [r];
      }
    }

    method Delete(k: Key)
      requires Valid()
      modifies this
      ensures Valid()
      ensures rows == Keep(OtherThan(k), old(rows))
    {
      KeepUnique(OtherThan(k), rows);
      rows := Keep(OtherThan(k), rows);
    }

    /** Insert each row; where that fails, delete the stored row and insert again. */
    method SendData(data: seq<Row>)
      requires Valid()
      modifies this
      ensures Valid()
      ensures rows == UpsertAll(old(rows), data)
    {
      var i := 0;
      while i < |data|
        invariant 0 <= i <= |data|
        invariant Valid()
        invariant rows == UpsertAll(old(rows), data[..i])
      {
        ghost var before := rows;
        var inserted := Insert(data[i]);
        if !inserted {
          Delete(data[i].key);
          KeepRefines(OtherThan(data[i].key), before);
          inserted := Insert(data[i]);
          assert inserted;
        }
        assert data[..i + 1][..i] == data[..i];
        i := i + 1;
      }
      assert data[..i] == data;
    }

    method Clear()
      modifies this
      ensures Valid() && rows == []
    {
      rows := [];
    }

    method DeleteOldData(olderThanThis: int)
      requires Valid()
      modifies this
      ensures Valid()
      ensures rows == Keep(NotOlderThan(olderThanThis), old(rows))
    {
      KeepUnique(NotOlderThan(olderThanThis), rows);
      rows := Keep(NotOlderThan(olderThanThis), rows);
    }
  }

  method RemoveOtherSeries(q: Query, rows: seq<Row>) returns (kept: seq<Row>)
    ensures kept == Keep(BySeries(q), rows)
  {
    kept := [];
    var i := 0;
    while i < |rows|
      invariant 0 <= i <= |rows|
      invariant kept == Keep(BySeries(q), rows[..i])
    {
      assert rows[..i + 1] == rows[..i] + [rows[i]];
      if InSeries(q, rows[i].key) {
        kept := kept + [rows[i]];
      }
      i := i + 1;
    }
    assert rows[..i] == rows;
  }

  /** The remote store. `answers` and `accepts` say how it reacts to requests and to deliveries. */
  class KvalobsDataAccess {
    var stored: seq<Row>
    var answers: bool
    var accepts: bool

    /** A refused request is logged and leaves the caller with nothing. */
    function Visible(): seq<Row>
      reads this
    {
      if answers then stored else []
    }

    ghost predicate Valid()
      reads this
    {
      UniqueKeys(stored)
    }

    constructor (initial: seq<Row>, answers: bool, accepts: bool)
      requires UniqueKeys(initial)
      ensures Valid() && stored == initial && this.answers == answers && this.accepts == accepts
    {
      stored := initial;
      this.answers, this.accepts := answers, accepts;
    }

    method GetAllData(station: int, from: int, to: int) returns (data: seq<Row>)
      ensures data == Keep(ByInterval(station, from, to), Visible())
    {
      data := Keep(ByInterval(station, from, to), Visible());
    }

    /** Fetch the interval, then remove the rows of other series. */
    method GetData(q: Query) returns (data: seq<Row>)
      ensures data == Keep(ByQuery(SourceSide, q), Visible())
    {
      var tmpData := GetAllData(q.station, q.from, q.to);
      data := RemoveOtherSeries(q, tmpData);
      IntervalThenSeries(q, Visible());
    }

    method SendData(data: seq<Row>) returns (ok: bool)
      requires Valid()
      modifies this`stored
      ensures Valid()
      ensures ok == accepts
      ensures stored == if ok then UpsertAll(old(stored), data) else old(stored)
    {
      ok := accepts;
      if ok {
        UpsertAllRefines(stored, data);
        stored := UpsertAll(stored, data);
      }
    }
  }
}
