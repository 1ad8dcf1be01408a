/** Choosing among the metadata entries that kvalobs has for a station. */
module StationMetadata {
  import opened Wrappers
  import opened Observations

  /** `None` in a selector column, or as a time, means that the entry does not restrict it. */
  datatype Metadata = Metadata(
    station: int,
    fromtime: Option<int>,
    totime: Option<int>,
    param: Option<int>,
    typeId: Option<int>,
    level: Option<int>,
    sensor: Option<int>,
    value: real)

  predicate Admits(column: Option<int>, actual: int) {
    column.Some? ==> column.value == actual
  }

  predicate Compatible(m: Metadata, d: Key) {
    && m.station == d.station
    && (m.fromtime.Some? ==> m.fromtime.value <= d.obstime)
    && (m.totime.Some? ==> d.obstime <= m.totime.value)
    && Admits(m.param, d.param) && Admits(m.typeId, d.typeId)
    && Admits(m.level, d.level) && Admits(m.sensor, d.sensor)
  }

  function One(column: Option<int>): nat {
    if column.Some? then 1 else 0
  }

  function SpecificCount(m: Metadata): nat {
    One(m.param) + One(m.typeId) + One(m.level) + One(m.sensor)
  }

  /** An entry that restricts nothing is for all of the station's rows. */
  lemma UnrestrictedEntry(m: Metadata, d: Key)
    requires m.fromtime.None? && m.totime.None?
    requires m.param.None? && m.typeId.None? && m.level.None? && m.sensor.None?
    ensures SpecificCount(m) == 0
    ensures Compatible(m, d) <==> m.station == d.station
  {
  }

  /** A restricted time excludes the rows before, or after it, and makes no entry more specific. */
  lemma RestrictingTime(m: Metadata, d: Key, t: int)
    ensures Compatible(m.(fromtime := Some(t)), d) <==> Compatible(m.(fromtime := None), d) && t <= d.obstime
    ensures Compatible(m.(totime := Some(t)), d) <==> Compatible(m.(totime := None), d) && d.obstime <= t
    ensures SpecificCount(m.(fromtime := Some(t))) == SpecificCount(m)
    ensures SpecificCount(m.(totime := Some(t))) == SpecificCount(m)
  {
  }

  /** A restricted column excludes all other values of it, and makes the entry more specific by one. */
  lemma RestrictingColumn(m: Metadata, d: Key, x: int)
    ensures Compatible(m.(param := Some(x)), d) <==> Compatible(m.(param := None), d) && x == d.param
    ensures Compatible(m.(typeId := Some(x)), d) <==> Compatible(m.(typeId := None), d) && x == d.typeId
    ensures Compatible(m.(level := Some(x)), d) <==> Compatible(m.(level := None), d) && x == d.level
    ensures Compatible(m.(sensor := Some(x)), d) <==> Compatible(m.(sensor := None), d) && x == d.sensor
    ensures SpecificCount(m.(param := Some(x))) == SpecificCount(m.(param := None)) + 1
    ensures SpecificCount(m.(typeId := Some(x))) == SpecificCount(m.(typeId := None)) + 1
    ensures SpecificCount(m.(level := Some(x))) == SpecificCount(m.(level := None)) + 1
    ensures SpecificCount(m.(sensor := Some(x))) == SpecificCount(m.(sensor := None)) + 1
  {
  }

  /**
   * The value of the most specific compatible entry, the first one among equals;
   * an error if kvalobs does not answer or no entry is compatible.
   */
  method GetStationMetadata(answer: Option<seq<Metadata>>, validFor: Key) returns (result: Result<real, string>)
    ensures result.Err? <==> answer.None? || forall m :: m in answer.value ==> !Compatible(m, validFor)
    ensures result.Ok? ==>
              var metadata := answer.value;
              exists b ::
              && 0 <= b < |metadata| && Compatible(metadata[b], validFor) && result.value == metadata[b].value
              && (forall j :: 0 <= j < b && Compatible(metadata[j], validFor) ==>
                    SpecificCount(metadata[j]) < SpecificCount(metadata[b]))
              && (forall j :: b < j < |metadata| && Compatible(metadata[j], validFor) ==>
                    SpecificCount(metadata[j]) <= SpecificCount(metadata[b]))
  {
    if answer.None? {
      return Err("Unable to contact kvalobs");
    }
    var metadata := answer.value;
    var best: Option<Metadata> := None;
    ghost var b := -1;
    var i := 0;
    while i < |metadata|
      invariant 0 <= i <= |metadata| && -1 <= b < i
      invariant best == if b >= 0 then Some(metadata[b]) else None
      invariant b >= 0 ==> Compatible(metadata[b], validFor)
      invariant b < 0 ==> forall j :: 0 <= j < i ==> !Compatible(metadata[j], validFor)
      invariant b >= 0 ==> forall j :: 0 <= j < b && Compatible(metadata[j], validFor) ==>
                  SpecificCount(metadata[j]) < SpecificCount(metadata[b])
      invariant b >= 0 ==> forall j :: b < j < i && Compatible(metadata[j], validFor) ==>
                  SpecificCount(metadata[j]) <= SpecificCount(metadata[b])
    {
      if Compatible(metadata[i], validFor) {
        if best.None? || SpecificCount(best.value) < SpecificCount(metadata[i]) {
          best := Some(metadata[i]);
          b := i;
        }
      }
      i := i + 1;
    }
    if best.None? {
      return Err("Unable to find metadata");
    }
    assert metadata[b] in metadata;
    return Ok(best.value.value);
  }
}
