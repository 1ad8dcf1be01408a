/** The common course of an aggregation with one source parameter. */
module StandardAggregators {
  import opened Wrappers
  import opened Observations
  import opened Windows
  import opened Rounding

  datatype CalculationDataType = Original | Corrected

  /**
   * A concrete aggregator's overridable parts. `None` stands for an exception
   * thrown by `extractUsefulData` or `calculate`.
   */
  datatype StandardAggregator = StandardAggregator(
    readParam: int,
    writeParam: int,
    span: int -> TimeSpan,
    accepts: (Key, seq<Row>) -> bool,
    extract: (Key, seq<Row>) -> Option<seq<Row>>,
    calculate: (Key, CalculationDataType, seq<real>) -> Option<real>)

  function Originals(rows: seq<Row>): seq<real> {
    seq(|rows|, i requires 0 <= i < |rows| => rows[i].value.original)
  }

  function Correcteds(rows: seq<Row>): seq<real> {
    seq(|rows|, i requires 0 <= i < |rows| => rows[i].value.corrected)
  }

  predicate AnyMissing(rows: seq<Row>) {
    exists r :: r in rows && r.value.originalMissing
  }

  predicate AnyInvalid(rows: seq<Row>) {
    exists r :: r in rows && !r.value.valid
  }

  /** One missing source value makes the aggregate missing. */
  function OriginalOf(a: StandardAggregator, trigger: Key, rows: seq<Row>): Option<real> {
    if AnyMissing(rows) then Some(INVALID) else a.calculate(trigger, Original, Originals(rows))
  }

  function CorrectedOf(a: StandardAggregator, trigger: Key, rows: seq<Row>): Option<real> {
    if AnyInvalid(rows) then Some(INVALID) else a.calculate(trigger, Corrected, Correcteds(rows))
  }

  method GenerateOriginal(a: StandardAggregator, trigger: Key, rows: seq<Row>) returns (original: Option<real>)
    ensures original == OriginalOf(a, trigger, rows)
  {
    var values := [];
    var i := 0;
    while i < |rows|
      invariant 0 <= i <= |rows|
      invariant values == Originals(rows)[..i]
      invariant !AnyMissing(rows[..i])
    {
      if rows[i].value.originalMissing {
        return Some(INVALID);
      }
      values := values + [rows[i].value.original];
      i := i + 1;
    }
    assert rows[..i] == rows && values == Originals(rows);
    original := a.calculate(trigger, Original, values);
  }

  method GenerateCorrected(a: StandardAggregator, trigger: Key, rows: seq<Row>) returns (corrected: Option<real>)
    ensures corrected == CorrectedOf(a, trigger, rows)
  {
    var values := [];
    var i := 0;
    while i < |rows|
      invariant 0 <= i <= |rows|
      invariant values == Correcteds(rows)[..i]
      invariant !AnyInvalid(rows[..i])
    {
      if !rows[i].value.valid {
        return Some(INVALID);
      }
      values := values + [rows[i].value.corrected];
      i := i + 1;
    }
    assert rows[..i] == rows && values == Correcteds(rows);
    corrected := a.calculate(trigger, Corrected, values);
  }

  /** The row made of the selected rows; `None` when `calculate` threw. */
  function Emitted(a: StandardAggregator, trigger: Key, relevant: seq<Row>): Option<Row> {
    var original := OriginalOf(a, trigger, relevant);
    var corrected := CorrectedOf(a, trigger, relevant);
    if original.None? || corrected.None? then None
    else
      Some(GetDataObject(trigger, a.writeParam, DatedAt(a.span(trigger.obstime)), original.value, corrected.value,
                         relevant))
  }

  /** `None` when there is nothing to aggregate or something was thrown on the way. */
  function Process(a: StandardAggregator, trigger: Key, observations: seq<Row>): Option<Row> {
    if !a.accepts(trigger, observations) then None
    else
      match a.extract(trigger, observations)
      case None => None
      case Some(relevant) => Emitted(a, trigger, relevant)
  }

  /**
   * Whatever the aggregator, its row belongs to the trigger's station, level and
   * sensor, is dated at the full hour its window ends in, and is marked as
   * generated by a negative type number.
   */
  lemma ProcessedRow(a: StandardAggregator, trigger: Key, observations: seq<Row>)
    requires Process(a, trigger, observations).Some?
    ensures var k := Process(a, trigger, observations).value.key;
            var end := a.span(trigger.obstime).second;
            && k.station == trigger.station && k.level == trigger.level && k.sensor == trigger.sensor
            && k.param == a.writeParam
            && k.obstime <= end < k.obstime + 3600 && (k.obstime - Midnight(end)) % 3600 == 0
            && k.typeId == (if trigger.typeId > 0 then -trigger.typeId else trigger.typeId)
  {
    var relevant := a.extract(trigger, observations).value;
    EmittedRow(trigger, a.writeParam, DatedAt(a.span(trigger.obstime)), OriginalOf(a, trigger, relevant).value,
               CorrectedOf(a, trigger, relevant).value, relevant);
  }

  /**
   * When there is a row and what it says: the aggregator accepts, neither the
   * selection nor a calculation it needs throws; a value is calculated from all
   * selected rows, and is missing or rejected if one of them is.
   */
  lemma ProcessedValues(a: StandardAggregator, trigger: Key, observations: seq<Row>)
    ensures Process(a, trigger, observations).Some?
            <==> && a.accepts(trigger, observations) && a.extract(trigger, observations).Some?
                 && var used := a.extract(trigger, observations).value;
                    && ((exists r :: r in used && r.value.originalMissing)
                        || a.calculate(trigger, Original, Originals(used)).Some?)
                    && ((exists r :: r in used && !r.value.valid)
                        || a.calculate(trigger, Corrected, Correcteds(used)).Some?)
    ensures Process(a, trigger, observations).Some? ==>
              var v := Process(a, trigger, observations).value.value;
              var used := a.extract(trigger, observations).value;
              var original, corrected := a.calculate(trigger, Original, Originals(used)),
                                         a.calculate(trigger, Corrected, Correcteds(used));
              && ((exists r :: r in used && r.value.originalMissing) ==> v.originalMissing)
              && ((forall r :: r in used ==> !r.value.originalMissing) && original.value != -32768.0 ==>
                    !v.originalMissing && v.original == Round(original.value))
              && ((exists r :: r in used && !r.value.valid) ==> !v.valid)
              && ((forall r :: r in used ==> r.value.valid) && corrected.value != -32768.0
                  && Round(corrected.value) != -32768.0 ==>
                    v.valid && v.corrected == Round(corrected.value))
  {
    if Process(a, trigger, observations).Some? {
      var used := a.extract(trigger, observations).value;
      EmittedRow(trigger, a.writeParam, DatedAt(a.span(trigger.obstime)), OriginalOf(a, trigger, used).value,
                 CorrectedOf(a, trigger, used).value, used);
    }
  }
}
