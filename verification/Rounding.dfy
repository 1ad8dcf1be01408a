/** One-decimal rounding, and the rows that aggregation emits. */
module Rounding {
  import opened Observations
  import opened Flags

  /** Conversion to an integer type: towards zero. */
  function Truncate(x: real): int {
    if x < 0.0 then -((-x).Floor) else x.Floor
  }

  function Round(f: real): real {
    Truncate((if f < 0.0 then f - 0.05 else f + 0.05) * 10.0) as real / 10.0
  }

  method RoundStepwise(value: real) returns (f: real)
    ensures f == Round(value)
  {
    f := value;
    if f < 0.0 {
      f := f - 0.05;
    } else {
      f := f + 0.05;
    }
    f := f * 10.0;
    f := Truncate(f) as real;
    f := f / 10.0;
  }

  function Tenth(k: int): real {
    k as real / 10.0
  }

  predicate Tenths(x: real) {
    x == Tenth((x * 10.0).Floor)
  }

  lemma FloorIs(y: real, k: int)
    requires k as real <= y < k as real + 1.0
    ensures y.Floor == k
  {
  }

  lemma RoundIsTenths(x: real)
    ensures Tenths(Round(x))
  {
  }

  lemma RoundIsClose(x: real)
    ensures -0.05 <= Round(x) - x <= 0.05
  {
  }

  lemma NonNegativeMonotone(x: real, y: real)
    requires 0.0 <= x <= y
    ensures 0.0 <= Round(x) <= Round(y)
  {
    var a, b := (x + 0.05) * 10.0, (y + 0.05) * 10.0;
    assert a <= b;
    assert 0 <= a.Floor <= b.Floor;
  }

  lemma RoundIsMonotone(x: real, y: real)
    requires x <= y
    ensures Round(x) <= Round(y)
  {
    if 0.0 <= x {
      NonNegativeMonotone(x, y);
    } else if y <= 0.0 {
      NonNegativeMonotone(-y, -x);
    } else {
      NonNegativeMonotone(0.0, y);
      NonNegativeMonotone(0.0, -x);
    }
  }

  lemma NonNegativeNearest(x: real, k: nat)
    requires 0.0 <= x && -0.05 < x - Tenth(k) < 0.05
    ensures Round(x) == Tenth(k)
  {
    var y := (x + 0.05) * 10.0;
    assert y == x * 10.0 + 0.5;
    assert Tenth(k) * 10.0 == k as real;
    FloorIs(y, k);
  }

  /** Rounding goes to the nearest tenth. */
  lemma RoundIsNearest(x: real, k: int)
    requires -0.05 < x - Tenth(k) < 0.05
    ensures Round(x) == Tenth(k)
  {
    if 0.0 <= x {
      NonNegativeNearest(x, k);
    } else {
      assert Tenth(-k) == -Tenth(k);
      NonNegativeNearest(-x, -k);
    }
  }

  /** Half a tenth goes away from zero. */
  lemma TiesGoAwayFromZero(k: nat)
    ensures Round(Tenth(k) + 0.05) == Tenth(k + 1)
    ensures Round(-Tenth(k) - 0.05) == -Tenth(k + 1)
  {
    var y := (Tenth(k) + 0.05 + 0.05) * 10.0;
    assert y == k as real + 1.0;
    FloorIs(y, k + 1);
  }

  lemma RoundIsIdempotent(x: real)
    ensures Round(Round(x)) == Round(x)
  {
    RoundIsTenths(x);
    RoundIsNearest(Round(x), (Round(x) * 10.0).Floor);
  }

  lemma CloseTenthsAreEqual(x: real, y: real)
    requires Tenths(x) && Tenths(y) && -0.05 <= x - y <= 0.05
    ensures x == y
  {
    var k, m := (x * 10.0).Floor, (y * 10.0).Floor;
    assert (k - m) as real / 10.0 == x - y;
    assert -1 < k - m < 1;
  }

  // ---- Emitted rows ----

  const INVALID: real := -32768.0
  const MISSING: real := -32767.0

  function Negative(typeId: int): int {
    if typeId > 0 then -typeId else typeId
  }

  function NewValue(original: real): Value {
    Value(original, original, false, true, ControlInfo(0, 0, ""), UseInfo(0, 0, ""))
  }

  function MissingValue(): Value {
    Value(MISSING, MISSING, true, false, ControlInfo(0, 0, ""), UseInfo(0, 0, ""))
  }

  function Reject(v: Value): Value {
    v.(valid := false)
  }

  function Correct(v: Value, corrected: real): Value {
    v.(corrected := corrected, valid := true)
  }

  function Distance(x: real, y: real): real {
    if x < y then y - x else x - y
  }

  function GetDataObject(trigger: Key, param: int, obstime: int, original: real, corrected: real, source: seq<Row>)
    : Row
  {
    var key := Key(trigger.station, obstime, param, trigger.level, trigger.sensor, Negative(trigger.typeId));
    var original' := if original == INVALID then original else Round(original);
    var fresh' := if original == INVALID then MissingValue() else NewValue(original');
    var value :=
      if corrected == INVALID then Reject(fresh')
      else
        var corrected' := Round(corrected);
        if Distance(original', corrected') > 0.05 then Correct(fresh', corrected') else fresh';
    Row(key, value.(control := value.control.(fagg := FlagOf(source))))
  }

  /** The row as it is built: made from the original, then rejected or corrected, then flagged. */
  method BuildDataObject(trigger: Key, param: int, obstime: int, originalIn: real, correctedIn: real, source: seq<Row>)
    returns (ret: Row)
    ensures ret == GetDataObject(trigger, param, obstime, originalIn, correctedIn, source)
  {
    var original, corrected := originalIn, correctedIn;
    var typeId := trigger.typeId;
    if typeId > 0 {
      typeId := -typeId;
    }
    ret := Row(Key(trigger.station, obstime, param, trigger.level, trigger.sensor, typeId), MissingValue());
    if original != INVALID {
      original := RoundStepwise(original);
      ret := ret.(value := NewValue(original));
    }
    if corrected == INVALID {
      ret := ret.(value := Reject(ret.value));
    } else {
      corrected := RoundStepwise(corrected);
      if Distance(original, corrected) > 0.05 {
        ret := ret.(value := Correct(ret.value, corrected));
      }
    }
    var fagg := CalculateAggregateFlag(source);
    ret := ret.(value := ret.value.(control := ret.value.control.(fagg := fagg)));
  }

  /**
   * The comparison with 0.05 loses nothing: the emitted corrected value is the
   * rounded one, whether or not it was set. The one exception is a missing
   * original together with a corrected value that rounds to the error value. The
   * row has the trigger's station, level and sensor, and its type number with a
   * minus sign unless it is negative already.
   */
  lemma EmittedRow(trigger: Key, param: int, obstime: int, original: real, corrected: real, source: seq<Row>)
    ensures var r := GetDataObject(trigger, param, obstime, original, corrected, source);
            && r.key.station == trigger.station && r.key.level == trigger.level && r.key.sensor == trigger.sensor
            && r.key.param == param && r.key.obstime == obstime
            && (trigger.typeId > 0 ==> r.key.typeId == -trigger.typeId)
            && (trigger.typeId <= 0 ==> r.key.typeId == trigger.typeId)
            && r.value.originalMissing == (original == -32768.0)
            && r.value.original == (if original == -32768.0 then -32767.0 else Round(original))
            && (r.value.valid <==> corrected != -32768.0 && !(original == -32768.0 && Round(corrected) == -32768.0))
            && (r.value.valid ==> r.value.corrected == Round(corrected))
            && (!r.value.valid ==> r.value.corrected == r.value.original)
            && r.value.control.fagg == FlagOf(source)
            && r.value.control.fmis == 0
  {
    RoundIsTenths(corrected);
    RoundIsTenths(original);
    assert INVALID == Tenth(-327680);
    if original != INVALID && Distance(Round(original), Round(corrected)) <= 0.05 {
      CloseTenthsAreEqual(Round(original), Round(corrected));
    }
    if original == INVALID && Distance(INVALID, Round(corrected)) <= 0.05 {
      CloseTenthsAreEqual(INVALID, Round(corrected));
    }
  }
}
