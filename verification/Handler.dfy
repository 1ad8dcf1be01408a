/**
 * The aggregation handler: a row triggers the aggregators registered for its
 * parameter, and every row they produce triggers in turn.
 */
module Handler {
  import opened Wrappers
  import opened Observations
  import opened Windows
  import opened Rounding
  import opened Tables
  import Chains
  import SA = StandardAggregators

  type ObservationLists = map<int, seq<Row>>

  datatype Constants = Constants(um: real, tm: real, hp: real)

  /** `interested` stands for the wall-clock test of `isInterestedIn`. */
  datatype Aggregator =
    | Standard(standard: SA.StandardAggregator, interested: Key -> bool)
    | PoAggregator(metadata: Key -> Option<Constants>, computePo: (real, real, Constants) -> real)

  /** Everything `process` reads: the handler table, the filters, and the data access. */
  datatype Setup = Setup(
    handlers: map<int, seq<Aggregator>>,
    allowedParameters: seq<int>,
    allowedStations: seq<int>,
    allowedTypes: seq<int>,
    read: Query -> seq<Row>)

  function ReadParams(a: Aggregator): seq<int> {
    if a.Standard? then [a.standard.readParam] else [PR, TA, PO]
  }

  function WriteParam(a: Aggregator): int {
    if a.Standard? then a.standard.writeParam else PO
  }

  function Span(a: Aggregator, obstime: int): TimeSpan {
    if a.Standard? then a.standard.span(obstime) else TimeSpan(obstime - 1, obstime)
  }

  /** The aggregators that a multimap has for a parameter. */
  function Lookup(handlers: map<int, seq<Aggregator>>, p: int): seq<Aggregator> {
    if p in handlers then handlers[p] else []
  }

  function HandlersFor(setup: Setup, param: int): seq<Aggregator> {
    Lookup(setup.handlers, param)
  }

  // ---- Sea level pressure to station pressure ----

  function FirstAt(rows: seq<Row>, t: int): Option<Row> {
    if rows == [] then None
    else if rows[0].key.obstime == t then Some(rows[0])
    else FirstAt(rows[1..], t)
  }

  function ListOf(observations: ObservationLists, param: int): seq<Row> {
    if param in observations then observations[param] else []
  }

  function ComputedPo(a: Aggregator, trigger: Key, pr: Row, ta: Row, c: Constants): Row
    requires a.PoAggregator?
  {
    var original :=
      if !pr.value.originalMissing && !ta.value.originalMissing then
        a.computePo(pr.value.original, ta.value.original, c)
      else INVALID;
    var corrected :=
      if pr.value.valid && ta.value.valid then
        if pr.value.original != pr.value.corrected || ta.value.original != ta.value.corrected then
          a.computePo(pr.value.corrected, ta.value.corrected, c)
        else original
      else INVALID;
    GetDataObject(trigger, PO, trigger.obstime, original, corrected, [pr, ta])
  }

  function PoFromObservations(a: Aggregator, trigger: Key, observations: ObservationLists): Option<Row>
    requires a.PoAggregator?
  {
    var pr := FirstAt(ListOf(observations, PR), trigger.obstime);
    var ta := FirstAt(ListOf(observations, TA), trigger.obstime);
    if pr.None? || ta.None? || a.metadata(trigger).None? then None
    else Some(ComputedPo(a, trigger, pr.value, ta.value, a.metadata(trigger).value))
  }

  const WRITE_THRESHOLD := 0.305

  /** Station pressure, unless it was never sent before and repeats what the station reported itself. */
  function ProcessPo(a: Aggregator, trigger: Key, observations: ObservationLists, alreadyAggregated: seq<Row>)
    : Option<Row>
    requires a.PoAggregator?
  {
    var ret := PoFromObservations(a, trigger, observations);
    if ret.None? then None
    else
      var reported := FirstAt(ListOf(observations, PO), trigger.obstime);
      if && FirstAt(alreadyAggregated, trigger.obstime).None? && reported.Some?
         && Distance(reported.value.value.corrected, ret.value.value.corrected) < WRITE_THRESHOLD
         && Distance(reported.value.value.original, ret.value.value.original) < WRITE_THRESHOLD
      then None
      else ret
  }

  ghost predicate IsFirstAt(rows: seq<Row>, t: int, r: Row) {
    exists i :: 0 <= i < |rows| && rows[i] == r && r.key.obstime == t && !HasTime(rows[..i], t)
  }

  lemma {:induction false} FirstAtIff(rows: seq<Row>, t: int)
    ensures FirstAt(rows, t).None? <==> !HasTime(rows, t)
    ensures FirstAt(rows, t).Some? ==> IsFirstAt(rows, t, FirstAt(rows, t).value)
  {
    if rows != [] {
      var rest := rows[1..];
      FirstAtIff(rest, t);
      assert rows == [rows[0]] + rest;
      if rows[0].key.obstime == t {
        assert rows[..0] == [];
      } else if FirstAt(rest, t).Some? {
        var i :| 0 <= i < |rest| && rest[i] == FirstAt(rest, t).value && !HasTime(rest[..i], t);
        assert rows[..i + 1] == [rows[0]] + rest[..i];
        assert rows[i + 1] == rest[i];
      }
    }
  }

  /** Station pressure is computed exactly when both sources are there and the constants can be found. */
  lemma PressureMadeIff(a: Aggregator, trigger: Key, observations: ObservationLists)
    requires a.PoAggregator?
    ensures PoFromObservations(a, trigger, observations).Some?
            <==> && HasTime(ListOf(observations, 178), trigger.obstime)
                 && HasTime(ListOf(observations, 211), trigger.obstime)
                 && a.metadata(trigger).Some?
    ensures PoFromObservations(a, trigger, observations).Some? ==>
              exists pr, ta ::
                && IsFirstAt(ListOf(observations, 178), trigger.obstime, pr)
                && IsFirstAt(ListOf(observations, 211), trigger.obstime, ta)
                && PoFromObservations(a, trigger, observations)
                   == Some(ComputedPo(a, trigger, pr, ta, a.metadata(trigger).value))
  {
    FirstAtIff(ListOf(observations, PR), trigger.obstime);
    FirstAtIff(ListOf(observations, TA), trigger.obstime);
  }

  /**
   * What the row says: pressure before temperature, original values for the
   * original and corrected ones for the corrected value, missing or rejected if
   * one of the two is.
   */
  lemma ComputedPressure(a: Aggregator, trigger: Key, pr: Row, ta: Row, c: Constants)
    requires a.PoAggregator?
    ensures var r := ComputedPo(a, trigger, pr, ta, c);
            var original := a.computePo(pr.value.original, ta.value.original, c);
            && SameSeries(r, trigger) && r.key.param == 173 && r.key.obstime == trigger.obstime
            && (pr.value.originalMissing || ta.value.originalMissing ==> r.value.originalMissing)
            && (!pr.value.originalMissing && !ta.value.originalMissing && original != -32768.0 ==>
                  !r.value.originalMissing && r.value.original == Round(original))
    ensures var r := ComputedPo(a, trigger, pr, ta, c);
            var same := pr.value.original == pr.value.corrected && ta.value.original == ta.value.corrected;
            var corrected := a.computePo(pr.value.corrected, ta.value.corrected, c);
            && (!pr.value.valid || !ta.value.valid ==> !r.value.valid)
            && (pr.value.valid && ta.value.valid && corrected != -32768.0 && Round(corrected) != -32768.0 ==>
                  if same && (pr.value.originalMissing || ta.value.originalMissing) then !r.value.valid
                  else r.value.valid && r.value.corrected == Round(corrected))
  {
    var original := a.computePo(pr.value.original, ta.value.original, c);
    var corrected := a.computePo(pr.value.corrected, ta.value.corrected, c);
    var o := if pr.value.originalMissing || ta.value.originalMissing then INVALID else original;
    var same := pr.value.original == pr.value.corrected && ta.value.original == ta.value.corrected;
    var v := if !pr.value.valid || !ta.value.valid then INVALID else if same then o else corrected;
    EmittedRow(trigger, PO, trigger.obstime, o, v, [pr, ta]);
  }

  /** Closer than 0.305 in both values. */
  ghost predicate Repeats(reported: Value, made: Value) {
    && -0.305 < reported.corrected - made.corrected < 0.305
    && -0.305 < reported.original - made.original < 0.305
  }

  /**
   * Exactly when a computed row is withheld: kvalobs has no generated pressure
   * of the series at that time, and the station's own pressure says the same.
   */
  lemma WithheldIff(setup: Setup, a: Aggregator, trigger: Key, observations: ObservationLists)
    requires a.PoAggregator? && PoFromObservations(a, trigger, observations).Some?
    ensures var made := PoFromObservations(a, trigger, observations).value;
            var before := setup.read(Query(trigger.station, trigger.obstime, trigger.obstime, 173,
                                           -(if trigger.typeId < 0 then -trigger.typeId else trigger.typeId),
                                           trigger.sensor, trigger.level));
            RunAggregator(setup, a, trigger, observations)
            == if && !HasTime(before, trigger.obstime)
                  && exists r ::
                       IsFirstAt(ListOf(observations, 173), trigger.obstime, r) && Repeats(r.value, made.value)
               then None else Some(made)
  {
    FirstAtIff(setup.read(PreviousPoQuery(trigger)), trigger.obstime);
    OnlyFirst(ListOf(observations, PO), trigger.obstime);
  }

  lemma OnlyFirst(rows: seq<Row>, t: int)
    ensures forall r :: IsFirstAt(rows, t, r) <==> FirstAt(rows, t) == Some(r)
  {
    FirstAtIff(rows, t);
    forall r | IsFirstAt(rows, t, r)
      ensures FirstAt(rows, t) == Some(r)
    {
    }
  }

  function PreviousPoQuery(trigger: Key): Query {
    Query(trigger.station, trigger.obstime, trigger.obstime, PO,
          if trigger.typeId < 0 then trigger.typeId else -trigger.typeId, trigger.sensor, trigger.level)
  }

  function RunAggregator(setup: Setup, a: Aggregator, trigger: Key, observations: ObservationLists): Option<Row> {
    if a.Standard? then SA.Process(a.standard, trigger, ListOf(observations, trigger.param))
    else ProcessPo(a, trigger, observations, setup.read(PreviousPoQuery(trigger)))
  }

  ghost predicate SameSeries(r: Row, k: Key) {
    && r.key.station == k.station && r.key.sensor == k.sensor && r.key.level == k.level
    && r.key.typeId == (if k.typeId > 0 then -k.typeId else k.typeId)
  }

  /** Every aggregator's row belongs to the trigger's series and counts as generated. */
  lemma ResultKey(setup: Setup, a: Aggregator, trigger: Key, observations: ObservationLists)
    requires RunAggregator(setup, a, trigger, observations).Some?
    ensures var r := RunAggregator(setup, a, trigger, observations).value;
            SameSeries(r, trigger) && r.key.param == WriteParam(a)
  {
  }

  // ---- One aggregator on one trigger ----

  function SourceQuery(trigger: Key, span: TimeSpan, param: int): Query {
    Query(trigger.station, span.first, span.second, param, trigger.typeId, trigger.sensor, trigger.level)
  }

  /** `None` is the exception for a row outside the window. */
  function RelevantLists(setup: Setup, trigger: Key, span: TimeSpan, params: seq<int>): Option<ObservationLists> {
    if params == [] then Some(map[])
    else
      var rest := RelevantLists(setup, trigger, span, params[..|params| - 1]);
      var param := params[|params| - 1];
      var rows := setup.read(SourceQuery(trigger, span, param));
      if rest.None? || !InWindow(rows, span.first, span.second) then None
      else Some(rest.value[param := rows])
  }

  /** The trigger joins its parameter's list unless a row with its key was read; a stored row wins. */
  function WithTrigger(observations: ObservationLists, data: Row): ObservationLists {
    var rows := ListOf(observations, data.key.param);
    if exists r :: r in rows && r.key == data.key then observations[data.key.param := rows]
    else observations[data.key.param := rows + [data]]
  }

  /** The aggregated list has the trigger's key, every key once, and a stored row where there is one. */
  lemma StoredRowWins(observations: ObservationLists, data: Row)
    requires UniqueKeys(ListOf(observations, data.key.param))
    ensures var before := View(ListOf(observations, data.key.param));
            var after := ListOf(WithTrigger(observations, data), data.key.param);
            && UniqueKeys(after)
            && View(after) == if data.key in before then before else before[data.key := data.value]
    ensures forall p :: p != data.key.param ==> ListOf(WithTrigger(observations, data), p) == ListOf(observations, p)
  {
    var rows := ListOf(observations, data.key.param);
    ViewHas(rows, data.key);
    if i :| 0 <= i < |rows| && rows[i].key == data.key {
      assert rows[i] in rows;
    } else {
      AppendNewKey(rows, data);
    }
  }

  lemma TriggerListed(rows: seq<Row>, k: Key)
    ensures k in View(rows) <==> exists r :: r in rows && r.key == k
  {
    ViewHas(rows, k);
    if i :| 0 <= i < |rows| && rows[i].key == k {
      assert rows[i] in rows;
    }
  }

  lemma WithTriggerKeys(observations: ObservationLists, data: Row)
    requires UniqueKeys(ListOf(observations, data.key.param))
    ensures View(ListOf(WithTrigger(observations, data), data.key.param)).Keys
            == View(ListOf(observations, data.key.param)).Keys + {data.key}
  {
    StoredRowWins(observations, data);
  }

  datatype StepResult = Nothing | Produced(row: Row) | Threw

  function Step(setup: Setup, a: Aggregator, data: Row): StepResult {
    if a.Standard? && !a.interested(data.key) then Nothing
    else
      var observations := RelevantLists(setup, data.key, Span(a, data.key.obstime), ReadParams(a));
      if observations.None? then Threw
      else
        match RunAggregator(setup, a, data.key, WithTrigger(observations.value, data))
        case None => Nothing
        case Some(d) => Produced(d)
  }

  // ---- Why the recursion ends ----

  function Rank(param: int): nat {
    if param == RR_01 then 3
    else if param == RR_1 || param == RA || param == TA || param == PR then 2
    else if param == RR_12 || param == PO then 1
    else if param in {TAN, TAX, TGN, UU, NN, OT_1} then 1
    else 0
  }

  function Measure(k: Key): nat {
    2 * Rank(k.param) + (if k.typeId > 0 then 1 else 0)
  }

  /** Aggregators lead downwards, except that station pressure also reads itself. */
  ghost predicate Ranked(setup: Setup) {
    forall p, i :: 0 <= i < |HandlersFor(setup, p)| ==>
      var a := HandlersFor(setup, p)[i];
      if a.PoAggregator? then p == PR || p == TA || p == PO
      else Rank(a.standard.writeParam) < Rank(p) && a.standard.writeParam != PR && a.standard.readParam == p
  }

  /** The store has no sea level pressure of the type number that rows generated from `k` carry. */
  ghost predicate NoGeneratedPressure(setup: Setup, k: Key) {
    forall q: Query ::
      (&& q.param == PR && q.station == k.station && q.sensor == k.sensor && q.level == k.level
       && q.typeId == Negative(k.typeId)) ==> setup.read(q) == []
  }

  ghost predicate WellFormed(setup: Setup, k: Key) {
    Ranked(setup) && NoGeneratedPressure(setup, k)
  }

  lemma ListsRead(setup: Setup, trigger: Key, span: TimeSpan)
    requires RelevantLists(setup, trigger, span, [PR, TA, PO]).Some?
    ensures RelevantLists(setup, trigger, span, [PR, TA, PO]).value
            == map[PR := setup.read(SourceQuery(trigger, span, PR)),
                   TA := setup.read(SourceQuery(trigger, span, TA)),
                   PO := setup.read(SourceQuery(trigger, span, PO))]
  {
    assert [] + [PR] == [PR] && [PR] + [TA] == [PR, TA] && [PR, TA] + [PO] == [PR, TA, PO];
    ListsOfMore(setup, trigger, span, [], PR);
    ListsOfMore(setup, trigger, span, [PR], TA);
    ListsOfMore(setup, trigger, span, [PR, TA], PO);
  }

  lemma ListsOfMore(setup: Setup, trigger: Key, span: TimeSpan, params: seq<int>, param: int)
    ensures RelevantLists(setup, trigger, span, params + [param])
            == var rest := RelevantLists(setup, trigger, span, params);
               var rows := setup.read(SourceQuery(trigger, span, param));
               if rest.None? || !InWindow(rows, span.first, span.second) then None else Some(rest.value[param := rows])
  {
    assert (params + [param])[..|params|] == params;
  }

  /**
   * What an aggregator is given, when reading goes to a store: of each of its
   * parameters the rows of the trigger's station, type, level and sensor, after
   * the start and up to the end of the window.
   */
  lemma ListedIff(
    setup: Setup, stored: seq<Row>, trigger: Key, span: TimeSpan, params: seq<int>, p: int, r: Row)
    requires setup.read(SourceQuery(trigger, span, p)) == StoreReads(stored)(SourceQuery(trigger, span, p))
    requires RelevantLists(setup, trigger, span, params).Some?
    requires trigger.station != 0 && span.first < span.second
    ensures p in RelevantLists(setup, trigger, span, params).value <==> p in params
    ensures r in ListOf(RelevantLists(setup, trigger, span, params).value, p)
            <==> p in params && r in stored && SourceOf(trigger, span, p, r)
  {
    KeepMembers(ByQuery(SourceSide, SourceQuery(trigger, span, p)), stored);
  }

  /** A row of the trigger's series that a window has for a parameter. */
  ghost predicate SourceOf(trigger: Key, span: TimeSpan, p: int, r: Row) {
    && r.key.param == p
    && r.key.station == trigger.station && r.key.typeId == trigger.typeId && r.key.level == trigger.level
    && r.key.sensor in {trigger.sensor, trigger.sensor - 48, trigger.sensor + 48}
    && span.first < r.key.obstime <= span.second
  }

  /** A row outside its window ends the reading, whatever is still to be read. */
  lemma {:induction false} RefusedPrefix(setup: Setup, trigger: Key, span: TimeSpan, params: seq<int>, n: nat)
    requires n <= |params| && RelevantLists(setup, trigger, span, params[..n]).None?
    ensures RelevantLists(setup, trigger, span, params).None?
  {
    if n < |params| {
      var front := params[..|params| - 1];
      assert front[..n] == params[..n];
      RefusedPrefix(setup, trigger, span, front, n);
    } else {
      assert params[..n] == params;
    }
  }

  /** Generated rows never start the pressure computation again. */
  lemma GeneratedRowsStopPressure(setup: Setup, a: Aggregator, data: Row)
    requires NoGeneratedPressure(setup, data.key) && a.PoAggregator?
    requires data.key.typeId <= 0 && data.key.param != PR
    ensures !Step(setup, a, data).Produced?
  {
    var span := Span(a, data.key.obstime);
    var lists := RelevantLists(setup, data.key, span, [PR, TA, PO]);
    if lists.Some? {
      ListsRead(setup, data.key, span);
      assert SourceQuery(data.key, span, PR).param == PR;
      assert ListOf(WithTrigger(lists.value, data), PR) == [];
    }
  }

  /** Each self-call is made on a smaller trigger of the same series. */
  lemma StepDescends(setup: Setup, i: nat, data: Row)
    requires WellFormed(setup, data.key)
    requires i < |HandlersFor(setup, data.key.param)|
    requires Step(setup, HandlersFor(setup, data.key.param)[i], data).Produced?
    ensures var a := HandlersFor(setup, data.key.param)[i];
            var r := Step(setup, a, data).row;
            && SameSeries(r, data.key) && r.key.param == WriteParam(a)
            && WellFormed(setup, r.key)
            && Measure(r.key) < Measure(data.key)
  {
    var a := HandlersFor(setup, data.key.param)[i];
    if a.PoAggregator? && data.key.param == PO && data.key.typeId <= 0 {
      GeneratedRowsStopPressure(setup, a, data);
    }
    var lists := RelevantLists(setup, data.key, Span(a, data.key.obstime), ReadParams(a));
    ResultKey(setup, a, data.key, WithTrigger(lists.value, data));
  }

  // ---- The recursion ----

  /** Rows appended before the call ended, and whether it ended by an exception. */
  datatype Outcome = Outcome(rows: seq<Row>, threw: bool)

  predicate InIncludeList(val: int, valList: seq<int>) {
    valList == [] || val in valList
  }

  predicate Admitted(setup: Setup, k: Key) {
    && InIncludeList(k.param, setup.allowedParameters)
    && InIncludeList(k.station, setup.allowedStations)
    && InIncludeList(k.typeId, setup.allowedTypes)
  }

  /** Running on `data` includes a call on `d`, which one of the aggregators makes of it. */
  ghost predicate SelfCall(setup: Setup, data: Row, d: Row) {
    && Admitted(setup, data.key)
    && exists i :: 0 <= i < |HandlersFor(setup, data.key.param)| &&
         Step(setup, HandlersFor(setup, data.key.param)[i], data) == Produced(d)
  }

  ghost function Calls(setup: Setup): (Row, Row) -> bool {
    (data, d) => SelfCall(setup, data, d)
  }

  /** Self-calls on `data` do not follow one another without end. */
  ghost predicate Ends(setup: Setup, data: Row) {
    Chains.Ends(Calls(setup), data)
  }

  ghost function Depth(setup: Setup, data: Row): nat
    requires Ends(setup, data)
  {
    Chains.Depth(Calls(setup), data)
  }

  lemma SelfCallIsShallower(setup: Setup, data: Row, d: Row)
    requires Ends(setup, data) && SelfCall(setup, data, d)
    ensures Ends(setup, d) && Depth(setup, d) < Depth(setup, data)
  {
    Chains.CallIsShallower(Calls(setup), data, d);
  }

  /** One aggregator's row: of the trigger's series, and closer to the end. */
  lemma CallDescends(setup: Setup, i: nat, data: Row)
    requires Ends(setup, data) && Admitted(setup, data.key) && i < |HandlersFor(setup, data.key.param)|
    requires Step(setup, HandlersFor(setup, data.key.param)[i], data).Produced?
    ensures var a := HandlersFor(setup, data.key.param)[i];
            var r := Step(setup, a, data).row;
            && SameSeries(r, data.key) && r.key.param == WriteParam(a)
            && Ends(setup, r) && Depth(setup, r) < Depth(setup, data)
  {
    var a := HandlersFor(setup, data.key.param)[i];
    var lists := RelevantLists(setup, data.key, Span(a, data.key.obstime), ReadParams(a));
    ResultKey(setup, a, data.key, WithTrigger(lists.value, data));
    assert SelfCall(setup, data, Step(setup, a, data).row);
    SelfCallIsShallower(setup, data, Step(setup, a, data).row);
  }

  /** The rows that a trigger leads to, whenever the recursion ends. */
  ghost function Results(setup: Setup, data: Row): Outcome
    requires Ends(setup, data)
    decreases Depth(setup, data), |HandlersFor(setup, data.key.param)| + 1
  {
    if Admitted(setup, data.key) then ResultsFrom(setup, data, 0) else Outcome([], false)
  }

  ghost function ResultsFrom(setup: Setup, data: Row, i: nat): Outcome
    requires Ends(setup, data) && Admitted(setup, data.key)
    requires i <= |HandlersFor(setup, data.key.param)|
    decreases Depth(setup, data), |HandlersFor(setup, data.key.param)| - i
  {
    if i == |HandlersFor(setup, data.key.param)| then Outcome([], false)
    else
      match Step(setup, HandlersFor(setup, data.key.param)[i], data)
      case Threw => Outcome([], true)
      case Nothing => ResultsFrom(setup, data, i + 1)
      case Produced(d) =>
        CallDescends(setup, i, data);
        var inner := Results(setup, d);
        if inner.threw then Outcome([d] + inner.rows, true)
        else
          var rest := ResultsFrom(setup, data, i + 1);
          Outcome([d] + inner.rows + rest.rows, rest.threw)
  }

  /** A trigger that one of the filters excludes leads to nothing. */
  lemma NothingForFilteredOut(setup: Setup, data: Row)
    requires || (setup.allowedParameters != [] && data.key.param !in setup.allowedParameters)
             || (setup.allowedStations != [] && data.key.station !in setup.allowedStations)
             || (setup.allowedTypes != [] && data.key.typeId !in setup.allowedTypes)
    ensures Ends(setup, data) && Results(setup, data) == Outcome([], false)
  {
    Chains.DepthAtMost(Calls(setup), data, 1);
  }

  /** Any other trigger reaches its aggregators; the first one's row is the first result. */
  lemma FirstResult(setup: Setup, data: Row)
    requires setup.allowedParameters == [] || data.key.param in setup.allowedParameters
    requires setup.allowedStations == [] || data.key.station in setup.allowedStations
    requires setup.allowedTypes == [] || data.key.typeId in setup.allowedTypes
    requires Ends(setup, data) && HandlersFor(setup, data.key.param) != []
    requires Step(setup, HandlersFor(setup, data.key.param)[0], data).Produced?
    ensures var rows := Results(setup, data).rows;
            rows != [] && rows[0] == Step(setup, HandlersFor(setup, data.key.param)[0], data).row
  {
    CallDescends(setup, 0, data);
  }

  /** What one handler adds: its row, then what the row triggers. */
  ghost function Added(setup: Setup, data: Row, i: nat): seq<Row>
    requires Ends(setup, data) && Admitted(setup, data.key) && i < |HandlersFor(setup, data.key.param)|
    requires Step(setup, HandlersFor(setup, data.key.param)[i], data).Produced?
  {
    CallDescends(setup, i, data);
    var d := Step(setup, HandlersFor(setup, data.key.param)[i], data).row;
    [d] + Results(setup, d).rows
  }

  lemma AddedFirst(setup: Setup, data: Row, n: nat)
    requires Ends(setup, data) && Admitted(setup, data.key) && n < |HandlersFor(setup, data.key.param)|
    requires !ResultsFrom(setup, data, n).threw
    ensures !ResultsFrom(setup, data, n + 1).threw
    ensures ResultsFrom(setup, data, n).rows
            == (if Step(setup, HandlersFor(setup, data.key.param)[n], data).Produced? then Added(setup, data, n)
                else [])
               + ResultsFrom(setup, data, n + 1).rows
  {
  }

  lemma {:induction false} AddedAt(setup: Setup, data: Row, n: nat, i: nat) returns (before: seq<Row>)
    requires Ends(setup, data) && Admitted(setup, data.key) && n <= i < |HandlersFor(setup, data.key.param)|
    requires Step(setup, HandlersFor(setup, data.key.param)[i], data).Produced?
    requires !ResultsFrom(setup, data, n).threw
    ensures !ResultsFrom(setup, data, i + 1).threw
    ensures ResultsFrom(setup, data, n).rows
            == before + Added(setup, data, i) + ResultsFrom(setup, data, i + 1).rows
    decreases i - n
  {
    AddedFirst(setup, data, n);
    if n == i {
      before := [];
      assert [] + Added(setup, data, i) == Added(setup, data, i);
    } else {
      var rest := AddedAt(setup, data, n + 1, i);
      var first :=
        if Step(setup, HandlersFor(setup, data.key.param)[n], data).Produced? then Added(setup, data, n) else [];
      before := first + rest;
      ThreeMore(first, rest, Added(setup, data, i), ResultsFrom(setup, data, i + 1).rows);
    }
  }

  lemma ThreeMore(a: seq<Row>, b: seq<Row>, c: seq<Row>, d: seq<Row>)
    ensures a + (b + c + d) == a + b + c + d
  {
  }

  /** Of two handlers the earlier one's row and all that it leads to come before the later one's. */
  lemma HandlersInOrder(setup: Setup, data: Row, i: nat, j: nat)
    requires Ends(setup, data) && Admitted(setup, data.key) && i < j < |HandlersFor(setup, data.key.param)|
    requires Step(setup, HandlersFor(setup, data.key.param)[i], data).Produced?
    requires Step(setup, HandlersFor(setup, data.key.param)[j], data).Produced?
    requires !Results(setup, data).threw
    ensures exists before, between, after ::
              Results(setup, data).rows
              == before + Added(setup, data, i) + (between + Added(setup, data, j) + after)
  {
    var before := AddedAt(setup, data, 0, i);
    var between := AddedAt(setup, data, i + 1, j);
    var after := ResultsFrom(setup, data, j + 1).rows;
    assert Results(setup, data).rows
           == before + Added(setup, data, i) + (between + Added(setup, data, j) + after);
  }

  lemma SelfCallDescends(setup: Setup, data: Row, d: Row)
    requires WellFormed(setup, data.key) && SelfCall(setup, data, d)
    ensures WellFormed(setup, d.key) && Measure(d.key) < Measure(data.key)
  {
    var i :| 0 <= i < |HandlersFor(setup, data.key.param)| &&
             Step(setup, HandlersFor(setup, data.key.param)[i], data) == Produced(d);
    StepDescends(setup, i, data);
  }

  /** On a store without generated sea level pressure self-calls are no more than the trigger's measure. */
  lemma WellFormedEnds(setup: Setup, data: Row)
    requires WellFormed(setup, data.key)
    ensures Ends(setup, data) && Depth(setup, data) <= Measure(data.key) + 1
  {
    var good, measure := (r: Row) => WellFormed(setup, r.key), (r: Row) => Measure(r.key);
    forall x, y | good(x) && Calls(setup)(x, y)
      ensures good(y) && measure(y) < measure(x)
    {
      SelfCallDescends(setup, x, y);
    }
    var n := Measure(data.key) + 1;
    if Chains.Chain(Calls(setup), data, n) {
      Chains.ChainIsShort(Calls(setup), good, measure, data, n);
    }
    Chains.DepthAtMost(Calls(setup), data, n);
  }

  // ---- How much one trigger can produce ----

  /** Upper bounds on the rows that a trigger, or a generated row, leads to. */
  function GeneratedBudget(param: int): nat {
    if param == RR_01 then 3
    else if param == RR_1 then 2
    else if param == RR_12 then 1
    else 0
  }

  function Budget(param: int): nat {
    if param == RA then 4
    else if param == TA then 2
    else if param in {PR, PO, TAN, TAX, TGN, UU, NN, OT_1} then 1
    else GeneratedBudget(param)
  }

  function Cost(handlers: seq<Aggregator>): nat {
    if handlers == [] then 0 else 1 + GeneratedBudget(WriteParam(handlers[0])) + Cost(handlers[1..])
  }

  /** A trigger's handlers stay within its budget, and what they write within that of generated rows. */
  ghost predicate Budgeted(setup: Setup) {
    && (forall p :: Cost(HandlersFor(setup, p)) <= Budget(p))
    && (forall q, i :: 0 <= i < |HandlersFor(setup, q)| ==>
          var p := WriteParam(HandlersFor(setup, q)[i]);
          p == PO || Cost(HandlersFor(setup, p)) <= GeneratedBudget(p))
    && (forall i :: 0 <= i < |HandlersFor(setup, PO)| ==> HandlersFor(setup, PO)[i].PoAggregator?)
  }

  /** Every produced row is of the trigger's series, with a generated type number of the same magnitude. */
  lemma {:induction false} ResultsBelongToTrigger(setup: Setup, data: Row, i: nat)
    requires Ends(setup, data) && Admitted(setup, data.key) && i <= |HandlersFor(setup, data.key.param)|
    ensures forall r :: r in ResultsFrom(setup, data, i).rows ==>
              && r.key.station == data.key.station && r.key.sensor == data.key.sensor && r.key.level == data.key.level
              && r.key.typeId <= 0
              && (r.key.typeId == data.key.typeId || r.key.typeId == -data.key.typeId)
    decreases Depth(setup, data), |HandlersFor(setup, data.key.param)| - i
  {
    if i < |HandlersFor(setup, data.key.param)| {
      var step := Step(setup, HandlersFor(setup, data.key.param)[i], data);
      if !step.Threw? {
        ResultsBelongToTrigger(setup, data, i + 1);
      }
      if step.Produced? {
        CallDescends(setup, i, data);
        if Admitted(setup, step.row.key) {
          ResultsBelongToTrigger(setup, step.row, 0);
        }
      }
    }
  }

  lemma {:induction false} GeneratedResultsBounded(setup: Setup, data: Row)
    requires Ends(setup, data) && WellFormed(setup, data.key) && Budgeted(setup)
    requires data.key.typeId <= 0
    requires Cost(HandlersFor(setup, data.key.param)) <= GeneratedBudget(data.key.param) || data.key.param == PO
    ensures |Results(setup, data).rows| <= GeneratedBudget(data.key.param)
    decreases Depth(setup, data), |HandlersFor(setup, data.key.param)| + 1
  {
    if Admitted(setup, data.key) {
      if data.key.param == PO {
        GeneratedPressureProducesNothing(setup, data, 0);
      } else {
        ResultsBounded(setup, data, 0);
      }
    }
  }

  lemma {:induction false} GeneratedPressureProducesNothing(setup: Setup, data: Row, i: nat)
    requires Ends(setup, data) && Admitted(setup, data.key) && NoGeneratedPressure(setup, data.key) && Budgeted(setup)
    requires data.key.typeId <= 0 && data.key.param == PO && i <= |HandlersFor(setup, PO)|
    ensures ResultsFrom(setup, data, i).rows == []
    decreases |HandlersFor(setup, PO)| - i
  {
    if i < |HandlersFor(setup, PO)| {
      GeneratedRowsStopPressure(setup, HandlersFor(setup, PO)[i], data);
      GeneratedPressureProducesNothing(setup, data, i + 1);
    }
  }

  lemma {:induction false} ResultsBounded(setup: Setup, data: Row, i: nat)
    requires Ends(setup, data) && Admitted(setup, data.key) && WellFormed(setup, data.key) && Budgeted(setup)
    requires i <= |HandlersFor(setup, data.key.param)|
    ensures |ResultsFrom(setup, data, i).rows| <= Cost(HandlersFor(setup, data.key.param)[i..])
    decreases Depth(setup, data), |HandlersFor(setup, data.key.param)| - i
  {
    var handlers := HandlersFor(setup, data.key.param);
    if i < |handlers| {
      assert handlers[i..][1..] == handlers[i + 1..];
      var step := Step(setup, handlers[i], data);
      if !step.Threw? {
        ResultsBounded(setup, data, i + 1);
      }
      if step.Produced? {
        StepDescends(setup, i, data);
        CallDescends(setup, i, data);
        GeneratedResultsBounded(setup, step.row);
      }
    }
  }

  // ---- The configured table ----

  /** Which parameters each parameter is aggregated to. */
  function WritesOf(param: int): seq<int> {
    if param == TAN then [TAN_12]
    else if param == TAX then [TAX_12]
    else if param == TGN then [TGN_12]
    else if param == RR_01 then [RR_1]
    else if param == RR_1 then [RR_12]
    else if param == RR_12 then [RR_24]
    else if param == RA then [RR_12, RR_12]
    else if param == TA then [TAM_24, PO]
    else if param == UU then [UUM_24]
    else if param == NN then [NNM_24]
    else if param == PR then [PO]
    else if param == PO then [PO]
    else if param == OT_1 then [OT_24]
    else []
  }

  predicate Fits(handlers: seq<Aggregator>, readParam: int, writes: seq<int>) {
    && |handlers| == |writes|
    && forall i :: 0 <= i < |handlers| ==>
         && WriteParam(handlers[i]) == writes[i]
         && (handlers[i].PoAggregator? <==> writes[i] == PO)
         && (handlers[i].Standard? ==> handlers[i].standard.readParam == readParam)
  }

  ghost predicate Configured(setup: Setup) {
    forall p :: Fits(HandlersFor(setup, p), p, WritesOf(p))
  }

  lemma ConfiguredIsRanked(setup: Setup)
    requires Configured(setup)
    ensures Ranked(setup)
  {
    forall p, i | 0 <= i < |HandlersFor(setup, p)|
      ensures var a := HandlersFor(setup, p)[i];
              if a.PoAggregator? then p == PR || p == TA || p == PO
              else Rank(a.standard.writeParam) < Rank(p) && a.standard.writeParam != PR && a.standard.readParam == p
    {
      assert Fits(HandlersFor(setup, p), p, WritesOf(p));
    }
  }

  lemma CostOfOne(handlers: seq<Aggregator>)
    requires |handlers| == 1
    ensures Cost(handlers) == 1 + GeneratedBudget(WriteParam(handlers[0]))
  {
    assert handlers[1..] == [];
  }

  lemma CostOfFit(handlers: seq<Aggregator>, p: int)
    requires Fits(handlers, p, WritesOf(p))
    ensures Cost(handlers) <= Budget(p)
  {
    if |handlers| == 2 {
      CostOfOne(handlers[1..]);
      assert WriteParam(handlers[0]) == WritesOf(p)[0] && WriteParam(handlers[1]) == WritesOf(p)[1];
    } else if |handlers| == 1 {
      CostOfOne(handlers);
      assert WriteParam(handlers[0]) == WritesOf(p)[0];
    }
  }

  lemma ConfiguredCost(setup: Setup, p: int)
    requires Configured(setup)
    ensures Cost(HandlersFor(setup, p)) <= Budget(p)
  {
    assert Fits(HandlersFor(setup, p), p, WritesOf(p));
    CostOfFit(HandlersFor(setup, p), p);
  }

  lemma ConfiguredWrite(setup: Setup, q: int, i: nat)
    requires Configured(setup) && i < |HandlersFor(setup, q)|
    ensures var p := WriteParam(HandlersFor(setup, q)[i]);
            p == PO || Cost(HandlersFor(setup, p)) <= GeneratedBudget(p)
    ensures q == PO ==> HandlersFor(setup, q)[i].PoAggregator?
  {
    assert Fits(HandlersFor(setup, q), q, WritesOf(q));
    ConfiguredCost(setup, WritesOf(q)[i]);
  }

  lemma ConfiguredIsBudgeted(setup: Setup)
    requires Configured(setup)
    ensures Budgeted(setup)
  {
    forall p
      ensures Cost(HandlersFor(setup, p)) <= Budget(p)
    {
      ConfiguredCost(setup, p);
    }
    forall q, i | 0 <= i < |HandlersFor(setup, q)|
      ensures var p := WriteParam(HandlersFor(setup, q)[i]);
              p == PO || Cost(HandlersFor(setup, p)) <= GeneratedBudget(p)
      ensures q == PO ==> HandlersFor(setup, q)[i].PoAggregator?
    {
      ConfiguredWrite(setup, q, i);
    }
  }

  /**
   * With the table the program sets up, one trigger yields at most four rows;
   * all of them are of its series, with its type number made non-positive.
   */
  lemma AtMostFourRows(setup: Setup, data: Row)
    requires Configured(setup) && NoGeneratedPressure(setup, data.key)
    ensures Ends(setup, data)
    ensures var rows := Results(setup, data).rows;
            && |rows| <= Budget(data.key.param) <= 4
            && forall r :: r in rows ==> r.key.typeId <= 0 && SameSeries(r, data.key)
  {
    ConfiguredIsRanked(setup);
    ConfiguredIsBudgeted(setup);
    WellFormedEnds(setup, data);
    assert HandlersFor(setup, data.key.param)[0..] == HandlersFor(setup, data.key.param);
    if Admitted(setup, data.key) {
      ResultsBounded(setup, data, 0);
      ResultsBelongToTrigger(setup, data, 0);
    }
  }

  /** A filter that admits positive type numbers only cuts every chain after its first row. */
  lemma TypeFilterStopsChains(setup: Setup, data: Row)
    requires setup.allowedTypes != [] && forall t :: t in setup.allowedTypes ==> t > 0
    ensures Ends(setup, data)
    ensures |Results(setup, data).rows| <= |HandlersFor(setup, data.key.param)|
  {
    forall d | SelfCall(setup, data, d)
      ensures !Chains.Chain(Calls(setup), d, 1)
    {
      assert !Admitted(setup, d.key);
    }
    assert !Chains.Chain(Calls(setup), data, 2);
    Chains.DepthAtMost(Calls(setup), data, 2);
    if Admitted(setup, data.key) {
      FilteredResults(setup, data, 0);
    }
  }

  lemma FilteredStep(setup: Setup, data: Row, i: nat)
    requires Ends(setup, data) && Admitted(setup, data.key) && i < |HandlersFor(setup, data.key.param)|
    requires setup.allowedTypes != [] && forall t :: t in setup.allowedTypes ==> t > 0
    ensures |ResultsFrom(setup, data, i).rows| <= 1 + |ResultsFrom(setup, data, i + 1).rows|
  {
    var step := Step(setup, HandlersFor(setup, data.key.param)[i], data);
    if step.Produced? {
      CallDescends(setup, i, data);
      NothingForFilteredOut(setup, step.row);
    }
  }

  lemma {:induction false} FilteredResults(setup: Setup, data: Row, i: nat)
    requires Ends(setup, data) && Admitted(setup, data.key) && i <= |HandlersFor(setup, data.key.param)|
    requires setup.allowedTypes != [] && forall t :: t in setup.allowedTypes ==> t > 0
    ensures |ResultsFrom(setup, data, i).rows| <= |HandlersFor(setup, data.key.param)| - i
    decreases |HandlersFor(setup, data.key.param)| - i
  {
    if i < |HandlersFor(setup, data.key.param)| {
      FilteredStep(setup, data, i);
      FilteredResults(setup, data, i + 1);
    }
  }

  /** Nothing that the recursion produces is sea level pressure. */
  lemma {:induction false} ResultsAreNotPressure(setup: Setup, data: Row, i: nat)
    requires Ranked(setup)
    requires Ends(setup, data) && Admitted(setup, data.key) && i <= |HandlersFor(setup, data.key.param)|
    ensures forall r :: r in ResultsFrom(setup, data, i).rows ==> r.key.param != PR
    decreases Depth(setup, data), |HandlersFor(setup, data.key.param)| - i
  {
    if i < |HandlersFor(setup, data.key.param)| {
      var step := Step(setup, HandlersFor(setup, data.key.param)[i], data);
      if !step.Threw? {
        ResultsAreNotPressure(setup, data, i + 1);
      }
      if step.Produced? {
        CallDescends(setup, i, data);
        if Admitted(setup, step.row.key) {
          ResultsAreNotPressure(setup, step.row, 0);
        }
      }
    }
  }

  // ---- When it throws ----

  ghost predicate AnswersInWindow(setup: Setup) {
    forall q: Query :: q.from < q.to ==> InWindow(setup.read(q), q.from, q.to)
  }

  ghost predicate ProperSpans(setup: Setup) {
    forall p, i, t: int :: 0 <= i < |HandlersFor(setup, p)| ==>
      Span(HandlersFor(setup, p)[i], t).first < Span(HandlersFor(setup, p)[i], t).second
  }

  lemma {:induction false} ListsInWindow(setup: Setup, trigger: Key, span: TimeSpan, params: seq<int>)
    requires AnswersInWindow(setup) && span.first < span.second
    ensures RelevantLists(setup, trigger, span, params).Some?
  {
    if params != [] {
      ListsInWindow(setup, trigger, span, params[..|params| - 1]);
    }
  }

  /** While reads keep to their windows, no trigger ends in an exception. */
  lemma {:induction false} NothingThrown(setup: Setup, data: Row, i: nat)
    requires Ends(setup, data) && Admitted(setup, data.key) && i <= |HandlersFor(setup, data.key.param)|
    requires AnswersInWindow(setup) && ProperSpans(setup)
    ensures !ResultsFrom(setup, data, i).threw
    decreases Depth(setup, data), |HandlersFor(setup, data.key.param)| - i
  {
    if i < |HandlersFor(setup, data.key.param)| {
      var a := HandlersFor(setup, data.key.param)[i];
      ListsInWindow(setup, data.key, Span(a, data.key.obstime), ReadParams(a));
      NothingThrown(setup, data, i + 1);
      var step := Step(setup, a, data);
      if step.Produced? {
        CallDescends(setup, i, data);
        if Admitted(setup, step.row.key) {
          NothingThrown(setup, step.row, 0);
        }
      }
    }
  }

  /** Does the aggregator meet a row outside its window? */
  predicate MeetsStrayRow(setup: Setup, a: Aggregator, k: Key) {
    var span := Span(a, k.obstime);
    exists p :: p in ReadParams(a) && !InWindow(setup.read(SourceQuery(k, span, p)), span.first, span.second)
  }

  lemma {:induction false} RefusedIff(setup: Setup, trigger: Key, span: TimeSpan, params: seq<int>)
    ensures RelevantLists(setup, trigger, span, params).None?
            <==> exists p :: p in params &&
                   !InWindow(setup.read(SourceQuery(trigger, span, p)), span.first, span.second)
  {
    if params != [] {
      var front, last := params[..|params| - 1], params[|params| - 1];
      RefusedIff(setup, trigger, span, front);
      assert params == front + [last];
    }
  }

  /** One aggregator throws on a trigger exactly if it runs and one of its answers leaves the window. */
  lemma StepThrowsIff(setup: Setup, a: Aggregator, data: Row)
    ensures Step(setup, a, data).Threw?
            <==> (a.Standard? ==> a.interested(data.key)) && MeetsStrayRow(setup, a, data.key)
  {
    RefusedIff(setup, data.key, Span(a, data.key.obstime), ReadParams(a));
  }

  /** Some aggregator of the row's parameter, from the `i`th on, throws on it. */
  ghost predicate ThrowsFrom(setup: Setup, r: Row, i: nat) {
    exists j :: i <= j < |HandlersFor(setup, r.key.param)| && Step(setup, HandlersFor(setup, r.key.param)[j], r).Threw?
  }

  ghost predicate ThrowsOn(setup: Setup, r: Row) {
    Admitted(setup, r.key) && ThrowsFrom(setup, r, 0)
  }

  ghost predicate AnyThrows(setup: Setup, rows: seq<Row>) {
    exists r :: r in rows && ThrowsOn(setup, r)
  }

  /** A trigger ends in an exception exactly if an aggregator throws on it or on a row appended on the way. */
  lemma ThrowsIff(setup: Setup, data: Row)
    requires Ends(setup, data)
    ensures Results(setup, data).threw
            <==> ThrowsOn(setup, data) || AnyThrows(setup, Results(setup, data).rows)
  {
    if Admitted(setup, data.key) {
      ThrowsFromIff(setup, data, 0);
    }
  }

  lemma {:induction false} ThrowsFromIff(setup: Setup, data: Row, i: nat)
    requires Ends(setup, data) && Admitted(setup, data.key) && i <= |HandlersFor(setup, data.key.param)|
    ensures ResultsFrom(setup, data, i).threw
            <==> ThrowsFrom(setup, data, i) || AnyThrows(setup, ResultsFrom(setup, data, i).rows)
    decreases Depth(setup, data), |HandlersFor(setup, data.key.param)| - i
  {
    if i < |HandlersFor(setup, data.key.param)| {
      var step := Step(setup, HandlersFor(setup, data.key.param)[i], data);
      if !step.Threw? {
        ThrowsFromIff(setup, data, i + 1);
      }
      if step.Produced? {
        CallDescends(setup, i, data);
        if Admitted(setup, step.row.key) {
          ThrowsFromIff(setup, step.row, 0);
        }
        ThrowsAfterProduced(setup, data, i, step.row);
      }
    }
  }

  lemma ThrowsAfterProduced(setup: Setup, data: Row, i: nat, d: Row)
    requires Ends(setup, data) && Admitted(setup, data.key) && i < |HandlersFor(setup, data.key.param)|
    requires Step(setup, HandlersFor(setup, data.key.param)[i], data) == Produced(d) && Ends(setup, d)
    ensures var inner, rest := Results(setup, d), ResultsFrom(setup, data, i + 1);
            && (ResultsFrom(setup, data, i).threw <==> inner.threw || rest.threw)
            && (AnyThrows(setup, ResultsFrom(setup, data, i).rows)
                <==> || ThrowsOn(setup, d) || AnyThrows(setup, inner.rows)
                     || (!inner.threw && AnyThrows(setup, rest.rows)))
  {
  }

  // ---- Without the assumption on pressure ----

  /** Reading one second's window and reading its instant give the same rows. */
  ghost predicate InstantReads(setup: Setup, k: Key) {
    && AnswersInWindow(setup)
    && setup.read(PreviousPoQuery(k)) == setup.read(SourceQuery(k, TimeSpan(k.obstime - 1, k.obstime), PO))
    && forall r :: r in setup.read(PreviousPoQuery(k)) ==> r.key == k
  }

  /** Pressure, temperature and station constants are all there for a generated trigger. */
  predicate CanCompute(setup: Setup, a: Aggregator, k: Key)
    requires a.PoAggregator?
  {
    && setup.read(SourceQuery(k, TimeSpan(k.obstime - 1, k.obstime), PR)) != []
    && setup.read(SourceQuery(k, TimeSpan(k.obstime - 1, k.obstime), TA)) != []
    && a.metadata(k).Some?
  }

  /** What the pressure aggregator makes of a generated station pressure. */
  lemma GeneratedPressureStep(setup: Setup, a: Aggregator, data: Row)
    requires a.PoAggregator? && data.key.param == PO && data.key.typeId <= 0
    requires InstantReads(setup, data.key)
    ensures var k := data.key;
            var span := TimeSpan(k.obstime - 1, k.obstime);
            if !CanCompute(setup, a, k) then Step(setup, a, data) == Nothing
            else
              var row := ComputedPo(a, k, setup.read(SourceQuery(k, span, PR))[0],
                                    setup.read(SourceQuery(k, span, TA))[0], a.metadata(k).value);
              && row.key == k
              && (setup.read(PreviousPoQuery(k)) != [] ==> Step(setup, a, data) == Produced(row))
              && (setup.read(PreviousPoQuery(k)) == [] ==>
                    Step(setup, a, data) ==
                    if && Distance(data.value.corrected, row.value.corrected) < WRITE_THRESHOLD
                       && Distance(data.value.original, row.value.original) < WRITE_THRESHOLD
                    then Nothing else Produced(row))
  {
    var k := data.key;
    var span := TimeSpan(k.obstime - 1, k.obstime);
    PoListsRead(setup, a, data);
    PressureFound(setup, a, data);
  }

  lemma PressureFound(setup: Setup, a: Aggregator, data: Row)
    requires a.PoAggregator? && data.key.param == PO && data.key.typeId <= 0
    requires InstantReads(setup, data.key)
    ensures var k := data.key;
            var span := TimeSpan(k.obstime - 1, k.obstime);
            var lists := RelevantLists(setup, k, span, [PR, TA, PO]);
            && lists.Some?
            && PoFromObservations(a, k, WithTrigger(lists.value, data))
               == if !CanCompute(setup, a, k) then None
                  else Some(ComputedPo(a, k, setup.read(SourceQuery(k, span, PR))[0],
                                       setup.read(SourceQuery(k, span, TA))[0], a.metadata(k).value))
  {
    var k := data.key;
    var span := TimeSpan(k.obstime - 1, k.obstime);
    PoListsRead(setup, a, data);
  }

  lemma PoListsRead(setup: Setup, a: Aggregator, data: Row)
    requires a.PoAggregator? && data.key.param == PO
    requires InstantReads(setup, data.key)
    ensures var k := data.key;
            var span := TimeSpan(k.obstime - 1, k.obstime);
            var po := setup.read(SourceQuery(k, span, PO));
            var lists := RelevantLists(setup, k, span, [PR, TA, PO]);
            && lists.Some?
            && ListOf(WithTrigger(lists.value, data), PR) == setup.read(SourceQuery(k, span, PR))
            && ListOf(WithTrigger(lists.value, data), TA) == setup.read(SourceQuery(k, span, TA))
            && ListOf(WithTrigger(lists.value, data), PO) == if po != [] then po else [data]
  {
    var k := data.key;
    var span := TimeSpan(k.obstime - 1, k.obstime);
    ListsInWindow(setup, k, span, [PR, TA, PO]);
    ListsRead(setup, k, span);
    var po := setup.read(SourceQuery(k, span, PO));
    if po != [] {
      assert po[0] in po && po[0].key == k;
    } else {
      assert po + [data] == [data];
    }
  }

  /**
   * One aggregator: a generated station pressure yields itself again exactly when
   * it is already stored and can be computed; otherwise at most one more row
   * follows.
   */
  lemma PressureRepeatsIff(setup: Setup, a: Aggregator, data: Row)
    requires a.PoAggregator? && data.key.param == PO && data.key.typeId <= 0
    requires InstantReads(setup, data.key)
    ensures (var first := Step(setup, a, data);
             first.Produced? && Step(setup, a, first.row) == first)
            <==> CanCompute(setup, a, data.key) && setup.read(PreviousPoQuery(data.key)) != []
    ensures var first := Step(setup, a, data);
            first.Produced? && Step(setup, a, first.row) != first ==> Step(setup, a, first.row) == Nothing
  {
    GeneratedPressureStep(setup, a, data);
    var first := Step(setup, a, data);
    if first.Produced? {
      GeneratedPressureStep(setup, a, first.row);
    }
  }

  // ---- Exactly when the recursion ends ----

  /** The rows made of a trigger by the aggregators from the `i`th on. */
  ghost function Made(setup: Setup, data: Row, i: nat): seq<Row>
    requires i <= |HandlersFor(setup, data.key.param)|
    decreases |HandlersFor(setup, data.key.param)| - i
  {
    if i == |HandlersFor(setup, data.key.param)| then []
    else
      var step := Step(setup, HandlersFor(setup, data.key.param)[i], data);
      (if step.Produced? then [step.row] else []) + Made(setup, data, i + 1)
  }

  /** Some aggregator from the `i`th on makes the row of the trigger. */
  ghost predicate MadeFrom(setup: Setup, data: Row, i: nat, d: Row) {
    exists j :: i <= j < |HandlersFor(setup, data.key.param)| &&
      Step(setup, HandlersFor(setup, data.key.param)[j], data) == Produced(d)
  }

  lemma MadeFromNext(setup: Setup, data: Row, i: nat, d: Row)
    requires i < |HandlersFor(setup, data.key.param)|
    ensures MadeFrom(setup, data, i, d)
            <==> || Step(setup, HandlersFor(setup, data.key.param)[i], data) == Produced(d)
                 || MadeFrom(setup, data, i + 1, d)
  {
  }

  lemma {:induction false} MadeIff(setup: Setup, data: Row, i: nat, d: Row)
    requires i <= |HandlersFor(setup, data.key.param)|
    ensures d in Made(setup, data, i) <==> MadeFrom(setup, data, i, d)
    decreases |HandlersFor(setup, data.key.param)| - i
  {
    if i < |HandlersFor(setup, data.key.param)| {
      MadeNext(setup, data, i, d);
      MadeFromNext(setup, data, i, d);
      MadeIff(setup, data, i + 1, d);
    }
  }

  lemma MadeNext(setup: Setup, data: Row, i: nat, d: Row)
    requires i < |HandlersFor(setup, data.key.param)|
    ensures d in Made(setup, data, i)
            <==> || Step(setup, HandlersFor(setup, data.key.param)[i], data) == Produced(d)
                 || d in Made(setup, data, i + 1)
  {
  }

  /** The recursion ends exactly if it does on every row made of the trigger. */
  lemma EndsByCalls(setup: Setup, data: Row)
    ensures Ends(setup, data) <==> forall d :: SelfCall(setup, data, d) ==> Ends(setup, d)
  {
    var made := if Admitted(setup, data.key) then Made(setup, data, 0) else [];
    forall d
      ensures Calls(setup)(data, d) <==> d in made
    {
      MadeIff(setup, data, 0, d);
    }
    Chains.EndsIff(Calls(setup), data, made);
  }

  /** The key of the station pressure that is generated from a trigger. */
  function GeneratedPressure(k: Key): Key {
    k.(param := PO, typeId := Negative(k.typeId))
  }

  /** Admitted, computable, and stored before. */
  predicate Loops(setup: Setup, a: Aggregator, k: Key)
    requires a.PoAggregator?
  {
    Admitted(setup, k) && CanCompute(setup, a, k) && setup.read(PreviousPoQuery(k)) != []
  }

  lemma OnlyCall(setup: Setup, a: Aggregator, data: Row, d: Row)
    requires data.key.param == PO && HandlersFor(setup, PO) == [a]
    ensures SelfCall(setup, data, d) <==> Admitted(setup, data.key) && Step(setup, a, data) == Produced(d)
  {
    if Step(setup, a, data) == Produced(d) {
      assert HandlersFor(setup, PO)[0] == a;
    }
  }

  /**
   * On a generated station pressure the recursion goes on for ever exactly when
   * the filters admit it, it can be computed, and it was stored before.
   */
  lemma GeneratedPressureEndsIff(setup: Setup, a: Aggregator, data: Row)
    requires a.PoAggregator? && HandlersFor(setup, PO) == [a]
    requires data.key.param == PO && data.key.typeId <= 0 && InstantReads(setup, data.key)
    ensures Ends(setup, data) <==> !Loops(setup, a, data.key)
  {
    PressureRepeatsIff(setup, a, data);
    GeneratedPressureStep(setup, a, data);
    if Loops(setup, a, data.key) {
      var d := Step(setup, a, data).row;
      OnlyCall(setup, a, data, d);
      OnlyCall(setup, a, d, d);
      if Ends(setup, data) {
        SelfCallIsShallower(setup, data, d);
        SelfCallIsShallower(setup, d, d);
        assert false;
      }
    } else {
      forall d | SelfCall(setup, data, d)
        ensures Ends(setup, d)
      {
        OnlyCall(setup, a, data, d);
        forall d'
          ensures !SelfCall(setup, d, d')
        {
          OnlyCall(setup, a, d, d');
        }
        EndsByCalls(setup, d);
      }
      EndsByCalls(setup, data);
    }
  }

  /** With the configured table, triggers other than pressure and temperature are never in doubt. */
  lemma {:induction false} OthersEnd(setup: Setup, data: Row)
    requires Configured(setup) && data.key.param !in {PR, TA, PO}
    ensures Ends(setup, data)
    decreases Rank(data.key.param)
  {
    ConfiguredIsRanked(setup);
    forall d | SelfCall(setup, data, d)
      ensures Ends(setup, d)
    {
      CallWrites(setup, data, d);
      OthersEnd(setup, d);
    }
    EndsByCalls(setup, data);
  }

  lemma CallWrites(setup: Setup, data: Row, d: Row)
    requires Configured(setup) && SelfCall(setup, data, d)
    ensures d.key.param in WritesOf(data.key.param)
    ensures d.key.param == PO ==> d.key == GeneratedPressure(data.key)
    ensures d.key.param != PO ==> d.key.param !in {PR, TA} && Rank(d.key.param) < Rank(data.key.param)
  {
    var p := data.key.param;
    var i := Caller(setup, data, d);
    assert Fits(HandlersFor(setup, p), p, WritesOf(p));
    WritesDescend(p, i);
  }

  lemma Caller(setup: Setup, data: Row, d: Row) returns (i: nat)
    requires SelfCall(setup, data, d)
    ensures i < |HandlersFor(setup, data.key.param)|
    ensures Step(setup, HandlersFor(setup, data.key.param)[i], data) == Produced(d)
  {
    i :| 0 <= i < |HandlersFor(setup, data.key.param)| &&
         Step(setup, HandlersFor(setup, data.key.param)[i], data) == Produced(d);
  }

  lemma WritesDescend(p: int, i: nat)
    requires i < |WritesOf(p)|
    ensures WritesOf(p)[i] !in {PR, TA}
    ensures WritesOf(p)[i] != PO ==> Rank(WritesOf(p)[i]) < Rank(p)
  {
  }

  /**
   * With the configured table the recursion ends on a trigger exactly unless a
   * station pressure is made of it that the filters admit, that can be computed
   * from generated sea level pressure, and that was stored before.
   */
  lemma RecursionEndsIff(setup: Setup, a: Aggregator, data: Row)
    requires Configured(setup) && a.PoAggregator? && HandlersFor(setup, PO) == [a]
    requires InstantReads(setup, GeneratedPressure(data.key))
    ensures Ends(setup, data)
            <==> !(Loops(setup, a, GeneratedPressure(data.key))
                   && exists d :: SelfCall(setup, data, d) && d.key == GeneratedPressure(data.key))
  {
    forall d | SelfCall(setup, data, d)
      ensures Ends(setup, d) <==> !(d.key == GeneratedPressure(data.key) && Loops(setup, a, d.key))
    {
      CallWrites(setup, data, d);
      if d.key.param == PO {
        GeneratedPressureEndsIff(setup, a, d);
      } else {
        OthersEnd(setup, d);
      }
    }
    EndsByCalls(setup, data);
  }

  // ---- A store on which it does not end ----

  /** Sea level pressure, temperature and station pressure of one generated series and time. */
  function GeneratedDay(k: Key, value: Value): seq<Row> {
    [Row(k.(param := PR), value), Row(k.(param := TA), value), Row(k.(param := PO), value)]
  }

  /** A window of one second and its last instant select the same rows. */
  lemma {:induction false} SecondIsInstant(rows: seq<Row>, q: Query)
    requires q.from == q.to
    ensures Keep(ByQuery(SourceSide, q.(from := q.to - 1)), rows) == Keep(ByQuery(SourceSide, q), rows)
  {
    if rows != [] {
      SecondIsInstant(rows[..|rows| - 1], q);
    }
  }

  lemma StoreAnswersInWindow(setup: Setup, stored: seq<Row>)
    requires setup.read == StoreReads(stored)
    ensures AnswersInWindow(setup)
  {
    forall q: Query | q.from < q.to
      ensures InWindow(setup.read(q), q.from, q.to)
    {
      KeepMembers(ByQuery(SourceSide, q), stored);
      forall i | 0 <= i < |setup.read(q)|
        ensures q.from < setup.read(q)[i].key.obstime <= q.to
      {
        assert setup.read(q)[i] in setup.read(q);
      }
    }
  }

  lemma ReadsOne(stored: seq<Row>, q: Query, r: Row)
    requires r in stored && Selects(SourceSide, q, r.key)
    ensures StoreReads(stored)(q) != []
  {
    KeepMembers(ByQuery(SourceSide, q), stored);
  }

  lemma GeneratedDayReads(setup: Setup, k: Key, value: Value)
    requires k.param == PO && k.typeId < 0 && k.station != ALL_STATIONS
    requires setup.read == StoreReads(GeneratedDay(k, value))
    ensures InstantReads(setup, k)
    ensures setup.read(PreviousPoQuery(k)) != []
    ensures setup.read(SourceQuery(k, TimeSpan(k.obstime - 1, k.obstime), PR)) != []
    ensures setup.read(SourceQuery(k, TimeSpan(k.obstime - 1, k.obstime), TA)) != []
  {
    var stored := GeneratedDay(k, value);
    var span := TimeSpan(k.obstime - 1, k.obstime);
    StoreAnswersInWindow(setup, stored);
    SecondIsInstant(stored, PreviousPoQuery(k));
    KeepMembers(ByQuery(SourceSide, PreviousPoQuery(k)), stored);
    ReadsOne(stored, PreviousPoQuery(k), stored[2]);
    ReadsOne(stored, SourceQuery(k, span, PR), stored[0]);
    ReadsOne(stored, SourceQuery(k, span, TA), stored[1]);
  }

  /**
   * A store of three rows, one of them generated sea level pressure, on which the
   * recursion does not end. That rows like it do not come into being is all that
   * ends it.
   */
  lemma PressureCanRepeatForever(data: Row)
    requires data.key.param == PO && data.key.typeId < 0 && data.key.station != ALL_STATIONS
    ensures exists setup: Setup ::
              && setup.read == StoreReads(GeneratedDay(data.key, data.value))
              && UniqueKeys(GeneratedDay(data.key, data.value)) && !Ends(setup, data)
  {
    var a := PoAggregator(k => Some(Constants(0.0, 0.0, 0.0)), (pr, ta, c) => pr);
    var setup := Setup(map[PO := [a]], [], [], [], StoreReads(GeneratedDay(data.key, data.value)));
    GeneratedDayReads(setup, data.key, data.value);
    GeneratedPressureEndsIff(setup, a, data);
  }

  // ---- The handler object ----

  class AggregatorHandler {
    var handlers: map<int, seq<Aggregator>>
    var interesting: set<int>
    var allowedParameters: seq<int>
    var allowedStations: seq<int>
    var allowedTypes: seq<int>
    const read: Query -> seq<Row>

    function Current(): Setup
      reads this
    {
      Setup(handlers, allowedParameters, allowedStations, allowedTypes, read)
    }

    constructor (read: Query -> seq<Row>)
      ensures handlers == map[] && interesting == {}
      ensures allowedParameters == [] && allowedStations == [] && allowedTypes == []
      ensures this.read == read
    {
      handlers, interesting := map[], {};
      allowedParameters, allowedStations, allowedTypes := [], [], [];
      this.read := read;
    }

    /** Register an aggregator under every parameter it reads, after those already there. */
    method AddHandler(a: Aggregator)
      modifies this`handlers, this`interesting
      ensures handlers == Register(old(handlers), ReadParams(a), a)
      ensures interesting == old(interesting) + Elements(ReadParams(a)) + {WriteParam(a)}
    {
      var params := ReadParams(a);
      var i := 0;
      while i < |params|
        invariant 0 <= i <= |params|
        invariant handlers == Register(old(handlers), params[..i], a)
        invariant interesting == old(interesting) + Elements(params[..i])
      {
        RegisterNext(old(handlers), params, i, a);
        interesting := interesting + {params[i]};
        handlers := Insert(handlers, params[i], a);
        i := i + 1;
      }
      assert params[..i] == params;
      interesting := interesting + {WriteParam(a)};
    }

    static method ObsTimesMatch(rows: seq<Row>, obsTimes: TimeSpan) returns (inRange: bool)
      ensures inRange == InWindow(rows, obsTimes.first, obsTimes.second)
    {
      var i := 0;
      while i < |rows|
        invariant 0 <= i <= |rows|
        invariant forall j :: 0 <= j < i ==> obsTimes.first < rows[j].key.obstime <= obsTimes.second
      {
        var obstime := rows[i].key.obstime;
        if obstime <= obsTimes.first || obstime > obsTimes.second {
          return false;
        }
        i := i + 1;
      }
      return true;
    }

    /** Read what an aggregator needs; `None` is the exception for a row outside the window. */
    method GetRelevantObsList(user: Aggregator, data: Row, obsTimes: TimeSpan) returns (out: Option<ObservationLists>)
      ensures out == RelevantLists(Current(), data.key, obsTimes, ReadParams(user))
    {
      var params := ReadParams(user);
      var lists: ObservationLists := map[];
      var i := 0;
      while i < |params|
        invariant 0 <= i <= |params|
        invariant RelevantLists(Current(), data.key, obsTimes, params[..i]) == Some(lists)
      {
        var dataForParameter := read(SourceQuery(data.key, obsTimes, params[i]));
        assert params[..i + 1] == params[..i] + [params[i]];
        ListsOfMore(Current(), data.key, obsTimes, params[..i], params[i]);
        var inRange := ObsTimesMatch(dataForParameter, obsTimes);
        if !inRange {
          RefusedPrefix(Current(), data.key, obsTimes, params, i + 1);
          return None;
        }
        lists := lists[params[i] := dataForParameter];
        i := i + 1;
      }
      assert params[..i] == params;
      out := Some(lists);
    }

    /** What one aggregator makes of a trigger. */
    method RunOne(aggregator: Aggregator, data: Row) returns (step: StepResult)
      ensures step == Step(Current(), aggregator, data)
    {
      if aggregator.Standard? && !aggregator.interested(data.key) {
        return Nothing;
      }
      var lists := GetRelevantObsList(aggregator, data, Span(aggregator, data.key.obstime));
      if lists.None? {
        return Threw;
      }
      var observations := AddTrigger(lists.value, data);
      var d := RunAggregator(Current(), aggregator, data.key, observations);
      step := if d.Some? then Produced(d.value) else Nothing;
    }

    /** `find_if` over the trigger's list, `push_back` when nothing is found. */
    static method AddTrigger(lists: ObservationLists, data: Row) returns (out: ObservationLists)
      ensures out == WithTrigger(lists, data)
    {
      var dataForParameter := ListOf(lists, data.key.param);
      var find := FindKey(dataForParameter, data.key);
      TriggerListed(dataForParameter, data.key);
      if find == |dataForParameter| {
        dataForParameter := dataForParameter + [data];
      }
      out := lists[data.key.param := dataForParameter];
    }

    /** Aggregate from a row, and from what results, appending to `out`. */
    method Process(out: seq<Row>, data: Row) returns (out': seq<Row>, threw: bool)
      requires Ends(Current(), data)
      ensures Outcome(out', threw) == Before(out, Results(Current(), data))
      decreases Depth(Current(), data), 2
    {
      if InIncludeList(data.key.param, allowedParameters)
         && InIncludeList(data.key.station, allowedStations)
         && InIncludeList(data.key.typeId, allowedTypes) {
        out', threw := RunHandlers(out, data);
      } else {
        out', threw := out + [], false;
      }
    }

    /** The handlers of the trigger's parameter in turn, each followed by what its row triggers. */
    method RunHandlers(out: seq<Row>, data: Row) returns (out': seq<Row>, threw: bool)
      requires Ends(Current(), data) && Admitted(Current(), data.key)
      ensures Outcome(out', threw) == Before(out, ResultsFrom(Current(), data, 0))
      decreases Depth(Current(), data), 1
    {
      var n := |HandlersFor(Current(), data.key.param)|;
      ghost var all := Before(out, ResultsFrom(Current(), data, 0));
      out', threw := out, false;
      var it := 0;
      while it < n
        invariant 0 <= it <= n && !threw
        invariant Before(out', ResultsFrom(Current(), data, it)) == all
      {
        out', threw := RunHandler(out', data, it);
        if threw {
          return;
        }
        it := it + 1;
      }
    }

    /** One handler, followed by what its row triggers. */
    method RunHandler(out: seq<Row>, data: Row, it: nat) returns (out': seq<Row>, threw: bool)
      requires Ends(Current(), data) && Admitted(Current(), data.key)
      requires it < |HandlersFor(Current(), data.key.param)|
      ensures Before(out, ResultsFrom(Current(), data, it))
              == if threw then Outcome(out', true) else Before(out', ResultsFrom(Current(), data, it + 1))
      decreases Depth(Current(), data), 0
    {
      var step := RunOne(HandlersFor(Current(), data.key.param)[it], data);
      match step
      case Threw =>
        out', threw := out, true;
      case Nothing =>
        out', threw := out, false;
      case Produced(d) =>
        CallDescends(Current(), it, data);
        ProducedResults(Current(), data, it, out, d);
        out', threw := Process(out + [d], d);
    }
  }

  function Elements(params: seq<int>): set<int> {
    set p | p in params
  }

  /** A multimap insert: equal keys keep their order of insertion. */
  function Insert(handlers: map<int, seq<Aggregator>>, param: int, a: Aggregator): map<int, seq<Aggregator>> {
    handlers[param := Lookup(handlers, param) + [a]]
  }

  function Register(handlers: map<int, seq<Aggregator>>, params: seq<int>, a: Aggregator): map<int, seq<Aggregator>> {
    if params == [] then handlers
    else Insert(Register(handlers, params[..|params| - 1], a), params[|params| - 1], a)
  }

  lemma RegisterNext(handlers: map<int, seq<Aggregator>>, params: seq<int>, i: nat, a: Aggregator)
    requires i < |params|
    ensures Register(handlers, params[..i + 1], a) == Insert(Register(handlers, params[..i], a), params[i], a)
    ensures Elements(params[..i + 1]) == Elements(params[..i]) + {params[i]}
  {
    assert params[..i + 1][..i] == params[..i];
    assert params[..i + 1] == params[..i] + [params[i]];
  }

  /** The table after registering aggregators one by one. */
  function Table(aggregators: seq<Aggregator>): map<int, seq<Aggregator>> {
    if aggregators == [] then map[]
    else
      var last := aggregators[|aggregators| - 1];
      Register(Table(aggregators[..|aggregators| - 1]), ReadParams(last), last)
  }

  /** The aggregators that read a parameter, in order of registration. */
  function ReadersOf(aggregators: seq<Aggregator>, p: int): seq<Aggregator> {
    if aggregators == [] then []
    else
      var last := aggregators[|aggregators| - 1];
      var before := ReadersOf(aggregators[..|aggregators| - 1], p);
      if p in ReadParams(last) then before + [last] else before
  }

  predicate NoRepeats(params: seq<int>) {
    forall i, j :: 0 <= i < j < |params| ==> params[i] != params[j]
  }

  lemma {:induction false} RegisterLookup(handlers: map<int, seq<Aggregator>>, params: seq<int>, a: Aggregator, p: int)
    requires NoRepeats(params)
    ensures Lookup(Register(handlers, params, a), p) == Lookup(handlers, p) + (if p in params then [a] else [])
  {
    if params != [] {
      var front, last := params[..|params| - 1], params[|params| - 1];
      RegisterLookup(handlers, front, a, p);
      assert p in params <==> p in front || p == last;
    }
  }

  lemma {:induction false} TableLookup(aggregators: seq<Aggregator>, p: int)
    ensures Lookup(Table(aggregators), p) == ReadersOf(aggregators, p)
  {
    if aggregators != [] {
      var front, last := aggregators[..|aggregators| - 1], aggregators[|aggregators| - 1];
      TableLookup(front, p);
      RegisterLookup(Table(front), ReadParams(last), last, p);
      assert ReadersOf(front, p) + [] == ReadersOf(front, p);
    }
  }

  // What the program registers at start-up: the parameters read and written, in order.

  const STARTUP_COUNT := 13
  const PO_POSITION := 11

  function StartupRead(k: nat): int {
    if k == 0 then TAN
    else if k == 1 then TAX
    else if k == 2 then TGN
    else if k == 3 then RR_01
    else if k == 4 then RR_1
    else if k == 5 then RR_12
    else if k == 6 || k == 7 then RA
    else if k == 8 then TA
    else if k == 9 then UU
    else if k == 10 then NN
    else if k == PO_POSITION then PR
    else OT_1
  }

  function StartupWrite(k: nat): int {
    if k == 0 then TAN_12
    else if k == 1 then TAX_12
    else if k == 2 then TGN_12
    else if k == 3 then RR_1
    else if k == 4 then RR_12
    else if k == 5 then RR_24
    else if k == 6 || k == 7 then RR_12
    else if k == 8 then TAM_24
    else if k == 9 then UUM_24
    else if k == 10 then NNM_24
    else if k == PO_POSITION then PO
    else OT_24
  }

  predicate StartupAggregators(aggregators: seq<Aggregator>) {
    && |aggregators| == STARTUP_COUNT
    && forall i :: 0 <= i < |aggregators| ==>
         && (aggregators[i].PoAggregator? <==> i == PO_POSITION)
         && ReadParams(aggregators[i]) == (if i == PO_POSITION then [PR, TA, PO] else [StartupRead(i)])
         && WriteParam(aggregators[i]) == StartupWrite(i)
  }

  /** A parameter with at most two readers has exactly these in its list, the earlier one first. */
  lemma {:induction false} ReadersAre(aggregators: seq<Aggregator>, p: int, i: nat, j: nat)
    requires i <= j
    requires forall k :: 0 <= k < |aggregators| ==> (p in ReadParams(aggregators[k]) <==> k == i || k == j)
    ensures ReadersOf(aggregators, p)
            == (if i < |aggregators| then [aggregators[i]] else [])
               + (if i < j < |aggregators| then [aggregators[j]] else [])
  {
    if aggregators != [] {
      var n := |aggregators| - 1;
      ReadersAre(aggregators[..n], p, i, j);
      assert p in ReadParams(aggregators[n]) <==> n == i || n == j;
    }
  }

  /** Does the `k`th start-up aggregator read the parameter? */
  predicate StartupReads(k: nat, p: int) {
    p == StartupRead(k) || (k == PO_POSITION && (p == TA || p == PO))
  }

  lemma ReadsAtStartup(aggregators: seq<Aggregator>, k: nat, p: int)
    requires StartupAggregators(aggregators) && k < |aggregators|
    ensures p in ReadParams(aggregators[k]) <==> StartupReads(k, p)
  {
  }

  lemma ReadersAtStartup(aggregators: seq<Aggregator>, p: int)
    requires StartupAggregators(aggregators)
    ensures Fits(ReadersOf(aggregators, p), p, WritesOf(p))
  {
    var i, j := StartupReaders(p);
    forall k | 0 <= k < |aggregators|
      ensures p in ReadParams(aggregators[k]) <==> k == i || k == j
    {
      ReadsAtStartup(aggregators, k, p);
    }
    ReadersAre(aggregators, p, i, j);
    PositionsFit(aggregators, p, i, j);
  }

  lemma PositionsFit(aggregators: seq<Aggregator>, p: int, i: nat, j: nat)
    requires StartupAggregators(aggregators) && i <= j
    requires WritesOf(p) == (if i < STARTUP_COUNT then [StartupWrite(i)] else [])
                            + (if i < j < STARTUP_COUNT then [StartupWrite(j)] else [])
    requires i < STARTUP_COUNT ==> StartupReads(i, p)
    requires i < j < STARTUP_COUNT ==> StartupReads(j, p)
    ensures Fits((if i < |aggregators| then [aggregators[i]] else [])
                 + (if i < j < |aggregators| then [aggregators[j]] else []), p, WritesOf(p))
  {
  }

  /** The positions of a parameter's readers; positions past the end stand for none. */
  lemma StartupReaders(p: int) returns (i: nat, j: nat)
    ensures i <= j
    ensures forall k :: 0 <= k < STARTUP_COUNT ==> (StartupReads(k, p) <==> k == i || k == j)
    ensures WritesOf(p) == (if i < STARTUP_COUNT then [StartupWrite(i)] else [])
                           + (if i < j < STARTUP_COUNT then [StartupWrite(j)] else [])
  {
    if p == RA {
      i, j := 6, 7;
    } else if p == TA {
      i, j := 8, PO_POSITION;
    } else {
      i := if p == TAN then 0
           else if p == TAX then 1
           else if p == TGN then 2
           else if p == RR_01 then 3
           else if p == RR_1 then 4
           else if p == RR_12 then 5
           else if p == UU then 9
           else if p == NN then 10
           else if p == PR || p == PO then PO_POSITION
           else if p == OT_1 then 12
           else STARTUP_COUNT;
      j := i;
    }
  }

  /** Registering the thirteen start-up aggregators produces the table the bounds are proved for. */
  lemma StartupTableIsConfigured(aggregators: seq<Aggregator>, setup: Setup)
    requires StartupAggregators(aggregators) && setup.handlers == Table(aggregators)
    ensures Configured(setup)
  {
    forall p
      ensures Fits(HandlersFor(setup, p), p, WritesOf(p))
    {
      TableLookup(aggregators, p);
      ReadersAtStartup(aggregators, p);
    }
  }

  /** Rows appended earlier come before those still to come. */
  function Before(rows: seq<Row>, rest: Outcome): Outcome {
    Outcome(rows + rest.rows, rest.threw)
  }

  lemma ProducedResults(setup: Setup, data: Row, i: nat, rows: seq<Row>, d: Row)
    requires Ends(setup, data) && Admitted(setup, data.key) && i < |HandlersFor(setup, data.key.param)|
    requires Step(setup, HandlersFor(setup, data.key.param)[i], data) == Produced(d) && Ends(setup, d)
    ensures Before(rows, ResultsFrom(setup, data, i))
            == if Results(setup, d).threw then Outcome(rows + [d] + Results(setup, d).rows, true)
               else Before(rows + [d] + Results(setup, d).rows, ResultsFrom(setup, data, i + 1))
  {
    var inner := Results(setup, d);
    Regroup(rows, [d], inner.rows);
    if !inner.threw {
      var rest := ResultsFrom(setup, data, i + 1).rows;
      Regroup(rows, [d] + inner.rows, rest);
    }
  }

  lemma Regroup(a: seq<Row>, b: seq<Row>, c: seq<Row>)
    ensures a + (b + c) == a + b + c
  {
  }
}
