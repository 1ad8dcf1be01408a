/** Catching up: aggregation of past hours, one hour at a time. */
module BackProduction {
  import opened Wrappers
  import opened Observations

  /** How one attempt at an hour ends. A refused fetch is only logged. */
  datatype Attempt = Delivered | NoData | FetchRefused | Threw

  /** An hour that was left behind: its first and last second, and how its last attempt ended. */
  datatype Hour = Hour(first: int, last: int, outcome: Attempt)

  /** What the environment answers to successive attempts; from some point on nothing throws any more. */
  function OutcomeOf(attempts: seq<Attempt>, i: nat): Attempt {
    if i < |attempts| then attempts[i] else Delivered
  }

  function ProcessedHour(time: int, outcome: Attempt): Hour {
    Hour(time, time + (60 * 60 - 1), outcome)
  }

  function StartedHours(from: int, to: int): nat {
    if to < from then 0 else (to - from) / HOUR + 1
  }

  /** Hours in a row, each attempted until an attempt does not throw. */
  predicate Consecutive(from: int, hours: seq<Hour>) {
    forall i :: 0 <= i < |hours| ==>
      hours[i].first == from + i * HOUR && hours[i].last == from + i * HOUR + HOUR - 1 && hours[i].outcome != Threw
  }

  function NotThrown(attempts: seq<Attempt>): seq<Attempt> {
    if attempts == [] then []
    else
      var last := attempts[|attempts| - 1];
      NotThrown(attempts[..|attempts| - 1]) + (if last == Threw then [] else [last])
  }

  function Outcomes(hours: seq<Hour>): seq<Attempt> {
    seq(|hours|, i requires 0 <= i < |hours| => hours[i].outcome)
  }

  function Answers(attempts: seq<Attempt>, n: nat): seq<Attempt> {
    seq(n, i requires 0 <= i => OutcomeOf(attempts, i))
  }

  /**
   * The loop ends. Unless it is stopped, it has left behind every started hour,
   * in order; an attempt is repeated exactly when it threw.
   */
  method Run(from: int, to: int, attempts: seq<Attempt>, stopAfter: Option<nat>)
    returns (hours: seq<Hour>, n: nat, stopped: bool)
    ensures Consecutive(from, hours)
    ensures Outcomes(hours) == NotThrown(Answers(attempts, n))
    ensures stopped ==> stopAfter == Some(n)
    ensures !stopped ==> |hours| == StartedHours(from, to)
    ensures |hours| <= StartedHours(from, to)
  {
    var f := from;
    hours, n := [], 0;
    while stopAfter != Some(n) && f <= to
      invariant f == from + |hours| * HOUR
      invariant |hours| <= StartedHours(from, to)
      invariant Consecutive(from, hours)
      invariant Outcomes(hours) == NotThrown(Answers(attempts, n))
      decreases if n < |attempts| then |attempts| - n else 0, to - f
    {
      var outcome := OutcomeOf(attempts, n);
      assert Answers(attempts, n + 1)[..n] == Answers(attempts, n);
      if outcome != Threw {
        assert Outcomes(hours + [ProcessedHour(f, outcome)]) == Outcomes(hours) + [outcome];
        hours := hours + [ProcessedHour(f, outcome)];
        f := f + HOUR;
      }
      n := n + 1;
    }
    stopped := stopAfter == Some(n) && f <= to;
  }

  predicate Covers(h: Hour, s: int) {
    h.first <= s <= h.last
  }

  /** Every second from the start to the end of the last started hour lies in exactly one of the hours. */
  lemma HoursTileTime(from: int, to: int, hours: seq<Hour>, s: int)
    requires Consecutive(from, hours) && |hours| == StartedHours(from, to)
    requires from <= to && from <= s < from + StartedHours(from, to) * HOUR
    ensures var i := (s - from) / HOUR;
            && 0 <= i < |hours| && Covers(hours[i], s)
            && forall j :: 0 <= j < |hours| && Covers(hours[j], s) ==> j == i
    ensures from + (StartedHours(from, to) - 1) * HOUR <= to < from + StartedHours(from, to) * HOUR
  {
  }

  /**
   * A refused fetch is not tried again. An hour is left behind without its data
   * exactly if an attempt was refused; the attempt that comes after `j` others
   * that did not throw loses hour `j`.
   */
  lemma HourIsLostIff(attempts: seq<Attempt>, n: nat, from: int, hours: seq<Hour>, j: nat)
    requires Consecutive(from, hours) && Outcomes(hours) == NotThrown(Answers(attempts, n)) && j < |hours|
    ensures hours[j].first == from + j * HOUR
    ensures hours[j].outcome == FetchRefused <==>
            exists i :: 0 <= i < n && OutcomeOf(attempts, i) == FetchRefused && |NotThrown(Answers(attempts, i))| == j
  {
    assert hours[j].outcome == Outcomes(hours)[j];
    var i := AttemptBehind(attempts, n, j);
    forall k: nat | k < n && OutcomeOf(attempts, k) == FetchRefused && |NotThrown(Answers(attempts, k))| == j
      ensures hours[j].outcome == FetchRefused
    {
      HourOfAttempt(attempts, n, k);
    }
  }

  /** Some hour is lost exactly if some fetch was refused. */
  lemma RefusedFetchLosesItsHourIff(attempts: seq<Attempt>, n: nat, from: int, hours: seq<Hour>)
    requires Consecutive(from, hours) && Outcomes(hours) == NotThrown(Answers(attempts, n))
    ensures (exists j :: 0 <= j < |hours| && hours[j].outcome == FetchRefused)
            <==> exists i :: 0 <= i < n && OutcomeOf(attempts, i) == FetchRefused
  {
    if j :| 0 <= j < |hours| && hours[j].outcome == FetchRefused {
      HourIsLostIff(attempts, n, from, hours, j);
    }
    if i :| 0 <= i < n && OutcomeOf(attempts, i) == FetchRefused {
      HourOfAttempt(attempts, n, i);
      var j := |NotThrown(Answers(attempts, i))|;
      assert hours[j].outcome == Outcomes(hours)[j];
    }
  }

  lemma {:induction false} HourOfAttempt(attempts: seq<Attempt>, n: nat, i: nat)
    requires i < n && OutcomeOf(attempts, i) != Threw
    ensures var j := |NotThrown(Answers(attempts, i))|;
            var all := NotThrown(Answers(attempts, n));
            j < |all| && all[j] == OutcomeOf(attempts, i)
  {
    assert Answers(attempts, n)[..n - 1] == Answers(attempts, n - 1);
    if i < n - 1 {
      HourOfAttempt(attempts, n - 1, i);
    }
  }

  lemma {:induction false} AttemptBehind(attempts: seq<Attempt>, n: nat, j: nat) returns (i: nat)
    requires j < |NotThrown(Answers(attempts, n))|
    ensures i < n && OutcomeOf(attempts, i) == NotThrown(Answers(attempts, n))[j]
    ensures |NotThrown(Answers(attempts, i))| == j
  {
    assert n > 0;
    var front := NotThrown(Answers(attempts, n - 1));
    assert Answers(attempts, n)[..n - 1] == Answers(attempts, n - 1);
    if j < |front| {
      i := AttemptBehind(attempts, n - 1, j);
    } else {
      i := n - 1;
    }
  }
}
