/**
 * The reader/writer lock that protects the watermark.
 *
 * Acquiring and releasing are critical sections under the lock's own mutex, so
 * each is one step; a thread that finds the lock taken blocks on the condition
 * and tries again after it has been signalled.
 */
module RWLock {
  import Sums

  datatype Phase =
    | Idle
    | Reading
    | Writing
    | Blocked(writer: bool)     // waiting on the condition, not signalled
    | Signalled(writer: bool)   // woken, about to test the loop condition again

  datatype State = State(count: int, writer: bool, threads: seq<Phase>)

  datatype Event =
    | Acquire(t: nat, writer: bool)
    | Release(t: nat)
    | SpuriousWake(t: nat)

  // ---- Steps ----

  /** The loop condition of the two constructors. */
  predicate MustWait(s: State, writer: bool) {
    if writer then s.count != 0 || s.writer else s.writer
  }

  /** One pass through a constructor's loop: block, or take the lock. */
  function Try(s: State, t: nat, writer: bool): State
    requires t < |s.threads|
  {
    if MustWait(s, writer) then s.(threads := s.threads[t := Blocked(writer)])
    else if writer then s.(writer := true, threads := s.threads[t := Writing])
    else s.(count := s.count + 1, threads := s.threads[t := Reading])
  }

  ghost predicate NotifyOne(before: seq<Phase>, after: seq<Phase>) {
    if exists i :: 0 <= i < |before| && before[i].Blocked? then
      exists i :: 0 <= i < |before| && before[i].Blocked? && after == before[i := Signalled(before[i].writer)]
    else after == before
  }

  ghost predicate Step(s: State, e: Event, s': State) {
    match e
    case Acquire(t, writer) =>
      && t < |s.threads|
      && (s.threads[t] == Idle || s.threads[t] == Signalled(writer))
      && s' == Try(s, t, writer)
    case Release(t) =>
      && t < |s.threads|
      && (match s.threads[t]
          case Reading =>
            && s'.count == s.count - 1 && s'.writer == s.writer
            && (if s'.count == 0 then NotifyOne(s.threads[t := Idle], s'.threads)
                else s'.threads == s.threads[t := Idle])
          case Writing =>
            && s'.count == s.count && !s'.writer
            && NotifyOne(s.threads[t := Idle], s'.threads)
          case _ => false)
    case SpuriousWake(t) =>
      && t < |s.threads| && s.threads[t].Blocked?
      && s' == s.(threads := s.threads[t := Signalled(s.threads[t].writer)])
  }

  ghost predicate Init(s: State) {
    s.count == 0 && !s.writer && forall i :: 0 <= i < |s.threads| ==> s.threads[i] == Idle
  }

  // ---- The invariant ----

  function Readers(threads: seq<Phase>): nat {
    if threads == [] then 0
    else Readers(threads[..|threads| - 1]) + (if threads[|threads| - 1] == Reading then 1 else 0)
  }

  /** The fields say who is inside. */
  ghost predicate Accurate(s: State) {
    && s.count == Readers(s.threads)
    && (s.writer <==> exists i :: 0 <= i < |s.threads| && s.threads[i] == Writing)
  }

  ghost predicate Exclusive(s: State) {
    && (forall i, j :: 0 <= i < |s.threads| && 0 <= j < |s.threads| && s.threads[i] == Writing ==>
          s.threads[j] != Reading && (s.threads[j] == Writing ==> i == j))
    && (s.writer ==> s.count == 0)
  }

  ghost predicate SomeBlocked(threads: seq<Phase>) {
    exists i :: 0 <= i < |threads| && threads[i].Blocked?
  }

  ghost predicate SomeSignalled(threads: seq<Phase>) {
    exists i :: 0 <= i < |threads| && threads[i].Signalled?
  }

  predicate Free(s: State) {
    s.count == 0 && !s.writer
  }

  /** Whenever the lock is free and threads are blocked, one of the waiters is on its way. */
  ghost predicate NoLostWakeUp(s: State) {
    Free(s) && SomeBlocked(s.threads) ==> SomeSignalled(s.threads)
  }

  ghost predicate Inv(s: State) {
    Accurate(s) && Exclusive(s) && NoLostWakeUp(s)
  }

  // ---- Preservation ----

  lemma {:induction false} ReadersUpdate(threads: seq<Phase>, t: nat, phase: Phase)
    requires t < |threads|
    ensures Readers(threads[t := phase])
            == Readers(threads) - (if threads[t] == Reading then 1 else 0) + (if phase == Reading then 1 else 0)
  {
    var front := threads[..|threads| - 1];
    if t < |threads| - 1 {
      ReadersUpdate(front, t, phase);
      assert threads[t := phase][..|threads| - 1] == front[t := phase];
    } else {
      assert threads[t := phase][..|threads| - 1] == front;
    }
  }

  lemma {:induction false} ReadersAreCounted(threads: seq<Phase>)
    ensures Readers(threads) == 0 <==> forall i :: 0 <= i < |threads| ==> threads[i] != Reading
  {
    if threads != [] {
      var front := threads[..|threads| - 1];
      ReadersAreCounted(front);
      if Readers(threads) == 0 {
        forall i | 0 <= i < |threads|
          ensures threads[i] != Reading
        {
          assert i < |front| ==> front[i] != Reading;
        }
      }
    }
  }

  /** Waking a waiter changes neither who is inside nor the counts. */
  lemma NotifyEffect(before: seq<Phase>, after: seq<Phase>)
    requires NotifyOne(before, after)
    ensures |after| == |before| && Readers(after) == Readers(before)
    ensures forall i :: 0 <= i < |before| ==>
              (after[i] == before[i] || (before[i].Blocked? && after[i].Signalled?))
    ensures SomeBlocked(after) ==> SomeSignalled(after)
  {
    if i :| 0 <= i < |before| && before[i].Blocked? && after == before[i := Signalled(before[i].writer)] {
      ReadersUpdate(before, i, Signalled(before[i].writer));
      assert after[i].Signalled?;
    }
  }

  lemma AcquireKeepsInv(s: State, t: nat, writer: bool)
    requires Inv(s) && t < |s.threads| && (s.threads[t] == Idle || s.threads[t] == Signalled(writer))
    ensures Inv(Try(s, t, writer))
  {
    var s' := Try(s, t, writer);
    ReadersUpdate(s.threads, t, s'.threads[t]);
    ReadersAreCounted(s.threads);
    assert forall i :: 0 <= i < |s.threads| && i != t ==> s'.threads[i] == s.threads[i];
    assert s'.threads[t] == Writing ==> s'.writer;
  }

  lemma ReleaseKeepsInv(s: State, t: nat, s': State)
    requires Inv(s) && Step(s, Release(t), s')
    ensures Inv(s')
  {
    var threads := s.threads[t := Idle];
    ReadersUpdate(s.threads, t, Idle);
    ReadersAreCounted(s.threads);
    ReadersAreCounted(s'.threads);
    if s'.threads != threads || s'.count == 0 {
      NotifyEffect(threads, s'.threads);
    }
    assert forall i :: 0 <= i < |s.threads| && s'.threads[i] == Writing ==> s.threads[i] == Writing && i != t;
    assert forall i :: 0 <= i < |s.threads| && s'.threads[i] == Reading ==> s.threads[i] == Reading;
  }

  lemma StepKeepsInv(s: State, e: Event, s': State)
    requires Inv(s) && Step(s, e, s')
    ensures Inv(s')
  {
    match e
    case Acquire(t, writer) => AcquireKeepsInv(s, t, writer);
    case Release(t) => ReleaseKeepsInv(s, t, s');
    case SpuriousWake(t) =>
      ReadersUpdate(s.threads, t, s'.threads[t]);
      assert s'.threads[t].Signalled?;
      assert forall i :: 0 <= i < |s.threads| && i != t ==> s'.threads[i] == s.threads[i];
  }

  lemma InitIsInv(s: State)
    requires Init(s)
    ensures Inv(s)
  {
    ReadersAreCounted(s.threads);
  }

  ghost predicate IsRun(states: seq<State>, events: seq<Event>) {
    && |states| == |events| + 1
    && forall i :: 0 <= i < |events| ==> Step(states[i], events[i], states[i + 1])
  }

  lemma {:induction false} RunKeepsInv(states: seq<State>, events: seq<Event>, n: nat)
    requires IsRun(states, events) && Init(states[0]) && n < |states|
    ensures Inv(states[n])
  {
    if n == 0 {
      InitIsInv(states[0]);
    } else {
      RunKeepsInv(states, events, n - 1);
      StepKeepsInv(states[n - 1], events[n - 1], states[n]);
    }
  }

  /** Mutual exclusion and accurate counting, at every point of every run. */
  lemma WriterExcludesEverybody(states: seq<State>, events: seq<Event>, n: nat, i: nat, j: nat)
    requires IsRun(states, events) && Init(states[0]) && n < |states|
    requires i < |states[n].threads| && j < |states[n].threads| && i != j
    requires states[n].threads[i] == Writing
    ensures states[n].threads[j] != Reading && states[n].threads[j] != Writing
    ensures states[n].writer && states[n].count == 0
  {
    RunKeepsInv(states, events, n);
  }

  /** A blocked thread is never abandoned: somebody is inside, or somebody has been signalled. */
  lemma BlockedThreadsAreNotForgotten(states: seq<State>, events: seq<Event>, n: nat)
    requires IsRun(states, events) && Init(states[0]) && n < |states|
    requires SomeBlocked(states[n].threads)
    ensures exists i :: 0 <= i < |states[n].threads| &&
                        var phase := states[n].threads[i];
                        phase == Reading || phase == Writing || phase.Signalled?
  {
    RunKeepsInv(states, events, n);
    ReadersAreCounted(states[n].threads);
  }

  ghost predicate Reachable(s: State) {
    exists states: seq<State>, events: seq<Event> ::
      IsRun(states, events) && Init(states[0]) && states[|events|] == s
  }

  lemma StartIsReachable(s: State)
    requires Init(s)
    ensures Reachable(s)
  {
    var states: seq<State>, events: seq<Event> := [s], [];
    assert IsRun(states, events) && states[|events|] == s;
  }

  lemma NextIsReachable(s: State, e: Event, s': State)
    requires Reachable(s) && Step(s, e, s')
    ensures Reachable(s')
  {
    var states: seq<State>, events: seq<Event> :|
      IsRun(states, events) && Init(states[0]) && states[|events|] == s;
    var states', events' := states + [s'], events + [e];
    assert IsRun(states', events') && states'[0] == states[0] && states'[|events'|] == s';
  }

  // ---- Any number of further threads ----

  function Idles(n: nat): seq<Phase> {
    seq(n, _ => Idle)
  }

  /** The same situation with `n` more threads that do nothing. */
  function Padded(s: State, n: nat): State {
    s.(threads := s.threads + Idles(n))
  }

  lemma UpdateFront(a: seq<Phase>, b: seq<Phase>, t: nat, phase: Phase)
    requires t < |a|
    ensures (a + b)[t := phase] == a[t := phase] + b
  {
  }

  lemma PaddedNotify(before: seq<Phase>, after: seq<Phase>, n: nat)
    requires NotifyOne(before, after)
    ensures NotifyOne(before + Idles(n), after + Idles(n))
  {
    if i :| 0 <= i < |before| && before[i].Blocked? && after == before[i := Signalled(before[i].writer)] {
      assert (before + Idles(n))[i] == before[i];
      UpdateFront(before, Idles(n), i, Signalled(before[i].writer));
    }
  }

  lemma PaddedStep(s: State, e: Event, s': State, n: nat)
    requires Step(s, e, s')
    ensures Step(Padded(s, n), e, Padded(s', n))
  {
    match e
    case Acquire(t, writer) => UpdateFront(s.threads, Idles(n), t, s'.threads[t]);
    case SpuriousWake(t) => UpdateFront(s.threads, Idles(n), t, s'.threads[t]);
    case Release(t) =>
      UpdateFront(s.threads, Idles(n), t, Idle);
      if s.threads[t] == Writing || s'.count == 0 {
        PaddedNotify(s.threads[t := Idle], s'.threads, n);
      }
  }

  lemma PaddedReachable(s: State, n: nat)
    requires Reachable(s)
    ensures Reachable(Padded(s, n))
  {
    var states: seq<State>, events: seq<Event> :|
      IsRun(states, events) && Init(states[0]) && states[|events|] == s;
    var padded := seq(|states|, i requires 0 <= i < |states| => Padded(states[i], n));
    forall i | 0 <= i < |events|
      ensures Step(padded[i], events[i], padded[i + 1])
    {
      PaddedStep(states[i], events[i], states[i + 1], n);
    }
    assert IsRun(padded, events) && Init(padded[0]) && padded[|events|] == Padded(s, n);
  }

  lemma {:induction false} PaddedPasses(s: State, k: nat, s': State, t: nat, n: nat)
    requires Passes(s, k, s', t)
    ensures Passes(Padded(s, n), k, Padded(s', n), t)
    decreases k
  {
    if k > 0 {
      var e, mid :| Step(s, e, mid) && Passes(mid, k - 1, s', t);
      PaddedStep(s, e, mid, n);
      PaddedPasses(mid, k - 1, s', t, n);
    }
  }

  lemma StepKeepsThreads(s: State, e: Event, s': State)
    requires Step(s, e, s')
    ensures |s'.threads| == |s.threads| && s' != s
  {
    if e.Release? && s'.threads != s.threads[e.t := Idle] {
      NotifyEffect(s.threads[e.t := Idle], s'.threads);
    }
  }

  // ---- Readers behind readers ----

  /** Only readers are inside, and a reader is blocked with nobody on the way to wake it. */
  ghost predicate HeldUpByReaders(s: State) {
    && !s.writer && s.count > 0 && SomeBlocked(s.threads) && !SomeSignalled(s.threads)
    && forall i :: 0 <= i < |s.threads| && s.threads[i].Blocked? ==> s.threads[i] == Blocked(false)
  }

  /** Among two threads a blocked reader has the other one writing. */
  ghost predicate BehindWriter(s: State) {
    forall i :: 0 <= i < |s.threads| && s.threads[i] == Blocked(false) ==> s.writer
  }

  lemma {:induction false} TwoThreadsRun(states: seq<State>, events: seq<Event>, n: nat)
    requires IsRun(states, events) && Init(states[0]) && n < |states| && |states[n].threads| <= 2
    ensures BehindWriter(states[n])
  {
    if n > 0 {
      StepKeepsThreads(states[n - 1], events[n - 1], states[n]);
      TwoThreadsRun(states, events, n - 1);
      RunKeepsInv(states, events, n - 1);
    }
  }

  /**
   * The wake-up guarantee does not extend to readers: with three threads or
   * more, and only then, one may stay blocked while only readers are inside.
   */
  lemma ReaderMayWaitBehindReaderIff(m: nat)
    ensures (exists s :: Reachable(s) && |s.threads| == m && HeldUpByReaders(s)) <==> m >= 3
  {
    if m >= 3 {
      var s := ReaderBehindReader();
      PaddedReachable(s, m - 3);
      HeldUpWithMore(s, m - 3);
      assert |Padded(s, m - 3).threads| == m;
    } else if s :| Reachable(s) && |s.threads| == m && HeldUpByReaders(s) {
      var states: seq<State>, events: seq<Event> :|
        IsRun(states, events) && Init(states[0]) && states[|events|] == s;
      TwoThreadsRun(states, events, |events|);
    }
  }

  lemma HeldUpWithMore(s: State, n: nat)
    requires HeldUpByReaders(s)
    ensures HeldUpByReaders(Padded(s, n))
  {
    var i :| 0 <= i < |s.threads| && s.threads[i].Blocked?;
    assert Padded(s, n).threads[i] == s.threads[i];
  }

  lemma ReaderBehindReader() returns (s: State)
    ensures Reachable(s) && |s.threads| == 3 && HeldUpByReaders(s)
  {
    var s0 := State(0, false, [Idle, Idle, Idle]);
    var s1 := State(0, true, [Writing, Idle, Idle]);
    var s2 := State(0, true, [Writing, Blocked(false), Idle]);
    var s3 := State(0, true, [Writing, Blocked(false), Blocked(false)]);
    var s4 := State(0, false, [Idle, Signalled(false), Blocked(false)]);
    s := State(1, false, [Idle, Reading, Blocked(false)]);
    StartIsReachable(s0);
    NextIsReachable(s0, Acquire(0, true), s1);
    NextIsReachable(s1, Acquire(1, false), s2);
    NextIsReachable(s2, Acquire(2, false), s3);
    HandOver(s3, s4);
    NextIsReachable(s3, Release(0), s4);
    NextIsReachable(s4, Acquire(1, false), s);
    assert s.threads[2].Blocked?;
  }

  lemma HandOver(s: State, s': State)
    requires s == State(0, true, [Writing, Blocked(false), Blocked(false)])
    requires s' == State(0, false, [Idle, Signalled(false), Blocked(false)])
    ensures Step(s, Release(0), s')
  {
    var threads := s.threads[0 := Idle];
    assert threads[1] == Blocked(false);
    assert s'.threads == threads[1 := Signalled(false)];
  }

  /** `n` steps lead from one state to the other while thread `t` stays blocked. */
  ghost predicate Passes(s: State, n: nat, s': State, t: nat)
    decreases n
  {
    && t < |s.threads| && s.threads[t].Blocked?
    && if n == 0 then s == s' else exists e, mid :: Step(s, e, mid) && Passes(mid, n - 1, s', t)
  }

  lemma PassesStep(s: State, e: Event, mid: State, n: nat, s': State, t: nat)
    requires t < |s.threads| && s.threads[t].Blocked?
    requires Step(s, e, mid) && Passes(mid, n, s', t)
    ensures Passes(s, n + 1, s', t)
  {
  }

  /** With one other thread, a blocked one is signalled after at most one more step. */
  lemma TwoThreadsPass(s: State, e: Event, mid: State, e': Event, s': State, t: nat)
    requires Inv(s) && |s.threads| <= 2 && t < |s.threads| && s.threads[t].Blocked?
    requires Step(s, e, mid) && Step(mid, e', s')
    requires t < |mid.threads| && mid.threads[t].Blocked?
    ensures t < |s'.threads| && !s'.threads[t].Blocked?
  {
    StepKeepsThreads(s, e, mid);
    StepKeepsThreads(mid, e', s');
    StepKeepsInv(s, e, mid);
    StepKeepsInv(mid, e', s');
    SomebodyElse(s, t);
    SomebodyElse(mid, t);
    if s'.threads[t].Blocked? {
      SomebodyElse(s', t);
      OtherMoves(s, e, mid, t);
      OtherMoves(mid, e', s', t);
      assert false;
    }
  }

  /** A thread is blocked because another is inside, or has been signalled. */
  lemma SomebodyElse(s: State, t: nat)
    requires Inv(s) && |s.threads| <= 2 && t < |s.threads| && s.threads[t].Blocked?
    ensures |s.threads| == 2
    ensures var o := s.threads[1 - t]; o == Reading || o == Writing || o.Signalled?
  {
    ReadersAreCounted(s.threads);
  }

  /** While a thread stays blocked, the other one can only go inside. */
  lemma OtherMoves(s: State, e: Event, s': State, t: nat)
    requires Inv(s) && Inv(s') && Step(s, e, s') && |s.threads| == 2 && |s'.threads| == 2 && t < 2
    requires s.threads[t].Blocked? && s'.threads[t].Blocked?
    ensures s.threads[1 - t].Signalled? && (s'.threads[1 - t] == Reading || s'.threads[1 - t] == Writing)
  {
    ReadersAreCounted(s.threads);
    ReadersAreCounted(s'.threads);
    SomebodyElse(s', t);
    if e.Release? {
      assert s'.threads == s.threads[1 - t := Idle] || NotifyOne(s.threads[1 - t := Idle], s'.threads);
      if NotifyOne(s.threads[1 - t := Idle], s'.threads) {
        NotifyEffect(s.threads[1 - t := Idle], s'.threads);
      }
    }
  }

  /**
   * Two readers that take turns can keep a writer from ever being signalled: a
   * cycle in which it stays blocked needs three threads, and that is enough.
   */
  lemma WriterMayStayUnsignalledIff(m: nat)
    ensures (exists s, n: nat, t: nat ::
               Reachable(s) && |s.threads| == m && n > 0 && Passes(s, n, s, t) && s.threads[t] == Blocked(true))
            <==> m >= 3
  {
    if m >= 3 {
      var s := ReaderInsideWriterBlocked();
      ReadersGoRound(s);
      PaddedReachable(s, m - 3);
      PaddedPasses(s, 4, s, 2, m - 3);
      var p := Padded(s, m - 3);
      assert |p.threads| == m && Passes(p, 4, p, 2) && p.threads[2] == Blocked(true);
    } else if s, n: nat, t: nat :|
      Reachable(s) && |s.threads| == m && n > 0 && Passes(s, n, s, t) && s.threads[t] == Blocked(true) {
      NoCycleOfTwo(s, n, t);
    }
  }

  lemma NoCycleOfTwo(s: State, n: nat, t: nat)
    requires Reachable(s) && |s.threads| <= 2 && n > 0
    ensures !Passes(s, n, s, t)
  {
    if Passes(s, n, s, t) {
      var states: seq<State>, events: seq<Event> :|
        IsRun(states, events) && Init(states[0]) && states[|events|] == s;
      RunKeepsInv(states, events, |events|);
      var e, mid :| Step(s, e, mid) && Passes(mid, n - 1, s, t);
      StepKeepsThreads(s, e, mid);
      if n > 1 {
        var e', s' :| Step(mid, e', s') && Passes(s', n - 2, s, t);
        TwoThreadsPass(s, e, mid, e', s', t);
      }
    }
  }

  lemma ReaderInsideWriterBlocked() returns (s: State)
    ensures s == State(1, false, [Reading, Idle, Blocked(true)]) && Reachable(s)
  {
    var s0 := State(0, false, [Idle, Idle, Idle]);
    var s1 := State(1, false, [Reading, Idle, Idle]);
    s := State(1, false, [Reading, Idle, Blocked(true)]);
    StartIsReachable(s0);
    NextIsReachable(s0, Acquire(0, false), s1);
    NextIsReachable(s1, Acquire(2, true), s);
  }

  lemma ReadersGoRound(s: State)
    requires s == State(1, false, [Reading, Idle, Blocked(true)])
    ensures Passes(s, 4, s, 2)
  {
    var both := State(2, false, [Reading, Reading, Blocked(true)]);
    var second := State(1, false, [Idle, Reading, Blocked(true)]);
    ReadersTakeTurns(s, both, second);
    PassesStep(both, Release(1), s, 0, s, 2);
    PassesStep(second, Acquire(0, false), both, 1, s, 2);
    PassesStep(both, Release(0), second, 2, s, 2);
    PassesStep(s, Acquire(1, false), both, 3, s, 2);
  }

  lemma ReadersTakeTurns(first: State, both: State, second: State)
    requires first == State(1, false, [Reading, Idle, Blocked(true)])
    requires both == State(2, false, [Reading, Reading, Blocked(true)])
    requires second == State(1, false, [Idle, Reading, Blocked(true)])
    ensures Step(first, Acquire(1, false), both) && Step(second, Acquire(0, false), both)
    ensures Step(both, Release(0), second) && Step(both, Release(1), first)
  {
  }

  // ---- Starvation ----

  /** In the loop of `ScopedWriteLock`'s constructor, signalled or not. */
  predicate WaitsToWrite(phase: Phase) {
    phase == Blocked(true) || phase == Signalled(true)
  }

  /** `n` steps, no wake-up among them spurious, lead from one state to the other while thread `t` waits to write. */
  ghost predicate Waits(s: State, n: nat, s': State, t: nat)
    decreases n
  {
    && t < |s.threads| && WaitsToWrite(s.threads[t])
    && if n == 0 then s == s' else
       exists e: Event, mid :: !e.SpuriousWake? && Step(s, e, mid) && Waits(mid, n - 1, s', t)
  }

  lemma {:induction false} PaddedWaits(s: State, k: nat, s': State, t: nat, n: nat)
    requires Waits(s, k, s', t)
    ensures Waits(Padded(s, n), k, Padded(s', n), t)
    decreases k
  {
    if k > 0 {
      var e: Event, mid :| !e.SpuriousWake? && Step(s, e, mid) && Waits(mid, k - 1, s', t);
      PaddedStep(s, e, mid, n);
      PaddedWaits(mid, k - 1, s', t, n);
    }
  }

  /** One reader that comes back before the writer has tested the condition again. */
  lemma ReaderComesBack() returns (s: State)
    ensures s == State(1, false, [Reading, Blocked(true)]) && Reachable(s) && Waits(s, 3, s, 1)
  {
    var s0 := State(0, false, [Idle, Idle]);
    var s1 := State(1, false, [Reading, Idle]);
    s := State(1, false, [Reading, Blocked(true)]);
    StartIsReachable(s0);
    NextIsReachable(s0, Acquire(0, false), s1);
    NextIsReachable(s1, Acquire(1, true), s);
    var released := State(0, false, [Idle, Signalled(true)]);
    var back := State(1, false, [Reading, Signalled(true)]);
    WriterLosesRace(s, released, back);
  }

  lemma WriterLosesRace(s: State, released: State, back: State)
    requires s == State(1, false, [Reading, Blocked(true)])
    requires released == State(0, false, [Idle, Signalled(true)])
    requires back == State(1, false, [Reading, Signalled(true)])
    ensures Step(s, Release(0), released) && Step(released, Acquire(0, false), back) && Step(back, Acquire(1, true), s)
  {
    var threads := s.threads[0 := Idle];
    assert threads[1] == Blocked(true) && released.threads == threads[1 := Signalled(true)];
  }

  /** A thread that is alone never waits. */
  lemma {:induction false} AloneNeverWaits(states: seq<State>, events: seq<Event>, n: nat)
    requires IsRun(states, events) && Init(states[0]) && n < |states| && |states[n].threads| == 1
    ensures !states[n].threads[0].Blocked? && !states[n].threads[0].Signalled?
  {
    if n > 0 {
      StepKeepsThreads(states[n - 1], events[n - 1], states[n]);
      AloneNeverWaits(states, events, n - 1);
      RunKeepsInv(states, events, n - 1);
      ReadersAreCounted(states[n - 1].threads);
    }
  }

  /**
   * The lock is unfair, as its comment warns: readers can go round for ever,
   * back to the same state, while a writer waits and tests the condition in
   * vain. A single reader is enough: this happens with two threads or more, and
   * only then.
   */
  lemma WriterMayStarveIff(m: nat)
    ensures (exists s, n: nat, t: nat :: Reachable(s) && |s.threads| == m && n > 0 && Waits(s, n, s, t)) <==> m >= 2
  {
    if m >= 2 {
      var s := ReaderComesBack();
      PaddedReachable(s, m - 2);
      PaddedWaits(s, 3, s, 1, m - 2);
      var p := Padded(s, m - 2);
      assert |p.threads| == m && Waits(p, 3, p, 1);
    } else if s, n: nat, t: nat :| Reachable(s) && |s.threads| == m && n > 0 && Waits(s, n, s, t) {
      var states: seq<State>, events: seq<Event> :|
        IsRun(states, events) && Init(states[0]) && states[|events|] == s;
      AloneNeverWaits(states, events, |events|);
    }
  }

  // ---- Nobody is left waiting ----

  /** New requests, and wake-ups without a signal. */
  predicate Disturbance(s: State, e: Event) {
    match e
    case Acquire(t, writer) => t < |s.threads| && s.threads[t] == Idle
    case Release(t) => false
    case SpuriousWake(t) => true
  }

  /** How much the threads still have to do. */
  function Weight(phase: Phase): nat {
    match phase
    case Idle => 0
    case Reading => 2
    case Writing => 2
    case Blocked(_) => 2
    case Signalled(_) => 3
  }

  function Weights(threads: seq<Phase>): nat {
    Sums.Total(Weight, threads)
  }

  lemma NotifyWeight(before: seq<Phase>, after: seq<Phase>)
    requires NotifyOne(before, after)
    ensures Weights(after) <= Weights(before) + 1
  {
    if i :| 0 <= i < |before| && before[i].Blocked? && after == before[i := Signalled(before[i].writer)] {
      Sums.TotalUpdate(Weight, before, i, Signalled(before[i].writer));
    }
  }

  /** A disturbance adds at most two units; every other step uses one up. */
  lemma StepWeight(s: State, e: Event, s': State)
    requires Step(s, e, s')
    ensures Weights(s'.threads) <= Weights(s.threads) + (if Disturbance(s, e) then 2 else -1)
  {
    match e
    case Acquire(t, writer) => Sums.TotalUpdate(Weight, s.threads, t, s'.threads[t]);
    case SpuriousWake(t) => Sums.TotalUpdate(Weight, s.threads, t, s'.threads[t]);
    case Release(t) =>
      Sums.TotalUpdate(Weight, s.threads, t, Idle);
      if s'.threads != s.threads[t := Idle] {
        NotifyWeight(s.threads[t := Idle], s'.threads);
      }
  }

  function Disturbances(states: seq<State>, events: seq<Event>): nat
    requires |states| == |events| + 1
  {
    if events == [] then 0
    else
      var n := |events| - 1;
      Disturbances(states[..|states| - 1], events[..n]) + (if Disturbance(states[n], events[n]) then 1 else 0)
  }

  lemma {:induction false} RunWeight(states: seq<State>, events: seq<Event>)
    requires IsRun(states, events)
    ensures |events| + Weights(states[|events|].threads)
            <= Weights(states[0].threads) + 3 * Disturbances(states, events)
  {
    if events != [] {
      var n := |events|;
      RunWeight(states[..n], events[..n - 1]);
      StepWeight(states[n - 1], events[n - 1], states[n]);
    }
  }

  /** No thread can leave, or test its condition again. */
  ghost predicate Stuck(s: State) {
    forall e, s' :: Step(s, e, s') ==> Disturbance(s, e)
  }

  lemma CanRelease(s: State, t: nat)
    requires Inv(s) && t < |s.threads| && (s.threads[t] == Reading || s.threads[t] == Writing)
    ensures exists s' :: Step(s, Release(t), s')
  {
    var threads := s.threads[t := Idle];
    var woken := threads;
    if i :| 0 <= i < |threads| && threads[i].Blocked? {
      woken := threads[i := Signalled(threads[i].writer)];
    }
    assert NotifyOne(threads, woken);
    if s.threads[t] == Writing {
      assert Step(s, Release(t), State(s.count, false, woken));
    } else {
      assert Step(s, Release(t), State(s.count - 1, s.writer, if s.count - 1 == 0 then woken else threads));
    }
  }

  lemma StuckMeansIdle(s: State)
    requires Inv(s) && Stuck(s)
    ensures forall i :: 0 <= i < |s.threads| ==> s.threads[i] == Idle
  {
    forall i | 0 <= i < |s.threads|
      ensures s.threads[i] == Idle || s.threads[i].Blocked?
    {
      match s.threads[i]
      case Reading => CanRelease(s, i);
      case Writing => CanRelease(s, i);
      case Signalled(writer) => assert Step(s, Acquire(i, writer), Try(s, i, writer));
      case _ =>
    }
    ReadersAreCounted(s.threads);
    assert Free(s) && !SomeSignalled(s.threads);
  }

  /**
   * With finitely many requests and spurious wake-ups a run is no longer than
   * three steps for each, and where it can go no further every request has been
   * served: nobody is inside and nobody waits.
   */
  lemma EveryRequestIsServed(states: seq<State>, events: seq<Event>)
    requires IsRun(states, events) && Init(states[0])
    ensures |events| <= 3 * Disturbances(states, events)
    ensures var s := states[|events|];
            Stuck(s) ==> forall i :: 0 <= i < |s.threads| ==> s.threads[i] == Idle
  {
    RunWeight(states, events);
    Sums.TotalOfEqual(Weight, states[0].threads, 0);
    RunKeepsInv(states, events, |events|);
    if Stuck(states[|events|]) {
      StuckMeansIdle(states[|events|]);
    }
  }

  // ---- The lock object ----

  /** The lock's fields together with its threads' positions; each method is one critical section. */
  class RWMutex {
    var count: int
    var writer: bool
    var threads: seq<Phase>

    ghost function Current(): State
      reads this
    {
      State(count, writer, threads)
    }

    constructor (n: nat)
      ensures Init(Current()) && |threads| == n && Inv(Current())
    {
      count, writer := 0, false;
      threads := seq(n, _ => Idle);
      new;
      InitIsInv(Current());
    }

    method SignalOne()
      modifies this`threads
      ensures NotifyOne(old(threads), threads)
    {
      if i :| 0 <= i < |threads| && threads[i].Blocked? {
        threads := threads[i := Signalled(threads[i].writer)];
      }
    }

    /** One pass of `ScopedReadLock`'s constructor, from the start or after a wake-up. */
    method ReadLock(t: nat) returns (acquired: bool)
      requires Inv(Current()) && t < |threads| && (threads[t] == Idle || threads[t] == Signalled(false))
      modifies this
      ensures Step(old(Current()), Acquire(t, false), Current()) && Inv(Current())
      ensures acquired <==> threads[t] == Reading
    {
      acquired := !writer;
      if writer {
        threads := threads[t := Blocked(false)];
      } else {
        count := count + 1;
        threads := threads[t := Reading];
      }
      StepKeepsInv(old(Current()), Acquire(t, false), Current());
    }

    method ReadUnlock(t: nat)
      requires Inv(Current()) && t < |threads| && threads[t] == Reading
      modifies this
      ensures Step(old(Current()), Release(t), Current()) && Inv(Current())
    {
      count := count - 1;
      threads := threads[t := Idle];
      if count == 0 {
        SignalOne();
      }
      StepKeepsInv(old(Current()), Release(t), Current());
    }

    /** One pass of `ScopedWriteLock`'s constructor. */
    method WriteLock(t: nat) returns (acquired: bool)
      requires Inv(Current()) && t < |threads| && (threads[t] == Idle || threads[t] == Signalled(true))
      modifies this
      ensures Step(old(Current()), Acquire(t, true), Current()) && Inv(Current())
      ensures acquired <==> threads[t] == Writing
    {
      acquired := count == 0 && !writer;
      if count != 0 || writer {
        threads := threads[t := Blocked(true)];
      } else {
        writer := true;
        threads := threads[t := Writing];
      }
      StepKeepsInv(old(Current()), Acquire(t, true), Current());
    }

    method WriteUnlock(t: nat)
      requires Inv(Current()) && t < |threads| && threads[t] == Writing
      modifies this
      ensures Step(old(Current()), Release(t), Current()) && Inv(Current())
    {
      writer := false;
      threads := threads[t := Idle];
      SignalOne();
      StepKeepsInv(old(Current()), Release(t), Current());
    }
  }
}
