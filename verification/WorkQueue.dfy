/**
 * The queue of incoming batches and its worker threads.
 *
 * Each critical section under the handler's mutex is one step. Batches are
 * numbered in the order in which they arrive. A batch whose processing throws
 * goes back to the front of the queue.
 */
module WorkQueue {
  import Sums

  datatype Worker =
    | AtTop                  // about to enter the critical section
    | Asleep                 // waiting on the condition, not signalled
    | Signalled              // woken, about to re-enter the critical section
    | Working(batch: nat)
    | Failed(batch: nat)     // processing threw; about to requeue

  datatype State = State(
    queue: seq<nat>,
    workers: seq<Worker>,
    done: multiset<nat>,
    started: nat,            // batches that some worker has taken at least once
    arrived: nat)

  datatype Event =
    | Arrive
    | Enter(w: nat)          // top of the loop: sleep, or take a batch
    | Wake(w: nat)           // after the wait: go round again, or take a batch
    | Finish(w: nat)
    | Throw(w: nat)
    | Requeue(w: nat)
    | SpuriousWake(w: nat)

  // ---- Steps ----

  /** `notify_one`: some sleeper is signalled, if there is one. */
  ghost predicate NotifyOne(before: seq<Worker>, after: seq<Worker>) {
    if exists i :: 0 <= i < |before| && before[i].Asleep? then
      exists i :: 0 <= i < |before| && before[i].Asleep? && after == before[i := Signalled]
    else after == before
  }

  predicate Has(s: State, w: nat, what: Worker) {
    w < |s.workers| && s.workers[w] == what
  }

  /** Take the first batch of a non-empty queue. */
  function Take(s: State, w: nat): State
    requires w < |s.workers| && s.queue != []
  {
    var b := s.queue[0];
    s.(queue := s.queue[1..],
       workers := s.workers[w := Working(b)],
       started := if b >= s.started then b + 1 else s.started)
  }

  ghost predicate Step(s: State, e: Event, s': State) {
    match e
    case Arrive =>
      && NotifyOne(s.workers, s'.workers)
      && s' == s.(queue := s.queue + [s.arrived], arrived := s.arrived + 1, workers := s'.workers)
    case Enter(w) =>
      && Has(s, w, AtTop)
      && s' == if s.queue == [] then s.(workers := s.workers[w := Asleep]) else Take(s, w)
    case Wake(w) =>
      && Has(s, w, Signalled)
      && s' == if s.queue == [] then s.(workers := s.workers[w := AtTop]) else Take(s, w)
    case Finish(w) =>
      && w < |s.workers| && s.workers[w].Working?
      && s' == s.(workers := s.workers[w := AtTop], done := s.done + multiset{s.workers[w].batch})
    case Throw(w) =>
      && w < |s.workers| && s.workers[w].Working?
      && s' == s.(workers := s.workers[w := Failed(s.workers[w].batch)])
    case Requeue(w) =>
      && w < |s.workers| && s.workers[w].Failed?
      && NotifyOne(s.workers[w := AtTop], s'.workers)
      && s' == s.(queue := [s.workers[w].batch] + s.queue, workers := s'.workers)
    case SpuriousWake(w) =>
      && Has(s, w, Asleep)
      && s' == s.(workers := s.workers[w := Signalled])
  }

  ghost predicate Init(s: State) {
    && s.queue == [] && s.done == multiset{} && s.started == 0 && s.arrived == 0
    && forall i :: 0 <= i < |s.workers| ==> s.workers[i].AtTop?
  }

  // ---- The invariant ----

  predicate Holds(worker: Worker, b: nat) {
    worker == Working(b) || worker == Failed(b)
  }

  function Holders(workers: seq<Worker>, b: nat): nat {
    if workers == [] then 0
    else Holders(workers[..|workers| - 1], b) + (if Holds(workers[|workers| - 1], b) then 1 else 0)
  }

  function Signals(workers: seq<Worker>): nat {
    if workers == [] then 0
    else Signals(workers[..|workers| - 1]) + (if workers[|workers| - 1].Signalled? then 1 else 0)
  }

  /** In how many places a batch is. */
  function Places(s: State, b: nat): nat {
    multiset(s.queue)[b] + Holders(s.workers, b) + s.done[b]
  }

  /** Each arrived batch is queued, held by one worker, or done; and nothing else is. */
  ghost predicate Conserved(s: State) {
    forall b: nat :: Places(s, b) == if b < s.arrived then 1 else 0
  }

  /**
   * Batches no worker has taken yet are the most recent arrivals, and they wait
   * at the end of the queue in order of arrival; requeued ones wait before them.
   */
  ghost predicate FreshLast(s: State) {
    var untouched := s.arrived - s.started;
    && 0 <= untouched <= |s.queue|
    && (forall i :: 0 <= i < |s.queue| - untouched ==> s.queue[i] < s.started)
    && (forall i :: |s.queue| - untouched <= i < |s.queue| ==> s.queue[i] == s.arrived - (|s.queue| - i))
  }

  ghost predicate SomeAsleep(workers: seq<Worker>) {
    exists i :: 0 <= i < |workers| && workers[i].Asleep?
  }

  /** While somebody sleeps, every queued batch has a signalled worker coming for it. */
  ghost predicate NoLostWakeUp(s: State) {
    SomeAsleep(s.workers) ==> |s.queue| <= Signals(s.workers)
  }

  ghost predicate Inv(s: State) {
    Conserved(s) && FreshLast(s) && NoLostWakeUp(s)
  }

  // ---- One worker changes ----

  lemma {:induction false} HoldersUpdate(workers: seq<Worker>, w: nat, worker: Worker, b: nat)
    requires w < |workers|
    ensures Holds(workers[w], b) ==> Holders(workers, b) >= 1
    ensures Holders(workers[w := worker], b)
            == Holders(workers, b) - (if Holds(workers[w], b) then 1 else 0) + (if Holds(worker, b) then 1 else 0)
  {
    var front := workers[..|workers| - 1];
    if w < |workers| - 1 {
      HoldersUpdate(front, w, worker, b);
      assert workers[w := worker][..|workers| - 1] == front[w := worker];
    } else {
      assert workers[w := worker][..|workers| - 1] == front;
    }
  }

  lemma {:induction false} SignalsUpdate(workers: seq<Worker>, w: nat, worker: Worker)
    requires w < |workers|
    ensures workers[w].Signalled? ==> Signals(workers) >= 1
    ensures Signals(workers[w := worker])
            == Signals(workers) - (if workers[w].Signalled? then 1 else 0) + (if worker.Signalled? then 1 else 0)
  {
    var front := workers[..|workers| - 1];
    if w < |workers| - 1 {
      SignalsUpdate(front, w, worker);
      assert workers[w := worker][..|workers| - 1] == front[w := worker];
    } else {
      assert workers[w := worker][..|workers| - 1] == front;
    }
  }

  lemma NotifyHolders(before: seq<Worker>, after: seq<Worker>, b: nat)
    requires NotifyOne(before, after)
    ensures Holders(after, b) == Holders(before, b)
  {
    if i :| 0 <= i < |before| && before[i].Asleep? && after == before[i := Signalled] {
      HoldersUpdate(before, i, Signalled, b);
    }
  }

  lemma NotifySignals(before: seq<Worker>, after: seq<Worker>)
    requires NotifyOne(before, after)
    ensures |after| == |before|
    ensures SomeAsleep(after) ==> SomeAsleep(before) && Signals(after) == Signals(before) + 1
  {
    if i :| 0 <= i < |before| && before[i].Asleep? && after == before[i := Signalled] {
      SignalsUpdate(before, i, Signalled);
    }
  }

  // ---- Preservation: conservation ----

  lemma QueueFront(queue: seq<nat>, b: nat)
    requires queue != []
    ensures multiset(queue)[b] == multiset(queue[1..])[b] + (if queue[0] == b then 1 else 0)
  {
    assert queue == [queue[0]] + queue[1..];
  }

  lemma TakeKeepsPlaces(s: State, w: nat, b: nat)
    requires w < |s.workers| && s.queue != [] && (s.workers[w].AtTop? || s.workers[w].Signalled?)
    ensures Places(Take(s, w), b) == Places(s, b)
  {
    HoldersUpdate(s.workers, w, Working(s.queue[0]), b);
    QueueFront(s.queue, b);
  }

  lemma StepKeepsPlaces(s: State, e: Event, s': State, b: nat)
    requires Step(s, e, s')
    ensures Places(s', b) == Places(s, b) + (if e.Arrive? && b == s.arrived then 1 else 0)
  {
    match e
    case Arrive =>
      NotifyHolders(s.workers, s'.workers, b);
    case Requeue(w) =>
      HoldersUpdate(s.workers, w, AtTop, b);
      NotifyHolders(s.workers[w := AtTop], s'.workers, b);
      QueueFront(s'.queue, b);
    case Enter(w) =>
      if s.queue == [] {
        HoldersUpdate(s.workers, w, Asleep, b);
      } else {
        TakeKeepsPlaces(s, w, b);
      }
    case Wake(w) =>
      if s.queue == [] {
        HoldersUpdate(s.workers, w, AtTop, b);
      } else {
        TakeKeepsPlaces(s, w, b);
      }
    case Finish(w) => HoldersUpdate(s.workers, w, AtTop, b);
    case Throw(w) => HoldersUpdate(s.workers, w, s'.workers[w], b);
    case SpuriousWake(w) => HoldersUpdate(s.workers, w, Signalled, b);
  }

  lemma StepKeepsConserved(s: State, e: Event, s': State)
    requires Conserved(s) && Step(s, e, s')
    ensures Conserved(s')
  {
    forall b: nat
      ensures Places(s', b) == if b < s'.arrived then 1 else 0
    {
      StepKeepsPlaces(s, e, s', b);
    }
  }

  // ---- Preservation: order ----

  /** A batch in somebody's hands is not among the untouched ones. */
  lemma HeldIsStarted(s: State, w: nat, b: nat)
    requires Conserved(s) && FreshLast(s) && w < |s.workers| && Holds(s.workers[w], b)
    ensures b < s.started
  {
    HoldersUpdate(s.workers, w, AtTop, b);
    assert Places(s, b) >= 1;
    if b >= s.started {
      UntouchedIsQueued(s, b);
    }
  }

  lemma UntouchedIsQueued(s: State, b: nat)
    requires FreshLast(s) && s.started <= b < s.arrived
    ensures b in s.queue
  {
    assert s.queue[|s.queue| - (s.arrived - b)] == b;
  }

  lemma StepKeepsOrder(s: State, e: Event, s': State)
    requires Conserved(s) && FreshLast(s) && Step(s, e, s')
    ensures FreshLast(s')
  {
    match e
    case Requeue(w) => HeldIsStarted(s, w, s.workers[w].batch);
    case _ =>
  }

  // ---- Preservation: wake-ups ----

  lemma StepKeepsWakeUps(s: State, e: Event, s': State)
    requires NoLostWakeUp(s) && Step(s, e, s')
    ensures NoLostWakeUp(s')
  {
    match e
    case Arrive => NotifySignals(s.workers, s'.workers);
    case Requeue(w) =>
      SignalsUpdate(s.workers, w, AtTop);
      NotifySignals(s.workers[w := AtTop], s'.workers);
    case Enter(w) => WorkerKeepsWakeUps(s, w, s');
    case Wake(w) => WorkerKeepsWakeUps(s, w, s');
    case Finish(w) => WorkerKeepsWakeUps(s, w, s');
    case Throw(w) => WorkerKeepsWakeUps(s, w, s');
    case SpuriousWake(w) =>
      assert SomeAsleep(s.workers);
      SignalsUpdate(s.workers, w, Signalled);
  }

  /** One worker moves; if it used up a signal, it also took a batch or found none. */
  lemma WorkerKeepsWakeUps(s: State, w: nat, s': State)
    requires NoLostWakeUp(s)
    requires w < |s.workers| && |s'.workers| == |s.workers| && s'.workers == s.workers[w := s'.workers[w]]
    requires !s'.workers[w].Signalled?
    requires |s'.queue| <= |s.queue|
    requires s.workers[w].Signalled? ==> |s'.queue| < |s.queue| || s'.queue == []
    requires s'.workers[w].Asleep? ==> s'.queue == []
    ensures NoLostWakeUp(s')
  {
    SignalsUpdate(s.workers, w, s'.workers[w]);
  }

  lemma StepKeepsInv(s: State, e: Event, s': State)
    requires Inv(s) && Step(s, e, s')
    ensures Inv(s')
  {
    StepKeepsConserved(s, e, s');
    StepKeepsOrder(s, e, s');
    StepKeepsWakeUps(s, e, s');
  }

  lemma InitIsInv(s: State)
    requires Init(s)
    ensures Inv(s)
  {
    forall b: nat
      ensures Places(s, b) == 0
    {
      NobodyHolds(s.workers, b);
    }
  }

  lemma {:induction false} NobodyHolds(workers: seq<Worker>, b: nat)
    requires forall i :: 0 <= i < |workers| ==> !Holds(workers[i], b)
    ensures Holders(workers, b) == 0
  {
    if workers != [] {
      NobodyHolds(workers[..|workers| - 1], b);
    }
  }

  // ---- Runs ----

  /** Consecutive states of a run are related by its events. */
  ghost predicate IsRun(states: seq<State>, events: seq<Event>) {
    && |states| == |events| + 1
    && forall i :: 0 <= i < |events| ==> Step(states[i], events[i], states[i + 1])
  }

  lemma {:induction false} RunKeepsInv(states: seq<State>, events: seq<Event>, n: nat)
    requires IsRun(states, events) && Init(states[0]) && n < |states|
    ensures Inv(states[n]) && |states[n].workers| == |states[0].workers|
  {
    if n == 0 {
      InitIsInv(states[0]);
    } else {
      RunKeepsInv(states, events, n - 1);
      StepKeepsInv(states[n - 1], events[n - 1], states[n]);
    }
  }

  // ---- Nothing is left behind ----

  /** When every worker sleeps, every batch that ever arrived has been processed, once. */
  lemma AllAsleepMeansAllDone(s: State)
    requires Inv(s) && s.workers != []
    requires forall i :: 0 <= i < |s.workers| ==> s.workers[i].Asleep?
    ensures s.queue == []
    ensures forall b: nat :: s.done[b] == if b < s.arrived then 1 else 0
  {
    NobodySignalled(s.workers);
    assert s.workers[0].Asleep?;
    assert s.queue == [];
    forall b: nat
      ensures s.done[b] == if b < s.arrived then 1 else 0
    {
      NobodyHolds(s.workers, b);
      assert Places(s, b) == s.done[b];
    }
  }

  lemma {:induction false} NobodySignalled(workers: seq<Worker>)
    requires forall i :: 0 <= i < |workers| ==> !workers[i].Signalled?
    ensures Signals(workers) == 0
  {
    if workers != [] {
      NobodySignalled(workers[..|workers| - 1]);
    }
  }

  /** What a worker does of its own accord, other than throwing. */
  predicate Progress(e: Event) {
    e.Enter? || e.Wake? || e.Finish? || e.Requeue?
  }

  /** Unless everybody sleeps, some worker can move. */
  lemma SomebodyCanMove(s: State, w: nat)
    requires w < |s.workers| && !s.workers[w].Asleep?
    ensures exists e, s' :: Progress(e) && Step(s, e, s')
  {
    match s.workers[w]
    case AtTop =>
      var s' := if s.queue == [] then s.(workers := s.workers[w := Asleep]) else Take(s, w);
      assert Progress(Enter(w)) && Step(s, Enter(w), s');
    case Signalled =>
      var s' := if s.queue == [] then s.(workers := s.workers[w := AtTop]) else Take(s, w);
      assert Progress(Wake(w)) && Step(s, Wake(w), s');
    case Working(b) =>
      assert Progress(Finish(w)) &&
             Step(s, Finish(w), s.(workers := s.workers[w := AtTop], done := s.done + multiset{b}));
    case Failed(b) =>
      CanRequeue(s, w, b);
  }

  lemma CanRequeue(s: State, w: nat, b: nat)
    requires Has(s, w, Failed(b))
    ensures exists e, s' :: Progress(e) && Step(s, e, s')
  {
    var workers := s.workers[w := AtTop];
    var after := workers;
    if i :| 0 <= i < |workers| && workers[i].Asleep? {
      after := workers[i := Signalled];
    }
    assert NotifyOne(workers, after);
    assert Progress(Requeue(w)) && Step(s, Requeue(w), s.(queue := [b] + s.queue, workers := after));
  }

  /** How much the workers still have to do. */
  function Weight(worker: Worker): nat {
    match worker
    case AtTop => 1
    case Asleep => 0
    case Signalled => 2
    case Working(_) => 2
    case Failed(_) => 6
  }

  function Weights(workers: seq<Worker>): nat {
    Sums.Total(Weight, workers)
  }

  function Potential(s: State): nat {
    2 * |s.queue| + Weights(s.workers)
  }

  lemma NotifyWeight(before: seq<Worker>, after: seq<Worker>)
    requires NotifyOne(before, after)
    ensures Weights(before) <= Weights(after) <= Weights(before) + 2
  {
    if i :| 0 <= i < |before| && before[i].Asleep? && after == before[i := Signalled] {
      Sums.TotalUpdate(Weight, before, i, Signalled);
    }
  }

  /** Arrivals, failures and spurious wake-ups add at most four units; every other step uses one up. */
  lemma StepPotential(s: State, e: Event, s': State)
    requires Step(s, e, s')
    ensures Potential(s') <= Potential(s) + (if Progress(e) then -1 else 4)
  {
    match e
    case Arrive => NotifyWeight(s.workers, s'.workers);
    case Requeue(w) =>
      Sums.TotalUpdate(Weight, s.workers, w, AtTop);
      NotifyWeight(s.workers[w := AtTop], s'.workers);
    case Enter(w) => Sums.TotalUpdate(Weight, s.workers, w, s'.workers[w]);
    case Wake(w) => Sums.TotalUpdate(Weight, s.workers, w, s'.workers[w]);
    case Finish(w) => Sums.TotalUpdate(Weight, s.workers, w, s'.workers[w]);
    case Throw(w) => Sums.TotalUpdate(Weight, s.workers, w, s'.workers[w]);
    case SpuriousWake(w) => Sums.TotalUpdate(Weight, s.workers, w, s'.workers[w]);
  }

  function Disturbances(events: seq<Event>): nat {
    if events == [] then 0
    else Disturbances(events[..|events| - 1]) + (if Progress(events[|events| - 1]) then 0 else 1)
  }

  lemma {:induction false} RunPotential(states: seq<State>, events: seq<Event>)
    requires IsRun(states, events)
    ensures |events| + Potential(states[|events|]) <= Potential(states[0]) + 5 * Disturbances(events)
  {
    if events != [] {
      var n := |events|;
      RunPotential(states[..n], events[..n - 1]);
      StepPotential(states[n - 1], events[n - 1], states[n]);
    }
  }

  /** A run that cannot go on except by further disturbances. */
  ghost predicate Stuck(s: State) {
    forall e, s' :: Progress(e) ==> !Step(s, e, s')
  }

  /**
   * With finitely many arrivals, failures and spurious wake-ups a run is no
   * longer than its disturbances allow, and where it can go no further every
   * batch that arrived has been processed exactly once.
   */
  lemma EveryBatchIsProcessed(states: seq<State>, events: seq<Event>)
    requires IsRun(states, events) && Init(states[0]) && states[0].workers != []
    ensures |events| <= |states[0].workers| + 5 * Disturbances(events)
    ensures var s := states[|events|];
            Stuck(s) ==> s.queue == [] && forall b: nat :: s.done[b] == if b < s.arrived then 1 else 0
  {
    RunPotential(states, events);
    Sums.TotalOfEqual(Weight, states[0].workers, 1);
    var s := states[|events|];
    RunKeepsInv(states, events, |events|);
    if Stuck(s) {
      forall w | 0 <= w < |s.workers|
        ensures s.workers[w].Asleep?
      {
        if !s.workers[w].Asleep? {
          SomebodyCanMove(s, w);
        }
      }
      AllAsleepMeansAllDone(s);
    }
  }

  /** The first batch in the queue that no worker has taken yet is the oldest such batch. */
  lemma FirstAttemptsInOrder(s: State, i: nat)
    requires Inv(s) && i < |s.queue| && s.queue[i] >= s.started
    requires forall j :: 0 <= j < i ==> s.queue[j] < s.started
    ensures s.queue[i] == s.started
    ensures forall j :: i <= j < |s.queue| ==> s.queue[j] == s.started + (j - i)
  {
    assert s.queue[|s.queue| - (s.arrived - s.started)] == s.started;
  }

  // ---- The handler object ----

  /**
   * The handler's fields together with its threads' positions. Each method is
   * one critical section, or one thing that happens outside the mutex, and takes
   * exactly one step of the protocol.
   */
  class IncomingHandler {
    var queue: seq<nat>
    var workers: seq<Worker>
    var arrived: nat
    ghost var done: multiset<nat>
    ghost var started: nat

    ghost function Current(): State
      reads this
    {
      State(queue, workers, done, started, arrived)
    }

    constructor (noOfThreads: nat)
      ensures Init(Current()) && |workers| == noOfThreads
      ensures Inv(Current())
    {
      queue, arrived, done, started := [], 0, multiset{}, 0;
      workers := seq(noOfThreads, _ => AtTop);
      new;
      InitIsInv(Current());
    }

    method SignalOne()
      modifies this`workers
      ensures NotifyOne(old(workers), workers)
    {
      if i :| 0 <= i < |workers| && workers[i].Asleep? {
        workers := workers[i := Signalled];
      }
    }

    method OnKvDataEvent()
      requires Inv(Current())
      modifies this
      ensures Step(old(Current()), Arrive, Current()) && Inv(Current())
    {
      queue := queue + [arrived];
      arrived := arrived + 1;
      SignalOne();
      StepKeepsInv(old(Current()), Arrive, Current());
    }

    method PopFront(w: nat)
      requires w < |workers| && queue != []
      modifies this
      ensures Current() == Take(old(Current()), w)
    {
      var data := queue[0];
      started := if data >= started then data + 1 else started;
      queue := queue[1..];
      workers := workers[w := Working(data)];
    }

    /** From the top of the loop: wait if there is nothing to do, else take a batch. */
    method EnterLoop(w: nat)
      requires Inv(Current()) && Has(Current(), w, AtTop)
      modifies this
      ensures Step(old(Current()), Enter(w), Current()) && Inv(Current())
    {
      if queue == [] {
        workers := workers[w := Asleep];
      } else {
        PopFront(w);
      }
      StepKeepsInv(old(Current()), Enter(w), Current());
    }

    /** After the wait: a batch may have been taken by somebody else in between. */
    method Resume(w: nat)
      requires Inv(Current()) && Has(Current(), w, Signalled)
      modifies this
      ensures Step(old(Current()), Wake(w), Current()) && Inv(Current())
    {
      if queue == [] {
        workers := workers[w := AtTop];
      } else {
        PopFront(w);
      }
      StepKeepsInv(old(Current()), Wake(w), Current());
    }

    /** Processing ends, normally or with an exception. */
    method Process(w: nat, throws: bool)
      requires Inv(Current()) && w < |workers| && workers[w].Working?
      modifies this
      ensures Step(old(Current()), if throws then Throw(w) else Finish(w), Current()) && Inv(Current())
    {
      var data := workers[w].batch;
      if throws {
        workers := workers[w := Failed(data)];
      } else {
        workers := workers[w := AtTop];
        done := done + multiset{data};
      }
      StepKeepsInv(old(Current()), if throws then Throw(w) else Finish(w), Current());
    }

    method PutBack(w: nat)
      requires Inv(Current()) && w < |workers| && workers[w].Failed?
      modifies this
      ensures Step(old(Current()), Requeue(w), Current()) && Inv(Current())
    {
      queue := [workers[w].batch] + queue;
      workers := workers[w := AtTop];
      SignalOne();
      StepKeepsInv(old(Current()), Requeue(w), Current());
    }
  }
}
