/**
 The event loop's wakeup protocol: the loop thread and any number of producer threads, interleaved at
 the points where they touch the pending functors, the flag and the eventfd counter.
 */
module Wakeup {
  type Functor = nat

  /** Where the loop thread stands: outside loop(), at its test, in poll, in handlers, or in a batch. */
  datatype Phase = Outside | Checking | Polling | Handling | Swapped | Running

  /**
   waking: producers between their enqueue and their Wakeup; quitting: likewise for quit().
   selfWaking: the loop thread itself stands there. ownQueued: history, it queued a functor outside
   loop() and has not swapped since. enqueued, executed: history, all functors so far.
   */
  datatype Loop = Loop(
    phase: Phase, pending: seq<Functor>, batch: seq<Functor>, calling: bool, eventfd: nat, quit: bool,
    waking: nat, quitting: nat, selfWaking: bool, ownQueued: bool,
    enqueued: seq<Functor>, executed: seq<Functor>)

  datatype Step =
    // other threads
    | Enqueue(f: Functor) | Wake | Quit | WakeForQuit
    // the loop thread, from a handler, a functor, or outside loop()
    | SelfEnqueue(f: Functor) | SelfWake | SelfQuit
    // the loop thread going round
    | Enter | Check | PollReturns | ReadWakeup | Swap | SetCalling | RunOne | FinishBatch

  const FRESH: Loop := Loop(Outside, [], [], false, 0, false, 0, 0, false, false, [], [])

  /** The counter stops one below 2^64 - 1; a write that would pass it fails and leaves it as it is. */
  const MAX_COUNT: nat := 0xffff_ffff_ffff_fffe

  function AddOne(count: nat): (r: nat)
    ensures r > 0
  {
    if count < MAX_COUNT then count + 1 else count
  }

  predicate InOwnCode(s: Loop) {
    s.phase == Outside || s.phase == Handling || s.phase == Running
  }

  predicate Enabled(s: Loop, a: Step) {
    match a
    case Enqueue(_) => true
    case Wake => s.waking > 0
    case Quit => true
    case WakeForQuit => s.quitting > 0
    case SelfEnqueue(_) => InOwnCode(s) && !s.selfWaking
    case SelfWake => s.selfWaking
    case SelfQuit => InOwnCode(s) && !s.selfWaking
    case Enter => s.phase == Outside && !s.selfWaking
    case Check => s.phase == Checking
    case PollReturns => s.phase == Polling
    case ReadWakeup => s.phase == Handling
    case Swap => s.phase == Handling
    case SetCalling => s.phase == Swapped
    case RunOne => s.phase == Running && s.batch != [] && !s.selfWaking
    case FinishBatch => s.phase == Running && s.batch == [] && !s.selfWaking
  }

  function Next(s: Loop, a: Step): Loop
    requires Enabled(s, a)
  {
    match a
    case Enqueue(f) => s.(pending := s.pending + [f], enqueued := s.enqueued + [f], waking := s.waking + 1)
    case Wake => s.(waking := s.waking - 1, eventfd := AddOne(s.eventfd))
    case Quit => s.(quit := true, quitting := s.quitting + 1)
    case WakeForQuit => s.(quitting := s.quitting - 1, eventfd := AddOne(s.eventfd))
    case SelfEnqueue(f) =>
      s.(pending := s.pending + [f], enqueued := s.enqueued + [f],
         selfWaking := s.calling, ownQueued := s.ownQueued || s.phase == Outside)
    case SelfWake => s.(selfWaking := false, eventfd := AddOne(s.eventfd))
    case SelfQuit => s.(quit := true)
    case Enter => s.(phase := Checking, quit := false)
    case Check => s.(phase := if s.quit then Outside else Polling)
    case PollReturns => s.(phase := Handling)
    case ReadWakeup => s.(eventfd := 0)
    case Swap => s.(phase := Swapped, batch := s.pending, pending := [], ownQueued := false)
    case SetCalling => s.(phase := Running, calling := true)
    case RunOne => s.(executed := s.executed + [s.batch[0]], batch := s.batch[1..])
    case FinishBatch => s.(phase := Checking, calling := false)
  }

  // ---------- no lost wakeup ----------

  /** Pending functors are announced: the counter is positive, or a producer is about to make it so. */
  predicate Announced(s: Loop) {
    s.pending != [] ==> s.eventfd > 0 || s.waking > 0
  }

  predicate QuitAnnounced(s: Loop) {
    s.quit ==> s.eventfd > 0 || s.quitting > 0
  }

  predicate Protocol(s: Loop) {
    && (s.calling <==> s.phase == Running)
    && (s.selfWaking ==> s.phase == Running)
    && match s.phase
       case Outside => Announced(s) || s.ownQueued
       case Checking => Announced(s) || s.ownQueued
       case Polling => (Announced(s) || s.ownQueued) && QuitAnnounced(s)
       case Handling => true
       case Swapped => Announced(s) && !s.ownQueued
       case Running => (Announced(s) || s.selfWaking) && !s.ownQueued
  }

  lemma StepKeepsProtocol(s: Loop, a: Step)
    requires Protocol(s) && Enabled(s, a)
    ensures Protocol(Next(s, a))
  {
  }

  // ---------- exactly once, in order ----------

  /** Executed, then the rest of the batch, then pending: exactly the enqueue order. */
  predicate InOrder(s: Loop) {
    && s.executed + s.batch + s.pending == s.enqueued
    && (s.phase != Swapped && s.phase != Running ==> s.batch == [])
  }

  lemma StepKeepsOrder(s: Loop, a: Step)
    requires InOrder(s) && Enabled(s, a)
    ensures InOrder(Next(s, a))
  {
    match a
    case Enqueue(f) => assert s.executed + s.batch + (s.pending + [f]) == s.executed + s.batch + s.pending + [f];
    case SelfEnqueue(f) => assert s.executed + s.batch + (s.pending + [f]) == s.executed + s.batch + s.pending + [f];
    case Swap => assert s.executed + s.pending + [] == s.executed + [] + s.pending;
    case RunOne => assert s.executed + [s.batch[0]] + s.batch[1..] == s.executed + s.batch;
    case _ =>
  }

  /** No step but the swap lengthens the batch, whatever is queued meanwhile; running one shortens it. */
  lemma BatchOnlyShrinks(s: Loop, a: Step)
    requires Enabled(s, a) && a != Swap
    ensures |Next(s, a).batch| == if a == RunOne then |s.batch| - 1 else |s.batch|
    ensures s.phase == Running && s.batch == [] && !s.selfWaking ==> Enabled(s, FinishBatch)
  {
  }

  // ---------- runs ----------

  ghost predicate IsRun(ss: seq<Loop>, steps: seq<Step>) {
    && |ss| == |steps| + 1 && ss[0] == FRESH
    && forall i :: 0 <= i < |steps| ==> Enabled(ss[i], steps[i]) && ss[i + 1] == Next(ss[i], steps[i])
  }

  lemma {:induction false} RunKeepsInvariants(ss: seq<Loop>, steps: seq<Step>, k: nat)
    requires IsRun(ss, steps) && k < |ss|
    ensures Protocol(ss[k]) && InOrder(ss[k])
  {
    if k > 0 {
      RunKeepsInvariants(ss, steps, k - 1);
      StepKeepsProtocol(ss[k - 1], steps[k - 1]);
      StepKeepsOrder(ss[k - 1], steps[k - 1]);
    }
  }

  // ---------- main results ----------

  /**
   In every interleaving, a loop at its poll with functors pending has a positive counter or a producer
   about to raise it, unless its own thread queued one before entering loop() and this is its first poll.
   A quit from another thread is never missed either.
   */
  lemma NoLostWakeup(ss: seq<Loop>, steps: seq<Step>, k: nat)
    requires IsRun(ss, steps) && k < |ss| && ss[k].phase == Polling
    ensures !ss[k].ownQueued ==> Announced(ss[k])
    ensures QuitAnnounced(ss[k])
  {
    RunKeepsInvariants(ss, steps, k);
  }

  /** The steps in which the loop's own thread queues a functor outside loop(). */
  predicate QueuesOutside(s: Loop, a: Step) {
    a.SelfEnqueue? && s.phase == Outside
  }

  lemma {:induction false} OwnQueuedMeansQueuedOutside(ss: seq<Loop>, steps: seq<Step>, k: nat)
    requires IsRun(ss, steps) && k < |ss| && ss[k].ownQueued
    ensures exists i :: 0 <= i < k && QueuesOutside(ss[i], steps[i]) && forall j :: i <= j < k ==> steps[j] != Swap
  {
    if QueuesOutside(ss[k - 1], steps[k - 1]) {
      assert forall j :: k - 1 <= j < k ==> steps[j] != Swap;
    } else {
      OwnQueuedMeansQueuedOutside(ss, steps, k - 1);
      var i :| 0 <= i < k - 1 && QueuesOutside(ss[i], steps[i]) && forall j :: i <= j < k - 1 ==> steps[j] != Swap;
      assert steps[k - 1] != Swap;
    }
  }

  /** So a loop whose own thread queues only from inside loop() never blocks on an unannounced functor. */
  lemma NoLostWakeupWhenQueuedInside(ss: seq<Loop>, steps: seq<Step>, k: nat)
    requires IsRun(ss, steps) && k < |ss| && ss[k].phase == Polling
    requires forall i :: 0 <= i < |steps| ==> !QueuesOutside(ss[i], steps[i])
    ensures Announced(ss[k])
  {
    RunKeepsInvariants(ss, steps, k);
    if ss[k].ownQueued {
      OwnQueuedMeansQueuedOutside(ss, steps, k);
    }
  }

  /** The exception is real: a functor queued by the loop's own thread before loop() announces itself to nobody. */
  lemma QueuedBeforeLoopIsNotAnnounced(f: Functor)
    ensures exists ss: seq<Loop>, steps: seq<Step> ::
              IsRun(ss, steps) && |ss| == 4 && ss[3].phase == Polling && ss[3].pending == [f] && !Announced(ss[3])
  {
    var steps := [SelfEnqueue(f), Enter, Check];
    var s1 := Next(FRESH, steps[0]);
    var s2 := Next(s1, steps[1]);
    var s3 := Next(s2, steps[2]);
    assert IsRun([FRESH, s1, s2, s3], steps);
  }

  /** The first k steps are the loop thread's own, up to its first poll: no other thread has done anything. */
  predicate OwnStepsToPoll(steps: seq<Step>, k: nat)
    requires k <= |steps|
  {
    forall i :: 0 <= i < k ==> steps[i].SelfEnqueue? || steps[i].SelfQuit? || steps[i].Enter? || steps[i].Check?
  }

  lemma {:induction false} OwnStepsAnnounceNothing(ss: seq<Loop>, steps: seq<Step>, k: nat)
    requires IsRun(ss, steps) && k < |ss| && OwnStepsToPoll(steps, k)
    ensures var s := ss[k];
            && (s.phase == Outside || s.phase == Checking || s.phase == Polling)
            && s.eventfd == 0 && s.waking == 0 && !s.selfWaking && !s.calling
            && (s.pending != [] <==> exists i :: 0 <= i < k && QueuesOutside(ss[i], steps[i]))
  {
    if k > 0 {
      OwnStepsAnnounceNothing(ss, steps, k - 1);
      if steps[k - 1].SelfEnqueue? {
        assert QueuesOutside(ss[k - 1], steps[k - 1]);
      }
    }
  }

  /**
   A loop left to its own thread reaches its first poll with everything announced if and only if that thread
   queued nothing outside loop().
   */
  lemma FirstPollSafeExactly(ss: seq<Loop>, steps: seq<Step>, k: nat)
    requires IsRun(ss, steps) && k < |ss| && OwnStepsToPoll(steps, k) && ss[k].phase == Polling
    ensures Announced(ss[k]) <==> forall i :: 0 <= i < k ==> !QueuesOutside(ss[i], steps[i])
  {
    OwnStepsAnnounceNothing(ss, steps, k);
  }

  // ---------- when it leaves, and what the counter counts ----------

  /** quit was called since loop() was last entered. */
  ghost predicate QuitCalled(steps: seq<Step>, k: nat)
    requires k <= |steps|
  {
    exists i :: 0 <= i < k && (steps[i] == Quit || steps[i] == SelfQuit) && forall j :: i < j < k ==> steps[j] != Enter
  }

  lemma QuitStep(s: Loop, a: Step)
    requires Enabled(s, a)
    ensures Next(s, a).quit <==> a == Quit || a == SelfQuit || (s.quit && a != Enter)
  {
  }

  lemma QuitCalledAfter(steps: seq<Step>, k: nat)
    requires k < |steps|
    ensures QuitCalled(steps, k + 1) <==>
            steps[k] == Quit || steps[k] == SelfQuit || (QuitCalled(steps, k) && steps[k] != Enter)
  {
    if QuitCalled(steps, k) && steps[k] != Enter {
      var i :| 0 <= i < k && (steps[i] == Quit || steps[i] == SelfQuit) && forall j :: i < j < k ==> steps[j] != Enter;
      assert steps[i] == Quit || steps[i] == SelfQuit;
    }
  }

  lemma {:induction false} QuitFollowsCalls(ss: seq<Loop>, steps: seq<Step>, k: nat)
    requires IsRun(ss, steps) && k < |ss|
    ensures ss[k].quit <==> QuitCalled(steps, k)
  {
    hide Next, Enabled, QuitCalled;
    if k > 0 {
      QuitFollowsCalls(ss, steps, k - 1);
      QuitStep(ss[k - 1], steps[k - 1]);
      QuitCalledAfter(steps, k - 1);
    } else {
      NotYetCalled(steps);
    }
  }

  lemma NotYetCalled(steps: seq<Step>)
    ensures !QuitCalled(steps, 0)
  {
  }

  /** At its test the loop leaves exactly when quit was called since it was entered, and polls otherwise. */
  lemma LoopLeavesExactlyOnQuit(ss: seq<Loop>, steps: seq<Step>, k: nat)
    requires IsRun(ss, steps) && k < |steps| && steps[k] == Check
    ensures ss[k + 1].phase == if QuitCalled(steps, k) then Outside else Polling
  {
    QuitFollowsCalls(ss, steps, k);
  }

  /** The reference for the counter: the writes since it was last read, up to its maximum of 2^64 - 2. */
  function WrittenSinceRead(steps: seq<Step>, k: nat): nat
    requires k <= |steps|
  {
    if k == 0 || steps[k - 1] == ReadWakeup then 0
    else
      var before := WrittenSinceRead(steps, k - 1);
      if Writes(steps[k - 1]) && before < 0x1_0000_0000_0000_0000 - 2 then before + 1 else before
  }

  predicate Writes(a: Step) {
    a == Wake || a == WakeForQuit || a == SelfWake
  }

  lemma CounterStep(s: Loop, a: Step)
    requires Enabled(s, a)
    ensures Next(s, a).eventfd ==
            if a == ReadWakeup then 0
            else if Writes(a) && s.eventfd < 0x1_0000_0000_0000_0000 - 2 then s.eventfd + 1 else s.eventfd
  {
  }

  /** So a loop that has read its counter sleeps until somebody writes it. */
  lemma {:induction false} CounterFollowsWrites(ss: seq<Loop>, steps: seq<Step>, k: nat)
    requires IsRun(ss, steps) && k < |ss|
    ensures ss[k].eventfd == WrittenSinceRead(steps, k)
  {
    hide Next, Enabled, Writes;
    if k > 0 {
      CounterFollowsWrites(ss, steps, k - 1);
      CounterStep(ss[k - 1], steps[k - 1]);
    }
  }

  /** Every functor runs exactly once and in the order of enqueueing, in every interleaving. */
  lemma FunctorsRunOnceInOrder(ss: seq<Loop>, steps: seq<Step>, k: nat)
    requires IsRun(ss, steps) && k < |ss|
    ensures ss[k].executed + ss[k].batch + ss[k].pending == ss[k].enqueued
    ensures ss[k].executed <= ss[k].enqueued
  {
    RunKeepsInvariants(ss, steps, k);
  }

  lemma BatchStep(s: Loop, a: Step)
    requires Enabled(s, a) && a != Swap
    ensures Next(s, a).executed + Next(s, a).batch == s.executed + s.batch
  {
    if a == RunOne {
      assert s.executed + [s.batch[0]] + s.batch[1..] == s.executed + s.batch;
    }
  }

  lemma SwapTakesPending(s: Loop)
    requires Enabled(s, Swap)
    ensures Next(s, Swap).executed == s.executed && Next(s, Swap).batch == s.pending
  {
  }

  /** From a swap on, a batch has run exactly the functors it took, in order, when it is used up. */
  lemma {:induction false} BatchRunsWhatItTook(ss: seq<Loop>, steps: seq<Step>, i: nat, j: nat)
    requires IsRun(ss, steps) && i < j < |ss| && steps[i] == Swap
    requires forall k :: i < k < j ==> steps[k] != Swap
    ensures ss[j].executed + ss[j].batch == ss[i].executed + ss[i].pending
    decreases j
  {
    hide Next, Enabled;
    if j == i + 1 {
      SwapTakesPending(ss[i]);
    } else {
      BatchRunsWhatItTook(ss, steps, i, j - 1);
      BatchStep(ss[j - 1], steps[j - 1]);
    }
  }
}
