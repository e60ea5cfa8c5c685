/**
 The EventLoop object, run by its own thread with no other thread in between: each method performs a
 sequence of protocol steps of Wakeup, returned as its trace.
 */
module EventLoops {
  import opened Common
  import P = Wakeup

  type Functor = P.Functor

  /** Performs the steps one after the other; None when one of them is not possible where it stands. */
  function Perform(s: P.Loop, steps: seq<P.Step>): Option<P.Loop> {
    if steps == [] then Some(s)
    else
      match Perform(s, steps[..|steps| - 1])
      case None => None
      case Some(m) =>
        var a := steps[|steps| - 1];
        if P.Enabled(m, a) then Some(P.Next(m, a)) else None
  }

  lemma PerformOneMore(s: P.Loop, steps: seq<P.Step>, a: P.Step)
    requires Perform(s, steps).Some? && P.Enabled(Perform(s, steps).value, a)
    ensures Perform(s, steps + [a]) == Some(P.Next(Perform(s, steps).value, a))
  {
    assert (steps + [a])[..|steps|] == steps;
  }

  lemma PerformOne(s: P.Loop, a: P.Step)
    requires P.Enabled(s, a)
    ensures Perform(s, [a]) == Some(P.Next(s, a))
  {
    PerformOneMore(s, [], a);
    assert [] + [a] == [a];
  }

  lemma {:induction false} PerformBoth(s: P.Loop, first: seq<P.Step>, second: seq<P.Step>)
    requires Perform(s, first).Some?
    ensures Perform(s, first + second) == Perform(Perform(s, first).value, second)
  {
    hide P.Next, P.Enabled;
    if second == [] {
      assert first + second == first;
    } else {
      var n := |second| - 1;
      PerformBoth(s, first, second[..n]);
      assert (first + second)[..|first| + n] == first + second[..n];
    }
  }

  /** What performing the steps keeps, for any state that satisfies the protocol invariants. */
  lemma {:induction false} PerformKeepsInvariants(s: P.Loop, steps: seq<P.Step>)
    requires P.Protocol(s) && P.InOrder(s) && Perform(s, steps).Some?
    ensures P.Protocol(Perform(s, steps).value) && P.InOrder(Perform(s, steps).value)
  {
    if steps != [] {
      var init, a := steps[..|steps| - 1], steps[|steps| - 1];
      PerformKeepsInvariants(s, init);
      var m := Perform(s, init).value;
      P.StepKeepsProtocol(m, a);
      P.StepKeepsOrder(m, a);
    }
  }

  /** What every functor of a batch queues while it runs, in order. */
  function Queued(behaviour: Functor -> seq<Functor>, fs: seq<Functor>): seq<Functor> {
    if fs == [] then [] else Queued(behaviour, fs[..|fs| - 1]) + behaviour(fs[|fs| - 1])
  }

  lemma QueuedOneMore(behaviour: Functor -> seq<Functor>, fs: seq<Functor>, f: Functor)
    ensures Queued(behaviour, fs + [f]) == Queued(behaviour, fs) + behaviour(f)
  {
    assert (fs + [f])[..|fs|] == fs;
  }

  class EventLoop {
    var pendingFunctors: seq<Functor>
    var callingPendingFunctors: bool
    var eventfd: nat
    var quit: bool
    /** The functors a functor queues into this loop when it runs. */
    const behaviour: Functor -> seq<Functor>

    ghost var enqueued: seq<Functor>
    ghost var executed: seq<Functor>
    ghost var ownQueued: bool

    /** The protocol state with the loop thread at a given place and no other thread under way. */
    ghost function View(phase: P.Phase, batch: seq<Functor>): P.Loop
      reads this
    {
      P.Loop(phase, pendingFunctors, batch, callingPendingFunctors, eventfd, quit, 0, 0, false, ownQueued,
             enqueued, executed)
    }

    constructor (behaviour: Functor -> seq<Functor>)
      ensures View(P.Outside, []) == P.FRESH && this.behaviour == behaviour
    {
      this.behaviour := behaviour;
      pendingFunctors, callingPendingFunctors, eventfd, quit := [], false, 0, false;
      enqueued, executed, ownQueued := [], [], false;
    }

    method Wakeup()
      modifies this`eventfd
      ensures eventfd == P.AddOne(old(eventfd))
    {
      if eventfd < P.MAX_COUNT {
        eventfd := eventfd + 1;
      }
    }

    /** Reading the eventfd resets it; on a zero counter the read fails and leaves it zero. */
    method HandleRead()
      modifies this`eventfd
      ensures View(P.Handling, []) == P.Next(old(View(P.Handling, [])), P.ReadWakeup)
    {
      eventfd := 0;
    }

    /** From another thread: always wakes the loop. */
    method QueueInLoopFromOther(f: Functor, ghost phase: P.Phase, ghost batch: seq<Functor>)
      modifies this`pendingFunctors, this`eventfd, this`enqueued, this`ownQueued
      ensures View(phase, batch) == P.Next(P.Next(old(View(phase, batch)), P.Enqueue(f)), P.Wake)
    {
      QueueInLoop(f, false, phase);
    }

    /** From the loop thread's own code: wakes the loop only while a batch runs. */
    method QueueInLoopFromOwn(f: Functor, ghost phase: P.Phase, ghost batch: seq<Functor>)
      returns (ghost steps: seq<P.Step>)
      requires P.InOwnCode(View(phase, batch)) && (callingPendingFunctors <==> phase == P.Running)
      modifies this`pendingFunctors, this`eventfd, this`enqueued, this`ownQueued
      ensures steps == if phase == P.Running then [P.SelfEnqueue(f), P.SelfWake] else [P.SelfEnqueue(f)]
      ensures Perform(old(View(phase, batch)), steps) == Some(View(phase, batch))
      ensures pendingFunctors == old(pendingFunctors) + [f] && enqueued == old(enqueued) + [f]
    {
      ghost var s := View(phase, batch);
      steps := [P.SelfEnqueue(f)];
      PerformOneMore(s, [], P.SelfEnqueue(f));
      assert [] + steps == steps;
      if callingPendingFunctors {
        PerformOneMore(s, steps, P.SelfWake);
        steps := steps + [P.SelfWake];
      }
      QueueInLoop(f, true, phase);
    }

    method QueueInLoop(f: Functor, isInLoopThread: bool, ghost phase: P.Phase)
      modifies this`pendingFunctors, this`eventfd, this`enqueued, this`ownQueued
      ensures pendingFunctors == old(pendingFunctors) + [f] && enqueued == old(enqueued) + [f]
      ensures eventfd == if !isInLoopThread || callingPendingFunctors then P.AddOne(old(eventfd)) else old(eventfd)
      ensures ownQueued == (old(ownQueued) || (isInLoopThread && phase == P.Outside))
    {
      pendingFunctors := pendingFunctors + [f];
      enqueued := enqueued + [f];
      ownQueued := ownQueued || (isInLoopThread && phase == P.Outside);
      if !isInLoopThread || callingPendingFunctors {
        Wakeup();
      }
    }

    /** The functors a running functor, or an event handler, queues one after the other. */
    method QueueAll(fs: seq<Functor>, ghost phase: P.Phase, ghost batch: seq<Functor>)
      returns (ghost steps: seq<P.Step>)
      requires P.InOwnCode(View(phase, batch)) && (callingPendingFunctors <==> phase == P.Running)
      modifies this`pendingFunctors, this`eventfd, this`enqueued, this`ownQueued
      ensures Perform(old(View(phase, batch)), steps) == Some(View(phase, batch))
      ensures pendingFunctors == old(pendingFunctors) + fs && enqueued == old(enqueued) + fs
    {
      ghost var s := View(phase, batch);
      steps := [];
      for i := 0 to |fs|
        invariant Perform(s, steps) == Some(View(phase, batch))
        invariant pendingFunctors == old(pendingFunctors) + fs[..i] && enqueued == old(enqueued) + fs[..i]
      {
        ghost var more := QueueInLoopFromOwn(fs[i], phase, batch);
        PerformBoth(s, steps, more);
        steps := steps + more;
        assert fs[..i + 1] == fs[..i] + [fs[i]];
      }
    }

    /** cb(): the functor runs and queues what it queues. */
    method RunFunctor(cb: Functor, ghost batch: seq<Functor>) returns (ghost steps: seq<P.Step>)
      requires callingPendingFunctors && batch != [] && batch[0] == cb
      modifies this`pendingFunctors, this`eventfd, this`enqueued, this`ownQueued, this`executed
      ensures Perform(old(View(P.Running, batch)), steps) == Some(View(P.Running, batch[1..]))
      ensures executed == old(executed) + [cb]
      ensures pendingFunctors == old(pendingFunctors) + behaviour(cb) && enqueued == old(enqueued) + behaviour(cb)
    {
      ghost var s := View(P.Running, batch);
      PerformOneMore(s, [], P.RunOne);
      assert [] + [P.RunOne] == [P.RunOne];
      executed := executed + [cb];
      ghost var more := QueueAll(behaviour(cb), P.Running, batch[1..]);
      PerformBoth(s, [P.RunOne], more);
      steps := [P.RunOne] + more;
    }

    /** The swap under the lock, and the flag. */
    method TakeBatch() returns (vec: seq<Functor>)
      requires !callingPendingFunctors
      modifies this`pendingFunctors, this`callingPendingFunctors, this`ownQueued
      ensures vec == old(pendingFunctors) && pendingFunctors == [] && callingPendingFunctors
      ensures Perform(old(View(P.Handling, [])), [P.Swap, P.SetCalling]) == Some(View(P.Running, vec))
    {
      ghost var s := View(P.Handling, []);
      vec := pendingFunctors;
      pendingFunctors, ownQueued := [], false;
      callingPendingFunctors := true;
      PerformOne(s, P.Swap);
      hide Perform;
      PerformOneMore(s, [P.Swap], P.SetCalling);
      assert [P.Swap] + [P.SetCalling] == [P.Swap, P.SetCalling];
    }

    /** The loop over the batch. */
    method RunBatch(vec: seq<Functor>) returns (ghost steps: seq<P.Step>)
      requires callingPendingFunctors && pendingFunctors == []
      modifies this`pendingFunctors, this`eventfd, this`enqueued, this`ownQueued, this`executed
      ensures Perform(old(View(P.Running, vec)), steps) == Some(View(P.Running, []))
      ensures executed == old(executed) + vec
      ensures pendingFunctors == Queued(behaviour, vec) && enqueued == old(enqueued) + Queued(behaviour, vec)
    {
      ghost var s := View(P.Running, vec);
      steps := [];
      assert Perform(s, []) == Some(s) && vec[0..] == vec && Queued(behaviour, []) == [];
      hide Perform, Queued;
      for i := 0 to |vec|
        invariant Perform(s, steps) == Some(View(P.Running, vec[i..]))
        invariant Progress(vec[..i], old(executed), old(enqueued))
      {
        steps := RunNext(vec, i, s, steps, old(executed), old(enqueued));
      }
      assert vec[..|vec|] == vec && vec[|vec|..] == [];
    }

    /** What running some functors from an empty pending list leaves. */
    ghost predicate Progress(done: seq<Functor>, executedBefore: seq<Functor>, enqueuedBefore: seq<Functor>)
      reads this
    {
      && executed == executedBefore + done
      && pendingFunctors == Queued(behaviour, done)
      && enqueued == enqueuedBefore + Queued(behaviour, done)
    }

    /** One turn of the loop over the batch. */
    method RunNext(vec: seq<Functor>, i: nat, ghost s: P.Loop, ghost steps: seq<P.Step>,
                   ghost executedBefore: seq<Functor>, ghost enqueuedBefore: seq<Functor>)
      returns (ghost longer: seq<P.Step>)
      requires callingPendingFunctors && i < |vec|
      requires Perform(s, steps) == Some(View(P.Running, vec[i..])) &&
               Progress(vec[..i], executedBefore, enqueuedBefore)
      modifies this`pendingFunctors, this`eventfd, this`enqueued, this`ownQueued, this`executed
      ensures Perform(s, longer) == Some(View(P.Running, vec[i + 1..])) &&
              Progress(vec[..i + 1], executedBefore, enqueuedBefore)
    {
      hide Perform, Queued;
      ghost var more := RunFunctor(vec[i], vec[i..]);
      assert vec[i..][1..] == vec[i + 1..];
      PerformBoth(s, steps, more);
      longer := steps + more;
      QueuedOneMore(behaviour, vec[..i], vec[i]);
      assert vec[..i + 1] == vec[..i] + [vec[i]];
    }

    /** One batch from swap to end; what its functors queue waits for the next one. */
    method DoPendingFunctors() returns (ghost steps: seq<P.Step>)
      requires !callingPendingFunctors
      modifies this
      ensures Perform(old(View(P.Handling, [])), steps) == Some(View(P.Checking, []))
      ensures executed == old(executed) + old(pendingFunctors) && !callingPendingFunctors
      ensures pendingFunctors == Queued(behaviour, old(pendingFunctors))
      ensures enqueued == old(enqueued) + Queued(behaviour, old(pendingFunctors))
    {
      ghost var s := View(P.Handling, []);
      var vec := TakeBatch();
      ghost var run := RunBatch(vec);
      PerformBoth(s, [P.Swap, P.SetCalling], run);
      steps := [P.Swap, P.SetCalling] + run;
      PerformOneMore(s, steps, P.FinishBatch);
      steps := steps + [P.FinishBatch];
      callingPendingFunctors := false;
    }

    /** The handlers of one turn: the eventfd is read if it was reported, the others queue what they queue. */
    method HandleEvents(wakeupReported: bool, queuedByHandlers: seq<Functor>) returns (ghost steps: seq<P.Step>)
      requires !callingPendingFunctors
      modifies this`pendingFunctors, this`eventfd, this`enqueued, this`ownQueued
      ensures Perform(old(View(P.Handling, [])), steps) == Some(View(P.Handling, []))
      ensures pendingFunctors == old(pendingFunctors) + queuedByHandlers && enqueued == old(enqueued) + queuedByHandlers
    {
      ghost var s := View(P.Handling, []);
      steps := [];
      if wakeupReported {
        HandleRead();
        PerformOneMore(s, [], P.ReadWakeup);
        steps := [] + [P.ReadWakeup];
      }
      ghost var handlers := QueueAll(queuedByHandlers, P.Handling, []);
      PerformBoth(s, steps, handlers);
      steps := steps + handlers;
    }

    /** The body of one turn after poll returned: the handlers, then the pending functors. */
    method AfterPoll(wakeupReported: bool, queuedByHandlers: seq<Functor>) returns (ghost steps: seq<P.Step>)
      requires !callingPendingFunctors
      modifies this
      ensures Perform(old(View(P.Handling, [])), steps) == Some(View(P.Checking, []))
      ensures executed == old(executed) + (old(pendingFunctors) + queuedByHandlers)
      ensures !callingPendingFunctors
    {
      hide Perform, Queued;
      ghost var s := View(P.Handling, []);
      ghost var handled := HandleEvents(wakeupReported, queuedByHandlers);
      ghost var batch := DoPendingFunctors();
      PerformBoth(s, handled, batch);
      steps := handled + batch;
    }

    /** One turn of the loop, unless it was told to quit. */
    method LoopOnce(wakeupReported: bool, queuedByHandlers: seq<Functor>) returns (ghost steps: seq<P.Step>)
      requires !callingPendingFunctors
      modifies this
      ensures Perform(old(View(P.Checking, [])), steps) == Some(View(if old(quit) then P.Outside else P.Checking, []))
      ensures !old(quit) ==> executed == old(executed) + (old(pendingFunctors) + queuedByHandlers)
      ensures !callingPendingFunctors
    {
      ghost var s := View(P.Checking, []);
      steps := TestSteps(s);
      if !quit {
        ghost var rest := AfterPoll(wakeupReported, queuedByHandlers);
        PerformBoth(s, steps, rest);
        steps := steps + rest;
      }
    }
  }

  /** The test of the loop, and poll when it goes on. */
  ghost function TestSteps(s: P.Loop): (steps: seq<P.Step>)
    requires s.phase == P.Checking
    ensures Perform(s, steps) == Some(s.(phase := if s.quit then P.Outside else P.Handling))
  {
    PerformOneMore(s, [], P.Check);
    if s.quit then [] + [P.Check]
    else
      PerformOneMore(s, [] + [P.Check], P.PollReturns);
      [] + [P.Check] + [P.PollReturns]
  }
}
