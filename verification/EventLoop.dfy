/** muduo/net/EventLoop.cc: pending functors and the wakeup eventfd, as interleaved atomic
    steps of the loop thread and of any number of other threads. */
module Reactor {

  type ThreadId = int

  /** An eventfd counter does not grow past this value; the write then fails but the
      descriptor stays readable. */
  const EVENTFD_MAX: nat := 0xffff_ffff_ffff_fffe

  /** Where the loop thread is: in poll (or about to enter it), in the loop over active channels
      (with the wakeup channel still to be handled or not), between setting
      callingPendingFunctors_ and the swap, in the loop over the swapped functors, or out of loop(). */
  datatype Phase = Polling | Handling(wakeupActive: bool) | Swapping | Calling | Stopped

  /** `owing` are the other threads that pushed a functor or asked to quit and have their write to
      the eventfd still to do; `loopOwes` says the same of the loop thread. `pushed` and `executed`
      record all functors queued and run; `due` is how many had been queued when poll last returned. */
  datatype LoopState<F> = LoopState(
    phase: Phase,
    pending: seq<F>,
    batch: seq<F>,
    counter: nat,
    quit: bool,
    owing: set<ThreadId>,
    loopOwes: bool,
    pushed: seq<F>,
    executed: seq<F>,
    due: nat)

  datatype Op<F> =
    | Push(thread: ThreadId, functor: F)      // queueInLoop from another thread, up to the unlock
    | Wake(thread: ThreadId)                  // its write to the eventfd
    | Quit(thread: ThreadId)                  // quit() from another thread, before its write
    | PollReturn(wakeupActive: bool)
    | ReadWakeup                              // handleRead
    | LoopPush(functor: F)                    // queueInLoop from a callback of the loop thread
    | LoopWake
    | LoopQuit
    | StartCalling
    | Swap
    | RunFunctor
    | FinishCalling                           // and the loop condition

  function InitialState<F>(): LoopState<F> {
    LoopState(Polling, [], [], 0, false, {}, false, [], [], 0)
  }

  predicate Enabled<F(==)>(s: LoopState<F>, op: Op<F>) {
    match op
    case Push(t, _) => t !in s.owing
    case Wake(t) => t in s.owing
    case Quit(t) => t !in s.owing
    case PollReturn(active) => s.phase.Polling? && (active ==> s.counter > 0)
    case ReadWakeup => s.phase == Handling(true)
    case LoopPush(_) => (s.phase.Handling? || s.phase.Calling?) && !s.loopOwes
    case LoopWake => s.loopOwes
    case LoopQuit => s.phase.Handling? || s.phase.Calling?
    case StartCalling => s.phase == Handling(false)
    case Swap => s.phase.Swapping?
    case RunFunctor => s.phase.Calling? && !s.loopOwes && s.batch != []
    case FinishCalling => s.phase.Calling? && !s.loopOwes && s.batch == []
  }

  function Bump(counter: nat): nat {
    if counter < EVENTFD_MAX then counter + 1 else counter
  }

  function Apply<F(==)>(s: LoopState<F>, op: Op<F>): LoopState<F>
    requires Enabled(s, op)
  {
    match op
    case Push(t, f) =>
      s.(pending := s.pending + [f], pushed := s.pushed + [f], owing := s.owing + {t})
    case Wake(t) => s.(counter := Bump(s.counter), owing := s.owing - {t})
    case Quit(t) => s.(quit := true, owing := s.owing + {t})
    case PollReturn(active) => s.(phase := Handling(active), due := |s.pushed|)
    case ReadWakeup => s.(phase := Handling(false), counter := 0)
    case LoopPush(f) =>
      s.(pending := s.pending + [f], pushed := s.pushed + [f], loopOwes := s.phase.Calling?)
    case LoopWake => s.(counter := Bump(s.counter), loopOwes := false)
    case LoopQuit => s.(quit := true)
    case StartCalling => s.(phase := Swapping)
    case Swap => s.(phase := Calling, batch := s.pending, pending := [])
    case RunFunctor => s.(batch := s.batch[1..], executed := s.executed + [s.batch[0]])
    case FinishCalling => s.(phase := if s.quit then Stopped else Polling)
  }

  ghost predicate CanRun<F>(s: LoopState<F>, ops: seq<Op<F>>)
    decreases |ops|
  {
    ops == [] || (Enabled(s, ops[0]) && CanRun(Apply(s, ops[0]), ops[1..]))
  }

  ghost function Run<F>(s: LoopState<F>, ops: seq<Op<F>>): LoopState<F>
    requires CanRun(s, ops)
    decreases |ops|
  {
    if ops == [] then s else Run(Apply(s, ops[0]), ops[1..])
  }

  /** Someone is about to make, or has made, the eventfd readable. */
  predicate WakeupOnItsWay<F>(s: LoopState<F>) {
    s.counter > 0 || s.owing != {} || s.loopOwes
  }

  /** From the swap until poll returns, a queued functor or a request to quit has a wakeup on its way. */
  ghost predicate NoLostWakeup<F>(s: LoopState<F>) {
    && (s.phase.Calling? || s.phase.Polling? ==> s.pending != [] ==> WakeupOnItsWay(s))
    && (s.phase.Polling? && s.quit ==> WakeupOnItsWay(s))
  }

  /** Functors queued = functors run, then those of the current batch, then those waiting. */
  ghost predicate FifoOnce<F>(s: LoopState<F>) {
    s.pushed == s.executed + s.batch + s.pending
  }

  ghost predicate Inv<F>(s: LoopState<F>) {
    && FifoOnce(s) && NoLostWakeup(s)
    && (!s.phase.Calling? ==> s.batch == [] && !s.loopOwes)
    && s.due <= |s.pushed|
    && (s.phase.Calling? ==> s.due <= |s.executed| + |s.batch|)
    && (s.phase.Polling? ==> s.due <= |s.executed|)
  }

  lemma StepKeepsInv<F>(s: LoopState<F>, op: Op<F>)
    requires Inv(s) && Enabled(s, op)
    ensures Inv(Apply(s, op))
  {
    match op
    case Push(_, f) => assert s.executed + s.batch + (s.pending + [f]) == s.pushed + [f];
    case LoopPush(f) => assert s.executed + s.batch + (s.pending + [f]) == s.pushed + [f];
    case Swap => assert s.executed + s.pending + [] == s.executed + [] + s.pending;
    case RunFunctor => assert s.executed + [s.batch[0]] + s.batch[1..] == s.executed + s.batch;
    case _ =>
  }

  lemma {:induction false} RunKeepsInv<F>(s: LoopState<F>, ops: seq<Op<F>>)
    requires Inv(s) && CanRun(s, ops)
    ensures Inv(Run(s, ops))
    decreases |ops|
  {
    if ops != [] {
      StepKeepsInv(s, ops[0]);
      RunKeepsInv(Apply(s, ops[0]), ops[1..]);
    }
  }

  // ---- What the steps ask for, read off the steps alone ----

  function Handed<F>(op: Op<F>): seq<F> {
    match op
    case Push(_, f) => [f]
    case LoopPush(f) => [f]
    case _ => []
  }

  /** The functors handed to queueInLoop, by other threads and by the loop thread, in order. */
  function Queued<F>(ops: seq<Op<F>>): seq<F> {
    if ops == [] then [] else Handed(ops[0]) + Queued(ops[1..])
  }

  /** quit() has been called, by whatever thread. */
  predicate AsksToQuit<F>(ops: seq<Op<F>>) {
    ops != [] && (ops[0].Quit? || ops[0].LoopQuit? || AsksToQuit(ops[1..]))
  }

  /** The eventfd has been written since it was last read. */
  predicate Unread<F>(before: bool, ops: seq<Op<F>>)
    decreases |ops|
  {
    if ops == [] then before
    else if ops[0].Wake? || ops[0].LoopWake? then Unread(true, ops[1..])
    else Unread(before && !ops[0].ReadWakeup?, ops[1..])
  }

  /** Thread t has queued a functor or asked to quit, and has not written to the eventfd since. */
  predicate Owes<F>(before: bool, ops: seq<Op<F>>, t: ThreadId)
    decreases |ops|
  {
    if ops == [] then before
    else if ops[0].Wake? && ops[0].thread == t then Owes(false, ops[1..], t)
    else Owes(before || ((ops[0].Push? || ops[0].Quit?) && ops[0].thread == t), ops[1..], t)
  }

  lemma {:induction false} PushedByRun<F>(s: LoopState<F>, ops: seq<Op<F>>)
    requires CanRun(s, ops)
    ensures Run(s, ops).pushed == s.pushed + Queued(ops)
    decreases |ops|
  {
    if ops != [] {
      var s' := Apply(s, ops[0]);
      PushedByRun(s', ops[1..]);
      assert s'.pushed == s.pushed + Handed(ops[0]);
      assert s.pushed + Handed(ops[0]) + Queued(ops[1..]) == s.pushed + (Handed(ops[0]) + Queued(ops[1..]));
    }
  }

  lemma {:induction false} FlagsOfRun<F>(s: LoopState<F>, ops: seq<Op<F>>, t: ThreadId)
    requires CanRun(s, ops) && (s.phase.Stopped? ==> s.quit)
    ensures var e := Run(s, ops);
            && (e.quit <==> s.quit || AsksToQuit(ops))
            && (e.phase.Stopped? ==> e.quit)
            && (e.counter > 0 <==> Unread(s.counter > 0, ops))
            && (t in e.owing <==> Owes(t in s.owing, ops, t))
    decreases |ops|
  {
    if ops != [] {
      FlagsOfRun(Apply(s, ops[0]), ops[1..], t);
    }
  }

  /** The queue's record is the list of functors handed to queueInLoop. */
  lemma PushedIsQueued<F>(ops: seq<Op<F>>)
    requires CanRun(InitialState(), ops)
    ensures Run(InitialState(), ops).pushed == Queued(ops)
  {
    PushedByRun(InitialState<F>(), ops);
    assert [] + Queued(ops) == Queued(ops);
  }

  /** In every interleaving the functors run, those of the batch and those waiting are exactly the functors
      handed to queueInLoop, in that order: each is run at most once, and none is lost. */
  lemma RunOnceInQueueOrder<F>(ops: seq<Op<F>>)
    requires CanRun(InitialState(), ops)
    ensures var s := Run(InitialState(), ops);
            s.executed + s.batch + s.pending == Queued(ops)
  {
    RunKeepsInv(InitialState<F>(), ops);
    PushedIsQueued(ops);
  }

  lemma SomeMember<T>(s: set<T>) returns (x: T)
    requires s != {}
    ensures x in s
  {
    x :| x in s;
  }

  /** In every interleaving, a loop about to block while a functor queued has not been run, or quit() was called,
      has an eventfd written since it was last read, or a thread that still has its write to do. */
  lemma NeverBlocksWithWork<F>(ops: seq<Op<F>>)
    requires CanRun(InitialState(), ops)
    ensures var s := Run(InitialState(), ops);
            s.phase.Polling? && (s.executed != Queued(ops) || AsksToQuit(ops)) ==>
            Unread(false, ops) || exists t :: Owes(false, ops, t)
  {
    RunKeepsInv(InitialState<F>(), ops);
    RunOnceInQueueOrder(ops);
    var s := Run(InitialState<F>(), ops);
    FlagsOfRun(InitialState<F>(), ops, 0);
    if s.owing != {} {
      var t := SomeMember(s.owing);
      FlagsOfRun(InitialState<F>(), ops, t);
    }
    if s.phase.Polling? && s.pending == [] {
      assert s.executed + [] + [] == s.executed;
    }
  }

  /** A turn ends the loop if quit() was called before, from any thread, and leads back to poll otherwise; and
      nothing else ends it. */
  lemma StopsIffAsked<F>(ops: seq<Op<F>>)
    requires CanRun(InitialState(), ops)
    ensures var s := Run(InitialState(), ops);
            && (s.phase.Stopped? ==> AsksToQuit(ops))
            && (Enabled(s, FinishCalling) ==> Apply(s, FinishCalling).phase == if AsksToQuit(ops) then Stopped else Polling)
  {
    FlagsOfRun(InitialState<F>(), ops, 0);
  }

  /** The history only grows. */
  lemma {:induction false} HistoryGrows<F>(s: LoopState<F>, ops: seq<Op<F>>)
    requires CanRun(s, ops)
    ensures s.pushed <= Run(s, ops).pushed && s.executed <= Run(s, ops).executed
    decreases |ops|
  {
    if ops != [] {
      HistoryGrows(Apply(s, ops[0]), ops[1..]);
    }
  }

  /** One turn of the loop runs everything queued before poll returned: once the loop polls again,
      those functors have all been executed. */
  lemma OneTurnRunsWhatWasDue<F>(ops: seq<Op<F>>, active: bool, turn: seq<Op<F>>)
    requires CanRun(InitialState(), ops)
    requires Enabled(Run(InitialState(), ops), PollReturn(active))
    requires CanRun(Apply(Run(InitialState(), ops), PollReturn(active)), turn)
    requires forall i :: 0 <= i < |turn| ==> !turn[i].PollReturn?
    requires Run(Apply(Run(InitialState(), ops), PollReturn(active)), turn).phase.Polling?
    ensures var s := Run(InitialState(), ops);
            Queued(ops) <= Run(Apply(s, PollReturn(active)), turn).executed
  {
    PushedIsQueued(ops);
    RunKeepsInv(InitialState<F>(), ops);
    var s := Run(InitialState<F>(), ops);
    var s' := Apply(s, PollReturn(active));
    StepKeepsInv(s, PollReturn(active));
    DueStays(s', turn);
    RunKeepsInv(s', turn);
    HistoryGrows(s', turn);
    var e := Run(s', turn);
    assert e.executed == e.pushed[..|e.executed|];
  }

  lemma {:induction false} DueStays<F>(s: LoopState<F>, ops: seq<Op<F>>)
    requires CanRun(s, ops) && forall i :: 0 <= i < |ops| ==> !ops[i].PollReturn?
    ensures Run(s, ops).due == s.due
    decreases |ops|
  {
    if ops != [] {
      assert !ops[0].PollReturn?;
      DueStays(Apply(s, ops[0]), ops[1..]);
    }
  }

  // ---- The object: each method is one atomic step ----

  class EventLoop<F(==)> {
    var phase: Phase
    var quit: bool
    var callingPendingFunctors: bool
    var pendingFunctors: seq<F>
    var functors: seq<F>
    var wakeupCounter: nat
    ghost var owing: set<ThreadId>
    ghost var loopOwes: bool
    ghost var pushed: seq<F>
    ghost var executed: seq<F>
    ghost var due: nat

    ghost function View(): LoopState<F>
      reads this
    {
      LoopState(phase, pendingFunctors, functors, wakeupCounter, quit, owing, loopOwes, pushed, executed, due)
    }

    ghost predicate Valid()
      reads this
    {
      && Inv(View())
      && (callingPendingFunctors <==> phase.Swapping? || phase.Calling?)
    }

    constructor ()
      ensures Valid() && View() == InitialState()
    {
      phase, quit, callingPendingFunctors := Polling, false, false;
      pendingFunctors, functors, wakeupCounter := [], [], 0;
      owing, loopOwes, pushed, executed, due := {}, false, [], [], 0;
    }

    /** queueInLoop: the push under the lock. Returns whether the caller must go on to wakeup(). */
    method QueueInLoop(thread: ThreadId, inLoopThread: bool, cb: F) returns (mustWake: bool)
      requires Valid()
      requires Enabled(View(), if inLoopThread then LoopPush(cb) else Push(thread, cb))
      modifies this
      ensures Valid()
      ensures View() == Apply(old(View()), if inLoopThread then LoopPush(cb) else Push(thread, cb))
      ensures mustWake == if inLoopThread then loopOwes else thread in owing
    {
      StepKeepsInv(View(), if inLoopThread then LoopPush(cb) else Push(thread, cb));
      pendingFunctors := pendingFunctors + [cb];
      pushed := pushed + [cb];
      mustWake := !inLoopThread || callingPendingFunctors;
      if inLoopThread {
        loopOwes := mustWake;
      } else {
        owing := owing + {thread};
      }
    }

    method Wakeup(thread: ThreadId, inLoopThread: bool)
      requires Valid() && Enabled(View(), if inLoopThread then LoopWake else Wake(thread))
      modifies this
      ensures Valid() && View() == Apply(old(View()), if inLoopThread then LoopWake else Wake(thread))
    {
      StepKeepsInv(View(), if inLoopThread then LoopWake else Wake(thread));
      if wakeupCounter < EVENTFD_MAX {
        wakeupCounter := wakeupCounter + 1;
      }
      if inLoopThread {
        loopOwes := false;
      } else {
        owing := owing - {thread};
      }
    }

    method RequestQuit(thread: ThreadId, inLoopThread: bool)
      requires Valid() && Enabled(View(), if inLoopThread then LoopQuit else Op.Quit(thread))
      modifies this
      ensures Valid() && View() == Apply(old(View()), if inLoopThread then LoopQuit else Op.Quit(thread))
    {
      StepKeepsInv(View(), if inLoopThread then LoopQuit else Op.Quit(thread));
      quit := true;
      if !inLoopThread {
        owing := owing + {thread};
      }
    }

    /** poll returns, possibly with the wakeup channel active. */
    method Poll(wakeupActive: bool)
      requires Valid() && Enabled(View(), PollReturn(wakeupActive))
      modifies this
      ensures Valid() && View() == Apply(old(View()), PollReturn(wakeupActive))
    {
      StepKeepsInv(View(), PollReturn(wakeupActive));
      phase := Handling(wakeupActive);
      due := |pushed|;
    }

    method HandleRead()
      requires Valid() && Enabled(View(), ReadWakeup)
      modifies this
      ensures Valid() && View() == Apply(old(View()), ReadWakeup)
    {
      StepKeepsInv(View(), ReadWakeup);
      wakeupCounter := 0;
      phase := Handling(false);
    }

    /** doPendingFunctors up to the lock. */
    method BeginPendingFunctors()
      requires Valid() && Enabled(View(), StartCalling)
      modifies this
      ensures Valid() && View() == Apply(old(View()), StartCalling)
    {
      StepKeepsInv(View(), StartCalling);
      callingPendingFunctors := true;
      phase := Swapping;
    }

    method SwapPendingFunctors()
      requires Valid() && Enabled(View(), Swap)
      modifies this
      ensures Valid() && View() == Apply(old(View()), Swap)
    {
      StepKeepsInv(View(), Swap);
      functors, pendingFunctors := pendingFunctors, functors;
      phase := Calling;
    }

    /** One turn of the loop over the swapped functors; returns the functor called. */
    method CallNextFunctor() returns (f: F)
      requires Valid() && Enabled(View(), RunFunctor)
      modifies this
      ensures Valid() && View() == Apply(old(View()), RunFunctor) && f == old(functors)[0]
    {
      StepKeepsInv(View(), RunFunctor);
      f := functors[0];
      functors := functors[1..];
      executed := executed + [f];
    }

    method EndPendingFunctors()
      requires Valid() && Enabled(View(), FinishCalling)
      modifies this
      ensures Valid() && View() == Apply(old(View()), FinishCalling)
    {
      StepKeepsInv(View(), FinishCalling);
      callingPendingFunctors := false;
      phase := if quit then Stopped else Polling;
    }
  }
}
