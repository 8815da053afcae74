/** muduo/base/BoundedBlockingQueue.h: put and take with two condition variables, any number
    of threads, and wakeups that may be spurious. A step is what a thread does while it holds
    the mutex, from acquiring it to releasing it or to waiting. */
module BlockingQueue {
  import Bytes

  type ThreadId = int

  /** A thread sleeps on a condition until it is signalled or wakes spuriously; then it is woken
      but has not yet the mutex to look at the queue again. Putters carry their item.
      `putLog` and `takeLog` record the items in the order put and taken. */
  datatype QueueState<T> = QueueState(
    capacity: nat,
    queue: seq<T>,
    sleepingTakers: set<ThreadId>,
    wokenTakers: set<ThreadId>,
    sleepingPutters: map<ThreadId, T>,
    wokenPutters: map<ThreadId, T>,
    putLog: seq<T>,
    takeLog: seq<T>)
  {
    predicate Busy(t: ThreadId) {
      t in sleepingTakers || t in wokenTakers || t in sleepingPutters || t in wokenPutters
    }

    predicate Full() { |queue| == capacity }
  }

  function InitialState<T>(capacity: nat): QueueState<T> {
    QueueState(capacity, [], {}, {}, map[], map[], [], [])
  }

  /** pthread_cond_signal wakes at least one sleeper if there is one; `signalled` are those it wakes. */
  predicate Signals(sleepers: set<ThreadId>, signalled: set<ThreadId>) {
    signalled <= sleepers && (sleepers != {} ==> signalled != {})
  }

  datatype Op<T> =
    | Put(thread: ThreadId, item: T, signalled: set<ThreadId>)   // enters put
    | PutAgain(thread: ThreadId, signalled: set<ThreadId>)       // back from notFull_.wait()
    | Take(thread: ThreadId, signalled: set<ThreadId>)           // enters take
    | TakeAgain(thread: ThreadId, signalled: set<ThreadId>)      // back from notEmpty_.wait()
    | Spurious(thread: ThreadId)                                 // wakes without a signal

  predicate Enabled<T>(s: QueueState<T>, op: Op<T>) {
    match op
    case Put(t, _, sig) => !s.Busy(t) && Signals(s.sleepingTakers, sig)
    case PutAgain(t, sig) => t in s.wokenPutters && Signals(s.sleepingTakers, sig)
    case Take(t, sig) => !s.Busy(t) && Signals(s.sleepingPutters.Keys, sig)
    case TakeAgain(t, sig) => t in s.wokenTakers && Signals(s.sleepingPutters.Keys, sig)
    case Spurious(t) => t in s.sleepingTakers || t in s.sleepingPutters
  }

  function WakeTakers<T>(s: QueueState<T>, ts: set<ThreadId>): QueueState<T> {
    s.(sleepingTakers := s.sleepingTakers - ts, wokenTakers := s.wokenTakers + ts)
  }

  function WakePutters<T>(s: QueueState<T>, ts: set<ThreadId>): QueueState<T>
    requires ts <= s.sleepingPutters.Keys
  {
    s.(sleepingPutters := s.sleepingPutters - ts,
       wokenPutters := s.wokenPutters + map t | t in ts :: s.sleepingPutters[t])
  }

  /** The loop of put by a thread that holds the mutex: sleep while full, else push and notify. */
  function TryPut<T>(s: QueueState<T>, t: ThreadId, x: T, signalled: set<ThreadId>): QueueState<T> {
    if s.Full() then s.(sleepingPutters := s.sleepingPutters[t := x])
    else WakeTakers(s.(queue := s.queue + [x], putLog := s.putLog + [x]), signalled)
  }

  function TryTake<T>(s: QueueState<T>, t: ThreadId, signalled: set<ThreadId>): QueueState<T>
    requires signalled <= s.sleepingPutters.Keys
  {
    if s.queue == [] then s.(sleepingTakers := s.sleepingTakers + {t})
    else WakePutters(s.(queue := s.queue[1..], takeLog := s.takeLog + [s.queue[0]]), signalled)
  }

  function Apply<T>(s: QueueState<T>, op: Op<T>): QueueState<T>
    requires Enabled(s, op)
  {
    match op
    case Put(t, x, sig) => TryPut(s, t, x, sig)
    case PutAgain(t, sig) => TryPut(s.(wokenPutters := s.wokenPutters - {t}), t, s.wokenPutters[t], sig)
    case Take(t, sig) => TryTake(s, t, sig)
    case TakeAgain(t, sig) => TryTake(s.(wokenTakers := s.wokenTakers - {t}), t, sig)
    case Spurious(t) => if t in s.sleepingTakers then WakeTakers(s, {t}) else WakePutters(s, {t})
  }

  ghost predicate CanRun<T(!new)>(s: QueueState<T>, ops: seq<Op<T>>)
    decreases |ops|
  {
    ops == [] || (Enabled(s, ops[0]) && CanRun(Apply(s, ops[0]), ops[1..]))
  }

  ghost function Run<T(!new)>(s: QueueState<T>, ops: seq<Op<T>>): QueueState<T>
    requires CanRun(s, ops)
    decreases |ops|
  {
    if ops == [] then s else Run(Apply(s, ops[0]), ops[1..])
  }

  /** Sleeping takers leave no more items than there are woken takers to fetch them. */
  ghost predicate TakersServed<T>(s: QueueState<T>) {
    s.sleepingTakers != {} ==> |s.queue| <= |s.wokenTakers|
  }

  /** Sleeping putters leave no more room than there are woken putters to fill it. */
  ghost predicate PuttersServed<T>(s: QueueState<T>) {
    s.sleepingPutters.Keys != {} ==> s.capacity - |s.queue| <= |s.wokenPutters.Keys|
  }

  ghost predicate Core<T>(s: QueueState<T>) {
    && |s.queue| <= s.capacity
    && s.putLog == s.takeLog + s.queue
    && s.sleepingTakers !! s.wokenTakers
    && s.sleepingPutters.Keys !! s.wokenPutters.Keys
    && TakersServed(s) && PuttersServed(s)
  }

  /** A thread is in at most one of the four places. */
  predicate Solo<T>(s: QueueState<T>, t: ThreadId) {
    && (t in s.sleepingTakers || t in s.wokenTakers ==> t !in s.sleepingPutters && t !in s.wokenPutters)
    && !(t in s.sleepingTakers && t in s.wokenTakers)
    && !(t in s.sleepingPutters && t in s.wokenPutters)
  }

  ghost predicate Inv<T>(s: QueueState<T>) {
    Core(s) && forall t :: Solo(s, t)
  }

  lemma DisjointUnionSize<X>(a: set<X>, b: set<X>)
    requires a !! b
    ensures |a + b| == |a| + |b|
  {
  }

  lemma WakeTakersKeeps<T>(s: QueueState<T>, ts: set<ThreadId>)
    requires s.sleepingTakers !! s.wokenTakers && ts <= s.sleepingTakers
    ensures var s' := WakeTakers(s, ts);
            && s'.sleepingTakers !! s'.wokenTakers
            && |s'.wokenTakers| == |s.wokenTakers| + |ts|
  {
    DisjointUnionSize(s.wokenTakers, ts);
  }

  lemma WakePuttersKeeps<T>(s: QueueState<T>, ts: set<ThreadId>)
    requires s.sleepingPutters.Keys !! s.wokenPutters.Keys && ts <= s.sleepingPutters.Keys
    ensures var s' := WakePutters(s, ts);
            && s'.sleepingPutters.Keys == s.sleepingPutters.Keys - ts
            && s'.wokenPutters.Keys == s.wokenPutters.Keys + ts
            && |s'.wokenPutters.Keys| == |s.wokenPutters.Keys| + |ts|
  {
    DisjointUnionSize(s.wokenPutters.Keys, ts);
    assert WakePutters(s, ts).wokenPutters.Keys == s.wokenPutters.Keys + ts;
  }

  /** A thread that enters or re-enters put: `s` is the state with the thread itself taken out of the
      woken putters, of which there was one more when it re-enters. */
  lemma TryPutKeeps<T>(s: QueueState<T>, t: ThreadId, x: T, signalled: set<ThreadId>)
    requires !s.Busy(t) && Signals(s.sleepingTakers, signalled)
    requires |s.queue| <= s.capacity && s.putLog == s.takeLog + s.queue
    requires s.sleepingTakers !! s.wokenTakers && s.sleepingPutters.Keys !! s.wokenPutters.Keys
    requires TakersServed(s)
    requires s.sleepingPutters.Keys != {} ==> s.capacity - |s.queue| <= |s.wokenPutters.Keys| + 1
    ensures Core(TryPut(s, t, x, signalled))
  {
    if s.Full() {
      assert s.sleepingPutters[t := x].Keys == s.sleepingPutters.Keys + {t};
    } else {
      WakeTakersKeeps(s.(queue := s.queue + [x], putLog := s.putLog + [x]), signalled);
      assert signalled != {} ==> |signalled| >= 1;
      assert s.takeLog + (s.queue + [x]) == s.putLog + [x];
    }
  }

  lemma TakenKeeps<T>(s: QueueState<T>, rest: seq<T>, taken: seq<T>, signalled: set<ThreadId>)
    requires Signals(s.sleepingPutters.Keys, signalled)
    requires |rest| == |s.queue| - 1 < s.capacity && s.putLog == taken + rest
    requires s.sleepingTakers !! s.wokenTakers && s.sleepingPutters.Keys !! s.wokenPutters.Keys
    requires PuttersServed(s)
    requires s.sleepingTakers != {} ==> |s.queue| <= |s.wokenTakers| + 1
    ensures Core(WakePutters(s.(queue := rest, takeLog := taken), signalled))
  {
    WakePuttersKeeps(s.(queue := rest, takeLog := taken), signalled);
    assert signalled != {} ==> |signalled| >= 1;
  }

  lemma TryTakeKeeps<T>(s: QueueState<T>, t: ThreadId, signalled: set<ThreadId>)
    requires !s.Busy(t) && Signals(s.sleepingPutters.Keys, signalled)
    requires |s.queue| <= s.capacity && s.putLog == s.takeLog + s.queue
    requires s.sleepingTakers !! s.wokenTakers && s.sleepingPutters.Keys !! s.wokenPutters.Keys
    requires PuttersServed(s)
    requires s.sleepingTakers != {} ==> |s.queue| <= |s.wokenTakers| + 1
    ensures Core(TryTake(s, t, signalled))
  {
    if s.queue != [] {
      var rest, taken := s.queue[1..], s.takeLog + [s.queue[0]];
      assert taken + rest == s.takeLog + s.queue && |rest| == |s.queue| - 1;
      TakenKeeps(s, rest, taken, signalled);
    }
  }

  lemma StepKeepsCore<T>(s: QueueState<T>, op: Op<T>)
    requires Inv(s) && Enabled(s, op)
    ensures Core(Apply(s, op))
  {
    assert Solo(s, op.thread);
    match op
    case Put(t, x, sig) => TryPutKeeps(s, t, x, sig);
    case PutAgain(t, sig) => PutAgainKeeps(s, t, sig);
    case Take(t, sig) => TryTakeKeeps(s, t, sig);
    case TakeAgain(t, sig) => TakeAgainKeeps(s, t, sig);
    case Spurious(t) => SpuriousKeeps(s, t);
  }

  lemma PutAgainKeeps<T>(s: QueueState<T>, t: ThreadId, signalled: set<ThreadId>)
    requires Core(s) && Solo(s, t) && Enabled(s, PutAgain(t, signalled))
    ensures Core(Apply(s, PutAgain(t, signalled)))
  {
    var s' := s.(wokenPutters := s.wokenPutters - {t});
    assert s'.wokenPutters.Keys == s.wokenPutters.Keys - {t};
    TryPutKeeps(s', t, s.wokenPutters[t], signalled);
  }

  lemma TakeAgainKeeps<T>(s: QueueState<T>, t: ThreadId, signalled: set<ThreadId>)
    requires Core(s) && Solo(s, t) && Enabled(s, TakeAgain(t, signalled))
    ensures Core(Apply(s, TakeAgain(t, signalled)))
  {
    TryTakeKeeps(s.(wokenTakers := s.wokenTakers - {t}), t, signalled);
  }

  lemma SpuriousKeeps<T>(s: QueueState<T>, t: ThreadId)
    requires Core(s) && Solo(s, t) && Enabled(s, Spurious(t))
    ensures Core(Apply(s, Spurious(t)))
  {
    if t in s.sleepingTakers {
      WakeTakersKeeps(s, {t});
    } else {
      WakePuttersKeeps(s, {t});
    }
  }

  lemma StepKeepsInv<T>(s: QueueState<T>, op: Op<T>)
    requires Inv(s) && Enabled(s, op)
    ensures Inv(Apply(s, op)) && Apply(s, op).capacity == s.capacity
  {
    StepKeepsCore(s, op);
    forall t ensures Solo(Apply(s, op), t) {
      assert Solo(s, t) && Solo(s, op.thread);
      StepKeepsSolo(s, op, t);
    }
  }

  lemma StepKeepsSolo<T>(s: QueueState<T>, op: Op<T>, t: ThreadId)
    requires Enabled(s, op) && Solo(s, t) && Solo(s, op.thread)
    ensures Solo(Apply(s, op), t) && Apply(s, op).capacity == s.capacity
  {
  }

  lemma {:induction false} RunKeepsInv<T(!new)>(s: QueueState<T>, ops: seq<Op<T>>)
    requires Inv(s) && CanRun(s, ops)
    ensures Inv(Run(s, ops)) && Run(s, ops).capacity == s.capacity
    decreases |ops|
  {
    if ops != [] {
      StepKeepsInv(s, ops[0]);
      RunKeepsInv(Apply(s, ops[0]), ops[1..]);
    }
  }

  // ---- What the steps ask for, read off the steps ----

  /** The item each thread last gave to put. */
  function Given<T>(given: map<ThreadId, T>, op: Op<T>): map<ThreadId, T> {
    if op.Put? then given[op.thread := op.item] else given
  }

  /** What a step puts in: the item its thread gave to put, unless the queue is full. */
  function PutOf<T>(s: QueueState<T>, given: map<ThreadId, T>, op: Op<T>): seq<T> {
    if (op.Put? || op.PutAgain?) && |s.queue| != s.capacity && op.thread in Given(given, op)
    then [Given(given, op)[op.thread]] else []
  }

  /** The items of the calls of put, in the order in which the calls got through. */
  ghost function PutsBy<T(!new)>(s: QueueState<T>, given: map<ThreadId, T>, ops: seq<Op<T>>): seq<T>
    requires CanRun(s, ops)
    decreases |ops|
  {
    if ops == [] then []
    else PutOf(s, given, ops[0]) + PutsBy(Apply(s, ops[0]), Given(given, ops[0]), ops[1..])
  }

  /** How many calls of take got through. */
  ghost function TakesBy<T(!new)>(s: QueueState<T>, ops: seq<Op<T>>): nat
    requires CanRun(s, ops)
    decreases |ops|
  {
    if ops == [] then 0
    else (if (ops[0].Take? || ops[0].TakeAgain?) && s.queue != [] then 1 else 0) + TakesBy(Apply(s, ops[0]), ops[1..])
  }

  /** Thread t is inside take: the last time it looked, the queue was empty. */
  ghost predicate InTake<T(!new)>(before: bool, s: QueueState<T>, ops: seq<Op<T>>, t: ThreadId)
    requires CanRun(s, ops)
    decreases |ops|
  {
    if ops == [] then before
    else if (ops[0].Take? || ops[0].TakeAgain?) && ops[0].thread == t
    then InTake(s.queue == [], Apply(s, ops[0]), ops[1..], t)
    else InTake(before, Apply(s, ops[0]), ops[1..], t)
  }

  /** Thread t is inside put: the last time it looked, the queue was full. */
  ghost predicate InPut<T(!new)>(before: bool, s: QueueState<T>, ops: seq<Op<T>>, t: ThreadId)
    requires CanRun(s, ops)
    decreases |ops|
  {
    if ops == [] then before
    else if (ops[0].Put? || ops[0].PutAgain?) && ops[0].thread == t
    then InPut(|s.queue| == s.capacity, Apply(s, ops[0]), ops[1..], t)
    else InPut(before, Apply(s, ops[0]), ops[1..], t)
  }

  /** A thread inside put carries the item it gave. */
  ghost predicate Carries<T>(s: QueueState<T>, given: map<ThreadId, T>, t: ThreadId) {
    && (t in s.sleepingPutters ==> t in given && given[t] == s.sleepingPutters[t])
    && (t in s.wokenPutters ==> t in given && given[t] == s.wokenPutters[t])
  }

  lemma StepCarries<T>(s: QueueState<T>, given: map<ThreadId, T>, op: Op<T>, t: ThreadId)
    requires Enabled(s, op) && Carries(s, given, t) && Carries(s, given, op.thread)
    ensures Carries(Apply(s, op), Given(given, op), t)
  {
  }

  lemma StepPuts<T>(s: QueueState<T>, given: map<ThreadId, T>, op: Op<T>)
    requires Enabled(s, op) && Carries(s, given, op.thread)
    ensures Apply(s, op).putLog == s.putLog + PutOf(s, given, op)
  {
  }

  lemma {:induction false} RunPuts<T(!new)>(s: QueueState<T>, given: map<ThreadId, T>, ops: seq<Op<T>>)
    requires CanRun(s, ops) && forall t :: Carries(s, given, t)
    ensures Run(s, ops).putLog == s.putLog + PutsBy(s, given, ops)
    decreases |ops|
  {
    if ops != [] {
      var s', given' := Apply(s, ops[0]), Given(given, ops[0]);
      StepPuts(s, given, ops[0]);
      forall t ensures Carries(s', given', t) {
        StepCarries(s, given, ops[0], t);
      }
      RunPuts(s', given', ops[1..]);
      Bytes.AppendAssociative(s.putLog, PutOf(s, given, ops[0]), PutsBy(s', given', ops[1..]));
    }
  }

  lemma {:induction false} RunTakes<T(!new)>(s: QueueState<T>, ops: seq<Op<T>>)
    requires CanRun(s, ops)
    ensures |Run(s, ops).takeLog| == |s.takeLog| + TakesBy(s, ops)
    decreases |ops|
  {
    if ops != [] {
      RunTakes(Apply(s, ops[0]), ops[1..]);
    }
  }

  predicate Taking<T>(s: QueueState<T>, t: ThreadId) { t in s.sleepingTakers || t in s.wokenTakers }

  predicate Putting<T>(s: QueueState<T>, t: ThreadId) { t in s.sleepingPutters || t in s.wokenPutters }

  lemma StepWaiting<T>(s: QueueState<T>, op: Op<T>, t: ThreadId)
    requires Enabled(s, op) && Solo(s, op.thread)
    ensures Taking(Apply(s, op), t) <==>
            if (op.Take? || op.TakeAgain?) && op.thread == t then s.queue == [] else Taking(s, t)
    ensures Putting(Apply(s, op), t) <==>
            if (op.Put? || op.PutAgain?) && op.thread == t then |s.queue| == s.capacity else Putting(s, t)
  {
  }

  lemma {:induction false} RunWaiting<T(!new)>(s: QueueState<T>, ops: seq<Op<T>>, t: ThreadId)
    requires Inv(s) && CanRun(s, ops)
    ensures Taking(Run(s, ops), t) <==> InTake(Taking(s, t), s, ops, t)
    ensures Putting(Run(s, ops), t) <==> InPut(Putting(s, t), s, ops, t)
    decreases |ops|
  {
    if ops != [] {
      assert Solo(s, ops[0].thread);
      StepWaiting(s, ops[0], t);
      StepKeepsInv(s, ops[0]);
      RunWaiting(Apply(s, ops[0]), ops[1..], t);
    }
  }

  lemma InitialInv<T>(capacity: nat)
    ensures Inv(InitialState<T>(capacity))
  {
    var s := InitialState<T>(capacity);
    forall t ensures Solo(s, t) {
    }
  }

  /** In every interleaving: no sleeping taker while an item has no woken taker to fetch it, no sleeping
      putter while a place has no woken putter to fill it, and the items taken and those in the queue are
      the items put, in the order in which the calls of put got through. */
  lemma NobodyForgotten<T(!new)>(capacity: nat, ops: seq<Op<T>>)
    requires CanRun(InitialState(capacity), ops)
    ensures var s := Run(InitialState(capacity), ops);
            && TakersServed(s) && PuttersServed(s)
            && s.capacity == capacity && |s.queue| <= capacity
            && s.takeLog + s.queue == PutsBy(InitialState(capacity), map[], ops)
            && |s.takeLog| == TakesBy(InitialState(capacity), ops)
  {
    var s := InitialState<T>(capacity);
    InitialInv<T>(capacity);
    RunKeepsInv(s, ops);
    RunPuts(s, map[], ops);
    RunTakes(s, ops);
    assert [] + PutsBy(s, map[], ops) == PutsBy(s, map[], ops);
  }

  /** The threads asleep or woken are exactly those inside take or put. */
  lemma WaitingAreThoseInside<T(!new)>(capacity: nat, ops: seq<Op<T>>, t: ThreadId)
    requires CanRun(InitialState(capacity), ops)
    ensures var s := Run(InitialState(capacity), ops);
            && (Taking(s, t) <==> InTake(false, InitialState(capacity), ops, t))
            && (Putting(s, t) <==> InPut(false, InitialState(capacity), ops, t))
  {
    InitialInv<T>(capacity);
    RunWaiting(InitialState<T>(capacity), ops, t);
  }

  /** All threads that use the queue sleep, on both sides, and none is woken. */
  ghost predicate Stuck<T>(s: QueueState<T>) {
    s.sleepingTakers != {} && s.sleepingPutters.Keys != {} && s.wokenTakers == {} && s.wokenPutters.Keys == {}
  }

  ghost predicate CanGetStuck<T(!new)>(capacity: nat) {
    exists ops: seq<Op<T>> :: CanRun(InitialState(capacity), ops) && Stuck(Run(InitialState(capacity), ops))
  }

  lemma NeverStuck<T(!new)>(capacity: nat, ops: seq<Op<T>>)
    requires capacity >= 1 && CanRun(InitialState(capacity), ops)
    ensures !Stuck(Run(InitialState(capacity), ops))
  {
    NobodyForgotten(capacity, ops);
  }

  /** Takers and putters can all fall asleep on each other if and only if the capacity is zero. */
  lemma StuckIffNoCapacity<T(!new)>(capacity: nat, item: T)
    ensures CanGetStuck<T>(capacity) <==> capacity == 0
  {
    if capacity == 0 {
      var s0 := InitialState<T>(0);
      var ops := [Op.Take(1, {}), Op.Put(2, item, {1})];
      var s1 := Apply(s0, ops[0]);
      assert ops[1..] == [ops[1]];
      assert CanRun(s1, ops[1..]);
      var s2 := Apply(s1, ops[1]);
      assert ops[1..][1..] == [];
      assert Run(s1, ops[1..]) == s2;
      assert 1 in s2.sleepingTakers && 2 in s2.sleepingPutters.Keys;
      assert Stuck(Run(s0, ops));
    } else {
      forall ops: seq<Op<T>> | CanRun(InitialState(capacity), ops)
        ensures !Stuck(Run(InitialState(capacity), ops))
      {
        NeverStuck(capacity, ops);
      }
    }
  }

  // ---- The object ----

  class BoundedBlockingQueue<T> {
    const capacity: nat
    var queue: seq<T>
    ghost var sleepingTakers: set<ThreadId>
    ghost var wokenTakers: set<ThreadId>
    ghost var sleepingPutters: map<ThreadId, T>
    ghost var wokenPutters: map<ThreadId, T>
    ghost var putLog: seq<T>
    ghost var takeLog: seq<T>

    ghost function View(): QueueState<T>
      reads this
    {
      QueueState(capacity, queue, sleepingTakers, wokenTakers, sleepingPutters, wokenPutters, putLog, takeLog)
    }

    constructor (maxSize: nat)
      ensures View() == InitialState(maxSize) && Inv(View())
    {
      capacity := maxSize;
      queue := [];
      sleepingTakers, wokenTakers, sleepingPutters, wokenPutters := {}, {}, map[], map[];
      putLog, takeLog := [], [];
    }

    /** A thread in put that has just acquired the mutex: the loop test, and either the wait or the
        push and the notify. `again` tells a return from the wait from the first test. */
    method PutStep(t: ThreadId, x: T, again: bool, ghost signalled: set<ThreadId>) returns (done: bool)
      requires |queue| <= capacity
      requires Enabled(View(), if again then PutAgain(t, signalled) else Put(t, x, signalled))
      requires again ==> wokenPutters[t] == x
      modifies this
      ensures View() == Apply(old(View()), if again then PutAgain(t, signalled) else Put(t, x, signalled))
      ensures done == (|old(queue)| != capacity)
    {
      wokenPutters := if again then wokenPutters - {t} else wokenPutters;
      done := |queue| != capacity;
      if !done {
        sleepingPutters := sleepingPutters[t := x];
      } else {
        assert |queue| < capacity;
        queue := queue + [x];
        putLog := putLog + [x];
        sleepingTakers, wokenTakers := sleepingTakers - signalled, wokenTakers + signalled;
      }
    }

    method TakeStep(t: ThreadId, again: bool, ghost signalled: set<ThreadId>) returns (front: seq<T>)
      requires Enabled(View(), if again then TakeAgain(t, signalled) else Take(t, signalled))
      modifies this
      ensures View() == Apply(old(View()), if again then TakeAgain(t, signalled) else Take(t, signalled))
      ensures front == if old(queue) == [] then [] else old(queue)[..1]
    {
      wokenTakers := if again then wokenTakers - {t} else wokenTakers;
      if |queue| == 0 {
        front := [];
        sleepingTakers := sleepingTakers + {t};
      } else {
        front := queue[..1];
        queue := queue[1..];
        takeLog := takeLog + front;
        ghost var asleep := sleepingPutters;
        sleepingPutters := asleep - signalled;
        wokenPutters := wokenPutters + map u | u in signalled :: asleep[u];
      }
    }
  }
}
