/** muduo/net/TimerQueue.cc: two indexes over the same timers, cancellation from inside a running
    batch, and arming of the timerfd. One clock, in integer microseconds. */
module TimerQueues {
  import Bytes

  type Addr = nat

  const MICROSECONDS_PER_SECOND: int := 1000 * 1000
  const MIN_DELAY: int := 100

  /** A Timer object; `interval` in microseconds. A timer repeats when its interval in seconds is positive,
      also if that is less than a microsecond. */
  datatype Timer = Timer(expiration: int, interval: nat, repeat: bool, sequence: nat)

  /** An element of timers_ and an element of activeTimers_ (also a TimerId). */
  datatype Entry = Entry(when: int, addr: Addr)
  datatype Id = Id(addr: Addr, sequence: nat)

  datatype TimerFd = Disarmed | Armed(at: int, deadline: int) | Fired

  /** Outside handleRead, or in its callbacks: the expired entries, how many callbacks have been
      called, and the time the batch was taken. */
  datatype Phase = Idle | InBatch(batch: seq<Entry>, called: nat, now: int)

  /** `heap` are the allocated timers, `waiting` those whose addTimerInLoop has not run yet. `timers`
      is kept in the order of std::set. `log` records the sequence numbers of the callbacks called. */
  datatype State = State(
    heap: map<Addr, Timer>,
    waiting: set<Addr>,
    timers: seq<Entry>,
    active: set<Id>,
    canceling: set<Id>,
    phase: Phase,
    created: nat,
    clock: int,
    fd: TimerFd,
    log: seq<nat>)
  {
    function Batch(): seq<Entry> {
      if phase.InBatch? then phase.batch else []
    }

    function IdOf(a: Addr): Id
      requires a in heap
    {
      Id(a, heap[a].sequence)
    }

    function EntryOf(a: Addr): Entry
      requires a in heap
    {
      Entry(heap[a].expiration, a)
    }
  }

  // ---- std::set<Entry> ----

  /** std::pair order. */
  predicate Less(a: Entry, b: Entry) {
    a.when < b.when || (a.when == b.when && a.addr < b.addr)
  }

  ghost predicate Sorted(ts: seq<Entry>) {
    forall i, j :: 0 <= i < j < |ts| ==> Less(ts[i], ts[j])
  }

  function InsertEntry(ts: seq<Entry>, e: Entry): seq<Entry> {
    if ts == [] || Less(e, ts[0]) then [e] + ts else [ts[0]] + InsertEntry(ts[1..], e)
  }

  function EraseEntry(ts: seq<Entry>, e: Entry): seq<Entry> {
    if ts == [] then [] else if ts[0] == e then ts[1..] else [ts[0]] + EraseEntry(ts[1..], e)
  }

  lemma {:induction false} InsertMembers(ts: seq<Entry>, e: Entry)
    ensures |InsertEntry(ts, e)| == |ts| + 1
    ensures forall x :: x in InsertEntry(ts, e) <==> x == e || x in ts
    ensures InsertEntry(ts, e)[0] == if ts == [] || Less(e, ts[0]) then e else ts[0]
  {
    if ts != [] && !Less(e, ts[0]) {
      InsertMembers(ts[1..], e);
      assert ts == [ts[0]] + ts[1..];
    }
  }

  lemma {:induction false} InsertSorted(ts: seq<Entry>, e: Entry)
    requires Sorted(ts) && e !in ts
    ensures Sorted(InsertEntry(ts, e))
  {
    if ts != [] && !Less(e, ts[0]) {
      InsertSorted(ts[1..], e);
      InsertMembers(ts[1..], e);
      var rest := InsertEntry(ts[1..], e);
      forall k | 0 <= k < |rest| ensures Less(ts[0], rest[k]) {
        assert rest[k] in rest;
      }
    }
  }

  lemma {:induction false} EraseMembers(ts: seq<Entry>, e: Entry)
    requires Sorted(ts) && e in ts
    ensures |EraseEntry(ts, e)| == |ts| - 1
    ensures forall x :: x in EraseEntry(ts, e) <==> x != e && x in ts
  {
    assert ts == [ts[0]] + ts[1..];
    if ts[0] != e {
      EraseMembers(ts[1..], e);
    }
  }

  lemma {:induction false} EraseSorted(ts: seq<Entry>, e: Entry)
    requires Sorted(ts) && e in ts
    ensures Sorted(EraseEntry(ts, e))
  {
    if ts[0] != e {
      EraseSorted(ts[1..], e);
      EraseMembers(ts[1..], e);
      var rest := EraseEntry(ts[1..], e);
      forall k | 0 <= k < |rest| ensures Less(ts[0], rest[k]) {
        assert rest[k] in rest;
      }
    }
  }

  // ---- The operations ----

  datatype Op =
    | Create(addr: Addr, when: int, interval: nat, repeat: bool)   // addTimer: new Timer, any thread
    | Insert(addr: Addr)                                           // addTimerInLoop
    | Cancel(id: Id)                                               // cancelInLoop
    | Tick(microseconds: nat)
    | BeginRead                                                    // handleRead up to the callbacks
    | CallNext                                                     // one callback
    | EndRead                                                      // reset

  predicate Enabled(s: State, op: Op) {
    match op
    case Create(a, _, _, _) => a !in s.heap
    case Insert(a) => a in s.waiting && a in s.heap
    case Cancel(_) => true
    case Tick(_) => true
    case BeginRead => s.phase.Idle?
    case CallNext => s.phase.InBatch? && s.phase.called < |s.phase.batch| && s.phase.batch[s.phase.called].addr in s.heap
    case EndRead => s.phase.InBatch? && s.phase.called == |s.phase.batch|
  }

  function Max(a: int, b: int): int { if a < b then b else a }

  /** howMuchTimeFromNow, as seconds and nanoseconds. */
  function HowMuchTimeFromNow(when: int, now: int): (r: (int, int))
    ensures 0 <= r.1 < 1_000_000_000
    ensures r.0 * 1_000_000_000 + r.1 == 1000 * Max(when - now, MIN_DELAY)
  {
    var microseconds := if when - now < MIN_DELAY then MIN_DELAY else when - now;
    (microseconds / MICROSECONDS_PER_SECOND, microseconds % MICROSECONDS_PER_SECOND * 1000)
  }

  /** resetTimerfd: arming replaces an earlier deadline and clears an expiration not read yet. */
  function Arm(s: State, expiration: int): State {
    var (sec, nsec) := HowMuchTimeFromNow(expiration, s.clock);
    s.(fd := Armed(s.clock, s.clock + sec * MICROSECONDS_PER_SECOND + nsec / 1000))
  }

  /** TimerQueue::insert, and whether the earliest expiration changed. */
  function InsertTimer(s: State, a: Addr): (State, bool)
    requires a in s.heap
  {
    var e := s.EntryOf(a);
    (s.(timers := InsertEntry(s.timers, e), active := s.active + {s.IdOf(a)}),
     s.timers == [] || e.when < s.timers[0].when)
  }

  function AddTimerInLoop(s: State, a: Addr): State
    requires a in s.heap
  {
    var (s', earliestChanged) := InsertTimer(s.(waiting := s.waiting - {a}), a);
    if earliestChanged then Arm(s', s.heap[a].expiration) else s'
  }

  function CancelInLoop(s: State, id: Id): State {
    if id in s.active && id.addr in s.heap then
      s.(timers := EraseEntry(s.timers, s.EntryOf(id.addr)), heap := s.heap - {id.addr}, active := s.active - {id})
    else if s.phase.InBatch? then s.(canceling := s.canceling + {id})
    else s
  }

  /** getExpired: moves the entries up to `now` from both indexes to the batch, in order. */
  function GetExpired(s: State): State
    requires s.phase.InBatch?
    decreases |s.timers|
  {
    if s.timers == [] || s.timers[0].when > s.phase.now || s.timers[0].addr !in s.heap then s
    else
      var e := s.timers[0];
      GetExpired(s.(timers := s.timers[1..],
                    active := s.active - {s.IdOf(e.addr)},
                    phase := s.phase.(batch := s.phase.batch + [e])))
  }

  function DoBeginRead(s: State): State {
    GetExpired(s.(fd := if s.fd.Fired? then Disarmed else s.fd,
                  canceling := {},
                  phase := InBatch([], 0, s.clock)))
  }

  /** One turn of the loop in reset: restart and insert, or delete. */
  function ResetOne(s: State): State
    requires s.phase.InBatch? && s.phase.batch != [] && s.phase.batch[0].addr in s.heap
  {
    var a := s.phase.batch[0].addr;
    var t := s.heap[a];
    var s' := s.(phase := s.phase.(batch := s.phase.batch[1..], called := |s.phase.batch| - 1));
    if t.repeat && s.IdOf(a) !in s.canceling then
      InsertTimer(s'.(heap := s.heap[a := t.(expiration := s.phase.now + t.interval)]), a).0
    else s'.(heap := s.heap - {a})
  }

  function ResetAll(s: State): State
    requires s.phase.InBatch?
    decreases |s.phase.batch|
  {
    if s.phase.batch == [] || s.phase.batch[0].addr !in s.heap then s else ResetAll(ResetOne(s))
  }

  function DoEndRead(s: State): State
    requires s.phase.InBatch?
  {
    var s' := ResetAll(s);
    var s'' := s'.(phase := Idle);
    if s'.timers != [] && s'.timers[0].when > 0 then Arm(s'', s'.timers[0].when) else s''
  }

  function Apply(s: State, op: Op): State
    requires Enabled(s, op)
  {
    match op
    case Create(a, when, interval, repeat) =>
      s.(heap := s.heap[a := Timer(when, interval, repeat, s.created + 1)],
         created := s.created + 1,
         waiting := s.waiting + {a})
    case Insert(a) => AddTimerInLoop(s, a)
    case Cancel(id) => CancelInLoop(s, id)
    case Tick(d) =>
      var clock := s.clock + d;
      s.(clock := clock, fd := if s.fd.Armed? && clock >= s.fd.deadline then Fired else s.fd)
    case BeginRead => DoBeginRead(s)
    case CallNext =>
      s.(log := s.log + [s.heap[s.phase.batch[s.phase.called].addr].sequence],
         phase := s.phase.(called := s.phase.called + 1))
    case EndRead => DoEndRead(s)
  }

  function InitialState(clock: int): State {
    State(map[], {}, [], {}, {}, Idle, 0, clock, Disarmed, [])
  }

  ghost predicate CanRun(s: State, ops: seq<Op>)
    decreases |ops|
  {
    ops == [] || (Enabled(s, ops[0]) && CanRun(Apply(s, ops[0]), ops[1..]))
  }

  ghost function Run(s: State, ops: seq<Op>): State
    requires CanRun(s, ops)
    decreases |ops|
  {
    if ops == [] then s else Run(Apply(s, ops[0]), ops[1..])
  }

  // ---- The two indexes agree ----

  ghost predicate EntryOk(s: State, e: Entry) {
    e in s.timers ==> e.addr in s.heap && s.EntryOf(e.addr) == e && s.IdOf(e.addr) in s.active
  }

  ghost predicate IdOk(s: State, id: Id) {
    id in s.active ==> id.addr in s.heap && s.IdOf(id.addr) == id && s.EntryOf(id.addr) in s.timers
  }

  ghost predicate WaitingOk(s: State, a: Addr) {
    a in s.waiting ==> a in s.heap && s.IdOf(a) !in s.active
  }

  ghost predicate BatchOk(s: State, i: int) {
    0 <= i < |s.Batch()| ==>
      var a := s.Batch()[i].addr;
      a in s.heap && s.EntryOf(a) == s.Batch()[i] && a !in s.waiting && s.IdOf(a) !in s.active
  }

  ghost predicate HeapOk(s: State, a: Addr) {
    a in s.heap ==> s.heap[a].sequence <= s.created
  }

  /** No two timers, and so no two uses of one address, have the same sequence number. */
  ghost predicate Unique(s: State, a: Addr, b: Addr) {
    a in s.heap && b in s.heap && s.heap[a].sequence == s.heap[b].sequence ==> a == b
  }

  /** (when, timer) is in timers_ exactly when (timer, sequence) is in activeTimers_ and `when` is the
      timer's expiration. */
  ghost predicate IndexesAgree(s: State) {
    (forall e :: EntryOk(s, e)) && (forall id :: IdOk(s, id)) && |s.timers| == |s.active| && Sorted(s.timers)
  }

  ghost predicate Owned(s: State) {
    && (forall a :: WaitingOk(s, a))
    && (forall i :: BatchOk(s, i))
    && Sorted(s.Batch())
    && (s.phase.InBatch? ==> s.phase.called <= |s.phase.batch|)
    && (forall a :: HeapOk(s, a))
    && (forall a, b :: Unique(s, a, b))
  }

  ghost predicate Inv(s: State) {
    IndexesAgree(s) && Owned(s)
  }

  /** `a` is allocated and in no index, not waiting and not in the batch. */
  ghost predicate Loose(s: State, a: Addr) {
    a in s.heap && a !in s.waiting && s.IdOf(a) !in s.active && forall i :: 0 <= i < |s.Batch()| ==> s.Batch()[i].addr != a
  }

  lemma InsertKeepsInv(s: State, a: Addr)
    requires Inv(s) && Loose(s, a)
    ensures Inv(InsertTimer(s, a).0)
  {
    var s' := InsertTimer(s, a).0;
    var e := s.EntryOf(a);
    assert EntryOk(s, e);
    InsertMembers(s.timers, e);
    InsertSorted(s.timers, e);
    forall x ensures EntryOk(s', x) {
      assert EntryOk(s, x);
    }
    forall x ensures IdOk(s', x) {
      assert IdOk(s, x);
    }
    forall x ensures WaitingOk(s', x) {
      assert WaitingOk(s, x);
    }
    forall i ensures BatchOk(s', i) {
      assert BatchOk(s, i);
    }
    forall x ensures HeapOk(s', x) {
      assert HeapOk(s, x);
    }
    forall x, y ensures Unique(s', x, y) {
      assert Unique(s, x, y);
    }
  }

  lemma CreateKeepsInv(s: State, a: Addr, when: int, interval: nat, repeat: bool)
    requires Inv(s) && a !in s.heap
    ensures Inv(Apply(s, Create(a, when, interval, repeat)))
  {
    var s' := Apply(s, Create(a, when, interval, repeat));
    forall x ensures EntryOk(s', x) {
      assert EntryOk(s, x);
    }
    forall x ensures IdOk(s', x) {
      assert IdOk(s, x);
    }
    forall x ensures WaitingOk(s', x) {
      assert WaitingOk(s, x) && IdOk(s, Id(a, s.created + 1));
    }
    forall i ensures BatchOk(s', i) {
      assert BatchOk(s, i);
    }
    forall x ensures HeapOk(s', x) {
      assert HeapOk(s, x);
    }
    forall x, y ensures Unique(s', x, y) {
      assert Unique(s, x, y) && HeapOk(s, x) && HeapOk(s, y);
    }
  }

  lemma AddKeepsInv(s: State, a: Addr)
    requires Inv(s) && a in s.waiting && a in s.heap
    ensures Inv(AddTimerInLoop(s, a))
  {
    var s0 := s.(waiting := s.waiting - {a});
    assert WaitingOk(s, a);
    assert Inv(s0) by {
      SameIndexes(s, s0);
      forall x ensures WaitingOk(s0, x) {
        assert WaitingOk(s, x);
      }
      forall i ensures BatchOk(s0, i) {
        assert BatchOk(s, i);
      }
      SameHeap(s, s0);
    }
    forall i | 0 <= i < |s0.Batch()| ensures s0.Batch()[i].addr != a {
      assert BatchOk(s, i);
    }
    InsertKeepsInv(s0, a);
    var s1 := InsertTimer(s0, a).0;
    OnlyFd(s1, AddTimerInLoop(s, a));
  }

  lemma SameIndexes(s: State, s': State)
    requires IndexesAgree(s)
    requires s'.heap == s.heap && s'.timers == s.timers && s'.active == s.active
    ensures IndexesAgree(s')
  {
    forall x ensures EntryOk(s', x) {
      assert EntryOk(s, x);
    }
    forall x ensures IdOk(s', x) {
      assert IdOk(s, x);
    }
  }

  lemma SameHeap(s: State, s': State)
    requires Owned(s) && s'.heap == s.heap && s'.created == s.created
    ensures (forall a :: HeapOk(s', a)) && (forall a, b :: Unique(s', a, b))
  {
    forall x ensures HeapOk(s', x) {
      assert HeapOk(s, x);
    }
    forall x, y ensures Unique(s', x, y) {
      assert Unique(s, x, y);
    }
  }

  /** The timerfd, the clock, the log and the canceling set do not matter to the indexes. */
  lemma OnlyFd(s: State, s': State)
    requires Inv(s)
    requires s'.heap == s.heap && s'.waiting == s.waiting && s'.timers == s.timers && s'.active == s.active
    requires s'.created == s.created && s'.Batch() == s.Batch()
    requires s'.phase.InBatch? ==> s'.phase.called <= |s'.phase.batch|
    ensures Inv(s')
  {
    SameIndexes(s, s');
    SameHeap(s, s');
    forall x ensures WaitingOk(s', x) {
      assert WaitingOk(s, x);
    }
    forall i ensures BatchOk(s', i) {
      assert BatchOk(s, i);
    }
  }

  lemma CancelKeepsInv(s: State, id: Id)
    requires Inv(s)
    ensures Inv(CancelInLoop(s, id))
  {
    var s' := CancelInLoop(s, id);
    assert IdOk(s, id);
    if id in s.active {
      var e := s.EntryOf(id.addr);
      EraseMembers(s.timers, e);
      EraseSorted(s.timers, e);
      forall x ensures EntryOk(s', x) {
        assert EntryOk(s, x);
      }
      forall x ensures IdOk(s', x) {
        assert IdOk(s, x);
      }
      forall x ensures WaitingOk(s', x) {
        assert WaitingOk(s, x);
      }
      forall i ensures BatchOk(s', i) {
        assert BatchOk(s, i);
      }
      forall x ensures HeapOk(s', x) {
        assert HeapOk(s, x);
      }
      forall x, y ensures Unique(s', x, y) {
        assert Unique(s, x, y);
      }
    } else {
      OnlyFd(s, s');
    }
  }

  function ExpireOne(s: State): State
    requires s.phase.InBatch? && s.timers != [] && s.timers[0].addr in s.heap
  {
    s.(timers := s.timers[1..],
       active := s.active - {s.IdOf(s.timers[0].addr)},
       phase := s.phase.(batch := s.phase.batch + [s.timers[0]]))
  }

  /** Every entry of the batch is before every entry of timers_. */
  ghost predicate BatchFirst(s: State) {
    s.phase.InBatch? &&
    forall i, j :: 0 <= i < |s.phase.batch| && 0 <= j < |s.timers| ==> Less(s.phase.batch[i], s.timers[j])
  }

  /** One expired entry moves from the indexes to the batch. */
  lemma ExpireOneKeepsInv(s: State)
    requires Inv(s) && BatchFirst(s) && s.timers != [] && s.timers[0].addr in s.heap
    ensures Inv(ExpireOne(s)) && BatchFirst(ExpireOne(s))
  {
    var e := s.timers[0];
    var s' := ExpireOne(s);
    assert EntryOk(s, e);
    assert s.timers == [e] + s.timers[1..];
    assert e !in s.timers[1..];
    forall x ensures EntryOk(s', x) {
      assert EntryOk(s, x);
    }
    forall x ensures IdOk(s', x) {
      assert IdOk(s, x);
    }
    forall x ensures WaitingOk(s', x) {
      assert WaitingOk(s, x);
    }
    forall i ensures BatchOk(s', i) {
      assert BatchOk(s, i) && WaitingOk(s, e.addr);
    }
    SameHeap(s, s');
  }

  lemma {:induction false} GetExpiredKeepsInv(s: State)
    requires Inv(s) && BatchFirst(s)
    ensures Inv(GetExpired(s))
    decreases |s.timers|
  {
    if s.timers != [] && s.timers[0].when <= s.phase.now && s.timers[0].addr in s.heap {
      ExpireOneKeepsInv(s);
      GetExpiredKeepsInv(ExpireOne(s));
    }
  }

  /** getExpired takes exactly the entries up to `now`, in order, out of timers_. */
  lemma GetExpiredMeaning(s: State)
    requires s.phase.InBatch? && Sorted(s.timers) && forall e :: e in s.timers ==> e.addr in s.heap
    ensures var r := GetExpired(s);
            && r.phase.InBatch? && |s.phase.batch| <= |r.phase.batch|
            && r.phase.batch[..|s.phase.batch|] == s.phase.batch
            && r.phase.batch[|s.phase.batch|..] + r.timers == s.timers
            && r == s.(timers := r.timers, active := r.active, phase := s.phase.(batch := r.phase.batch))
            && (forall e :: e in r.timers ==> e.when > s.phase.now)
            && (forall e :: e in r.phase.batch[|s.phase.batch|..] ==> e.when <= s.phase.now)
  {
    forall i | 0 <= i < |s.timers| ensures s.timers[i].addr in s.heap {
      assert s.timers[i] in s.timers;
    }
    var n := GetExpiredTakes(s);
    var taken, rest := s.timers[..n], s.timers[n..];
    assert (s.phase.batch + taken)[|s.phase.batch|..] == taken && taken + rest == s.timers;
    LaterThan(s.timers, n, s.phase.now);
  }

  /** How many entries leave. */
  lemma {:induction false} GetExpiredTakes(s: State) returns (n: nat)
    requires s.phase.InBatch? && forall i :: 0 <= i < |s.timers| ==> s.timers[i].addr in s.heap
    ensures n <= |s.timers| && (forall i :: 0 <= i < n ==> s.timers[i].when <= s.phase.now)
    ensures n < |s.timers| ==> s.timers[n].when > s.phase.now
    ensures var r := GetExpired(s);
            r == s.(timers := s.timers[n..], active := r.active, phase := s.phase.(batch := s.phase.batch + s.timers[..n]))
    decreases |s.timers|
  {
    if s.timers != [] && s.timers[0].when <= s.phase.now {
      var s' := ExpireOne(s);
      var m := GetExpiredTakes(s');
      n := m + 1;
      assert s'.timers[m..] == s.timers[n..];
      assert s.phase.batch + [s.timers[0]] + s'.timers[..m] == s.phase.batch + s.timers[..n];
      assert forall i :: 0 < i < n ==> s.timers[i] == s'.timers[i - 1];
    } else {
      n := 0;
      assert s.phase.batch + s.timers[..0] == s.phase.batch && s.timers[0..] == s.timers;
    }
  }

  lemma BeginReadKeepsInv(s: State)
    requires Inv(s) && s.phase.Idle?
    ensures var r := DoBeginRead(s);
            && Inv(r) && r.phase.InBatch? && r.phase.called == 0 && r.phase.now == s.clock
            && r.phase.batch + r.timers == s.timers
            && (forall e :: e in r.phase.batch ==> e.when <= s.clock)
            && (forall e :: e in r.timers ==> e.when > s.clock)
            && r == s.(fd := r.fd, canceling := {}, phase := r.phase, timers := r.timers, active := r.active)
            && r.fd == if s.fd.Fired? then Disarmed else s.fd
  {
    var s0 := s.(fd := if s.fd.Fired? then Disarmed else s.fd, canceling := {}, phase := InBatch([], 0, s.clock));
    OnlyFd(s, s0);
    GetExpiredKeepsInv(s0);
    forall e | e in s0.timers ensures e.addr in s0.heap {
      assert EntryOk(s0, e);
    }
    GetExpiredMeaning(s0);
    var batch := DoBeginRead(s).phase.batch;
    assert batch[0..] == batch;
  }

  function IdsOf(heap: map<Addr, Timer>, entries: seq<Entry>): set<Id> {
    set e | e in entries && e.addr in heap :: Id(e.addr, heap[e.addr].sequence)
  }

  /** The ids of the entries in the batch are exactly those that leave activeTimers_. */
  lemma ActiveSplit(s: State, r: State)
    requires Inv(s) && Inv(r) && r.heap == s.heap && r.phase.InBatch? && r.phase.batch + r.timers == s.timers
    ensures r.active == s.active - IdsOf(s.heap, r.phase.batch)
  {
    forall id ensures id in r.active <==> id in s.active && id !in IdsOf(s.heap, r.phase.batch) {
      assert IdOk(s, id) && IdOk(r, id);
      if id in s.active {
        assert EntryOk(r, s.EntryOf(id.addr));
      }
      if id in r.active {
        assert EntryOk(s, s.EntryOf(id.addr));
      }
      if id in IdsOf(s.heap, r.phase.batch) {
        var i :| 0 <= i < |r.phase.batch| && r.phase.batch[i].addr == id.addr;
        assert BatchOk(r, i);
      }
    }
  }

  /** What reset leaves of the batch once its first entry is dealt with. */
  function PopBatch(s: State): State
    requires s.phase.InBatch? && s.phase.batch != []
  {
    s.(phase := s.phase.(batch := s.phase.batch[1..], called := |s.phase.batch| - 1))
  }

  lemma PopKeepsInv(s: State)
    requires Inv(s) && s.phase.InBatch? && s.phase.batch != []
    ensures Inv(PopBatch(s)) && Loose(PopBatch(s), s.phase.batch[0].addr)
  {
    var s' := PopBatch(s);
    var a := s.phase.batch[0].addr;
    assert BatchOk(s, 0);
    SameIndexes(s, s');
    SameHeap(s, s');
    forall x ensures WaitingOk(s', x) {
      assert WaitingOk(s, x);
    }
    forall i ensures BatchOk(s', i) {
      assert BatchOk(s, i + 1);
    }
    forall i | 0 <= i < |s'.Batch()| ensures s'.Batch()[i].addr != a {
      assert BatchOk(s, i + 1) && Less(s.phase.batch[0], s.phase.batch[i + 1]);
    }
  }

  /** A loose timer may be changed (keeping its sequence number) or deleted. */
  lemma ChangeLooseKeepsInv(s: State, a: Addr, t: Timer)
    requires Inv(s) && Loose(s, a) && t.sequence == s.heap[a].sequence
    ensures var s' := s.(heap := s.heap[a := t]); Inv(s') && Loose(s', a)
  {
    var s' := s.(heap := s.heap[a := t]);
    forall x ensures EntryOk(s', x) {
      assert EntryOk(s, x);
    }
    forall x ensures IdOk(s', x) {
      assert IdOk(s, x);
    }
    forall x ensures WaitingOk(s', x) {
      assert WaitingOk(s, x);
    }
    forall i ensures BatchOk(s', i) {
      assert BatchOk(s, i);
    }
    forall x ensures HeapOk(s', x) {
      assert HeapOk(s, x);
    }
    forall x, y ensures Unique(s', x, y) {
      assert Unique(s, x, y);
    }
  }

  lemma DeleteLooseKeepsInv(s: State, a: Addr)
    requires Inv(s) && Loose(s, a)
    ensures Inv(s.(heap := s.heap - {a}))
  {
    var s' := s.(heap := s.heap - {a});
    forall x ensures EntryOk(s', x) {
      assert EntryOk(s, x);
    }
    forall x ensures IdOk(s', x) {
      assert IdOk(s, x);
    }
    forall x ensures WaitingOk(s', x) {
      assert WaitingOk(s, x);
    }
    forall i ensures BatchOk(s', i) {
      assert BatchOk(s, i);
    }
    forall x ensures HeapOk(s', x) {
      assert HeapOk(s, x);
    }
    forall x, y ensures Unique(s', x, y) {
      assert Unique(s, x, y);
    }
  }

  lemma ResetOneKeepsInv(s: State)
    requires Inv(s) && s.phase.InBatch? && s.phase.batch != []
    ensures s.phase.batch[0].addr in s.heap && Inv(ResetOne(s))
  {
    assert BatchOk(s, 0);
    var a := s.phase.batch[0].addr;
    var t := s.heap[a];
    var s' := PopBatch(s);
    PopKeepsInv(s);
    if t.repeat && s.IdOf(a) !in s.canceling {
      var t' := t.(expiration := s.phase.now + t.interval);
      ChangeLooseKeepsInv(s', a, t');
      InsertKeepsInv(s'.(heap := s'.heap[a := t']), a);
    } else {
      DeleteLooseKeepsInv(s', a);
    }
  }

  lemma {:induction false} ResetAllKeepsInv(s: State)
    requires Inv(s) && s.phase.InBatch?
    ensures var r := ResetAll(s); Inv(r) && r.phase.InBatch? && r.phase.batch == []
    decreases |s.phase.batch|
  {
    if s.phase.batch != [] {
      ResetOneKeepsInv(s);
      ResetAllKeepsInv(ResetOne(s));
    }
  }

  /** Whether and with which expiration `timer` is in the indexes at address a. */
  ghost predicate Scheduled(s: State, a: Addr, timer: Timer) {
    a in s.heap && s.heap[a] == timer && s.EntryOf(a) in s.timers && s.IdOf(a) in s.active
  }

  /** One turn of reset leaves every timer but the first of the batch where it is. */
  lemma ResetOneSpares(s: State, a: Addr)
    requires Inv(s) && s.phase.InBatch? && s.phase.batch != [] && s.phase.batch[0].addr in s.heap
    requires a in s.heap && a != s.phase.batch[0].addr
    ensures var r := ResetOne(s);
            && a in r.heap && r.heap[a] == s.heap[a]
            && (s.EntryOf(a) in r.timers <==> s.EntryOf(a) in s.timers)
            && (s.IdOf(a) in r.active <==> s.IdOf(a) in s.active)
  {
    var b := s.phase.batch[0].addr;
    InsertMembers(s.timers, Entry(s.phase.now + s.heap[b].interval, b));
  }

  lemma ResetOneFirst(s: State)
    requires Inv(s) && s.phase.InBatch? && s.phase.batch != [] && s.phase.batch[0].addr in s.heap
    ensures var r, a := ResetOne(s), s.phase.batch[0].addr;
            if s.heap[a].repeat && s.IdOf(a) !in s.canceling
            then Scheduled(r, a, s.heap[a].(expiration := s.phase.now + s.heap[a].interval))
            else a !in r.heap
  {
    var a := s.phase.batch[0].addr;
    InsertMembers(s.timers, Entry(s.phase.now + s.heap[a].interval, a));
  }

  lemma {:induction false} ResetAllSpares(s: State, a: Addr)
    requires Inv(s) && s.phase.InBatch?
    requires a in s.heap && forall i :: 0 <= i < |s.phase.batch| ==> s.phase.batch[i].addr != a
    ensures var r := ResetAll(s);
            && a in r.heap && r.heap[a] == s.heap[a]
            && (s.EntryOf(a) in r.timers <==> s.EntryOf(a) in s.timers)
            && (s.IdOf(a) in r.active <==> s.IdOf(a) in s.active)
    decreases |s.phase.batch|
  {
    if s.phase.batch != [] {
      ResetOneKeepsInv(s);
      ResetOneSpares(s, a);
      ResetAllSpares(ResetOne(s), a);
    }
  }

  lemma BatchAddressesDiffer(s: State, i: nat, j: nat)
    requires Inv(s) && i < j < |s.Batch()|
    ensures s.Batch()[i].addr != s.Batch()[j].addr
  {
    assert BatchOk(s, i) && BatchOk(s, j);
    assert Less(s.Batch()[i], s.Batch()[j]);
  }

  /** What reset does to each timer of the batch: one that repeats and was not cancelled is scheduled again,
      an interval after the time the batch was taken; any other is deleted. */
  lemma {:induction false} ResetMeaning(s: State, i: nat)
    requires Inv(s) && s.phase.InBatch? && i < |s.phase.batch|
    ensures var r, a := ResetAll(s), s.phase.batch[i].addr;
            && a in s.heap
            && if s.heap[a].repeat && s.IdOf(a) !in s.canceling
               then Scheduled(r, a, s.heap[a].(expiration := s.phase.now + s.heap[a].interval))
               else a !in r.heap
    decreases |s.phase.batch|
  {
    assert BatchOk(s, i);
    ResetOneKeepsInv(s);
    var s', a := ResetOne(s), s.phase.batch[i].addr;
    if i == 0 {
      ResetOneFirst(s);
      forall j | 0 <= j < |s'.phase.batch| ensures s'.phase.batch[j].addr != a {
        BatchAddressesDiffer(s, 0, j + 1);
      }
      if a in s'.heap {
        ResetAllSpares(s', a);
      } else {
        ResetAllAddsNone(s', a);
      }
    } else {
      BatchAddressesDiffer(s, 0, i);
      ResetOneSpares(s, a);
      ResetMeaning(s', i - 1);
    }
  }

  lemma {:induction false} ResetAllAddsNone(s: State, a: Addr)
    requires s.phase.InBatch? && a !in s.heap
    ensures a !in ResetAll(s).heap
    decreases |s.phase.batch|
  {
    if s.phase.batch != [] && s.phase.batch[0].addr in s.heap {
      ResetAllAddsNone(ResetOne(s), a);
    }
  }

  lemma EndReadKeepsInv(s: State)
    requires Inv(s) && s.phase.InBatch?
    ensures Inv(DoEndRead(s))
  {
    ResetAllKeepsInv(s);
    OnlyFd(ResetAll(s), DoEndRead(s));
  }

  lemma StepKeepsInv(s: State, op: Op)
    requires Inv(s) && Enabled(s, op)
    ensures Inv(Apply(s, op))
  {
    match op
    case Create(a, when, interval, repeat) => CreateKeepsInv(s, a, when, interval, repeat);
    case Insert(a) => AddKeepsInv(s, a);
    case Cancel(id) => CancelKeepsInv(s, id);
    case Tick(_) => OnlyFd(s, Apply(s, op));
    case BeginRead => BeginReadKeepsInv(s);
    case CallNext => OnlyFd(s, Apply(s, op));
    case EndRead => EndReadKeepsInv(s);
  }

  lemma InitialInv(clock: int)
    ensures Inv(InitialState(clock))
  {
  }

  lemma {:induction false} RunKeepsInv(s: State, ops: seq<Op>)
    requires Inv(s) && CanRun(s, ops)
    ensures Inv(Run(s, ops))
    decreases |ops|
  {
    if ops != [] {
      StepKeepsInv(s, ops[0]);
      RunKeepsInv(Apply(s, ops[0]), ops[1..]);
    }
  }

  /** After every run the two indexes hold the same timers. */
  lemma IndexesAgreeInEveryRun(clock: int, ops: seq<Op>)
    requires CanRun(InitialState(clock), ops)
    ensures IndexesAgree(Run(InitialState(clock), ops))
  {
    InitialInv(clock);
    RunKeepsInv(InitialState(clock), ops);
  }

  // ---- Cancellation ----

  function Count(log: seq<nat>, q: nat): nat {
    if log == [] then 0 else Count(log[..|log| - 1], q) + (if log[|log| - 1] == q then 1 else 0)
  }

  ghost predicate HasSequence(s: State, a: Addr, q: nat) {
    a in s.heap && s.heap[a].sequence == q
  }

  /** The callback of timer q is in the batch being called and has not been called yet. */
  ghost predicate StillToCall(s: State, q: nat) {
    s.phase.InBatch? && exists i :: s.phase.called <= i < |s.phase.batch| && HasSequence(s, s.phase.batch[i].addr, q)
  }

  /** Timer q is in no index and not waiting to be; if it is in the batch, it is marked. */
  ghost predicate CancelledAt(s: State, q: nat, a: Addr) {
    HasSequence(s, a, q) ==>
      && a !in s.waiting && Id(a, q) !in s.active
      && (s.phase.InBatch? ==> Id(a, q) in s.canceling)
  }

  ghost predicate Cancelled(s: State, q: nat) {
    q <= s.created && (s.phase.Idle? ==> forall a :: !HasSequence(s, a, q)) && forall a :: CancelledAt(s, q, a)
  }

  /** Every allocated timer is waiting, indexed or in the batch: none is leaked. */
  ghost predicate Placed(s: State, a: Addr) {
    a in s.heap ==> a in s.waiting || s.IdOf(a) in s.active || s.EntryOf(a) in s.Batch()
  }

  ghost predicate NoLeak(s: State) {
    forall a :: Placed(s, a)
  }

  ghost predicate Inserted(s: State, id: Id) {
    id in s.active || (HasSequence(s, id.addr, id.sequence) && s.EntryOf(id.addr) in s.Batch())
  }

  /** cancelInLoop on an inserted timer. A timer found in the indexes is gone for good; one in the
      batch being called is marked. */
  lemma CancelCancels(s: State, id: Id)
    requires Inv(s) && Inserted(s, id)
    ensures var s' := CancelInLoop(s, id);
            && Cancelled(s', id.sequence)
            && (id in s.active ==> !StillToCall(s', id.sequence))
            && (StillToCall(s', id.sequence) <==> StillToCall(s, id.sequence))
  {
    var s' := CancelInLoop(s, id);
    var q := id.sequence;
    assert IdOk(s, id) && HeapOk(s, id.addr) && WaitingOk(s, id.addr);
    if id !in s.active {
      var i :| 0 <= i < |s.Batch()| && s.Batch()[i] == s.EntryOf(id.addr);
      assert BatchOk(s, i);
    }
    forall a ensures CancelledAt(s', q, a) {
      assert Unique(s, a, id.addr);
    }
    forall a ensures s'.phase.Idle? ==> !HasSequence(s', a, q) {
      assert Unique(s, a, id.addr);
    }
    if s.phase.InBatch? {
      forall i | 0 <= i < |s.phase.batch|
        ensures HasSequence(s', s.phase.batch[i].addr, q) <==> HasSequence(s, s.phase.batch[i].addr, q)
        ensures id in s.active ==> !HasSequence(s, s.phase.batch[i].addr, q)
      {
        assert BatchOk(s, i) && Unique(s, s.phase.batch[i].addr, id.addr);
      }
    }
  }

  /** A cancellation touches no other timer; in particular a stale id, whose address now holds a timer
      with another sequence number, cancels nothing. */
  lemma CancelSparesOthers(s: State, id: Id, a: Addr)
    requires Inv(s) && a in s.heap && s.IdOf(a) != id
    ensures var s' := CancelInLoop(s, id);
            && a in s'.heap && s'.heap[a] == s.heap[a]
            && (s'.IdOf(a) in s'.active <==> s.IdOf(a) in s.active)
            && (s'.EntryOf(a) in s'.timers <==> s.EntryOf(a) in s.timers)
            && (s'.IdOf(a) in s'.canceling <==> s.IdOf(a) in s.canceling)
  {
    assert IdOk(s, id) && EntryOk(s, s.EntryOf(a));
    if id in s.active {
      EraseMembers(s.timers, s.EntryOf(id.addr));
    }
  }

  // The steps of a cancelled timer: it stays cancelled, and its callback is called at most once more,
  // by the batch that was already running.

  ghost function Bound(s: State, q: nat): nat {
    Count(s.log, q) + (if StillToCall(s, q) then 1 else 0)
  }

  lemma CallNextCancelled(s: State, q: nat)
    requires Inv(s) && Enabled(s, CallNext) && Cancelled(s, q)
    ensures var s' := Apply(s, CallNext); Cancelled(s', q) && Bound(s', q) <= Bound(s, q)
  {
    var s' := Apply(s, CallNext);
    var k := s.phase.called;
    var a := s.phase.batch[k].addr;
    assert s'.log[..|s'.log| - 1] == s.log;
    forall x ensures CancelledAt(s', q, x) {
      assert CancelledAt(s, q, x) && (HasSequence(s', x, q) <==> HasSequence(s, x, q));
    }
    forall i | k < i < |s.phase.batch| && HasSequence(s', s.phase.batch[i].addr, q)
      ensures StillToCall(s, q) && s.heap[a].sequence != q
    {
      assert HasSequence(s, s.phase.batch[i].addr, q);
      assert Less(s.phase.batch[k], s.phase.batch[i]) && BatchOk(s, i) && BatchOk(s, k);
      assert Unique(s, a, s.phase.batch[i].addr);
    }
    if s.heap[a].sequence == q {
      assert HasSequence(s, s.phase.batch[k].addr, q);
      assert StillToCall(s, q);
    }
  }

  lemma BeginReadCancelled(s: State, q: nat)
    requires Inv(s) && s.phase.Idle? && Cancelled(s, q)
    ensures var s' := DoBeginRead(s); Cancelled(s', q) && Bound(s', q) <= Bound(s, q)
  {
    BeginReadKeepsInv(s);
    var s' := DoBeginRead(s);
    forall a ensures CancelledAt(s', q, a) && !HasSequence(s', a, q) {
      assert !HasSequence(s, a, q);
    }
  }

  lemma ResetOneCancelled(s: State, q: nat)
    requires Inv(s) && s.phase.InBatch? && s.phase.batch != [] && s.phase.called == |s.phase.batch| && Cancelled(s, q)
    ensures s.phase.batch[0].addr in s.heap
    ensures var s' := ResetOne(s);
            && Cancelled(s', q) && s'.log == s.log
            && s'.phase.InBatch? && s'.phase.batch == s.phase.batch[1..] && s'.phase.called == |s'.phase.batch|
  {
    assert BatchOk(s, 0);
    var s' := ResetOne(s);
    forall x ensures CancelledAt(s', q, x) {
      assert CancelledAt(s, q, x) && (HasSequence(s', x, q) ==> HasSequence(s, x, q));
    }
  }

  lemma {:induction false} ResetAllCancelled(s: State, q: nat)
    requires Inv(s) && s.phase.InBatch? && s.phase.called == |s.phase.batch| && Cancelled(s, q)
    ensures var r := ResetAll(s);
            Cancelled(r, q) && r.log == s.log && r.phase.InBatch? && r.phase.batch == []
    decreases |s.phase.batch|
  {
    if s.phase.batch != [] {
      ResetOneKeepsInv(s);
      ResetOneCancelled(s, q);
      ResetAllCancelled(ResetOne(s), q);
    }
  }

  lemma {:induction false} ResetAllNoLeak(s: State)
    requires Inv(s) && s.phase.InBatch? && NoLeak(s)
    ensures NoLeak(ResetAll(s)) && ResetAll(s).phase.InBatch? && ResetAll(s).phase.batch == []
    decreases |s.phase.batch|
  {
    if s.phase.batch != [] {
      ResetOneKeepsInv(s);
      var s' := ResetOne(s);
      var a := s.phase.batch[0].addr;
      assert BatchOk(s, 0);
      forall x ensures Placed(s', x) {
        assert Placed(s, x);
        if x in s'.heap && x != a && s.EntryOf(x) in s.phase.batch {
          assert s.phase.batch == [s.phase.batch[0]] + s.phase.batch[1..];
        }
      }
      ResetAllNoLeak(s');
    }
  }

  lemma EndReadCancelled(s: State, q: nat)
    requires Inv(s) && Enabled(s, EndRead) && Cancelled(s, q) && NoLeak(s)
    ensures var s' := DoEndRead(s); Cancelled(s', q) && Bound(s', q) <= Bound(s, q)
  {
    var r, s' := ResetAll(s), DoEndRead(s);
    ResetAllCancelled(s, q);
    ResetAllNoLeak(s);
    forall a ensures !HasSequence(s', a, q) {
      assert CancelledAt(r, q, a) && Placed(r, a) && (HasSequence(s', a, q) ==> HasSequence(r, a, q));
    }
    forall a ensures CancelledAt(s', q, a) {
      assert !HasSequence(s', a, q);
    }
  }

  lemma QuietStepCancelled(s: State, op: Op, q: nat)
    requires Inv(s) && Enabled(s, op) && Cancelled(s, q)
    requires op.Create? || op.Insert? || op.Cancel? || op.Tick?
    ensures var s' := Apply(s, op); Cancelled(s', q) && Bound(s', q) <= Bound(s, q)
  {
    var s' := Apply(s, op);
    forall x ensures HasSequence(s', x, q) ==> HasSequence(s, x, q) {
    }
    forall x ensures CancelledAt(s', q, x) {
      assert CancelledAt(s, q, x);
    }
    if StillToCall(s', q) {
      var i :| s'.phase.called <= i < |s'.phase.batch| && HasSequence(s', s'.phase.batch[i].addr, q);
      assert HasSequence(s, s.phase.batch[i].addr, q);
    }
  }

  lemma StepCancelled(s: State, op: Op, q: nat)
    requires Inv(s) && NoLeak(s) && Enabled(s, op) && Cancelled(s, q)
    ensures var s' := Apply(s, op); Cancelled(s', q) && Bound(s', q) <= Bound(s, q)
  {
    match op
    case BeginRead => BeginReadCancelled(s, q);
    case CallNext => CallNextCancelled(s, q);
    case EndRead => EndReadCancelled(s, q);
    case _ => QuietStepCancelled(s, op, q);
  }

  lemma BeginReadNoLeak(s: State)
    requires Inv(s) && s.phase.Idle? && NoLeak(s)
    ensures NoLeak(DoBeginRead(s))
  {
    BeginReadKeepsInv(s);
    var r := DoBeginRead(s);
    forall a ensures Placed(r, a) {
      assert Placed(s, a);
      if a in s.heap && s.IdOf(a) in s.active {
        assert IdOk(s, s.IdOf(a));
        assert s.EntryOf(a) in r.phase.batch + r.timers;
        assert EntryOk(r, s.EntryOf(a));
      }
    }
  }

  lemma StepNoLeak(s: State, op: Op)
    requires Inv(s) && NoLeak(s) && Enabled(s, op)
    ensures NoLeak(Apply(s, op))
  {
    match op
    case BeginRead => BeginReadNoLeak(s);
    case EndRead =>
      ResetAllNoLeak(s);
      var r, s' := ResetAll(s), DoEndRead(s);
      forall a ensures Placed(s', a) {
        assert Placed(r, a);
      }
    case _ =>
      var s' := Apply(s, op);
      forall a ensures Placed(s', a) {
        assert Placed(s, a);
        if a in s.heap {
          assert IdOk(s, s.IdOf(a));
        }
      }
  }

  lemma {:induction false} RunNoLeak(s: State, ops: seq<Op>)
    requires Inv(s) && NoLeak(s) && CanRun(s, ops)
    ensures NoLeak(Run(s, ops))
    decreases |ops|
  {
    if ops != [] {
      StepKeepsInv(s, ops[0]);
      StepNoLeak(s, ops[0]);
      RunNoLeak(Apply(s, ops[0]), ops[1..]);
    }
  }

  /** After every run each allocated timer is waiting to be inserted, in both indexes, or in the batch
      being called. */
  lemma NoTimerLeaked(clock: int, ops: seq<Op>)
    requires CanRun(InitialState(clock), ops)
    ensures NoLeak(Run(InitialState(clock), ops))
  {
    InitialInv(clock);
    RunNoLeak(InitialState(clock), ops);
  }

  lemma {:induction false} RunCancelled(s: State, ops: seq<Op>, q: nat)
    requires Inv(s) && NoLeak(s) && Cancelled(s, q) && CanRun(s, ops)
    ensures Cancelled(Run(s, ops), q) && Bound(Run(s, ops), q) <= Bound(s, q)
    decreases |ops|
  {
    if ops != [] {
      StepKeepsInv(s, ops[0]);
      StepNoLeak(s, ops[0]);
      StepCancelled(s, ops[0], q);
      RunCancelled(Apply(s, ops[0]), ops[1..], q);
    }
  }

  /** Whatever happened before and happens after cancelInLoop of an inserted timer: it never enters an
      index again, and its callback is called at most once more, and not at all unless the batch being
      called at that moment still had it to call. */
  lemma CancelIsFinal(clock: int, before: seq<Op>, id: Id, after: seq<Op>)
    requires CanRun(InitialState(clock), before)
    requires Inserted(Run(InitialState(clock), before), id)
    requires CanRun(CancelInLoop(Run(InitialState(clock), before), id), after)
    ensures var s := Run(InitialState(clock), before);
            var e := Run(CancelInLoop(s, id), after);
            && id !in e.active
            && (forall x :: x in e.timers ==> !HasSequence(e, x.addr, id.sequence))
            && Count(e.log, id.sequence) <= Count(s.log, id.sequence) + (if StillToCall(s, id.sequence) then 1 else 0)
            && (id in s.active ==> Count(e.log, id.sequence) <= Count(s.log, id.sequence))
  {
    InitialInv(clock);
    RunKeepsInv(InitialState(clock), before);
    RunNoLeak(InitialState(clock), before);
    var s := Run(InitialState(clock), before);
    CancelCancels(s, id);
    StepKeepsInv(s, Cancel(id));
    StepNoLeak(s, Cancel(id));
    var s' := CancelInLoop(s, id);
    RunCancelled(s', after, id.sequence);
    RunKeepsInv(s', after);
    var e := Run(s', after);
    assert IdOk(e, id) && CancelledAt(e, id.sequence, id.addr);
    forall x | x in e.timers ensures !HasSequence(e, x.addr, id.sequence) {
      assert EntryOk(e, x) && CancelledAt(e, id.sequence, x.addr);
    }
  }

  // ---- Timers do what was asked of addTimer ----

  datatype Request = Request(addr: Addr, when: int, interval: nat, repeat: bool)

  /** The timers asked for, in the order of their sequence numbers. */
  function Requests(ops: seq<Op>): seq<Request> {
    if ops == [] then [] else RequestOf(ops[0]) + Requests(ops[1..])
  }

  function RequestOf(op: Op): seq<Request> {
    if op.Create? then [Request(op.addr, op.when, op.interval, op.repeat)] else []
  }

  /** The timer at `a` is the one asked for under its sequence number, and until its callback has been called
      it expires at the time asked for. */
  ghost predicate AsAsked(s: State, asked: seq<Request>, a: Addr) {
    a in s.heap ==>
      var t := s.heap[a];
      && 1 <= t.sequence <= |asked|
      && var r := asked[t.sequence - 1];
         && r.addr == a && r.interval == t.interval && r.repeat == t.repeat
         && (t.sequence !in s.log ==> t.expiration == r.when)
  }

  /** A timer not inserted yet has not been called. */
  ghost predicate NotYetCalled(s: State, a: Addr) {
    a in s.waiting && a in s.heap ==> s.heap[a].sequence !in s.log
  }

  ghost predicate CalledLogged(s: State, i: int) {
    s.phase.InBatch? && 0 <= i < s.phase.called && i < |s.phase.batch| ==>
      var a := s.phase.batch[i].addr;
      a in s.heap && s.heap[a].sequence in s.log
  }

  ghost predicate AllAsAsked(s: State, asked: seq<Request>) {
    && s.created == |asked|
    && (forall a :: AsAsked(s, asked, a))
    && (forall a :: NotYetCalled(s, a))
    && (forall i :: CalledLogged(s, i))
    && (forall i :: 0 <= i < |s.log| ==> s.log[i] <= s.created)
  }

  lemma CreateAsAsked(s: State, asked: seq<Request>, op: Op)
    requires Inv(s) && AllAsAsked(s, asked) && op.Create? && Enabled(s, op)
    ensures AllAsAsked(Apply(s, op), asked + RequestOf(op))
  {
    var s' := Apply(s, op);
    forall a ensures AsAsked(s', asked + RequestOf(op), a) {
      assert AsAsked(s, asked, a);
    }
    forall a ensures NotYetCalled(s', a) {
      assert NotYetCalled(s, a);
    }
    forall i ensures CalledLogged(s', i) {
      assert CalledLogged(s, i) && BatchOk(s, i);
    }
  }

  /** Steps that only take timers away, or move them. */
  lemma FewerAsAsked(s: State, asked: seq<Request>, s': State)
    requires AllAsAsked(s, asked)
    requires s'.created == s.created && s'.log == s.log && s'.waiting <= s.waiting
    requires forall a :: a in s'.heap ==> a in s.heap && s'.heap[a] == s.heap[a]
    requires forall i :: CalledLogged(s', i)
    ensures AllAsAsked(s', asked)
  {
    forall a ensures AsAsked(s', asked, a) {
      assert AsAsked(s, asked, a);
    }
    forall a ensures NotYetCalled(s', a) {
      assert NotYetCalled(s, a);
    }
  }

  lemma CancelAsAsked(s: State, asked: seq<Request>, id: Id)
    requires Inv(s) && AllAsAsked(s, asked)
    ensures AllAsAsked(CancelInLoop(s, id), asked)
  {
    var s' := CancelInLoop(s, id);
    assert IdOk(s, id);
    forall i ensures CalledLogged(s', i) {
      assert CalledLogged(s, i) && BatchOk(s, i);
    }
    FewerAsAsked(s, asked, s');
  }

  lemma CallNextAsAsked(s: State, asked: seq<Request>)
    requires Inv(s) && AllAsAsked(s, asked) && Enabled(s, CallNext)
    ensures AllAsAsked(Apply(s, CallNext), asked)
  {
    var s', n := Apply(s, CallNext), s.phase.called;
    var b := s.phase.batch[n].addr;
    assert BatchOk(s, n) && HeapOk(s, b);
    forall a ensures AsAsked(s', asked, a) {
      assert AsAsked(s, asked, a);
    }
    forall a ensures NotYetCalled(s', a) {
      assert NotYetCalled(s, a) && Unique(s, a, b);
    }
    forall i ensures CalledLogged(s', i) {
      assert CalledLogged(s, i);
    }
  }

  /** All callbacks of the batch have been called. */
  ghost predicate BatchLogged(s: State) {
    s.phase.InBatch? && forall i :: 0 <= i < |s.phase.batch| ==>
      s.phase.batch[i].addr in s.heap && s.heap[s.phase.batch[i].addr].sequence in s.log
  }

  lemma ResetOneAsAsked(s: State, asked: seq<Request>)
    requires Inv(s) && AllAsAsked(s, asked) && BatchLogged(s) && s.phase.batch != []
    ensures AllAsAsked(ResetOne(s), asked) && BatchLogged(ResetOne(s))
  {
    var s' := ResetOne(s);
    var b := s.phase.batch[0].addr;
    assert BatchOk(s, 0);
    forall a ensures AsAsked(s', asked, a) {
      assert AsAsked(s, asked, a);
    }
    forall a ensures NotYetCalled(s', a) {
      assert NotYetCalled(s, a);
    }
    forall i | 0 <= i < |s'.phase.batch|
      ensures s'.phase.batch[i].addr in s'.heap && s'.heap[s'.phase.batch[i].addr].sequence in s'.log
    {
      BatchAddressesDiffer(s, 0, i + 1);
      assert s.phase.batch[i + 1].addr in s.heap;
    }
    forall i ensures CalledLogged(s', i) {
    }
  }

  lemma {:induction false} ResetAllAsAsked(s: State, asked: seq<Request>)
    requires Inv(s) && AllAsAsked(s, asked) && BatchLogged(s)
    ensures AllAsAsked(ResetAll(s), asked)
    decreases |s.phase.batch|
  {
    if s.phase.batch != [] {
      ResetOneKeepsInv(s);
      ResetOneAsAsked(s, asked);
      ResetAllAsAsked(ResetOne(s), asked);
    }
  }

  lemma EndReadAsAsked(s: State, asked: seq<Request>)
    requires Inv(s) && AllAsAsked(s, asked) && Enabled(s, EndRead)
    ensures AllAsAsked(DoEndRead(s), asked)
  {
    forall i | 0 <= i < |s.phase.batch|
      ensures s.phase.batch[i].addr in s.heap && s.heap[s.phase.batch[i].addr].sequence in s.log
    {
      assert CalledLogged(s, i);
    }
    ResetAllAsAsked(s, asked);
    FewerAsAsked(ResetAll(s), asked, DoEndRead(s));
  }

  lemma StepAsAsked(s: State, asked: seq<Request>, op: Op)
    requires Inv(s) && AllAsAsked(s, asked) && Enabled(s, op)
    ensures AllAsAsked(Apply(s, op), asked + RequestOf(op))
  {
    var s' := Apply(s, op);
    if op.Create? {
      CreateAsAsked(s, asked, op);
    } else {
      assert asked + RequestOf(op) == asked;
      match op
      case Insert(_) =>
        forall i ensures CalledLogged(s', i) {
          assert CalledLogged(s, i);
        }
        FewerAsAsked(s, asked, s');
      case Cancel(id) => CancelAsAsked(s, asked, id);
      case Tick(_) =>
        forall i ensures CalledLogged(s', i) {
          assert CalledLogged(s, i);
        }
        FewerAsAsked(s, asked, s');
      case BeginRead =>
        BeginReadKeepsInv(s);
        FewerAsAsked(s, asked, s');
      case CallNext => CallNextAsAsked(s, asked);
      case EndRead => EndReadAsAsked(s, asked);
    }
  }

  lemma RequestsStep(asked: seq<Request>, ops: seq<Op>)
    requires ops != []
    ensures asked + RequestOf(ops[0]) + Requests(ops[1..]) == asked + Requests(ops)
  {
    Bytes.AppendAssociative(asked, RequestOf(ops[0]), Requests(ops[1..]));
  }

  lemma {:induction false} RunAsAsked(s: State, asked: seq<Request>, ops: seq<Op>)
    requires Inv(s) && AllAsAsked(s, asked) && CanRun(s, ops)
    ensures AllAsAsked(Run(s, ops), asked + Requests(ops))
    decreases |ops|
  {
    if ops == [] {
      assert asked + [] == asked;
    } else {
      StepKeepsInv(s, ops[0]);
      StepAsAsked(s, asked, ops[0]);
      RunAsAsked(Apply(s, ops[0]), asked + RequestOf(ops[0]), ops[1..]);
      RequestsStep(asked, ops);
    }
  }

  /** Whatever runs between: the k-th addTimer's timer has sequence number k and keeps the interval asked for
      and whether it repeats, and it expires at the time asked for until its callback has been called. */
  lemma TimersAreAsAsked(clock: int, ops: seq<Op>)
    requires CanRun(InitialState(clock), ops)
    ensures var s := Run(InitialState(clock), ops);
            s.created == |Requests(ops)| && forall a :: AsAsked(s, Requests(ops), a)
  {
    AllAsAskedInEveryRun(clock, ops);
  }

  lemma AllAsAskedInEveryRun(clock: int, ops: seq<Op>)
    requires CanRun(InitialState(clock), ops)
    ensures AllAsAsked(Run(InitialState(clock), ops), Requests(ops))
  {
    InitialInv(clock);
    RunAsAsked(InitialState(clock), [], ops);
    assert [] + Requests(ops) == Requests(ops);
  }

  /** The clock after a run. */
  function ClockBy(clock: int, ops: seq<Op>): int
    decreases |ops|
  {
    if ops == [] then clock else ClockBy(Ticked(clock, ops[0]), ops[1..])
  }

  function Ticked(clock: int, op: Op): int {
    if op.Tick? then clock + op.microseconds else clock
  }

  lemma {:induction false} RunClock(s: State, ops: seq<Op>)
    requires Inv(s) && CanRun(s, ops)
    ensures Run(s, ops).clock == ClockBy(s.clock, ops)
    decreases |ops|
  {
    if ops != [] {
      StepKeepsInv(s, ops[0]);
      StepClock(s, ops[0]);
      RunClock(Apply(s, ops[0]), ops[1..]);
    }
  }

  lemma StepClock(s: State, op: Op)
    requires Inv(s) && Enabled(s, op)
    ensures Apply(s, op).clock == Ticked(s.clock, op)
  {
    match op
    case BeginRead => BeginReadKeepsInv(s);
    case EndRead => ResetAllClock(s);
    case _ =>
  }

  lemma {:induction false} ResetAllClock(s: State)
    requires s.phase.InBatch?
    ensures ResetAll(s).clock == s.clock
    decreases |s.phase.batch|
  {
    if s.phase.batch != [] && s.phase.batch[0].addr in s.heap {
      ResetAllClock(ResetOne(s));
    }
  }

  /** `timer` is in the indexes at address a, and its callback has not been called. */
  ghost predicate Pending(s: State, a: Addr, timer: Timer) {
    a in s.heap && s.heap[a] == timer && s.IdOf(a) in s.active && timer.sequence !in s.log
  }

  lemma BeginReadPending(s: State, a: Addr, timer: Timer)
    requires Inv(s) && s.phase.Idle? && Pending(s, a, timer)
    ensures var r := DoBeginRead(s);
            && (s.EntryOf(a) in r.Batch() <==> timer.expiration <= s.clock)
            && (timer.expiration > s.clock ==> Pending(r, a, timer))
  {
    BeginReadKeepsInv(s);
    var r, e := DoBeginRead(s), s.EntryOf(a);
    assert IdOk(s, s.IdOf(a));
    assert e in r.phase.batch + r.timers;
    assert EntryOk(r, e);
  }

  lemma CallNextPending(s: State, a: Addr, timer: Timer)
    requires Inv(s) && Enabled(s, CallNext) && Pending(s, a, timer)
    ensures Pending(Apply(s, CallNext), a, timer)
  {
    var n := s.phase.called;
    assert BatchOk(s, n) && Unique(s, a, s.phase.batch[n].addr);
  }

  lemma EndReadPending(s: State, a: Addr, timer: Timer)
    requires Inv(s) && Enabled(s, EndRead) && Pending(s, a, timer)
    ensures Pending(DoEndRead(s), a, timer)
  {
    forall i | 0 <= i < |s.phase.batch| ensures s.phase.batch[i].addr != a {
      assert BatchOk(s, i);
    }
    ResetAllSpares(s, a);
    ResetAllLog(s);
  }

  lemma {:induction false} ResetAllLog(s: State)
    requires s.phase.InBatch?
    ensures ResetAll(s).log == s.log
    decreases |s.phase.batch|
  {
    if s.phase.batch != [] && s.phase.batch[0].addr in s.heap {
      ResetAllLog(ResetOne(s));
    }
  }

  lemma StepPending(s: State, op: Op, a: Addr, timer: Timer)
    requires Inv(s) && Enabled(s, op) && Pending(s, a, timer)
    requires op != Cancel(Id(a, timer.sequence)) && (op.BeginRead? ==> timer.expiration > s.clock)
    ensures Pending(Apply(s, op), a, timer)
  {
    match op
    case Cancel(id) => CancelSparesOthers(s, id, a);
    case BeginRead => BeginReadPending(s, a, timer);
    case CallNext => CallNextPending(s, a, timer);
    case EndRead => EndReadPending(s, a, timer);
    case _ =>
  }

  /** The time asked for in the q-th addTimer. */
  function TimeAsked(ops: seq<Op>, q: nat): int {
    if 1 <= q <= |Requests(ops)| then Requests(ops)[q - 1].when else 0
  }

  /** No step cancels `id`, and every batch is taken before the clock reaches `when`. */
  predicate UndisturbedBefore(clock: int, ops: seq<Op>, id: Id, when: int)
    decreases |ops|
  {
    ops == [] ||
    (&& ops[0] != Cancel(id)
     && (ops[0].BeginRead? ==> clock < when)
     && UndisturbedBefore(Ticked(clock, ops[0]), ops[1..], id, when))
  }

  lemma {:induction false} RunPending(s: State, ops: seq<Op>, a: Addr, timer: Timer)
    requires Inv(s) && CanRun(s, ops) && Pending(s, a, timer)
    requires UndisturbedBefore(s.clock, ops, Id(a, timer.sequence), timer.expiration)
    ensures Pending(Run(s, ops), a, timer)
    decreases |ops|
  {
    if ops != [] {
      StepKeepsInv(s, ops[0]);
      StepClock(s, ops[0]);
      StepPending(s, ops[0], a, timer);
      RunPending(Apply(s, ops[0]), ops[1..], a, timer);
    }
  }

  /** A timer inserted and not cancelled enters the first batch taken when the clock has reached the time
      asked for, and none before: whatever runs between, as long as every batch was taken earlier, it is
      still in the indexes, and the next batch has it exactly when it is due. */
  lemma EntersFirstDueBatch(clock: int, before: seq<Op>, a: Addr, after: seq<Op>)
    requires CanRun(InitialState(clock), before)
    requires Enabled(Run(InitialState(clock), before), Insert(a))
    requires CanRun(Apply(Run(InitialState(clock), before), Insert(a)), after)
    requires var id := Run(InitialState(clock), before).IdOf(a);
             UndisturbedBefore(ClockBy(clock, before), after, id, TimeAsked(before, id.sequence))
    ensures var s := Run(InitialState(clock), before);
            var e := Run(Apply(s, Insert(a)), after);
            var when := TimeAsked(before, s.heap[a].sequence);
            && s.IdOf(a) in e.active
            && (e.phase.Idle? ==>
                  (Entry(when, a) in DoBeginRead(e).Batch() <==> when <= ClockBy(clock, before + after)))
  {
    var timer := InsertedIsPending(clock, before, a);
    var s' := Apply(Run(InitialState(clock), before), Insert(a));
    RunPending(s', after, a, timer);
    RunKeepsInv(s', after);
    RunClock(s', after);
    ClockAppend(clock, before, after);
    if Run(s', after).phase.Idle? {
      BeginReadPending(Run(s', after), a, timer);
    }
  }

  lemma InsertedIsPending(clock: int, before: seq<Op>, a: Addr) returns (timer: Timer)
    requires CanRun(InitialState(clock), before)
    requires Enabled(Run(InitialState(clock), before), Insert(a))
    ensures var s := Run(InitialState(clock), before);
            var s' := Apply(s, Insert(a));
            && timer == s.heap[a] && timer.expiration == TimeAsked(before, timer.sequence)
            && Inv(s') && Pending(s', a, timer) && s'.clock == ClockBy(clock, before)
  {
    InitialInv(clock);
    RunKeepsInv(InitialState(clock), before);
    RunClock(InitialState(clock), before);
    AllAsAskedInEveryRun(clock, before);
    var s := Run(InitialState(clock), before);
    timer := s.heap[a];
    WaitingAsAsked(s, before, a);
    AddKeepsInv(s, a);
    AddIsPending(s, a);
  }

  lemma WaitingAsAsked(s: State, before: seq<Op>, a: Addr)
    requires AllAsAsked(s, Requests(before)) && a in s.waiting && a in s.heap
    ensures s.heap[a].sequence !in s.log && s.heap[a].expiration == TimeAsked(before, s.heap[a].sequence)
  {
    assert AsAsked(s, Requests(before), a) && NotYetCalled(s, a);
  }

  lemma AddIsPending(s: State, a: Addr)
    requires a in s.heap && s.heap[a].sequence !in s.log
    ensures var s' := AddTimerInLoop(s, a); Pending(s', a, s.heap[a]) && s'.clock == s.clock
  {
  }

  lemma {:induction false} ClockAppend(clock: int, a: seq<Op>, b: seq<Op>)
    ensures ClockBy(clock, a + b) == ClockBy(ClockBy(clock, a), b)
    decreases |a|
  {
    if a == [] {
      assert a + b == b;
    } else {
      assert (a + b)[1..] == a[1..] + b;
      ClockAppend(Ticked(clock, a[0]), a[1..], b);
    }
  }

  // ---- Arming ----

  /** The timerfd has fired, or its deadline is still to come and no later than the earliest expiration, or than
      100 microseconds after it was armed. */
  ghost predicate WillFire(s: State) {
    s.timers != [] ==>
      || s.fd.Fired?
      || (s.fd.Armed? && s.clock < s.fd.deadline <= Max(s.timers[0].when, s.fd.at + MIN_DELAY))
  }

  ghost predicate ArmedInv(s: State) {
    && s.clock > 0
    && (s.fd.Armed? ==> s.clock < s.fd.deadline)
    && (s.phase.Idle? ==> WillFire(s))
    && (s.phase.InBatch? ==> s.phase.now > 0 && (s.timers != [] && s.timers[0].when <= 0 ==> WillFire(s)))
  }

  lemma ArmDeadline(s: State, expiration: int)
    ensures Arm(s, expiration).fd == Armed(s.clock, Max(expiration, s.clock + MIN_DELAY))
  {
    var (sec, nsec) := HowMuchTimeFromNow(expiration, s.clock);
    var micro := Max(expiration - s.clock, MIN_DELAY);
    assert nsec == micro % MICROSECONDS_PER_SECOND * 1000 && sec == micro / MICROSECONDS_PER_SECOND;
    assert nsec / 1000 == micro % MICROSECONDS_PER_SECOND;
  }

  lemma InsertArmed(s: State, a: Addr)
    requires Inv(s) && ArmedInv(s) && a in s.waiting && a in s.heap
    ensures ArmedInv(AddTimerInLoop(s, a))
  {
    InsertMembers(s.timers, s.EntryOf(a));
    ArmDeadline(InsertTimer(s.(waiting := s.waiting - {a}), a).0, s.heap[a].expiration);
  }

  lemma EarliestFirst(ts: seq<Entry>, e: Entry)
    requires Sorted(ts) && e in ts
    ensures ts[0].when <= e.when
  {
    var i :| 0 <= i < |ts| && ts[i] == e;
    assert i > 0 ==> Less(ts[0], ts[i]);
  }

  lemma CancelArmed(s: State, id: Id)
    requires Inv(s) && ArmedInv(s)
    ensures ArmedInv(CancelInLoop(s, id))
  {
    assert IdOk(s, id);
    var s' := CancelInLoop(s, id);
    if id in s.active {
      EraseMembers(s.timers, s.EntryOf(id.addr));
      if s'.timers != [] {
        assert s'.timers[0] in s'.timers;
        EarliestFirst(s.timers, s'.timers[0]);
      }
    }
  }

  lemma BeginReadArmed(s: State)
    requires Inv(s) && ArmedInv(s) && s.phase.Idle?
    ensures ArmedInv(DoBeginRead(s))
  {
    BeginReadKeepsInv(s);
    var r := DoBeginRead(s);
    if r.timers != [] {
      assert r.timers[0] in r.timers;
    }
  }

  /** reset inserts only positive expirations, so a non-positive earliest one stays the earliest. */
  lemma {:induction false} ResetAllArmed(s: State)
    requires Inv(s) && ArmedInv(s) && s.phase.InBatch?
    ensures ArmedInv(ResetAll(s)) && ResetAll(s).clock == s.clock && ResetAll(s).phase.InBatch?
    decreases |s.phase.batch|
  {
    if s.phase.batch != [] {
      ResetOneKeepsInv(s);
      var a := s.phase.batch[0].addr;
      var t := s.heap[a];
      InsertMembers(s.timers, Entry(s.phase.now + t.interval, a));
      ResetAllArmed(ResetOne(s));
    }
  }

  lemma EndReadArmed(s: State)
    requires Inv(s) && ArmedInv(s) && s.phase.InBatch?
    ensures ArmedInv(DoEndRead(s))
  {
    ResetAllArmed(s);
    var r := ResetAll(s);
    if r.timers != [] {
      ArmDeadline(r.(phase := Idle), r.timers[0].when);
    }
  }

  lemma StepArmed(s: State, op: Op)
    requires Inv(s) && ArmedInv(s) && Enabled(s, op)
    ensures ArmedInv(Apply(s, op))
  {
    match op
    case Create(_, _, _, _) =>
    case Insert(a) => InsertArmed(s, a);
    case Cancel(id) => CancelArmed(s, id);
    case Tick(_) =>
    case BeginRead => BeginReadArmed(s);
    case CallNext =>
    case EndRead => EndReadArmed(s);
  }

  lemma {:induction false} RunArmed(s: State, ops: seq<Op>)
    requires Inv(s) && ArmedInv(s) && CanRun(s, ops)
    ensures ArmedInv(Run(s, ops))
    decreases |ops|
  {
    if ops != [] {
      StepKeepsInv(s, ops[0]);
      StepArmed(s, ops[0]);
      RunArmed(Apply(s, ops[0]), ops[1..]);
    }
  }

  /** Outside handleRead, in every run and for expirations of any sign, a non-empty queue has a timerfd
      that has fired or will fire in time. */
  lemma AlwaysArmed(clock: int, ops: seq<Op>)
    requires clock > 0 && CanRun(InitialState(clock), ops)
    ensures var s := Run(InitialState(clock), ops); s.phase.Idle? ==> WillFire(s)
  {
    InitialInv(clock);
    RunArmed(InitialState(clock), ops);
  }

  lemma RunCons(s: State, op: Op, rest: seq<Op>)
    requires Enabled(s, op) && CanRun(Apply(s, op), rest)
    ensures CanRun(s, [op] + rest) && Run(s, [op] + rest) == Run(Apply(s, op), rest)
  {
    assert ([op] + rest)[1..] == rest;
  }

  /** The rest of a batch in which timer 1 repeats with an interval below a microsecond and its callback
      has added timer 2: reset puts timer 1 back first, at an expiration that does not count as valid. */
  lemma ResetWithoutArming(s: State, clock: int)
    requires clock <= 0 && s.clock == clock && s.canceling == {}
    requires s.phase == InBatch([Entry(clock, 1)], 1, clock)
    requires s.heap == map[1 := Timer(clock, 0, true, 1), 2 := Timer(1000, 0, false, 2)]
    requires s.timers == [Entry(1000, 2)] && s.fd == Armed(clock, 1000)
    ensures var r := DoEndRead(s); r.phase.Idle? && !WillFire(r)
  {
    var r := ResetOne(s);
    assert r.phase.batch == [] && r.timers == InsertEntry(s.timers, Entry(clock, 1));
    assert r.timers[0] == Entry(clock, 1);
    assert ResetAll(s) == ResetAll(r) == r;
  }

  /** The callback of timer 1 adds timer 2, whose insertion arms the timerfd for it. */
  lemma CallbackAddsTimer(s: State, clock: int) returns (ops: seq<Op>)
    requires clock <= 0 && s.clock == clock && s.canceling == {} && s.created == 1
    requires s.phase == InBatch([Entry(clock, 1)], 0, clock)
    requires s.heap == map[1 := Timer(clock, 0, true, 1)] && s.timers == [] && s.waiting == {}
    ensures CanRun(s, ops) && Run(s, ops).phase.Idle? && !WillFire(Run(s, ops))
  {
    var second := Create(2, 1000, 0, false);
    var s1 := Apply(s, second);
    var s2 := Apply(s1, Insert(2));
    ArmDeadline(s1, 1000);
    assert s2.timers == [Entry(1000, 2)] && s2.fd == Armed(clock, 1000);
    var s3 := Apply(s2, CallNext);
    ResetWithoutArming(s3, clock);
    RunCons(s3, EndRead, []);
    RunCons(s2, CallNext, [EndRead] + []);
    RunCons(s1, Insert(2), [CallNext] + ([EndRead] + []));
    ops := [Insert(2)] + ([CallNext] + ([EndRead] + []));
    RunCons(s, second, ops);
    ops := [second] + ops;
  }

  /** With a clock that is not positive there is a run that leaves the timerfd armed too late. */
  lemma ArmedTooLate(clock: int) returns (ops: seq<Op>)
    requires clock <= 0
    ensures CanRun(InitialState(clock), ops)
    ensures Run(InitialState(clock), ops).phase.Idle? && !WillFire(Run(InitialState(clock), ops))
  {
    var s0, first := InitialState(clock), Create(1, clock, 0, true);
    var s1 := Apply(s0, first);
    var s2 := Apply(s1, Insert(1));
    assert s2.timers == [Entry(clock, 1)];
    ArmDeadline(s1, clock);
    OneExpires(s2, clock);
    var s3 := Apply(s2, BeginRead);
    ops := CallbackAddsTimer(s3, clock);
    RunCons(s2, BeginRead, ops);
    ops := [BeginRead] + ops;
    RunCons(s1, Insert(1), ops);
    ops := [Insert(1)] + ops;
    RunCons(s0, first, ops);
    ops := [first] + ops;
  }

  lemma OneExpires(s: State, clock: int)
    requires s.phase.Idle? && s.clock == clock && 1 in s.heap && s.heap[1].sequence == 1
    requires s.timers == [Entry(clock, 1)] && s.active == {Id(1, 1)} && !s.fd.Fired?
    ensures DoBeginRead(s) == s.(canceling := {}, timers := [], active := {}, phase := InBatch([Entry(clock, 1)], 0, clock))
  {
    var begun := s.(canceling := {}, phase := InBatch([], 0, clock));
    var taken := begun.(timers := begun.timers[1..], active := begun.active - {begun.IdOf(1)},
                        phase := InBatch([] + [Entry(clock, 1)], 0, clock));
    assert DoBeginRead(s) == GetExpired(begun) == GetExpired(taken) == taken;
    assert taken.timers == [] && taken.active == {} && taken.phase.batch == [Entry(clock, 1)];
  }

  ghost predicate StaysArmed(clock: int) {
    forall ops :: CanRun(InitialState(clock), ops) && Run(InitialState(clock), ops).phase.Idle? ==>
                    WillFire(Run(InitialState(clock), ops))
  }

  /** The timerfd is armed in time in every run if and only if the clock is positive, as the time of day is. */
  lemma StaysArmedIff(clock: int)
    ensures StaysArmed(clock) <==> clock > 0
  {
    if clock > 0 {
      forall ops | CanRun(InitialState(clock), ops) && Run(InitialState(clock), ops).phase.Idle?
        ensures WillFire(Run(InitialState(clock), ops))
      {
        AlwaysArmed(clock, ops);
      }
    } else {
      var ops := ArmedTooLate(clock);
      assert CanRun(InitialState(clock), ops);
    }
  }

  // ---- Callbacks ----

  /** The sequence numbers of the timers of a batch. */
  ghost function Sequences(heap: map<Addr, Timer>, entries: seq<Entry>): seq<nat> {
    seq(|entries|, i requires 0 <= i < |entries| =>
      if entries[i].addr in heap then heap[entries[i].addr].sequence else 0)
  }

  /** The callbacks of the first `called` timers of the batch have been called since the log was `base`. */
  ghost predicate CalledSoFar(s: State, base: seq<nat>, sequences: seq<nat>) {
    && s.phase.InBatch? && sequences == Sequences(s.heap, s.phase.batch)
    && s.phase.called <= |sequences| && s.log == base + sequences[..s.phase.called]
  }

  lemma StepCalls(s: State, op: Op, base: seq<nat>, sequences: seq<nat>)
    requires Inv(s) && Enabled(s, op) && !op.EndRead? && CalledSoFar(s, base, sequences)
    ensures CalledSoFar(Apply(s, op), base, sequences)
  {
    var s' := Apply(s, op);
    if op.Cancel? {
      assert IdOk(s, op.id);
    }
    forall i | 0 <= i < |s.phase.batch| ensures Sequences(s'.heap, s.phase.batch)[i] == sequences[i] {
      assert BatchOk(s, i);
    }
    assert Sequences(s'.heap, s.phase.batch) == sequences;
    if op.CallNext? {
      var n := s.phase.called;
      assert sequences[..n + 1] == sequences[..n] + [sequences[n]];
    }
  }

  lemma {:induction false} RunCalls(s: State, ops: seq<Op>, base: seq<nat>, sequences: seq<nat>)
    requires Inv(s) && CanRun(s, ops) && CalledSoFar(s, base, sequences)
    requires forall i :: 0 <= i < |ops| ==> !ops[i].EndRead?
    ensures CalledSoFar(Run(s, ops), base, sequences)
    decreases |ops|
  {
    if ops != [] {
      StepKeepsInv(s, ops[0]);
      StepCalls(s, ops[0], base, sequences);
      RunCalls(Apply(s, ops[0]), ops[1..], base, sequences);
    }
  }

  /** Whatever is added and cancelled in between, from the start of handleRead to its reset the callbacks
      called are those of the timers that had expired, each once, in order of expiration. */
  lemma ExpiredAreCalled(clock: int, before: seq<Op>, turn: seq<Op>)
    requires CanRun(InitialState(clock), before)
    requires Run(InitialState(clock), before).phase.Idle?
    requires CanRun(DoBeginRead(Run(InitialState(clock), before)), turn)
    requires forall i :: 0 <= i < |turn| ==> !turn[i].EndRead?
    requires Enabled(Run(DoBeginRead(Run(InitialState(clock), before)), turn), EndRead)
    ensures var s := Run(InitialState(clock), before);
            var b := DoBeginRead(s);
            var e := Run(b, turn);
            && e.Batch() == b.Batch()
            && e.log == s.log + Sequences(s.heap, b.Batch())
  {
    InitialInv(clock);
    RunKeepsInv(InitialState(clock), before);
    var s := Run(InitialState(clock), before);
    BeginReadKeepsInv(s);
    var b := DoBeginRead(s);
    var sequences := Sequences(s.heap, b.phase.batch);
    RunCalls(b, turn, s.log, sequences);
    RunKeepsBatch(b, turn);
    assert sequences[..|sequences|] == sequences;
  }

  lemma {:induction false} RunKeepsBatch(s: State, ops: seq<Op>)
    requires s.phase.InBatch? && CanRun(s, ops) && forall i :: 0 <= i < |ops| ==> !ops[i].EndRead?
    ensures Run(s, ops).phase.InBatch? && Run(s, ops).phase.batch == s.phase.batch
    decreases |ops|
  {
    if ops != [] {
      assert !ops[0].EndRead?;
      RunKeepsBatch(Apply(s, ops[0]), ops[1..]);
    }
  }

  // ---- The object ----

  /** The entries due by `until`, and those due later. */
  ghost predicate DueSplit(due: seq<Entry>, later: seq<Entry>, until: int) {
    (forall e :: e in due ==> e.when <= until) && (forall e :: e in later ==> e.when > until)
  }

  /** Entry i has its id in `active`, and no later entry has its address. */
  ghost predicate IndexedAt(heap: map<Addr, Timer>, active: set<Id>, entries: seq<Entry>, i: int) {
    0 <= i < |entries| ==>
      && entries[i].addr in heap && Id(entries[i].addr, heap[entries[i].addr].sequence) in active
      && forall j :: i < j < |entries| ==> entries[j].addr != entries[i].addr
  }

  ghost predicate AllIndexed(heap: map<Addr, Timer>, active: set<Id>, entries: seq<Entry>) {
    forall i :: IndexedAt(heap, active, entries, i)
  }

  lemma AgreeingIsIndexed(s: State)
    requires IndexesAgree(s)
    ensures AllIndexed(s.heap, s.active, s.timers)
  {
    forall i ensures IndexedAt(s.heap, s.active, s.timers, i) {
      if 0 <= i < |s.timers| {
        assert EntryOk(s, s.timers[i]);
        forall j | i < j < |s.timers| ensures s.timers[j].addr != s.timers[i].addr {
          assert EntryOk(s, s.timers[j]) && Less(s.timers[i], s.timers[j]);
        }
      }
    }
  }

  class TimerQueue {
    var heap: map<Addr, Timer>
    var timers: seq<Entry>
    var activeTimers: set<Id>
    var cancelingTimers: set<Id>
    var timerfd: TimerFd
    var clock: int
    // inside handleRead: its locals, and how many callbacks were called
    var reading: bool
    var callingExpiredTimers: bool
    var expired: seq<Entry>
    var called: nat
    var now: int
    ghost var waiting: set<Addr>
    ghost var created: nat
    ghost var log: seq<nat>

    ghost function View(): State
      reads this
    {
      State(heap, waiting, timers, activeTimers, cancelingTimers,
            if reading then InBatch(expired, called, now) else Idle, created, clock, timerfd, log)
    }

    ghost predicate Valid()
      reads this
    {
      Inv(View()) && callingExpiredTimers == reading
    }

    constructor (clock: int)
      ensures Valid() && View() == InitialState(clock)
    {
      heap, timers, activeTimers, cancelingTimers := map[], [], {}, {};
      timerfd, this.clock := Disarmed, clock;
      reading, callingExpiredTimers, expired, called, now := false, false, [], 0, 0;
      waiting, created, log := {}, 0, [];
    }

    method ResetTimerfd(expiration: int)
      modifies this`timerfd
      ensures timerfd == Arm(old(View()), expiration).fd
    {
      var (sec, nsec) := HowMuchTimeFromNow(expiration, clock);
      timerfd := Armed(clock, clock + sec * MICROSECONDS_PER_SECOND + nsec / 1000);
    }

    /** The assertions say that neither set had the timer already. */
    method InsertTimerObject(timer: Addr) returns (earliestChanged: bool)
      requires Inv(View()) && Loose(View(), timer)
      modifies this`timers, this`activeTimers
      ensures (View(), earliestChanged) == InsertTimer(old(View()), timer)
    {
      var when := heap[timer].expiration;
      earliestChanged := timers == [] || when < timers[0].when;
      assert EntryOk(View(), Entry(when, timer));
      assert Entry(when, timer) !in timers;
      timers := InsertEntry(timers, Entry(when, timer));
      assert Id(timer, heap[timer].sequence) !in activeTimers;
      activeTimers := activeTimers + {Id(timer, heap[timer].sequence)};
    }

    method AddTimer(timer: Addr)
      requires Valid() && Enabled(View(), Insert(timer))
      modifies this
      ensures Valid() && View() == Apply(old(View()), Insert(timer))
    {
      StepKeepsInv(View(), Insert(timer));
      WaitingIsLoose(View(), timer);
      waiting := waiting - {timer};
      var earliestChanged := InsertTimerObject(timer);
      if earliestChanged {
        ResetTimerfd(heap[timer].expiration);
      }
    }

    method CancelTimer(timerId: Id)
      requires Valid()
      modifies this
      ensures Valid() && View() == Apply(old(View()), Cancel(timerId))
    {
      StepKeepsInv(View(), Cancel(timerId));
      assert IdOk(View(), timerId);
      assert |timers| == |activeTimers|;
      if timerId in activeTimers {
        var e := Entry(heap[timerId.addr].expiration, timerId.addr);
        assert e in timers;
        timers := EraseEntry(timers, e);
        heap := heap - {timerId.addr};
        activeTimers := activeTimers - {timerId};
      } else if callingExpiredTimers {
        cancelingTimers := cancelingTimers + {timerId};
      }
    }

    /** The loop of getExpired over activeTimers_; each erase finds its element. */
    method EraseActive(taken: seq<Entry>)
      requires AllIndexed(heap, activeTimers, taken)
      modifies this`activeTimers
      ensures activeTimers == old(activeTimers) - IdsOf(heap, taken)
    {
      ghost var before := activeTimers;
      var i := 0;
      while i < |taken|
        invariant 0 <= i <= |taken| && activeTimers == before - IdsOf(heap, taken[..i])
      {
        var e := taken[i];
        assert IndexedAt(heap, before, taken, i);
        forall k | 0 <= k < i ensures taken[k].addr != e.addr {
          assert IndexedAt(heap, before, taken, k);
        }
        assert Id(e.addr, heap[e.addr].sequence) in activeTimers;
        assert IdsOf(heap, taken[..i + 1]) == IdsOf(heap, taken[..i]) + {Id(e.addr, heap[e.addr].sequence)};
        activeTimers := activeTimers - {Id(e.addr, heap[e.addr].sequence)};
        i := i + 1;
      }
      assert taken[..i] == taken;
    }

    method TakeExpired(until: int) returns (taken: seq<Entry>)
      requires Sorted(timers) && AllIndexed(heap, activeTimers, timers)
      modifies this`timers, this`activeTimers
      ensures taken + timers == old(timers)
      ensures DueSplit(taken, timers, until)
      ensures activeTimers == old(activeTimers) - IdsOf(heap, taken)
    {
      // timers_.lower_bound(sentry)
      var end := 0;
      while end < |timers| && timers[end].when <= until
        invariant timers == old(timers) && activeTimers == old(activeTimers)
        invariant 0 <= end <= |timers| && forall k :: 0 <= k < end ==> timers[k].when <= until
      {
        end := end + 1;
      }
      LaterThan(timers, end, until);
      taken := timers[..end];
      forall i ensures IndexedAt(heap, activeTimers, taken, i) {
        assert IndexedAt(heap, activeTimers, timers, i);
      }
      timers := timers[end..];
      EraseActive(taken);
    }

    /** The statements of handleRead before the callbacks. */
    method ReadAndExpire()
      requires Sorted(timers) && AllIndexed(heap, activeTimers, timers)
      modifies `now, `timerfd, `expired, `timers, `activeTimers, `callingExpiredTimers, `reading, `called, `cancelingTimers
      ensures expired + timers == old(timers)
      ensures DueSplit(expired, timers, clock)
      ensures activeTimers == old(activeTimers) - IdsOf(heap, expired)
      ensures timerfd == if old(timerfd).Fired? then Disarmed else old(timerfd)
      ensures callingExpiredTimers && reading && called == 0 && now == clock && cancelingTimers == {}
    {
      now := clock;
      timerfd := if timerfd.Fired? then Disarmed else timerfd;
      expired := TakeExpired(now);
      callingExpiredTimers, reading, called, cancelingTimers := true, true, 0, {};
    }

    /** handleRead up to the callbacks. */
    method BeginHandleRead()
      requires Valid() && Enabled(View(), BeginRead)
      modifies this
      ensures Valid() && View() == Apply(old(View()), BeginRead)
    {
      ghost var s := View();
      StepKeepsInv(s, BeginRead);
      AgreeingIsIndexed(s);
      ReadAndExpire();
      assert View() == s.(fd := if s.fd.Fired? then Disarmed else s.fd, canceling := {},
                          phase := InBatch(expired, 0, s.clock), timers := timers,
                          active := s.active - IdsOf(s.heap, expired));
      BeginReadIs(s, expired, timers);
    }

    method CallNextTimer() returns (sequence: nat)
      requires Valid() && Enabled(View(), CallNext)
      modifies this
      ensures Valid() && View() == Apply(old(View()), CallNext)
      ensures sequence == old(heap)[old(expired)[old(called)].addr].sequence
    {
      StepKeepsInv(View(), CallNext);
      sequence := heap[expired[called].addr].sequence;
      log := log + [sequence];
      called := called + 1;
    }

    /** One turn of the loop in reset. */
    method ResetFirst()
      requires Inv(View()) && reading && expired != [] && expired[0].addr in heap
      modifies this
      ensures Inv(View()) && View() == ResetOne(old(View())) && callingExpiredTimers == old(callingExpiredTimers)
    {
      ghost var s := View();
      ResetOneKeepsInv(s);
      PopKeepsInv(s);
      var a := expired[0].addr;
      var t := heap[a];
      expired, called := expired[1..], |expired| - 1;
      assert View() == PopBatch(s);
      if t.repeat && Id(a, t.sequence) !in cancelingTimers {
        ChangeLooseKeepsInv(View(), a, t.(expiration := now + t.interval));
        heap := heap[a := t.(expiration := now + t.interval)];
        var _ := InsertTimerObject(a);
      } else {
        heap := heap - {a};
      }
    }

    /** handleRead after the callbacks: reset. */
    method EndHandleRead()
      requires Valid() && Enabled(View(), EndRead)
      modifies this
      ensures Valid() && View() == Apply(old(View()), EndRead)
    {
      ghost var s := View();
      StepKeepsInv(s, EndRead);
      callingExpiredTimers := false;
      while expired != []
        invariant reading && Inv(View()) && ResetAll(View()) == ResetAll(s) && !callingExpiredTimers
        decreases |expired|
      {
        ResetOneKeepsInv(View());
        ResetFirst();
      }
      reading := false;
      if timers != [] && timers[0].when > 0 {
        ResetTimerfd(timers[0].when);
      }
    }
  }

  lemma WaitingIsLoose(s: State, a: Addr)
    requires Inv(s) && a in s.waiting && a in s.heap
    ensures var s' := s.(waiting := s.waiting - {a}); Inv(s') && Loose(s', a)
  {
    var s' := s.(waiting := s.waiting - {a});
    assert WaitingOk(s, a);
    SameIndexes(s, s');
    SameHeap(s, s');
    forall x ensures WaitingOk(s', x) {
      assert WaitingOk(s, x);
    }
    forall i ensures BatchOk(s', i) {
      assert BatchOk(s, i);
    }
    forall i | 0 <= i < |s'.Batch()| ensures s'.Batch()[i].addr != a {
      assert BatchOk(s, i);
    }
  }

  lemma BeginReadIs(s: State, taken: seq<Entry>, rest: seq<Entry>)
    requires Inv(s) && s.phase.Idle? && taken + rest == s.timers
    requires DueSplit(taken, rest, s.clock)
    ensures DoBeginRead(s) == s.(fd := if s.fd.Fired? then Disarmed else s.fd, canceling := {},
                                 phase := InBatch(taken, 0, s.clock), timers := rest,
                                 active := s.active - IdsOf(s.heap, taken))
  {
    BeginReadKeepsInv(s);
    var r := DoBeginRead(s);
    ActiveSplit(s, r);
    SplitUnique(s.timers, r.phase.batch, r.timers, taken, rest, s.clock);
  }

  lemma LaterThan(ts: seq<Entry>, end: nat, now: int)
    requires Sorted(ts) && end <= |ts| && (end < |ts| ==> ts[end].when > now)
    ensures forall e :: e in ts[end..] ==> e.when > now
  {
    forall e | e in ts[end..] ensures e.when > now {
      var j :| end <= j < |ts| && ts[j] == e;
      assert j > end ==> Less(ts[end], ts[j]);
    }
  }

  /** There is one way to split a sequence into expired entries followed by later ones. */
  lemma SplitUnique(ts: seq<Entry>, a: seq<Entry>, b: seq<Entry>, a': seq<Entry>, b': seq<Entry>, now: int)
    requires ts == a + b == a' + b'
    requires (forall e :: e in a + a' ==> e.when <= now) && (forall e :: e in b + b' ==> e.when > now)
    ensures a == a' && b == b'
  {
    forall i | 0 <= i < |ts|
      ensures ts[i].when <= now <==> i < |a|
      ensures ts[i].when <= now <==> i < |a'|
    {
      assert ts[i] == if i < |a| then (a + a')[i] else (b + b')[i - |a|];
      assert ts[i] == if i < |a'| then (a + a')[|a| + i] else (b + b')[|b| + i - |a'|];
    }
    assert |a| < |ts| ==> ts[|a|].when > now;
    assert |a'| < |ts| ==> ts[|a'|].when > now;
    assert |a| == |a'|;
    assert a == ts[..|a|] && b == ts[|a|..];
  }
}
