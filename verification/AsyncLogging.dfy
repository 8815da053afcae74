/** muduo/base/LogStream.h (FixedBuffer) and AsyncLogging.cc: the double-buffered log, as
    interleaved steps of the threads that append and of the thread that writes. */
module Logging {
  import opened Bytes

  const LARGE_BUFFER: nat := 4000 * 1000

  type Line = string

  /** The lines in a buffer; its bytes are their concatenation. */
  type LineBuffer = seq<Line>

  /** What append makes of the bytes in a buffer of the given size: all of the line, or nothing. */
  function Store(size: nat, b: string, line: string): string {
    if size - |b| > |line| then b + line else b
  }

  /** FixedBuffer: bytes in a fixed array, appended whole or not at all. */
  class FixedBuffer {
    const data: array<char>
    var cur: nat

    ghost predicate Valid()
      reads this
    {
      cur <= data.Length
    }

    function Contents(): string
      reads this, data
      requires Valid()
    {
      data[..cur]
    }

    function Avail(): nat
      reads this
      requires Valid()
    {
      data.Length - cur
    }

    constructor (size: nat)
      ensures Valid() && fresh(data) && data.Length == size && Contents() == ""
    {
      data := new char[size];
      cur := 0;
    }

    method Append(buf: string)
      requires Valid()
      modifies this, data
      ensures Valid() && Contents() == Store(data.Length, old(Contents()), buf)
    {
      if Avail() > |buf| {
        forall i | 0 <= i < |buf| {
          data[cur + i] := buf[i];
        }
        cur := cur + |buf|;
        assert Contents() == old(Contents()) + buf;
      }
    }

    method Reset()
      requires Valid()
      modifies this
      ensures Valid() && Contents() == "" && Avail() == data.Length
    {
      cur := 0;
    }
  }

  function Length(b: LineBuffer): nat {
    |Flatten(b)|
  }

  predicate HasRoom(b: LineBuffer, line: Line) {
    Length(b) + |line| < LARGE_BUFFER
  }

  /** FixedBuffer::append on a large buffer: refuses a line that does not fit. */
  function AppendTo(b: LineBuffer, line: Line): LineBuffer {
    if HasRoom(b, line) then b + [line] else b
  }

  /** What is written: lines, and notices that so many buffers were dropped, with their text. */
  datatype Item = Written(line: Line) | DropNotice(buffers: nat, text: string)

  function Lines(output: seq<Item>): seq<Line> {
    if output == [] then []
    else
      var front := Lines(output[..|output| - 1]);
      match output[|output| - 1]
      case Written(line) => front + [line]
      case DropNotice(_, _) => front
  }

  function Items(b: LineBuffer): seq<Item> {
    seq(|b|, i requires 0 <= i < |b| => Written(b[i]))
  }

  /** Where the writing thread is. */
  datatype Phase = AtHead | Waiting | Swapped | Writing(next: nat) | Finished

  /** `current`, `next` and `buffers` are guarded by the mutex; `spare1`, `spare2` and `batch` are
      newBuffer1, newBuffer2 and buffersToWrite. `failed` records that an assertion of the code did
      not hold, `dropped` that a batch was cut, `oversized` that a line too long for any buffer came. */
  datatype LogState = LogState(
    current: LineBuffer,
    next: Option<LineBuffer>,
    buffers: seq<LineBuffer>,
    phase: Phase,
    spare1: Option<LineBuffer>,
    spare2: Option<LineBuffer>,
    batch: seq<LineBuffer>,
    running: bool,
    appended: seq<Line>,
    output: seq<Item>,
    failed: bool,
    dropped: bool,
    oversized: bool)

  function InitialState(): LogState {
    LogState([], Some([]), [], AtHead, Some([]), Some([]), [], true, [], [], false, false, false)
  }

  datatype Op =
    | Append(line: Line)
    | Stop
    | Enter        // the loop test; if running, the lock and the test for empty buffers_
    | WakeUp       // out of waitForSeconds: signal, timeout or spurious
    | Trim(notice: string)    // the test for more than 25 buffers; the notice is formatted with the time
    | WriteOne
    | Recycle      // resize, refill the spares, clear

  predicate Enabled(s: LogState, op: Op) {
    match op
    case Append(_) => true
    case Stop => true
    case Enter => s.phase.AtHead?
    case WakeUp => s.phase.Waiting?
    case Trim(_) => s.phase.Swapped?
    case WriteOne => s.phase.Writing? && s.phase.next < |s.batch|
    case Recycle => s.phase.Writing? && s.phase.next >= |s.batch|
  }

  function DoAppend(s: LogState, line: Line): LogState {
    var s' := s.(appended := s.appended + [line], oversized := s.oversized || |line| >= LARGE_BUFFER);
    if HasRoom(s.current, line) then s'.(current := AppendTo(s.current, line))
    else
      var empty := if s.next.Some? then s.next.value else [];
      s'.(buffers := s.buffers + [s.current], next := None, current := AppendTo(empty, line))
  }

  /** The rest of the critical section of the writing thread. */
  function DoSwap(s: LogState): LogState {
    s.(buffers := [],
       batch := s.buffers + [s.current],
       current := if s.spare1.Some? then s.spare1.value else [],
       failed := s.failed || s.spare1.None?,
       spare1 := None,
       next := if s.next.None? then s.spare2 else s.next,
       spare2 := if s.next.None? then None else s.spare2,
       phase := Swapped)
  }

  predicate HeadAssertions(s: LogState) {
    s.spare1 == Some([]) && s.spare2 == Some([]) && s.batch == []
  }

  function DoEnter(s: LogState): LogState {
    if !s.running then s.(phase := Finished)
    else
      var s' := s.(failed := s.failed || !HeadAssertions(s));
      if s.buffers == [] then s'.(phase := Waiting) else DoSwap(s')
  }

  function DoTrim(s: LogState, notice: string): LogState {
    var s' := s.(failed := s.failed || s.batch == [], phase := Writing(0));
    if |s.batch| > 25 then
      s'.(output := s.output + [DropNotice(|s.batch| - 2, notice)], batch := s.batch[..2], dropped := true)
    else s'
  }

  function DoWriteOne(s: LogState): LogState
    requires Enabled(s, WriteOne)
  {
    s.(output := s.output + Items(s.batch[s.phase.next]), phase := Writing(s.phase.next + 1))
  }

  /** Takes the last buffer of the batch for an empty spare; the assertion is that there is one. */
  function Refill(spare: Option<LineBuffer>, batch: seq<LineBuffer>): (Option<LineBuffer>, seq<LineBuffer>, bool) {
    if spare.Some? then (spare, batch, true)
    else if batch == [] then (None, batch, false)
    else (Some([]), batch[..|batch| - 1], true)
  }

  function DoRecycle(s: LogState): LogState {
    var kept := if |s.batch| > 2 then s.batch[..2] else s.batch;
    var (spare1, kept1, ok1) := Refill(s.spare1, kept);
    var (spare2, _, ok2) := Refill(s.spare2, kept1);
    s.(spare1 := spare1, spare2 := spare2, batch := [], failed := s.failed || !ok1 || !ok2, phase := AtHead)
  }

  function Apply(s: LogState, op: Op): LogState
    requires Enabled(s, op)
  {
    match op
    case Append(line) => DoAppend(s, line)
    case Stop => s.(running := false)
    case Enter => DoEnter(s)
    case WakeUp => DoSwap(s)
    case Trim(notice) => DoTrim(s, notice)
    case WriteOne => DoWriteOne(s)
    case Recycle => DoRecycle(s)
  }

  ghost predicate CanRun(s: LogState, ops: seq<Op>)
    decreases |ops|
  {
    ops == [] || (Enabled(s, ops[0]) && CanRun(Apply(s, ops[0]), ops[1..]))
  }

  ghost function Run(s: LogState, ops: seq<Op>): LogState
    requires CanRun(s, ops)
    decreases |ops|
  {
    if ops == [] then s else Run(Apply(s, ops[0]), ops[1..])
  }

  // ---- Recycling ----

  ghost predicate Recycling(s: LogState) {
    && !s.failed
    && (s.next.None? ==> s.buffers != [])
    && (s.next.Some? ==> s.next.value == [])
    && (s.phase.AtHead? || s.phase.Waiting? ==> HeadAssertions(s))
    && (s.phase.Swapped? || s.phase.Writing? ==>
          && s.spare1.None? && s.batch != []
          && (s.spare2.None? ==> |s.batch| >= 2)
          && (s.spare2.Some? ==> s.spare2.value == []))
  }

  /** A batch of two or more refills both spares, a batch of one the single missing spare. */
  lemma RecycleKeepsRecycling(s: LogState)
    requires Recycling(s) && Enabled(s, Recycle)
    ensures Recycling(DoRecycle(s))
  {
    var kept := if |s.batch| > 2 then s.batch[..2] else s.batch;
    assert Refill(s.spare1, kept) == (Some([]), kept[..|kept| - 1], true);
  }

  lemma DoRecycleIs(s: LogState)
    requires s.spare1.None? ==> s.batch != []
    requires s.spare2.None? ==> |s.batch| >= if s.spare1.None? then 2 else 1
    ensures DoRecycle(s) == s.(spare1 := if s.spare1.Some? then s.spare1 else Some([]),
                               spare2 := if s.spare2.Some? then s.spare2 else Some([]), batch := [], phase := AtHead)
  {
  }

  lemma SwapKeepsRecycling(s: LogState)
    requires Recycling(s) && (s.phase.AtHead? || s.phase.Waiting?)
    ensures Recycling(DoSwap(s))
  {
    assert s.next.None? ==> |s.buffers + [s.current]| >= 2;
  }

  lemma StepKeepsRecycling(s: LogState, op: Op)
    requires Recycling(s) && Enabled(s, op)
    ensures Recycling(Apply(s, op))
  {
    match op
    case Append(line) => AppendKeepsRecycling(s, line);
    case Enter => EnterKeepsRecycling(s);
    case WakeUp => SwapKeepsRecycling(s);
    case Trim(notice) => TrimKeepsRecycling(s, notice);
    case Recycle => RecycleKeepsRecycling(s);
    case _ =>
  }

  lemma AppendKeepsRecycling(s: LogState, line: Line)
    requires Recycling(s)
    ensures Recycling(DoAppend(s, line))
  {
  }

  lemma EnterKeepsRecycling(s: LogState)
    requires Recycling(s) && s.phase.AtHead?
    ensures Recycling(DoEnter(s))
  {
    SwapKeepsRecycling(s);
  }

  lemma TrimKeepsRecycling(s: LogState, notice: string)
    requires Recycling(s) && s.phase.Swapped?
    ensures Recycling(DoTrim(s, notice))
  {
  }

  lemma {:induction false} RunKeepsRecycling(s: LogState, ops: seq<Op>)
    requires Recycling(s) && CanRun(s, ops)
    ensures Recycling(Run(s, ops))
    decreases |ops|
  {
    if ops != [] {
      StepKeepsRecycling(s, ops[0]);
      RunKeepsRecycling(Apply(s, ops[0]), ops[1..]);
    }
  }

  /** In every interleaving every assertion of the writing thread holds: both spares are back and
      empty at the loop head, and there is always a buffer to refill them from. */
  lemma RecyclingNeverFails(ops: seq<Op>)
    requires CanRun(InitialState(), ops)
    ensures var s := Run(InitialState(), ops);
            && !s.failed
            && (s.next.None? ==> s.buffers != [])
            && (s.phase.AtHead? ==> HeadAssertions(s))
  {
    RunKeepsRecycling(InitialState(), ops);
  }

  // ---- Order and atomicity ----

  ghost predicate Picks<T(!new)>(idx: seq<int>, a: seq<T>, b: seq<T>) {
    && |idx| == |a|
    && (forall i :: 0 <= i < |idx| ==> 0 <= idx[i] < |b| && b[idx[i]] == a[i])
    && (forall i, j :: 0 <= i < j < |idx| ==> idx[i] < idx[j])
  }

  /** a is b with some elements left out. */
  ghost predicate Subsequence<T(!new)>(a: seq<T>, b: seq<T>) {
    exists idx :: Picks(idx, a, b)
  }

  lemma SubsequenceSnoc<T(!new)>(a: seq<T>, b: seq<T>, x: T)
    requires Subsequence(a, b)
    ensures Subsequence(a + [x], b + [x]) && Subsequence(a, b + [x])
  {
    var idx :| Picks(idx, a, b);
    assert Picks(idx + [|b|], a + [x], b + [x]);
    assert Picks(idx, a, b + [x]);
  }

  lemma SubsequenceCut<T(!new)>(a: seq<T>, cut: seq<T>, c: seq<T>, b: seq<T>)
    requires Subsequence(a + cut + c, b)
    ensures Subsequence(a + c, b)
  {
    var idx :| Picks(idx, a + cut + c, b);
    var idx' := idx[..|a|] + idx[|a| + |cut|..];
    forall i | 0 <= i < |idx'| ensures 0 <= idx'[i] < |b| && b[idx'[i]] == (a + c)[i] {
      var k := if i < |a| then i else i + |cut|;
      assert idx'[i] == idx[k] && (a + c)[i] == (a + cut + c)[k];
    }
    assert Picks(idx', a + c, b);
  }

  lemma {:induction false} LinesAppend(output: seq<Item>, b: LineBuffer)
    ensures Lines(output + Items(b)) == Lines(output) + b
    decreases |b|
  {
    if b == [] {
      assert output + Items(b) == output;
    } else {
      var front := b[..|b| - 1];
      LinesAppend(output, front);
      var whole := output + Items(b);
      assert whole[..|whole| - 1] == output + Items(front);
      assert b == front + [b[|b| - 1]];
    }
  }

  /** The part of the batch not written yet. */
  function InHand(s: LogState): seq<LineBuffer> {
    match s.phase
    case Swapped => s.batch
    case Writing(i) => if i <= |s.batch| then s.batch[i..] else []
    case _ => []
  }

  function Joined(written: seq<Line>, inHand: seq<LineBuffer>, buffers: seq<LineBuffer>, current: LineBuffer): seq<Line> {
    written + (Flatten(inHand) + (Flatten(buffers) + current))
  }

  /** The lines written, those in hand, those waiting and those in the current buffer. */
  function Stored(s: LogState): seq<Line> {
    Joined(Lines(s.output), InHand(s), s.buffers, s.current)
  }

  /** The same lines, when the current buffer joins the waiting ones and a new one takes its place. */
  lemma JoinedPush(w: seq<Line>, h: seq<LineBuffer>, bs: seq<LineBuffer>, cur: LineBuffer, cur': LineBuffer)
    ensures Joined(w, h, bs + [cur], cur') == Joined(w, h, bs, cur) + cur'
  {
    FlattenSnoc(bs, cur);
    assert (Flatten(bs) + cur) + cur' == Flatten(bs) + (cur + cur');
  }

  lemma JoinedExtend(w: seq<Line>, h: seq<LineBuffer>, bs: seq<LineBuffer>, cur: LineBuffer, line: Line)
    ensures Joined(w, h, bs, cur + [line]) == Joined(w, h, bs, cur) + [line]
  {
  }

  lemma JoinedSwap(w: seq<Line>, bs: seq<LineBuffer>, cur: LineBuffer)
    ensures Joined(w, bs + [cur], [], []) == Joined(w, [], bs, cur)
  {
    FlattenSnoc(bs, cur);
  }

  lemma JoinedWrite(w: seq<Line>, b: LineBuffer, h: seq<LineBuffer>, bs: seq<LineBuffer>, cur: LineBuffer)
    ensures Joined(w + b, h, bs, cur) == Joined(w, [b] + h, bs, cur)
  {
    assert ([b] + h)[1..] == h;
  }

  /** Leaving buffers in hand out leaves a subsequence. */
  lemma JoinedCut(w: seq<Line>, h: seq<LineBuffer>, cut: seq<LineBuffer>, bs: seq<LineBuffer>, cur: LineBuffer, all: seq<Line>)
    requires Subsequence(Joined(w, h + cut, bs, cur), all)
    ensures Subsequence(Joined(w, h, bs, cur), all)
  {
    FlattenAppend(h, cut);
    var rest := Flatten(bs) + cur;
    assert Joined(w, h + cut, bs, cur) == (w + Flatten(h)) + Flatten(cut) + rest;
    SubsequenceCut(w + Flatten(h), Flatten(cut), rest, all);
    assert Joined(w, h, bs, cur) == (w + Flatten(h)) + rest;
  }

  ghost predicate Ordered(s: LogState) {
    && Subsequence(Stored(s), s.appended)
    && (!s.dropped && !s.oversized ==> Stored(s) == s.appended)
  }

  lemma AppendFits(s: LogState, line: Line)
    requires HasRoom(s.current, line)
    ensures Stored(DoAppend(s, line)) == Stored(s) + [line]
  {
    JoinedExtend(Lines(s.output), InHand(s), s.buffers, s.current, line);
  }

  lemma AppendRolls(s: LogState, line: Line)
    requires !HasRoom(s.current, line) && (s.next.Some? ==> s.next.value == [])
    ensures Stored(DoAppend(s, line)) == if |line| < LARGE_BUFFER then Stored(s) + [line] else Stored(s)
  {
    assert Length([]) == 0;
    JoinedPush(Lines(s.output), InHand(s), s.buffers, s.current, AppendTo([], line));
  }

  lemma AppendStores(s: LogState, line: Line)
    requires Recycling(s)
    ensures var s' := DoAppend(s, line);
            Stored(s') == if |line| < LARGE_BUFFER then Stored(s) + [line] else Stored(s)
  {
    if HasRoom(s.current, line) {
      AppendFits(s, line);
    } else {
      AppendRolls(s, line);
    }
  }

  lemma AppendKeepsOrder(s: LogState, line: Line)
    requires Recycling(s) && Ordered(s)
    ensures Ordered(DoAppend(s, line))
  {
    AppendStores(s, line);
    SubsequenceSnoc(Stored(s), s.appended, line);
  }

  lemma SwapKeepsOrder(s: LogState)
    requires Recycling(s) && (s.phase.AtHead? || s.phase.Waiting?) && Ordered(s)
    ensures Ordered(DoSwap(s))
  {
    JoinedSwap(Lines(s.output), s.buffers, s.current);
  }

  lemma TrimKeepsOrder(s: LogState, notice: string)
    requires s.phase.Swapped? && Ordered(s)
    ensures Ordered(DoTrim(s, notice))
  {
    var s' := DoTrim(s, notice);
    if |s.batch| > 25 {
      assert s'.output[..|s'.output| - 1] == s.output;
      assert InHand(s') == s.batch[..2];
      assert s.batch == s.batch[..2] + s.batch[2..];
      JoinedCut(Lines(s.output), s.batch[..2], s.batch[2..], s.buffers, s.current, s.appended);
    } else {
      assert InHand(s') == InHand(s);
    }
  }

  /** Writing moves lines from the batch to the output. */
  lemma WriteOneStores(s: LogState)
    requires Enabled(s, WriteOne)
    ensures Stored(DoWriteOne(s)) == Stored(s)
  {
    var i := s.phase.next;
    LinesAppend(s.output, s.batch[i]);
    assert s.batch[i..] == [s.batch[i]] + s.batch[i + 1..];
    JoinedWrite(Lines(s.output), s.batch[i], s.batch[i + 1..], s.buffers, s.current);
  }

  lemma WriteOneKeepsOrder(s: LogState)
    requires Enabled(s, WriteOne) && Ordered(s)
    ensures Ordered(DoWriteOne(s))
  {
    WriteOneStores(s);
  }

  lemma RecycleKeepsOrder(s: LogState)
    requires Enabled(s, Recycle) && Ordered(s)
    ensures Ordered(DoRecycle(s))
  {
    assert InHand(s) == [];
  }

  lemma StepKeepsOrder(s: LogState, op: Op)
    requires Recycling(s) && Ordered(s) && Enabled(s, op)
    ensures Ordered(Apply(s, op))
  {
    match op
    case Append(line) => AppendKeepsOrder(s, line);
    case Stop =>
    case Enter =>
      if s.running && s.buffers != [] {
        SwapKeepsOrder(s.(failed := s.failed || !HeadAssertions(s)));
      }
    case WakeUp => SwapKeepsOrder(s);
    case Trim(notice) => TrimKeepsOrder(s, notice);
    case WriteOne => WriteOneKeepsOrder(s);
    case Recycle => RecycleKeepsOrder(s);
  }

  lemma {:induction false} RunKeepsOrder(s: LogState, ops: seq<Op>)
    requires Recycling(s) && Ordered(s) && CanRun(s, ops)
    ensures Ordered(Run(s, ops))
    decreases |ops|
  {
    if ops != [] {
      StepKeepsRecycling(s, ops[0]);
      StepKeepsOrder(s, ops[0]);
      RunKeepsOrder(Apply(s, ops[0]), ops[1..]);
    }
  }

  lemma InitialOrdered()
    ensures Recycling(InitialState()) && Ordered(InitialState())
  {
    var s := InitialState();
    assert Picks([], Stored(s), s.appended);
  }

  /** What is written comes before what is still held. */
  lemma WrittenFirst(s: LogState)
    requires Subsequence(Stored(s), s.appended)
    ensures Subsequence(Lines(s.output), s.appended)
  {
    var written := Lines(s.output);
    var rest := Flatten(InHand(s)) + (Flatten(s.buffers) + s.current);
    assert Stored(s) == written + rest + [];
    SubsequenceCut(written, rest, [], s.appended);
    assert written + [] == written;
  }

  // ---- What the steps ask for, read off the steps ----

  function LineOf(op: Op): seq<Line> {
    if op.Append? then [op.line] else []
  }

  /** The lines given to append, in order. */
  function AppendedBy(ops: seq<Op>): seq<Line> {
    if ops == [] then [] else LineOf(ops[0]) + AppendedBy(ops[1..])
  }

  /** Some line does not fit in an empty buffer. */
  predicate TooLong(ops: seq<Op>) {
    ops != [] && ((ops[0].Append? && |ops[0].line| >= 4_000_000) || TooLong(ops[1..]))
  }

  predicate Stopped(ops: seq<Op>) {
    ops != [] && (ops[0].Stop? || Stopped(ops[1..]))
  }

  /** The notice of a batch of more than 25 buffers. */
  function CutOf(s: LogState, op: Op): seq<Item> {
    if op.Trim? && |s.batch| > 25 then [DropNotice(|s.batch| - 2, op.notice)] else []
  }

  /** The batches cut along a run: those of more than 25 buffers, each with its size less the two kept. */
  ghost function CutsBy(s: LogState, ops: seq<Op>): seq<Item>
    requires CanRun(s, ops)
    decreases |ops|
  {
    if ops == [] then [] else CutOf(s, ops[0]) + CutsBy(Apply(s, ops[0]), ops[1..])
  }

  function NoticesOf(output: seq<Item>): seq<Item> {
    if output == [] then []
    else
      var front, last := NoticesOf(output[..|output| - 1]), output[|output| - 1];
      if last.DropNotice? then front + [last] else front
  }

  lemma {:induction false} BufferHasNoNotice(output: seq<Item>, b: LineBuffer)
    ensures NoticesOf(output + Items(b)) == NoticesOf(output)
    decreases |b|
  {
    if b == [] {
      assert output + Items(b) == output;
    } else {
      var front := b[..|b| - 1];
      BufferHasNoNotice(output, front);
      var whole := output + Items(b);
      assert whole[..|whole| - 1] == output + Items(front);
    }
  }

  lemma StepNotices(s: LogState, op: Op)
    requires Enabled(s, op)
    ensures NoticesOf(Apply(s, op).output) == NoticesOf(s.output) + CutOf(s, op)
    ensures Apply(s, op).dropped <==> s.dropped || CutOf(s, op) != []
  {
    var s' := Apply(s, op);
    if op.WriteOne? {
      BufferHasNoNotice(s.output, s.batch[s.phase.next]);
    } else if op.Trim? && |s.batch| > 25 {
      assert s'.output[..|s'.output| - 1] == s.output;
    }
  }

  lemma {:induction false} RunNotices(s: LogState, ops: seq<Op>)
    requires CanRun(s, ops)
    ensures NoticesOf(Run(s, ops).output) == NoticesOf(s.output) + CutsBy(s, ops)
    ensures Run(s, ops).dropped <==> s.dropped || CutsBy(s, ops) != []
    decreases |ops|
  {
    if ops != [] {
      var s' := Apply(s, ops[0]);
      StepNotices(s, ops[0]);
      RunNotices(s', ops[1..]);
      AppendAssociative(NoticesOf(s.output), CutOf(s, ops[0]), CutsBy(s', ops[1..]));
    }
  }

  lemma StepRecords(s: LogState, op: Op)
    requires Enabled(s, op)
    ensures var s' := Apply(s, op);
            && s'.appended == s.appended + LineOf(op)
            && (s'.oversized <==> s.oversized || (op.Append? && |op.line| >= 4_000_000))
            && (s'.running <==> s.running && !op.Stop?)
  {
  }

  lemma {:induction false} RunRecords(s: LogState, ops: seq<Op>)
    requires CanRun(s, ops)
    ensures Run(s, ops).appended == s.appended + AppendedBy(ops)
    ensures Run(s, ops).oversized <==> s.oversized || TooLong(ops)
    ensures Run(s, ops).running <==> s.running && !Stopped(ops)
    decreases |ops|
  {
    if ops != [] {
      var s' := Apply(s, ops[0]);
      StepRecords(s, ops[0]);
      RunRecords(s', ops[1..]);
      AppendAssociative(s.appended, LineOf(ops[0]), AppendedBy(ops[1..]));
    }
  }

  lemma RecordsAreOfTheSteps(ops: seq<Op>)
    requires CanRun(InitialState(), ops)
    ensures var s := Run(InitialState(), ops);
            && s.appended == AppendedBy(ops)
            && (s.oversized <==> TooLong(ops))
            && (s.dropped <==> CutsBy(InitialState(), ops) != [])
            && NoticesOf(s.output) == CutsBy(InitialState(), ops)
  {
    RunRecords(InitialState(), ops);
    RunNotices(InitialState(), ops);
    assert [] + AppendedBy(ops) == AppendedBy(ops);
    assert [] + CutsBy(InitialState(), ops) == CutsBy(InitialState(), ops);
  }

  /** In every interleaving the output is an in-order selection of the lines appended, each whole, with one
      notice for each batch of more than 25 buffers, and no other; and unless there was such a batch, or a line
      of 4000000 bytes or more, nothing at all is missing. */
  lemma OutputIsWhatWasAppended(ops: seq<Op>)
    requires CanRun(InitialState(), ops)
    ensures var s := Run(InitialState(), ops);
            && Subsequence(Lines(s.output), AppendedBy(ops))
            && NoticesOf(s.output) == CutsBy(InitialState(), ops)
            && (CutsBy(InitialState(), ops) == [] && !TooLong(ops) ==>
                  Lines(s.output) + (Flatten(InHand(s)) + (Flatten(s.buffers) + s.current)) == AppendedBy(ops))
  {
    InitialOrdered();
    RunKeepsOrder(InitialState(), ops);
    WrittenFirst(Run(InitialState(), ops));
    RecordsAreOfTheSteps(ops);
  }

  /** A cut loses the lines of all buffers of the batch but the first two, and no others. */
  lemma CutKeepsFirstTwo(s: LogState, notice: string)
    requires s.phase.Swapped? && |s.batch| > 25
    ensures Stored(s) == Joined(Lines(s.output), s.batch[..2] + s.batch[2..], s.buffers, s.current)
    ensures Stored(DoTrim(s, notice)) == Joined(Lines(s.output), s.batch[..2], s.buffers, s.current)
  {
    var s' := DoTrim(s, notice);
    assert s.batch == s.batch[..2] + s.batch[2..];
    assert s'.output[..|s'.output| - 1] == s.output;
  }

  /** At the loop test the writing thread ends if stop() was called, else waits if no buffer is full, else
      takes the buffers. */
  lemma EnterGoes(ops: seq<Op>)
    requires CanRun(InitialState(), ops) && Enabled(Run(InitialState(), ops), Enter)
    ensures var s := Run(InitialState(), ops);
            Apply(s, Enter).phase == if Stopped(ops) then Finished else if s.buffers == [] then Waiting else Swapped
  {
    RunRecords(InitialState(), ops);
  }

  // ---- The object: buffers of bytes ----

  function ItemText(i: Item): string {
    match i
    case Written(line) => line
    case DropNotice(_, text) => text
  }

  function Texts(items: seq<Item>): seq<string> {
    seq(|items|, i requires 0 <= i < |items| => ItemText(items[i]))
  }

  /** The bytes of the log file. */
  function Rendered(items: seq<Item>): string {
    Flatten(Texts(items))
  }

  lemma RenderedSnoc(items: seq<Item>, i: Item)
    ensures Rendered(items + [i]) == Rendered(items) + ItemText(i)
  {
    assert Texts(items + [i]) == Texts(items) + [ItemText(i)];
    FlattenSnoc(Texts(items), ItemText(i));
  }

  /** Writing the bytes of a buffer writes its lines, one after the other. */
  lemma RenderedBuffer(items: seq<Item>, b: LineBuffer)
    ensures Rendered(items + Items(b)) == Rendered(items) + Flatten(b)
  {
    assert Texts(items + Items(b)) == Texts(items) + b;
    FlattenAppend(Texts(items), b);
  }

  /** The bytes of a buffer of lines are those of its lines, one after the other. */
  ghost predicate Shows(b: string, l: LineBuffer) { b == Flatten(l) }

  ghost predicate ShowsOpt(b: Option<string>, l: Option<LineBuffer>) {
    if b.Some? then l.Some? && Shows(b.value, l.value) else l.None?
  }

  ghost predicate ShowsAll(bs: seq<string>, ls: seq<LineBuffer>) {
    |bs| == |ls| && forall i :: 0 <= i < |bs| ==> Shows(bs[i], ls[i])
  }

  lemma ShowsSnoc(bs: seq<string>, ls: seq<LineBuffer>, b: string, l: LineBuffer)
    requires ShowsAll(bs, ls) && Shows(b, l)
    ensures ShowsAll(bs + [b], ls + [l])
  {
  }

  /** FixedBuffer::append on bytes stores a line whole or not at all, as AppendTo does on lines. */
  lemma StoreShows(b: string, l: LineBuffer, line: Line)
    requires Shows(b, l)
    ensures Shows(Store(LARGE_BUFFER, b, line), AppendTo(l, line))
    ensures LARGE_BUFFER - |b| > |line| <==> HasRoom(l, line)
  {
    FlattenSnoc(l, line);
  }

  class AsyncLogging {
    var currentBuffer: string
    var nextBuffer: Option<string>
    var buffers: seq<string>
    var running: bool
    // locals of threadFunc
    var phase: Phase
    var newBuffer1: Option<string>
    var newBuffer2: Option<string>
    var buffersToWrite: seq<string>
    /** The bytes given to the log file. */
    var output: string
    /** The same in terms of lines. */
    ghost var lines: LogState

    /** Every byte in the buffers and in the file is one of a line, or of a notice, in its place. */
    ghost predicate Faithful()
      reads this
    {
      && Shows(currentBuffer, lines.current) && ShowsOpt(nextBuffer, lines.next) && ShowsAll(buffers, lines.buffers)
      && ShowsOpt(newBuffer1, lines.spare1) && ShowsOpt(newBuffer2, lines.spare2) && ShowsAll(buffersToWrite, lines.batch)
      && phase == lines.phase && running == lines.running && output == Rendered(lines.output)
    }

    ghost predicate Valid()
      reads this
    {
      Faithful() && Recycling(lines)
    }

    constructor ()
      ensures Valid() && lines == InitialState()
    {
      currentBuffer, nextBuffer, buffers, running := "", Some(""), [], true;
      phase, newBuffer1, newBuffer2, buffersToWrite := AtHead, Some(""), Some(""), [];
      output, lines := "", InitialState();
    }

    method AppendLine(logline: Line)
      requires Valid()
      modifies this
      ensures Valid() && lines == Apply(old(lines), Append(logline))
    {
      StepKeepsRecycling(lines, Append(logline));
      StoreLine(logline);
    }

    /** The critical section of append. */
    method StoreLine(logline: Line)
      requires Faithful()
      modifies `currentBuffer, `nextBuffer, `buffers, `lines
      ensures Faithful() && lines == DoAppend(old(lines), logline)
    {
      StoreShows(currentBuffer, lines.current, logline);
      lines := lines.(appended := lines.appended + [logline], oversized := lines.oversized || |logline| >= LARGE_BUFFER);
      if LARGE_BUFFER - |currentBuffer| <= |logline| {
        RollOver();
      }
      AppendToCurrent(logline);
    }

    /** currentBuffer_->append. */
    method AppendToCurrent(logline: Line)
      requires Faithful()
      modifies `currentBuffer, `lines
      ensures Faithful() && lines == old(lines).(current := AppendTo(old(lines).current, logline))
    {
      StoreShows(currentBuffer, lines.current, logline);
      currentBuffer := Store(LARGE_BUFFER, currentBuffer, logline);
      lines := lines.(current := AppendTo(lines.current, logline));
    }

    /** The full buffer joins the waiting ones, and the next one or a new one takes its place. */
    method RollOver()
      requires Faithful()
      modifies `currentBuffer, `nextBuffer, `buffers, `lines
      ensures Faithful()
      ensures lines == old(lines).(buffers := old(lines).buffers + [old(lines).current], next := None,
                                   current := if old(lines).next.Some? then old(lines).next.value else [])
    {
      buffers := buffers + [currentBuffer];
      if nextBuffer.Some? {
        currentBuffer := nextBuffer.value;
        nextBuffer := None;
        lines := lines.(buffers := lines.buffers + [lines.current], next := None, current := lines.next.value);
      } else {
        currentBuffer := "";
        lines := lines.(buffers := lines.buffers + [lines.current], current := []);
      }
    }

    method StopLogging()
      requires Valid()
      modifies `running, `lines
      ensures Valid() && lines == Apply(old(lines), Stop)
    {
      running := false;
      lines := lines.(running := false);
    }

    /** The code's statements from buffers_.push_back(currentBuffer_) to the unlock. */
    method SwapBuffers()
      requires Valid() && (phase.AtHead? || phase.Waiting?)
      modifies this
      ensures Valid() && lines == DoSwap(old(lines))
    {
      SwapKeepsRecycling(lines);
      assert newBuffer1.Some?;
      ExchangeBuffers();
    }

    method ExchangeBuffers()
      requires Faithful() && newBuffer1.Some? && buffersToWrite == []
      modifies this
      ensures Faithful() && lines == DoSwap(old(lines))
    {
      ShowsSnoc(buffers, lines.buffers, currentBuffer, lines.current);
      TakeBatch();
      if nextBuffer.None? {
        nextBuffer, newBuffer2 := newBuffer2, None;
      }
      phase := Swapped;
      lines := DoSwap(lines);
    }

    /** The filled buffers become the batch, and the first spare the current buffer. */
    method TakeBatch()
      requires newBuffer1.Some?
      modifies `buffers, `currentBuffer, `newBuffer1, `buffersToWrite
      ensures buffersToWrite == old(buffers) + [old(currentBuffer)] && buffers == old(buffersToWrite)
      ensures currentBuffer == old(newBuffer1).value && newBuffer1.None?
    {
      buffers := buffers + [currentBuffer];
      currentBuffer, newBuffer1 := newBuffer1.value, None;
      buffersToWrite, buffers := buffers, buffersToWrite;
    }

    method EnterLoop()
      requires Valid() && Enabled(lines, Enter)
      modifies this
      ensures Valid() && lines == Apply(old(lines), Enter)
    {
      if !running {
        phase := Finished;
        lines := lines.(phase := Finished);
      } else {
        assert newBuffer1 == Some("") && newBuffer2 == Some("") && buffersToWrite == [];
        if buffers == [] {
          phase := Waiting;
          lines := lines.(phase := Waiting);
        } else {
          SwapBuffers();
        }
      }
    }

    method LeaveWait()
      requires Valid() && Enabled(lines, WakeUp)
      modifies this
      ensures Valid() && lines == Apply(old(lines), WakeUp)
    {
      SwapBuffers();
    }

    /** `notice` is the text formatted with the time and the number of buffers dropped. */
    method TrimBatch(notice: string)
      requires Valid() && Enabled(lines, Trim(notice))
      modifies `output, `buffersToWrite, `phase, `lines
      ensures Valid() && lines == Apply(old(lines), Trim(notice))
    {
      assert buffersToWrite != [];
      StepKeepsRecycling(lines, Trim(notice));
      if |buffersToWrite| > 25 {
        RenderedSnoc(lines.output, DropNotice(|buffersToWrite| - 2, notice));
        output := output + notice;
        buffersToWrite := buffersToWrite[..2];
      }
      phase := Writing(0);
      lines := DoTrim(lines, notice);
    }

    /** The bytes written are all the bytes of the buffer, and so its lines, each whole. */
    method WriteNext()
      requires Valid() && Enabled(lines, WriteOne)
      modifies `output, `phase, `lines
      ensures Valid() && lines == Apply(old(lines), WriteOne)
      ensures output == old(output) + old(buffersToWrite)[old(phase).next]
    {
      StepKeepsRecycling(lines, WriteOne);
      RenderedBuffer(lines.output, lines.batch[phase.next]);
      assert Shows(buffersToWrite[phase.next], lines.batch[phase.next]);
      output := output + buffersToWrite[phase.next];
      phase := Writing(phase.next + 1);
      lines := DoWriteOne(lines);
    }

    method RecycleBuffers()
      requires Valid() && Enabled(lines, Recycle)
      modifies this
      ensures Valid() && lines == Apply(old(lines), Recycle)
    {
      StepKeepsRecycling(lines, Recycle);
      RefillSpares();
    }

    /** The code's statements from the resize to the clear of the batch. */
    method RefillSpares()
      requires Faithful()
      requires newBuffer1.None? ==> buffersToWrite != []
      requires newBuffer2.None? ==> |buffersToWrite| >= if newBuffer1.None? then 2 else 1
      modifies `newBuffer1, `newBuffer2, `buffersToWrite, `phase, `lines
      ensures Faithful() && lines == DoRecycle(old(lines))
    {
      DoRecycleIs(lines);
      RefillFields();
      lines := DoRecycle(lines);
    }

    method RefillFields()
      requires newBuffer1.None? ==> buffersToWrite != []
      requires newBuffer2.None? ==> |buffersToWrite| >= if newBuffer1.None? then 2 else 1
      modifies `newBuffer1, `newBuffer2, `buffersToWrite, `phase
      ensures newBuffer1 == if old(newBuffer1).Some? then old(newBuffer1) else Some("")
      ensures newBuffer2 == if old(newBuffer2).Some? then old(newBuffer2) else Some("")
      ensures buffersToWrite == [] && phase == AtHead
    {
      if |buffersToWrite| > 2 {
        buffersToWrite := buffersToWrite[..2];
      }
      newBuffer1, buffersToWrite := TakeSpare(newBuffer1, buffersToWrite);
      newBuffer2, buffersToWrite := TakeSpare(newBuffer2, buffersToWrite);
      buffersToWrite := [];
      phase := AtHead;
    }

    /** The last buffer of the batch, emptied, if there is no spare; the assertion is that there is one. */
    static method TakeSpare(spare: Option<string>, batch: seq<string>) returns (spare': Option<string>, batch': seq<string>)
      requires spare.None? ==> batch != []
      ensures spare' == if spare.Some? then spare else Some("")
      ensures batch' == if spare.Some? then batch else batch[..|batch| - 1]
    {
      spare', batch' := spare, batch;
      if spare.None? {
        assert batch != [];
        spare', batch' := Some(""), batch[..|batch| - 1];
      }
    }

    method Step(op: Op)
      requires Valid() && Enabled(lines, op)
      modifies this
      ensures Valid() && lines == Apply(old(lines), op)
    {
      match op
      case Append(line) => AppendLine(line);
      case Stop => StopLogging();
      case Enter => EnterLoop();
      case WakeUp => LeaveWait();
      case Trim(notice) => TrimBatch(notice);
      case WriteOne => WriteNext();
      case Recycle => RecycleBuffers();
    }
  }

  /** Without a drop notice the file holds the bytes of the lines and nothing else. */
  ghost predicate Plain(s: LogState) {
    !s.dropped ==> Rendered(s.output) == Flatten(Lines(s.output))
  }

  lemma StepKeepsPlain(s: LogState, op: Op)
    requires Plain(s) && Enabled(s, op)
    ensures Plain(Apply(s, op))
  {
    if op.WriteOne? {
      var b := s.batch[s.phase.next];
      RenderedBuffer(s.output, b);
      LinesAppend(s.output, b);
      FlattenAppend(Lines(s.output), b);
    }
  }

  lemma {:induction false} RunKeepsPlain(s: LogState, ops: seq<Op>)
    requires Plain(s) && CanRun(s, ops)
    ensures Plain(Run(s, ops))
    decreases |ops|
  {
    if ops != [] {
      StepKeepsPlain(s, ops[0]);
      RunKeepsPlain(Apply(s, ops[0]), ops[1..]);
    }
  }

  lemma {:induction false} FlattenShows(bs: seq<string>, ls: seq<LineBuffer>)
    requires ShowsAll(bs, ls)
    ensures Flatten(bs) == Flatten(Flatten(ls))
    decreases |bs|
  {
    if bs != [] {
      assert Shows(bs[0], ls[0]);
      forall i | 0 <= i < |bs| - 1 ensures Shows(bs[1..][i], ls[1..][i]) {
        assert Shows(bs[i + 1], ls[i + 1]);
      }
      FlattenShows(bs[1..], ls[1..]);
      FlattenAppend(ls[0], Flatten(ls[1..]));
    }
  }

  /** The bytes of the batch not written yet. */
  function BytesInHand(phase: Phase, batch: seq<string>): string {
    match phase
    case Swapped => Flatten(batch)
    case Writing(i) => if i <= |batch| then Flatten(batch[i..]) else ""
    case _ => ""
  }

  lemma InHandShows(batch: seq<string>, s: LogState)
    requires ShowsAll(batch, s.batch)
    ensures BytesInHand(s.phase, batch) == Flatten(Flatten(InHand(s)))
  {
    FlattenShows(batch, s.batch);
    if s.phase.Writing? && s.phase.next <= |batch| {
      var n := s.phase.next;
      forall i | 0 <= i < |batch| - n ensures Shows(batch[n..][i], s.batch[n..][i]) {
        assert Shows(batch[n + i], s.batch[n + i]);
      }
      FlattenShows(batch[n..], s.batch[n..]);
    }
  }

  /** The bytes of all lines stored, part by part. */
  lemma StoredBytes(s: LogState)
    ensures Flatten(Stored(s)) == Flatten(Lines(s.output)) + Flatten(Flatten(InHand(s))) + Flatten(Flatten(s.buffers)) + Flatten(s.current)
  {
    var h, b := Flatten(InHand(s)), Flatten(s.buffers);
    FlattenAppend(Lines(s.output), h + (b + s.current));
    FlattenAppend(h, b + s.current);
    FlattenAppend(b, s.current);
  }

  /** Every run, carried out on bytes: the file is the text of items whose lines are an in-order selection of
      the lines appended, each whole, and whose notices are those of the batches cut; and if no batch of more than
      25 buffers and no line of 4000000 bytes came, the bytes in the file, in the batch, in the waiting buffers and
      in the current one are all the bytes appended, in order. */
  method LogRun(ops: seq<Op>) returns (log: AsyncLogging)
    requires CanRun(InitialState(), ops)
    ensures log.Valid() && log.lines == Run(InitialState(), ops)
    ensures log.output == Rendered(log.lines.output) && Subsequence(Lines(log.lines.output), AppendedBy(ops))
    ensures NoticesOf(log.lines.output) == CutsBy(InitialState(), ops)
    ensures CutsBy(InitialState(), ops) == [] && !TooLong(ops) ==>
              log.output + BytesInHand(log.phase, log.buffersToWrite) + Flatten(log.buffers) + log.currentBuffer
              == Flatten(AppendedBy(ops))
  {
    log := new AsyncLogging();
    var i := 0;
    assert ops[0..] == ops;
    while i < |ops|
      invariant i <= |ops| && fresh(log) && log.Valid()
      invariant CanRun(log.lines, ops[i..]) && Run(log.lines, ops[i..]) == Run(InitialState(), ops)
    {
      assert ops[i..][0] == ops[i] && ops[i..][1..] == ops[i + 1..];
      log.Step(ops[i]);
      i := i + 1;
    }
    OutputIsWhatWasAppended(ops);
    RecordsAreOfTheSteps(ops);
    RunKeepsPlain(InitialState(), ops);
    StoredBytes(log.lines);
    InHandShows(log.buffersToWrite, log.lines);
    FlattenShows(log.buffers, log.lines.buffers);
  }
}
