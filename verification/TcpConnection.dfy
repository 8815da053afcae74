/** muduo/net/TcpConnection.cc: the output stream of one connection, half-close and the state
    machine, as steps of the loop thread interleaved with calls from other threads. */
module Connections {
  import opened Bytes
  import opened NetBuffer

  datatype ConnState = Connecting | Connected | Disconnecting | Disconnected

  /** The result of write(2): how many bytes the kernel took, or the kind of error. */
  datatype WriteResult = Wrote(n: nat) | WouldBlock | PeerGone | OtherError

  /** A message given to sendInLoop, and whether it was given up as a whole. */
  datatype Message = Message(data: bytes, dropped: bool)

  /** `reading` and `writing` are the channel's interest, `kernel` the bytes write(2) took, `sent` the
      messages given to sendInLoop before the disconnect. `shutdownQueued` and `shutdownRan` say where
      the loop step of shutdown() is; `truncated` that the write side was closed with bytes buffered. */
  datatype StreamState = StreamState(
    state: ConnState,
    reading: bool,
    writing: bool,
    output: bytes,
    kernel: bytes,
    sent: seq<Message>,
    shutdownQueued: bool,
    shutdownRan: bool,
    writeClosed: bool,
    truncated: bool)

  function InitialState(): StreamState {
    StreamState(Connecting, false, false, [], [], [], false, false, false, false)
  }

  datatype Op =
    | Establish                                 // connectEstablished
    | Send(data: bytes, result: WriteResult)    // sendInLoop
    | WriteEvent(result: WriteResult)           // handleWrite
    | Shutdown                                  // shutdown(), from any thread
    | ShutdownInLoop
    | ForceClose                                // forceClose(), from any thread
    | Close                                     // handleClose
    | SetReading(on: bool)                      // startRead, stopRead

  /** What write(2) can return for `len` bytes: not more than was offered, and an error once the write
      side is closed. */
  predicate Possible(s: StreamState, result: WriteResult, len: nat) {
    && (result.Wrote? ==> result.n <= len)
    && (s.writeClosed && len > 0 ==> result.PeerGone?)
  }

  predicate Live(s: StreamState) {
    s.state.Connected? || s.state.Disconnecting?
  }

  predicate Enabled(s: StreamState, op: Op) {
    match op
    case Establish => s.state.Connecting?
    case Send(data, result) => !s.state.Connecting? && Possible(s, result, |data|)
    case WriteEvent(result) => Possible(s, result, |s.output|)
    case Shutdown => true
    case ShutdownInLoop => s.shutdownQueued
    case ForceClose => true
    case Close => Live(s)
    case SetReading(on) => !s.state.Connecting? && (on ==> Live(s))
  }

  /** socket_->shutdownWrite() unless the channel still waits to write. */
  function DoShutdownInLoop(s: StreamState): StreamState {
    if s.writing then s
    else s.(writeClosed := true, truncated := s.truncated || (!s.state.Disconnected? && s.output != []))
  }

  /** sendInLoop writes at once only when nothing is queued before the message. */
  predicate Direct(s: StreamState) {
    !s.writing && s.output == []
  }

  function WrittenAtOnce(s: StreamState, result: WriteResult): nat {
    if Direct(s) && result.Wrote? then result.n else 0
  }

  predicate GivenUp(s: StreamState, result: WriteResult) {
    Direct(s) && result.PeerGone?
  }

  function DoSend(s: StreamState, data: bytes, result: WriteResult): StreamState
    requires Possible(s, result, |data|)
  {
    if s.state.Disconnected? then s
    else
      var n := WrittenAtOnce(s, result);
      var s' := s.(kernel := s.kernel + data[..n], sent := s.sent + [Message(data, GivenUp(s, result))]);
      if !GivenUp(s, result) && n < |data| then s'.(output := s.output + data[n..], writing := true) else s'
  }

  function DoWriteEvent(s: StreamState, result: WriteResult): StreamState
    requires Possible(s, result, |s.output|)
  {
    if s.writing && result.Wrote? && result.n > 0 then
      var s' := s.(kernel := s.kernel + s.output[..result.n], output := s.output[result.n..]);
      if s'.output != [] then s'
      else
        var s'' := s'.(writing := false);
        if s.state.Disconnecting? then DoShutdownInLoop(s'') else s''
    else s
  }

  function Apply(s: StreamState, op: Op): StreamState
    requires Enabled(s, op)
  {
    match op
    case Establish => s.(state := Connected, reading := true)
    case Send(data, result) => DoSend(s, data, result)
    case WriteEvent(result) => DoWriteEvent(s, result)
    case Shutdown => if s.state.Connected? then s.(state := Disconnecting, shutdownQueued := true) else s
    case ShutdownInLoop => DoShutdownInLoop(s).(shutdownQueued := false, shutdownRan := true)
    case ForceClose => if Live(s) then s.(state := Disconnecting) else s
    case Close => s.(state := Disconnected, reading := false, writing := false)
    case SetReading(on) => s.(reading := on)
  }

  ghost predicate CanRun(s: StreamState, ops: seq<Op>)
    decreases |ops|
  {
    ops == [] || (Enabled(s, ops[0]) && CanRun(Apply(s, ops[0]), ops[1..]))
  }

  ghost function Run(s: StreamState, ops: seq<Op>): StreamState
    requires CanRun(s, ops)
    decreases |ops|
  {
    if ops == [] then s else Run(Apply(s, ops[0]), ops[1..])
  }

  /** The messages not given up, concatenated in order. */
  function Kept(sent: seq<Message>): bytes {
    if sent == [] then []
    else
      var last := sent[|sent| - 1];
      Kept(sent[..|sent| - 1]) + (if last.dropped then [] else last.data)
  }

  lemma KeptSnoc(sent: seq<Message>, m: Message)
    ensures Kept(sent + [m]) == Kept(sent) + (if m.dropped then [] else m.data)
  {
    assert (sent + [m])[..|sent|] == sent;
  }

  /** Bytes taken by the kernel, then those buffered: the kept messages, nothing lost, doubled or reordered. */
  ghost predicate Conserved(s: StreamState) {
    s.kernel + s.output == Kept(s.sent)
  }

  ghost predicate Coherent(s: StreamState) {
    && (if s.state.Disconnected? then !s.writing && !s.reading else s.writing == (s.output != []))
    && (s.state.Connecting? ==> !s.writing && !s.reading)
    && !s.truncated
    && (s.shutdownRan && s.state.Disconnecting? && s.output == [] ==> s.writeClosed)
    && (s.shutdownQueued || s.shutdownRan || s.writeClosed ==> s.state.Disconnecting? || s.state.Disconnected?)
    && (s.writeClosed && !s.state.Disconnected? ==> s.output == [])
  }

  ghost predicate Inv(s: StreamState) {
    Conserved(s) && Coherent(s)
  }

  lemma SplitSend(kernel: bytes, output: bytes, data: bytes, n: nat)
    requires n <= |data| && (n > 0 ==> output == [])
    ensures kernel + data[..n] + (output + data[n..]) == kernel + output + data
  {
    assert data == data[..n] + data[n..];
    if n == 0 {
      assert kernel + (output + data) == kernel + output + data;
    }
  }

  lemma SendConserves(s: StreamState, data: bytes, result: WriteResult)
    requires Conserved(s) && Possible(s, result, |data|)
    ensures Conserved(DoSend(s, data, result))
  {
    if !s.state.Disconnected? {
      var n := WrittenAtOnce(s, result);
      KeptSnoc(s.sent, Message(data, GivenUp(s, result)));
      if GivenUp(s, result) {
        assert s.kernel + data[..0] == s.kernel;
        assert Kept(s.sent) + [] == Kept(s.sent);
      } else {
        SplitSend(s.kernel, s.output, data, n);
        if n == |data| {
          assert s.output + data[n..] == s.output;
        }
      }
    }
  }

  lemma SendKeepsInv(s: StreamState, data: bytes, result: WriteResult)
    requires Inv(s) && Enabled(s, Send(data, result))
    ensures Inv(DoSend(s, data, result))
  {
    SendConserves(s, data, result);
  }

  lemma WriteEventKeepsInv(s: StreamState, result: WriteResult)
    requires Inv(s) && Enabled(s, WriteEvent(result))
    ensures Inv(DoWriteEvent(s, result))
  {
    if s.writing && result.Wrote? && result.n > 0 {
      assert s.kernel + s.output[..result.n] + s.output[result.n..] == s.kernel + s.output;
    }
  }

  lemma StepKeepsInv(s: StreamState, op: Op)
    requires Inv(s) && Enabled(s, op)
    ensures Inv(Apply(s, op))
  {
    match op
    case Send(data, result) => SendKeepsInv(s, data, result);
    case WriteEvent(result) => WriteEventKeepsInv(s, result);
    case _ =>
  }

  lemma {:induction false} RunKeepsInv(s: StreamState, ops: seq<Op>)
    requires Inv(s) && CanRun(s, ops)
    ensures Inv(Run(s, ops))
    decreases |ops|
  {
    if ops != [] {
      StepKeepsInv(s, ops[0]);
      RunKeepsInv(Apply(s, ops[0]), ops[1..]);
    }
  }

  // ---- What the steps ask for, read off the steps ----

  predicate Occurs(op: Op, ops: seq<Op>) {
    ops != [] && (ops[0] == op || Occurs(op, ops[1..]))
  }

  /** The data of the sends before the disconnect, in order. */
  function SentBy(ops: seq<Op>): seq<bytes> {
    if ops == [] || ops[0].Close? then []
    else (if ops[0].Send? then [ops[0].data] else []) + SentBy(ops[1..])
  }

  /** A send is given up exactly when write(2) tells that the peer is gone and nothing was buffered before it. */
  function MessageOf(s: StreamState, op: Op): seq<Message> {
    if op.Send? then [Message(op.data, op.result.PeerGone? && s.output == [])] else []
  }

  /** The same sends along a run, each with whether it was given up. */
  ghost function MessagesBy(s: StreamState, ops: seq<Op>): seq<Message>
    requires CanRun(s, ops)
    decreases |ops|
  {
    if ops == [] || ops[0].Close? then []
    else MessageOf(s, ops[0]) + MessagesBy(Apply(s, ops[0]), ops[1..])
  }

  /** write(2) is called for a send with nothing buffered before it, and for a write event with something buffered. */
  function TakenOf(s: StreamState, op: Op): nat {
    match op
    case Send(_, Wrote(n)) => if s.output == [] then n else 0
    case WriteEvent(Wrote(n)) => if s.output != [] then n else 0
    case _ => 0
  }

  /** How many bytes write(2) took before the disconnect. */
  ghost function TakenBy(s: StreamState, ops: seq<Op>): nat
    requires CanRun(s, ops)
    decreases |ops|
  {
    if ops == [] || ops[0].Close? then 0
    else TakenOf(s, ops[0]) + TakenBy(Apply(s, ops[0]), ops[1..])
  }

  /** The connection reads from its establishment on, unless told otherwise, until it is closed. */
  predicate ReadingBy(before: bool, ops: seq<Op>)
    decreases |ops|
  {
    if ops == [] then before
    else
      match ops[0]
      case Establish => ReadingBy(true, ops[1..])
      case SetReading(on) => ReadingBy(on, ops[1..])
      case Close => ReadingBy(false, ops[1..])
      case _ => ReadingBy(before, ops[1..])
  }

  /** shutdown() or forceClose() was called on the established connection. */
  predicate AskedToClose(up: bool, ops: seq<Op>)
    decreases |ops|
  {
    ops != [] && ((up && (ops[0].Shutdown? || ops[0].ForceClose?)) || AskedToClose(up || ops[0].Establish?, ops[1..]))
  }

  function DataOf(sent: seq<Message>): seq<bytes> {
    if sent == [] then [] else [sent[0].data] + DataOf(sent[1..])
  }

  lemma {:induction false} QuietOnceClosed(s: StreamState, ops: seq<Op>)
    requires CanRun(s, ops) && s.state.Disconnected? && !s.writing
    ensures var e := Run(s, ops); e.state.Disconnected? && e.sent == s.sent && e.kernel == s.kernel
    decreases |ops|
  {
    if ops != [] {
      QuietOnceClosed(Apply(s, ops[0]), ops[1..]);
    }
  }

  lemma SendSends(s: StreamState, data: bytes, result: WriteResult)
    requires Coherent(s) && Possible(s, result, |data|) && !s.state.Disconnected?
    ensures var s' := DoSend(s, data, result);
            && s'.sent == s.sent + [Message(data, result.PeerGone? && s.output == [])]
            && |s'.kernel| == |s.kernel| + (if result.Wrote? && s.output == [] then result.n else 0)
            && s'.state == s.state
  {
  }

  lemma WriteEventSends(s: StreamState, result: WriteResult)
    requires Coherent(s) && Possible(s, result, |s.output|) && !s.state.Disconnected?
    ensures var s' := DoWriteEvent(s, result);
            && s'.sent == s.sent
            && |s'.kernel| == |s.kernel| + (if result.Wrote? && s.output != [] then result.n else 0)
            && s'.state == s.state
  {
  }

  lemma StepSends(s: StreamState, op: Op)
    requires Coherent(s) && Enabled(s, op) && !s.state.Disconnected? && !op.Close?
    ensures var s' := Apply(s, op);
            && s'.sent == s.sent + MessageOf(s, op)
            && |s'.kernel| == |s.kernel| + TakenOf(s, op)
            && !s'.state.Disconnected?
  {
    match op
    case Send(data, result) => SendSends(s, data, result);
    case WriteEvent(result) => WriteEventSends(s, result);
    case _ =>
  }

  lemma StepCoherent(s: StreamState, op: Op)
    requires Coherent(s) && Enabled(s, op)
    ensures Coherent(Apply(s, op))
  {
    match op
    case Send(data, result) => assert Coherent(DoSend(s, data, result));
    case WriteEvent(result) => assert Coherent(DoWriteEvent(s, result));
    case _ =>
  }

  lemma {:induction false} RunSends(s: StreamState, ops: seq<Op>)
    requires CanRun(s, ops) && Coherent(s) && !s.state.Disconnected?
    ensures Run(s, ops).sent == s.sent + MessagesBy(s, ops)
    decreases |ops|
  {
    if ops != [] {
      var s' := Apply(s, ops[0]);
      if ops[0].Close? {
        QuietOnceClosed(s', ops[1..]);
      } else {
        StepSends(s, ops[0]);
        StepCoherent(s, ops[0]);
        RunSends(s', ops[1..]);
        AppendAssociative(s.sent, MessageOf(s, ops[0]), MessagesBy(s', ops[1..]));
      }
    }
  }

  lemma {:induction false} RunTakes(s: StreamState, ops: seq<Op>)
    requires CanRun(s, ops) && Coherent(s) && !s.state.Disconnected?
    ensures |Run(s, ops).kernel| == |s.kernel| + TakenBy(s, ops)
    decreases |ops|
  {
    if ops != [] {
      var s' := Apply(s, ops[0]);
      if ops[0].Close? {
        QuietOnceClosed(s', ops[1..]);
      } else {
        StepSends(s, ops[0]);
        StepCoherent(s, ops[0]);
        RunTakes(s', ops[1..]);
      }
    }
  }

  lemma {:induction false} MessagesCarryData(s: StreamState, ops: seq<Op>)
    requires CanRun(s, ops)
    ensures DataOf(MessagesBy(s, ops)) == SentBy(ops)
    decreases |ops|
  {
    if ops != [] && !ops[0].Close? {
      var rest := MessagesBy(Apply(s, ops[0]), ops[1..]);
      MessagesCarryData(Apply(s, ops[0]), ops[1..]);
      if ops[0].Send? {
        assert (MessageOf(s, ops[0]) + rest)[1..] == rest;
      } else {
        assert MessageOf(s, ops[0]) + rest == rest;
      }
    }
  }

  /** For every sequence of sends, partial writes, errors and write events: what the kernel took followed by
      what is buffered is the concatenation of the data sent before the disconnect, in order, minus the
      messages given up whole; the kernel took as many bytes as write(2) said; and until the disconnect the
      channel wants to write exactly when something is buffered. */
  lemma OutputConserved(ops: seq<Op>)
    requires CanRun(InitialState(), ops)
    ensures var s := Run(InitialState(), ops);
            && s.kernel + s.output == Kept(MessagesBy(InitialState(), ops))
            && DataOf(MessagesBy(InitialState(), ops)) == SentBy(ops)
            && |s.kernel| == TakenBy(InitialState(), ops)
            && (!s.state.Disconnected? ==> s.writing == (s.output != []))
  {
    RunKeepsInv(InitialState(), ops);
    RunSends(InitialState(), ops);
    RunTakes(InitialState(), ops);
    MessagesCarryData(InitialState(), ops);
    assert [] + MessagesBy(InitialState(), ops) == MessagesBy(InitialState(), ops);
  }

  /** A message is given up exactly when its write(2) told that the peer is gone, with nothing buffered: the
      others, whatever write(2) said of them, reach the kernel or the buffer whole. */
  lemma GivenUpIff(before: seq<Op>, data: bytes, result: WriteResult)
    requires CanRun(InitialState(), before) && !Occurs(Close, before)
    requires Enabled(Run(InitialState(), before), Send(data, result))
    ensures var s := Run(InitialState(), before);
            var s' := Apply(s, Send(data, result));
            s'.kernel + s'.output ==
            s.kernel + s.output + if result.PeerGone? && s.output == [] then [] else data
  {
    var s := Run(InitialState(), before);
    RunKeepsInv(InitialState(), before);
    StateByRun(InitialState(), before);
    SendConserves(s, data, result);
    KeptSnoc(s.sent, MessageOf(s, Send(data, result))[0]);
  }

  /** The fields that the calls decide, whatever the stream does. */
  datatype Control = Control(state: ConnState, reading: bool, shutdownRan: bool)

  function ControlOf(s: StreamState): Control {
    Control(s.state, s.reading, s.shutdownRan)
  }

  lemma StepControl(s: StreamState, op: Op)
    requires Enabled(s, op)
    ensures var c, c' := ControlOf(s), ControlOf(Apply(s, op));
            match op
            case Establish => c.state.Connecting? && c' == c.(state := Connected, reading := true)
            case Shutdown => c' == if c.state.Connected? then c.(state := Disconnecting) else c
            case ShutdownInLoop => c' == c.(shutdownRan := true)
            case ForceClose => c' == if c.state.Connected? then c.(state := Disconnecting) else c
            case Close => !c.state.Connecting? && c' == c.(state := Disconnected, reading := false)
            case SetReading(on) => c' == c.(reading := on)
            case _ => c' == c
  {
  }

  /** The state reached from `from` by the calls in `ops`. */
  function StateBy(from: ConnState, ops: seq<Op>): ConnState {
    if from.Disconnected? || Occurs(Close, ops) then Disconnected
    else if from.Connecting? && !Occurs(Establish, ops) then Connecting
    else if from.Disconnecting? || AskedToClose(from.Connected?, ops) then Disconnecting
    else Connected
  }

  lemma {:induction false} StateByRun(s: StreamState, ops: seq<Op>)
    requires CanRun(s, ops)
    ensures Run(s, ops).state == StateBy(s.state, ops)
    ensures s.state.Connecting? && Occurs(Close, ops) ==> Occurs(Establish, ops)
    decreases |ops|
  {
    if ops != [] {
      var s' := Apply(s, ops[0]);
      StepControl(s, ops[0]);
      StateByRun(s', ops[1..]);
      StateByStep(s.state, s'.state, ops);
    }
  }

  lemma StateByStep(c: ConnState, c': ConnState, ops: seq<Op>)
    requires ops != []
    requires c' == match ops[0]
                   case Establish => Connected
                   case Close => Disconnected
                   case Shutdown => if c.Connected? then Disconnecting else c
                   case ForceClose => if c.Connected? then Disconnecting else c
                   case _ => c
    requires ops[0].Establish? ==> c.Connecting?
    ensures StateBy(c, ops) == StateBy(c', ops[1..])
  {
  }

  lemma {:induction false} FlagsByRun(s: StreamState, ops: seq<Op>)
    requires CanRun(s, ops)
    ensures Run(s, ops).reading == ReadingBy(s.reading, ops)
    ensures Run(s, ops).shutdownRan <==> s.shutdownRan || Occurs(ShutdownInLoop, ops)
    decreases |ops|
  {
    if ops != [] {
      StepControl(s, ops[0]);
      FlagsByRun(Apply(s, ops[0]), ops[1..]);
    }
  }

  /** The state of the connection is what the calls made it: established, then asked to close, then closed. */
  lemma StateIsAsAsked(ops: seq<Op>)
    requires CanRun(InitialState(), ops)
    ensures var s := Run(InitialState(), ops);
            && (s.state.Disconnected? <==> Occurs(Close, ops))
            && (s.state.Connecting? <==> !Occurs(Establish, ops))
            && (s.state.Disconnecting? <==> !Occurs(Close, ops) && AskedToClose(false, ops))
            && s.reading == ReadingBy(false, ops)
  {
    StateByRun(InitialState(), ops);
    FlagsByRun(InitialState(), ops);
  }

  /** Graceful half-close: before the disconnect the write side is closed only after a request to close and with
      nothing buffered, all that was sent taken by the kernel; and once the loop step of shutdown() has run it is
      closed as soon as nothing is buffered. */
  lemma GracefulHalfClose(ops: seq<Op>)
    requires CanRun(InitialState(), ops)
    ensures var s := Run(InitialState(), ops);
            && !s.truncated
            && (!Occurs(Close, ops) && s.writeClosed ==>
                  AskedToClose(false, ops) && s.output == [] && s.kernel == Kept(MessagesBy(InitialState(), ops)))
            && (!Occurs(Close, ops) && Occurs(ShutdownInLoop, ops) && s.output == [] ==> s.writeClosed)
  {
    RunKeepsInv(InitialState(), ops);
    OutputConserved(ops);
    StateByRun(InitialState(), ops);
    FlagsByRun(InitialState(), ops);
    var s := Run(InitialState(), ops);
    assert s.output == [] ==> s.kernel + s.output == s.kernel;
  }

  lemma {:induction false} ShutdownStaysQueued(s: StreamState, ops: seq<Op>)
    requires CanRun(s, ops) && s.shutdownQueued && !Occurs(ShutdownInLoop, ops)
    ensures Run(s, ops).shutdownQueued
    decreases |ops|
  {
    if ops != [] {
      ShutdownStaysQueued(Apply(s, ops[0]), ops[1..]);
    }
  }

  /** shutdown() of a connected connection takes effect: its loop step can run whatever happens meanwhile. */
  lemma ShutdownTakesEffect(s: StreamState, ops: seq<Op>)
    requires s.state.Connected? && CanRun(Apply(s, Shutdown), ops)
    requires !Occurs(ShutdownInLoop, ops)
    ensures Enabled(Run(Apply(s, Shutdown), ops), ShutdownInLoop)
  {
    ShutdownStaysQueued(Apply(s, Shutdown), ops);
  }

  function Rank(c: ConnState): nat {
    match c
    case Connecting => 0
    case Connected => 1
    case Disconnecting => 2
    case Disconnected => 3
  }

  ghost predicate Grows(s: StreamState, s': StreamState) {
    s.kernel <= s'.kernel && s.sent <= s'.sent && Rank(s.state) <= Rank(s'.state)
  }

  lemma SendGrows(s: StreamState, data: bytes, result: WriteResult)
    requires Possible(s, result, |data|)
    ensures Grows(s, DoSend(s, data, result))
  {
  }

  lemma WriteEventGrows(s: StreamState, result: WriteResult)
    requires Possible(s, result, |s.output|)
    ensures Grows(s, DoWriteEvent(s, result))
  {
  }

  /** The stream only grows, a message once sent stays as it is, and the state never goes back. */
  lemma {:induction false} NothingTakenBack(s: StreamState, ops: seq<Op>)
    requires CanRun(s, ops)
    ensures Grows(s, Run(s, ops))
    decreases |ops|
  {
    if ops != [] {
      var s' := Apply(s, ops[0]);
      assert Grows(s, s') by {
        match ops[0]
        case Send(data, result) => SendGrows(s, data, result);
        case WriteEvent(result) => WriteEventGrows(s, result);
        case _ =>
      }
      NothingTakenBack(s', ops[1..]);
    }
  }

  // ---- The object, over the byte buffer ----

  class TcpConnection {
    var state: ConnState
    var reading: bool
    var writing: bool
    const outputBuffer: Buffer
    ghost var kernel: bytes
    ghost var sent: seq<Message>
    ghost var shutdownQueued: bool
    ghost var shutdownRan: bool
    ghost var writeClosed: bool

    ghost function View(): StreamState
      reads this, outputBuffer
      requires outputBuffer.Valid()
    {
      StreamState(state, reading, writing, outputBuffer.Contents(), kernel, sent,
                  shutdownQueued, shutdownRan, writeClosed, false)
    }

    ghost predicate Valid()
      reads this, outputBuffer
    {
      outputBuffer.Valid() && Inv(View())
    }

    constructor ()
      ensures Valid() && fresh(outputBuffer) && View() == InitialState()
    {
      outputBuffer := new Buffer(INITIAL_SIZE);
      state, reading, writing := Connecting, false, false;
      kernel, sent, shutdownQueued, shutdownRan, writeClosed := [], [], false, false, false;
    }

    method ConnectEstablished()
      requires Valid() && Enabled(View(), Establish)
      modifies this
      ensures Valid() && View() == Apply(old(View()), Establish)
    {
      state := Connected;
      reading := true;
    }

    /** `result` is what write(2) returns if it is called. */
    method SendInLoop(data: bytes, result: WriteResult)
      requires Valid() && Enabled(View(), Send(data, result))
      modifies this, outputBuffer
      ensures Valid() && View() == Apply(old(View()), Send(data, result))
    {
      SendKeepsInv(View(), data, result);
      WriteOrBuffer(data, result);
    }

    /** The write attempted when nothing is waiting in the output buffer. */
    method WriteDirectly(len: nat, result: WriteResult) returns (nwrote: nat, faultError: bool)
      requires outputBuffer.Valid() && Possible(View(), result, len)
      ensures nwrote == WrittenAtOnce(View(), result) && nwrote <= len
      ensures faultError == GivenUp(View(), result)
    {
      nwrote, faultError := 0, false;
      if !writing && outputBuffer.ReadableBytes() == 0 {
        match result
        case Wrote(n) => nwrote := n;
        case WouldBlock =>
        case PeerGone => faultError := true;
        case OtherError =>
      }
    }

    method WriteOrBuffer(data: bytes, result: WriteResult)
      requires outputBuffer.Valid() && Possible(View(), result, |data|)
      modifies this, outputBuffer
      ensures outputBuffer.Valid() && View() == DoSend(old(View()), data, result)
    {
      if state == Disconnected {
        return;
      }
      var nwrote, faultError := WriteDirectly(|data|, result);
      var remaining := |data| - nwrote;
      kernel := kernel + data[..nwrote];
      sent := sent + [Message(data, faultError)];
      if !faultError && remaining > 0 {
        outputBuffer.Append(data[nwrote..]);
        if !writing {
          writing := true;
        }
      }
    }

    method ShutdownWriteUnlessWriting()
      requires outputBuffer.Valid()
      requires writing || state.Disconnected? || outputBuffer.Contents() == []
      modifies this`writeClosed
      ensures View() == DoShutdownInLoop(old(View()))
    {
      if !writing {
        writeClosed := true;
      }
    }

    method RunShutdownInLoop()
      requires Valid() && Enabled(View(), ShutdownInLoop)
      modifies this
      ensures Valid() && View() == Apply(old(View()), ShutdownInLoop)
    {
      StepKeepsInv(View(), ShutdownInLoop);
      ShutdownWriteUnlessWriting();
      shutdownQueued, shutdownRan := false, true;
    }

    method HandleWrite(result: WriteResult)
      requires Valid() && Enabled(View(), WriteEvent(result))
      modifies this, outputBuffer
      ensures Valid() && View() == Apply(old(View()), WriteEvent(result))
    {
      WriteEventKeepsInv(View(), result);
      if writing {
        if result.Wrote? && result.n > 0 {
          kernel := kernel + outputBuffer.Contents()[..result.n];
          outputBuffer.Retrieve(result.n);
          if outputBuffer.ReadableBytes() == 0 {
            writing := false;
            if state == Disconnecting {
              ShutdownWriteUnlessWriting();
            }
          }
        }
      }
    }

    method RequestShutdown()
      requires Valid()
      modifies this
      ensures Valid() && View() == Apply(old(View()), Shutdown)
    {
      if state == Connected {
        state := Disconnecting;
        shutdownQueued := true;
      }
    }

    method RequestForceClose()
      requires Valid()
      modifies this
      ensures Valid() && View() == Apply(old(View()), ForceClose)
    {
      if state == Connected || state == Disconnecting {
        state := Disconnecting;
      }
    }

    method HandleClose()
      requires Valid() && Enabled(View(), Close)
      modifies this
      ensures Valid() && View() == Apply(old(View()), Close)
    {
      state := Disconnected;
      reading, writing := false, false;
    }
  }
}
