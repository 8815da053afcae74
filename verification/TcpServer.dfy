/** muduo/net/TcpServer.cc with the parts of TcpConnection.cc, Channel.cc and EventLoop.cc that decide
    the life of a connection: an accept loop (loop 0), any number of I/O loops, each a thread that
    handles the channels poll returned and then runs its functors in order. */
module Server {
  import opened Bytes
  import Connections
  import Pollers

  type ConnState = Connections.ConnState

  type ConnId = nat
  type LoopId = nat

  const BASE: LoopId := 0

  /** What has happened to a connection. */
  datatype Event = Established | Closed | Erased | Destroyed

  const LIFE: seq<Event> := [Established, Closed, Erased, Destroyed]

  /** The poller every loop uses; an environment variable of the process decides. */
  datatype PollerKind = UsesEpoll | UsesPoll

  /** `reading` and `writing` are the parts of the channel's event mask and `wantsRead` is reading_; `registered`:
      the poller knows the channel; `listed`: the kernel has been given the descriptor to watch, possibly with an
      empty mask. */
  datatype Conn = Conn(
    loop: LoopId,
    state: ConnState,
    reading: bool,
    writing: bool,
    wantsRead: bool,
    registered: bool,
    listed: bool,
    history: seq<Event>)
  {
    predicate Interested() { reading || writing }
  }

  /** Channel::update with a new mask. A PollPoller hides a descriptor with an empty mask. An EPollPoller adds a
      descriptor that is new or was deleted, whatever its mask, and deletes one that is there when its mask is empty. */
  function WithInterest(kind: PollerKind, conn: Conn, reading: bool, writing: bool): Conn {
    var on := reading || writing;
    conn.(reading := reading, writing := writing, registered := true,
          listed := !conn.registered || (if kind.UsesEpoll? && !conn.listed then true else on))
  }

  datatype Functor =
    | ConnectEstablished(conn: ConnId)
    | RemoveConnectionInLoop(conn: ConnId)
    | ConnectDestroyed(conn: ConnId)
    | ForceCloseInLoop(conn: ConnId)

  /** The list that the poller of a loop has given to its kernel after some operations. */
  function KernelList(kind: PollerKind, ops: seq<Pollers.PollerOp>): map<nat, Pollers.Events> {
    if kind.UsesEpoll? then Pollers.EPollList(ops) else Pollers.PollList(ops)
  }

  /** `registered` and `listed` follow the pollers: if they say where descriptor fd stands after some operations,
      then WithInterest says where it stands after an update to the new mask. */
  lemma ListingFollowsPoller(kind: PollerKind, conn: Conn, reading: bool, writing: bool,
                             ops: seq<Pollers.PollerOp>, fd: nat, events: Pollers.Events)
    requires conn.registered == (fd in Pollers.Interest(ops)) && conn.listed == (fd in KernelList(kind, ops))
    requires (reading || writing) == (events != Pollers.NONE_EVENT)
    ensures var conn', ops' := WithInterest(kind, conn, reading, writing), ops + [Pollers.Update(fd, events)];
            conn'.registered == (fd in Pollers.Interest(ops')) && conn'.listed == (fd in KernelList(kind, ops'))
  {
    var ops' := ops + [Pollers.Update(fd, events)];
    assert ops'[..|ops|] == ops && ops'[..|ops| + 1] == ops';
    Pollers.PrefixStep(ops', |ops|);
    Pollers.EPollListIsRegistered(ops);
  }

  // ---- Channel::handleEventWithGuard ----

  datatype Revents = Revents(hup: bool, pollin: bool, pri: bool, rdhup: bool, err: bool, nval: bool, out: bool)

  datatype Callback = OnClose | OnError | OnRead | OnWrite

  function One(b: bool, c: Callback): seq<Callback> { if b then [c] else [] }

  /** The callbacks in the order the code calls them. */
  function Dispatch(r: Revents): seq<Callback> {
    One(r.hup && !r.pollin, OnClose) + One(r.err || r.nval, OnError)
    + One(r.pollin || r.pri || r.rdhup, OnRead) + One(r.out, OnWrite)
  }

  /** Not a hang-up without input together with urgent data or a half-close of the peer. */
  predicate Sane(r: Revents) {
    !(r.hup && !r.pollin && (r.pri || r.rdhup))
  }

  /** What the kernel reports of a descriptor with an empty mask: a hang-up and an error, always, and nothing else. */
  predicate OnlyHangUp(r: Revents) {
    !r.pollin && !r.pri && !r.rdhup && !r.nval && !r.out
  }

  /** The callbacks that may end in handleClose. */
  predicate MayClose(c: Callback) { c.OnClose? || c.OnRead? }

  predicate NoneCloses(cs: seq<Callback>) { forall i :: 0 <= i < |cs| ==> !MayClose(cs[i]) }

  /** At most one of the callbacks may close. */
  predicate ClosesOnce(cs: seq<Callback>) {
    forall i, j :: 0 <= i < j < |cs| && MayClose(cs[i]) ==> !MayClose(cs[j])
  }

  function Place(c: Callback): nat {
    match c
    case OnClose => 0
    case OnError => 1
    case OnRead => 2
    case OnWrite => 3
  }

  /** Which events call which callback. */
  lemma DispatchMeaning(r: Revents)
    ensures OnClose in Dispatch(r) <==> r.hup && !r.pollin
    ensures OnError in Dispatch(r) <==> r.err || r.nval
    ensures OnRead in Dispatch(r) <==> r.pollin || r.pri || r.rdhup
    ensures OnWrite in Dispatch(r) <==> r.out
  {
    var close, error := One(r.hup && !r.pollin, OnClose), One(r.err || r.nval, OnError);
    var read, write := One(r.pollin || r.pri || r.rdhup, OnRead), One(r.out, OnWrite);
    assert Dispatch(r) == close + error + read + write;
  }

  /** Each callback is called at most once, and in the order close, error, read, write. */
  lemma DispatchOrder(r: Revents)
    ensures forall i, j :: 0 <= i < j < |Dispatch(r)| ==> Place(Dispatch(r)[i]) < Place(Dispatch(r)[j])
  {
    var close, error := One(r.hup && !r.pollin, OnClose), One(r.err || r.nval, OnError);
    var read, write := One(r.pollin || r.pri || r.rdhup, OnRead), One(r.out, OnWrite);
    assert Dispatch(r) == close + error + read + write;
  }

  /** The dispatch order calls the close path at most once exactly for these event sets. */
  lemma DispatchClosesOnce(r: Revents)
    ensures ClosesOnce(Dispatch(r)) <==> Sane(r)
  {
    var cs := Dispatch(r);
    if !Sane(r) {
      assert cs[0] == OnClose;
      var k := if r.err || r.nval then 2 else 1;
      assert cs[k] == OnRead;
    }
  }

  // ---- The whole server ----

  /** A channel poll returned, with the callbacks still to be called. */
  datatype Todo = Todo(conn: ConnId, callbacks: seq<Callback>)

  /** `closing`: the thread is inside handleClose of that connection, in the user's connection callback. */
  datatype Loop = Loop(queue: seq<Functor>, todo: seq<Todo>, closing: Option<ConnId>)

  /** `connections` are the names in connections_. `failed` records that an assertion of the code did not hold. */
  datatype ServerState = ServerState(
    poller: PollerKind,
    conns: map<ConnId, Conn>,
    connections: set<ConnId>,
    nextConnId: nat,
    loops: map<LoopId, Loop>,
    failed: bool)

  datatype Ready = Ready(conn: ConnId, revents: Revents)

  datatype Op =
    | Accept(io: LoopId)                         // newConnection, for the next I/O loop
    | Poll(loop: LoopId, ready: seq<Ready>)
    | CallBack(loop: LoopId, readZero: bool)     // next callback; handleRead reads 0 bytes or not
    | FinishClose(loop: LoopId)                  // closeCallback_ at the end of handleClose
    | RunFunctor(loop: LoopId)
    | UserShutdown(conn: ConnId)                 // from any thread
    | UserForceClose(conn: ConnId)               // from any thread
    | StartRead(conn: ConnId)
    | StopRead(conn: ConnId)
    | SetWriting(conn: ConnId, on: bool)         // from sendInLoop and handleWrite

  predicate Live(c: Conn) { c.state.Connected? || c.state.Disconnecting? }

  predicate Idle(s: ServerState, l: LoopId) {
    l in s.loops && s.loops[l].closing.None?
  }

  predicate Enabled(s: ServerState, op: Op) {
    match op
    case Accept(io) => Idle(s, BASE) && io in s.loops
    case Poll(l, ready) =>
      && Idle(s, l) && s.loops[l].todo == []
      && (forall i :: 0 <= i < |ready| ==>
            && ready[i].conn in s.conns
            && s.conns[ready[i].conn].loop == l
            && s.conns[ready[i].conn].registered && s.conns[ready[i].conn].listed
            && (s.conns[ready[i].conn].Interested() || OnlyHangUp(ready[i].revents)))
      && (forall i, j :: 0 <= i < j < |ready| ==> ready[i].conn != ready[j].conn)
    case CallBack(l, _) => Idle(s, l) && s.loops[l].todo != []
    case FinishClose(l) => l in s.loops && s.loops[l].closing.Some?
    case RunFunctor(l) => Idle(s, l) && s.loops[l].todo == [] && s.loops[l].queue != []
    case UserShutdown(c) => c in s.conns
    case UserForceClose(c) => c in s.conns
    case StartRead(c) => c in s.conns && s.conns[c].registered && Live(s.conns[c])
    case StopRead(c) => c in s.conns && s.conns[c].registered
    case SetWriting(c, on) => c in s.conns && s.conns[c].registered && Live(s.conns[c]) && s.conns[c].writing != on
  }

  function Push(s: ServerState, l: LoopId, f: Functor): ServerState {
    if l !in s.loops then s
    else s.(loops := s.loops[l := s.loops[l].(queue := s.loops[l].queue + [f])])
  }

  function SetConn(s: ServerState, c: ConnId, conn: Conn): ServerState {
    s.(conns := s.conns[c := conn])
  }

  function Check(s: ServerState, ok: bool): ServerState {
    s.(failed := s.failed || !ok)
  }

  function DoEstablished(s: ServerState, c: ConnId): ServerState
    requires c in s.conns
  {
    var conn := s.conns[c];
    SetConn(Check(s, conn.state.Connecting? && !conn.registered), c,
            WithInterest(s.poller, conn, true, conn.writing)
            .(state := ConnState.Connected, history := conn.history + [Established]))
  }

  function DoRemoveInLoop(s: ServerState, c: ConnId): ServerState
    requires c in s.conns
  {
    var conn := s.conns[c];
    var s' := Check(s, c in s.connections).(connections := s.connections - {c});
    Push(SetConn(s', c, conn.(history := conn.history + [Erased])), conn.loop, ConnectDestroyed(c))
  }

  /** The assertions of Channel::remove and of the poller: no events, known, and hidden by a PollPoller. */
  predicate Removable(kind: PollerKind, conn: Conn) {
    !conn.Interested() && conn.registered && (kind.UsesPoll? ==> !conn.listed)
  }

  function DoDestroyed(s: ServerState, c: ConnId): ServerState
    requires c in s.conns
  {
    var conn := s.conns[c];
    var conn' := if conn.state.Connected?
                 then WithInterest(s.poller, conn, false, false).(state := ConnState.Disconnected) else conn;
    SetConn(Check(s, Removable(s.poller, conn') && conn'.state.Disconnected?), c,
            conn'.(registered := false, listed := false, history := conn.history + [Destroyed]))
  }

  /** handleClose up to the connection callback, on loop l. */
  function BeginClose(s: ServerState, l: LoopId, c: ConnId): ServerState
    requires c in s.conns && l in s.loops
  {
    var conn := s.conns[c];
    SetConn(Check(s, Live(conn)), c,
            WithInterest(s.poller, conn, false, false)
            .(state := ConnState.Disconnected, history := conn.history + [Closed]))
    .(loops := s.loops[l := s.loops[l].(closing := Some(c))])
  }

  /** closeCallback_: removeConnection, which runs in the accept loop, at once if this is it. */
  function DoFinishClose(s: ServerState, l: LoopId): ServerState
    requires l in s.loops && s.loops[l].closing.Some?
  {
    var c := s.loops[l].closing.value;
    var s' := s.(loops := s.loops[l := s.loops[l].(closing := None)]);
    if l == BASE && c in s.conns then DoRemoveInLoop(s', c) else Push(s', BASE, RemoveConnectionInLoop(c))
  }

  function DoFunctor(s: ServerState, l: LoopId, f: Functor): ServerState
    requires l in s.loops
  {
    if f.conn !in s.conns then Check(s, false)
    else
      match f
      case ConnectEstablished(c) => DoEstablished(s, c)
      case RemoveConnectionInLoop(c) => DoRemoveInLoop(s, c)
      case ConnectDestroyed(c) => DoDestroyed(s, c)
      case ForceCloseInLoop(c) => if Live(s.conns[c]) then BeginClose(s, l, c) else s
  }

  function PopFunctor(s: ServerState, l: LoopId): ServerState
    requires l in s.loops && s.loops[l].queue != []
  {
    s.(loops := s.loops[l := s.loops[l].(queue := s.loops[l].queue[1..])])
  }

  function PopCallback(todo: seq<Todo>): seq<Todo>
    requires todo != []
  {
    if |todo[0].callbacks| <= 1 then todo[1..] else [Todo(todo[0].conn, todo[0].callbacks[1..])] + todo[1..]
  }

  function DoCallBack(s: ServerState, l: LoopId, readZero: bool): ServerState
    requires l in s.loops && s.loops[l].todo != []
  {
    var head := s.loops[l].todo[0];
    var s' := s.(loops := s.loops[l := s.loops[l].(todo := PopCallback(s.loops[l].todo))]);
    if head.callbacks == [] || head.conn !in s.conns then s'
    else if head.callbacks[0].OnClose? || (head.callbacks[0].OnRead? && readZero) then BeginClose(s', l, head.conn)
    else s'
  }

  function NewConn(io: LoopId): Conn {
    Conn(io, ConnState.Connecting, false, false, true, false, false, [])
  }

  function DoAccept(s: ServerState, io: LoopId): ServerState {
    var c := s.nextConnId;
    var s' := s.(conns := s.conns[c := NewConn(io)],
                 connections := s.connections + {c},
                 nextConnId := c + 1);
    if io == BASE then DoEstablished(s', c) else Push(s', io, ConnectEstablished(c))
  }

  function DoForceClose(s: ServerState, c: ConnId): ServerState
    requires c in s.conns
  {
    Push(SetConn(s, c, s.conns[c].(state := ConnState.Disconnecting)), s.conns[c].loop, ForceCloseInLoop(c))
  }

  function StartReading(kind: PollerKind, conn: Conn): Conn {
    if conn.wantsRead && conn.reading then conn
    else WithInterest(kind, conn, true, conn.writing).(wantsRead := true)
  }

  function StopReading(kind: PollerKind, conn: Conn): Conn {
    if !conn.wantsRead && !conn.reading then conn
    else WithInterest(kind, conn, false, conn.writing).(wantsRead := false)
  }

  function Apply(s: ServerState, op: Op): ServerState
    requires Enabled(s, op)
  {
    match op
    case Accept(io) => DoAccept(s, io)
    case Poll(l, ready) =>
      s.(loops := s.loops[l := s.loops[l].(todo :=
           seq(|ready|, i requires 0 <= i < |ready| => Todo(ready[i].conn, Dispatch(ready[i].revents))))])
    case CallBack(l, readZero) => DoCallBack(s, l, readZero)
    case FinishClose(l) => DoFinishClose(s, l)
    case RunFunctor(l) => DoFunctor(PopFunctor(s, l), l, s.loops[l].queue[0])
    case UserShutdown(c) =>
      if s.conns[c].state.Connected? then SetConn(s, c, s.conns[c].(state := ConnState.Disconnecting)) else s
    case UserForceClose(c) => if Live(s.conns[c]) then DoForceClose(s, c) else s
    case StartRead(c) => SetConn(s, c, StartReading(s.poller, s.conns[c]))
    case StopRead(c) => SetConn(s, c, StopReading(s.poller, s.conns[c]))
    case SetWriting(c, on) => SetConn(s, c, WithInterest(s.poller, s.conns[c], s.conns[c].reading, on))
  }

  function InitialState(kind: PollerKind, loops: set<LoopId>): ServerState {
    ServerState(kind, map[], {}, 1, map l | l in loops :: Loop([], [], None), false)
  }

  predicate SaneOp(op: Op) {
    op.Poll? ==> forall i :: 0 <= i < |op.ready| ==> Sane(op.ready[i].revents)
  }

  ghost predicate CanRun(s: ServerState, ops: seq<Op>)
    decreases |ops|
  {
    ops == [] || (Enabled(s, ops[0]) && CanRun(Apply(s, ops[0]), ops[1..]))
  }

  ghost function Run(s: ServerState, ops: seq<Op>): ServerState
    requires CanRun(s, ops)
    decreases |ops|
  {
    if ops == [] then s else Run(Apply(s, ops[0]), ops[1..])
  }

  // ---- The invariant ----

  function Count(q: seq<Functor>, f: Functor): nat {
    if q == [] then 0 else (if q[0] == f then 1 else 0) + Count(q[1..], f)
  }

  lemma {:induction false} CountSnoc(q: seq<Functor>, g: Functor, f: Functor)
    ensures Count(q + [g], f) == Count(q, f) + (if g == f then 1 else 0)
  {
    if q == [] {
      assert q + [g] == [g];
    } else {
      assert (q + [g])[1..] == q[1..] + [g];
      CountSnoc(q[1..], g, f);
    }
  }

  function Queued(s: ServerState, l: LoopId, f: Functor): nat {
    if l in s.loops then Count(s.loops[l].queue, f) else 0
  }

  predicate ClosingOn(s: ServerState, l: LoopId, c: ConnId) {
    l in s.loops && s.loops[l].closing == Some(c)
  }

  /** How far a connection has come says everything about it. */
  ghost predicate ConnOk(s: ServerState, c: ConnId) {
    c in s.conns ==>
      var conn := s.conns[c];
      var k := |conn.history|;
      && c < s.nextConnId && conn.loop in s.loops
      && conn.history <= LIFE
      && (k == 0 ==> conn.state.Connecting?)
      && (k == 1 ==> Live(conn))
      && (k >= 2 ==> conn.state.Disconnected?)
      && (k != 1 ==> !conn.Interested())
      && (conn.registered <==> 1 <= k <= 3)
      && (c in s.connections <==> k <= 2)
      && ListingOk(s.poller, conn)
  }

  /** While a connection lives, the kernel watches it exactly when its mask is not empty. With a PollPoller that
      stays so; an EPollPoller may list a closed one, and then a further stopRead changes nothing. */
  ghost predicate ListingOk(kind: PollerKind, conn: Conn) {
    var k := |conn.history|;
    && (k == 0 ==> conn.wantsRead)
    && (k == 0 || k >= 4 ==> !conn.listed)
    && (k == 1 ==> conn.listed == conn.Interested() && conn.wantsRead == conn.reading)
    && (kind.UsesPoll? ==> conn.listed == conn.Interested())
    && (k >= 2 && conn.listed ==> !conn.wantsRead)
  }

  /** The functor that will take the connection to its next event is queued exactly once, on its loop. */
  ghost predicate QueueOk(s: ServerState, c: ConnId, l: LoopId) {
    var k := if c in s.conns then |s.conns[c].history| else 9;
    var home := if c in s.conns then s.conns[c].loop else BASE;
    && Queued(s, l, ConnectEstablished(c)) == (if k == 0 && l == home then 1 else 0)
    && Queued(s, l, RemoveConnectionInLoop(c)) == (if k == 2 && !ClosingOn(s, home, c) && l == BASE then 1 else 0)
    && Queued(s, l, ConnectDestroyed(c)) == (if k == 3 && l == home then 1 else 0)
    && (c !in s.conns || l != home ==> Queued(s, l, ForceCloseInLoop(c)) == 0)
    && (ClosingOn(s, l, c) ==> k == 2 && l == home)
  }

  ghost predicate TodoOk(s: ServerState, l: LoopId, i: int) {
    l in s.loops && 0 <= i < |s.loops[l].todo| ==>
      var t := s.loops[l].todo[i];
      && t.conn in s.conns && s.conns[t.conn].loop == l
      && 1 <= |s.conns[t.conn].history| <= 3
      && ClosesOnce(t.callbacks)
      && (|s.conns[t.conn].history| == 1 || NoneCloses(t.callbacks))
  }

  ghost predicate TodoDistinct(s: ServerState, l: LoopId) {
    l in s.loops ==>
      forall i, j :: 0 <= i < j < |s.loops[l].todo| ==> s.loops[l].todo[i].conn != s.loops[l].todo[j].conn
  }

  ghost predicate TodosOk(s: ServerState) {
    (forall l, i :: TodoOk(s, l, i)) && (forall l :: TodoDistinct(s, l))
  }

  ghost predicate Inv(s: ServerState) {
    && !s.failed && BASE in s.loops
    && (forall c :: ConnOk(s, c))
    && (forall c, l :: QueueOk(s, c, l))
    && TodosOk(s)
  }

  // ---- Frames ----

  /** Only connection c0 changes, and no loop comes or goes. */
  ghost predicate OnlyConn(s: ServerState, s': ServerState, c0: ConnId) {
    && s'.poller == s.poller && s'.loops.Keys == s.loops.Keys && s'.nextConnId >= s.nextConnId
    && (forall c :: c != c0 ==> SameConn(s, s', c))
  }

  ghost predicate SameConn(s: ServerState, s': ServerState, c: ConnId) {
    && (c in s.conns <==> c in s'.conns) && (c in s.conns ==> s'.conns[c] == s.conns[c])
    && (c in s.connections <==> c in s'.connections)
  }

  lemma ConnFrame(s: ServerState, s': ServerState, c0: ConnId)
    requires (forall c :: ConnOk(s, c)) && OnlyConn(s, s', c0) && ConnOk(s', c0)
    ensures forall c :: ConnOk(s', c)
  {
    forall c ensures ConnOk(s', c) {
      assert ConnOk(s, c);
      assert c != c0 ==> SameConn(s, s', c);
    }
  }

  ghost predicate SameTodo(s: ServerState, s': ServerState, l: LoopId) {
    (l in s'.loops <==> l in s.loops) && (l in s.loops ==> s'.loops[l].todo == s.loops[l].todo)
  }

  /** The callbacks still to be called stay right when no loop's list changes and no connection leaves the stage
      in which it may have some. */
  lemma TodoFrame(s: ServerState, s': ServerState, c0: ConnId)
    requires TodosOk(s) && OnlyConn(s, s', c0) && (forall l :: SameTodo(s, s', l))
    requires c0 in s.conns && |s.conns[c0].history| >= 1 ==>
               && c0 in s'.conns && s'.conns[c0].loop == s.conns[c0].loop
               && 1 <= |s'.conns[c0].history| <= 3
               && (|s.conns[c0].history| == 1 ==> |s'.conns[c0].history| == 1)
    ensures TodosOk(s')
  {
    forall l, i ensures TodoOk(s', l, i) {
      assert TodoOk(s, l, i) && SameTodo(s, s', l);
      if l in s.loops && 0 <= i < |s.loops[l].todo| {
        assert s.loops[l].todo[i].conn != c0 ==> SameConn(s, s', s.loops[l].todo[i].conn);
      }
    }
    forall l ensures TodoDistinct(s', l) {
      assert TodoDistinct(s, l) && SameTodo(s, s', l);
    }
  }

  // ---- Every step keeps the invariant ----

  lemma PushCounts(s: ServerState, l: LoopId, f: Functor, m: LoopId, g: Functor)
    ensures Queued(Push(s, l, f), m, g) == Queued(s, m, g) + (if l in s.loops && m == l && g == f then 1 else 0)
  {
    if l in s.loops && m == l { CountSnoc(s.loops[l].queue, f, g); }
  }

  lemma PopCounts(s: ServerState, l: LoopId, m: LoopId, g: Functor)
    requires l in s.loops && s.loops[l].queue != []
    ensures Queued(s, m, g) == Queued(PopFunctor(s, l), m, g) + (if m == l && g == s.loops[l].queue[0] then 1 else 0)
  {
  }

  /** How many more of functor g there are on a loop when f is one of them, or not. */
  function Bit(b: bool): nat { if b then 1 else 0 }

  /** All functors of connection c queued on loop m, before and after f is queued on loop l. */
  lemma CountsAfterPush(s: ServerState, l: LoopId, f: Functor, c: ConnId, m: LoopId)
    requires l in s.loops
    ensures var s' := Push(s, l, f);
            var e, r, d, k := ConnectEstablished(c), RemoveConnectionInLoop(c), ConnectDestroyed(c), ForceCloseInLoop(c);
            && Queued(s', m, e) == Queued(s, m, e) + Bit(m == l && f == e)
            && Queued(s', m, r) == Queued(s, m, r) + Bit(m == l && f == r)
            && Queued(s', m, d) == Queued(s, m, d) + Bit(m == l && f == d)
            && Queued(s', m, k) == Queued(s, m, k) + Bit(m == l && f == k)
  {
    PushCounts(s, l, f, m, ConnectEstablished(c));
    PushCounts(s, l, f, m, RemoveConnectionInLoop(c));
    PushCounts(s, l, f, m, ConnectDestroyed(c));
    PushCounts(s, l, f, m, ForceCloseInLoop(c));
  }

  /** The same, when the first functor of loop l is taken off. */
  lemma CountsAfterPop(s: ServerState, l: LoopId, c: ConnId, m: LoopId)
    requires l in s.loops && s.loops[l].queue != []
    ensures var s', f := PopFunctor(s, l), s.loops[l].queue[0];
            var e, r, d, k := ConnectEstablished(c), RemoveConnectionInLoop(c), ConnectDestroyed(c), ForceCloseInLoop(c);
            && Queued(s, m, e) == Queued(s', m, e) + Bit(m == l && f == e)
            && Queued(s, m, r) == Queued(s', m, r) + Bit(m == l && f == r)
            && Queued(s, m, d) == Queued(s', m, d) + Bit(m == l && f == d)
            && Queued(s, m, k) == Queued(s', m, k) + Bit(m == l && f == k)
  {
    PopCounts(s, l, m, ConnectEstablished(c));
    PopCounts(s, l, m, RemoveConnectionInLoop(c));
    PopCounts(s, l, m, ConnectDestroyed(c));
    PopCounts(s, l, m, ForceCloseInLoop(c));
  }

  /** The functor at the head of a queue names a connection, and the stage that awaits it. */
  lemma HeadFunctor(s: ServerState, l: LoopId)
    requires Inv(s) && l in s.loops && s.loops[l].queue != []
    ensures
      var f := s.loops[l].queue[0];
      && f.conn in s.conns
      && (f.ConnectEstablished? ==> |s.conns[f.conn].history| == 0 && s.conns[f.conn].loop == l)
      && (f.RemoveConnectionInLoop? ==>
            |s.conns[f.conn].history| == 2 && l == BASE && !ClosingOn(s, s.conns[f.conn].loop, f.conn))
      && (f.ConnectDestroyed? ==> |s.conns[f.conn].history| == 3 && s.conns[f.conn].loop == l)
      && (f.ForceCloseInLoop? ==> s.conns[f.conn].loop == l)
  {
    var f := s.loops[l].queue[0];
    assert QueueOk(s, f.conn, l);
    assert Queued(s, l, f) >= 1;
  }

  lemma EstablishedKeepsInv(s: ServerState, l: LoopId)
    requires Inv(s) && Enabled(s, RunFunctor(l)) && s.loops[l].queue[0].ConnectEstablished?
    ensures Inv(Apply(s, RunFunctor(l)))
  {
    HeadFunctor(s, l);
    var s', c0 := Apply(s, RunFunctor(l)), s.loops[l].queue[0].conn;
    assert ConnOk(s, c0);
    ConnFrame(s, s', c0);
    forall c, m ensures QueueOk(s', c, m) { assert QueueOk(s, c, m); CountsAfterPop(s, l, c, m); }
    TodoFrame(s, s', c0);
  }

  lemma DestroyedKeepsInv(s: ServerState, l: LoopId)
    requires Inv(s) && Enabled(s, RunFunctor(l)) && s.loops[l].queue[0].ConnectDestroyed?
    ensures Inv(Apply(s, RunFunctor(l)))
  {
    HeadFunctor(s, l);
    var s', c0 := Apply(s, RunFunctor(l)), s.loops[l].queue[0].conn;
    assert ConnOk(s, c0);
    ConnFrame(s, s', c0);
    forall c, m ensures QueueOk(s', c, m) { assert QueueOk(s, c, m); CountsAfterPop(s, l, c, m); }
    forall m, i ensures TodoOk(s', m, i) { assert TodoOk(s, m, i); }
    forall m ensures TodoDistinct(s', m) { assert TodoDistinct(s, m); }
  }

  /** Taking a queued force-close off its queue disturbs nothing. */
  lemma PopForceCloseKeepsInv(s: ServerState, l: LoopId)
    requires Inv(s) && l in s.loops && s.loops[l].queue != [] && s.loops[l].queue[0].ForceCloseInLoop?
    ensures Inv(PopFunctor(s, l))
  {
    HeadFunctor(s, l);
    var s', c0 := PopFunctor(s, l), s.loops[l].queue[0].conn;
    assert ConnOk(s, c0);
    ConnFrame(s, s', c0);
    forall c, m ensures QueueOk(s', c, m) { assert QueueOk(s, c, m); CountsAfterPop(s, l, c, m); }
    TodoFrame(s, s', s.nextConnId) by { assert ConnOk(s, s.nextConnId); }
  }

  /** handleClose, up to the user's callback, for a live connection of loop l whose remaining callbacks do not close. */
  lemma BeginCloseKeepsInv(s: ServerState, l: LoopId, c0: ConnId)
    requires Inv(s) && Idle(s, l) && c0 in s.conns && s.conns[c0].loop == l && Live(s.conns[c0])
    requires forall i :: 0 <= i < |s.loops[l].todo| && s.loops[l].todo[i].conn == c0 ==>
                           NoneCloses(s.loops[l].todo[i].callbacks)
    ensures Inv(BeginClose(s, l, c0))
  {
    var s' := BeginClose(s, l, c0);
    assert ConnOk(s, c0);
    ConnFrame(s, s', c0);
    forall c, m ensures QueueOk(s', c, m) { assert QueueOk(s, c, m); assert QueueOk(s, c0, m); }
    forall m, i ensures TodoOk(s', m, i) { assert TodoOk(s, m, i); }
    forall m ensures TodoDistinct(s', m) { assert TodoDistinct(s, m); }
  }

  lemma ForceCloseKeepsInv(s: ServerState, l: LoopId)
    requires Inv(s) && Enabled(s, RunFunctor(l)) && s.loops[l].queue[0].ForceCloseInLoop?
    ensures Inv(Apply(s, RunFunctor(l)))
  {
    HeadFunctor(s, l);
    PopForceCloseKeepsInv(s, l);
    var popped, c := PopFunctor(s, l), s.loops[l].queue[0].conn;
    if Live(s.conns[c]) { BeginCloseKeepsInv(popped, l, c); }
  }

  /** Closed connection c0 has nothing queued and is in nobody's hands: the step that removes it is under way. */
  ghost predicate Removing(s: ServerState, c0: ConnId, m: LoopId) {
    && Queued(s, m, ConnectEstablished(c0)) == 0
    && Queued(s, m, RemoveConnectionInLoop(c0)) == 0
    && Queued(s, m, ConnectDestroyed(c0)) == 0
    && (c0 !in s.conns || m != s.conns[c0].loop ==> Queued(s, m, ForceCloseInLoop(c0)) == 0)
    && !ClosingOn(s, m, c0)
  }

  /** The invariant while c0 is being removed. */
  ghost predicate InvButRemoving(s: ServerState, c0: ConnId) {
    && !s.failed && BASE in s.loops
    && c0 in s.conns && |s.conns[c0].history| == 2
    && (forall c :: ConnOk(s, c))
    && (forall c, m :: c != c0 ==> QueueOk(s, c, m))
    && (forall m :: Removing(s, c0, m))
    && TodosOk(s)
  }

  lemma PushDestroyQueue(s: ServerState, c0: ConnId, c: ConnId, m: LoopId)
    requires c0 in s.conns && s.conns[c0].loop in s.loops && |s.conns[c0].history| == 2
    requires c != c0 ==> QueueOk(s, c, m)
    requires Removing(s, c0, m)
    ensures QueueOk(DoRemoveInLoop(s, c0), c, m)
  {
    var s', home, f := DoRemoveInLoop(s, c0), s.conns[c0].loop, ConnectDestroyed(c0);
    CountsAfterPush(s, home, f, c, m);
    assert s'.loops == Push(s, home, f).loops;
  }

  lemma RemoveInLoopKeepsInv(s: ServerState, c0: ConnId)
    requires InvButRemoving(s, c0)
    ensures Inv(DoRemoveInLoop(s, c0))
  {
    var s' := DoRemoveInLoop(s, c0);
    assert ConnOk(s, c0);
    ConnFrame(s, s', c0);
    forall c, m ensures QueueOk(s', c, m) {
      assert c != c0 ==> QueueOk(s, c, m);
      assert Removing(s, c0, m);
      PushDestroyQueue(s, c0, c, m);
    }
    TodoFrame(s, s', c0);
  }

  lemma PushRemoveKeepsInv(s: ServerState, c0: ConnId)
    requires InvButRemoving(s, c0)
    ensures Inv(Push(s, BASE, RemoveConnectionInLoop(c0)))
  {
    var f := RemoveConnectionInLoop(c0);
    var s' := Push(s, BASE, f);
    assert ConnOk(s, c0);
    ConnFrame(s, s', c0);
    forall c, m ensures QueueOk(s', c, m) {
      assert c != c0 ==> QueueOk(s, c, m);
      assert Removing(s, c0, m);
      assert Removing(s, c0, s.conns[c0].loop);
      CountsAfterPush(s, BASE, f, c, m);
    }
    TodoFrame(s, s', c0);
  }

  lemma RemoveKeepsInv(s: ServerState, l: LoopId)
    requires Inv(s) && Enabled(s, RunFunctor(l)) && s.loops[l].queue[0].RemoveConnectionInLoop?
    ensures Inv(Apply(s, RunFunctor(l)))
  {
    HeadFunctor(s, l);
    var popped, c0 := PopFunctor(s, l), s.loops[l].queue[0].conn;
    assert ConnOk(s, c0);
    ConnFrame(s, popped, c0);
    forall c, m ensures c != c0 ==> QueueOk(popped, c, m) { assert QueueOk(s, c, m); CountsAfterPop(s, l, c, m); }
    forall m ensures Removing(popped, c0, m) { assert QueueOk(s, c0, m); CountsAfterPop(s, l, c0, m); }
    TodoFrame(s, popped, c0);
    RemoveInLoopKeepsInv(popped, c0);
  }

  lemma LeaveClose(s: ServerState, l: LoopId, c0: ConnId, left: ServerState)
    requires Inv(s) && ClosingOn(s, l, c0)
    requires left == s.(loops := s.loops[l := s.loops[l].(closing := None)])
    ensures InvButRemoving(left, c0)
  {
    assert QueueOk(s, c0, l);
    assert ConnOk(s, c0);
    ConnFrame(s, left, c0);
    forall c, m ensures c != c0 ==> QueueOk(left, c, m) { assert QueueOk(s, c, m); }
    forall m ensures Removing(left, c0, m) { assert QueueOk(s, c0, m); }
    TodoFrame(s, left, c0);
  }

  lemma FinishCloseKeepsInv(s: ServerState, l: LoopId)
    requires Inv(s) && Enabled(s, FinishClose(l))
    ensures Inv(Apply(s, FinishClose(l)))
  {
    var c0 := s.loops[l].closing.value;
    var left := s.(loops := s.loops[l := s.loops[l].(closing := None)]);
    LeaveClose(s, l, c0, left);
    if l == BASE {
      RemoveInLoopKeepsInv(left, c0);
    } else {
      PushRemoveKeepsInv(left, c0);
    }
  }

  lemma AcceptQueue(s: ServerState, io: LoopId, c: ConnId, m: LoopId)
    requires QueueOk(s, c, m) && io in s.loops && s.nextConnId !in s.conns
    ensures QueueOk(DoAccept(s, io), c, m)
  {
    var s', f := DoAccept(s, io), ConnectEstablished(s.nextConnId);
    if io == BASE {
      assert s'.loops == s.loops;
    } else {
      CountsAfterPush(s, io, f, c, m);
      assert s'.loops == Push(s, io, f).loops;
    }
  }

  lemma AcceptKeepsInv(s: ServerState, io: LoopId)
    requires Inv(s) && Enabled(s, Accept(io))
    ensures Inv(Apply(s, Accept(io)))
  {
    var s', c0 := Apply(s, Accept(io)), s.nextConnId;
    assert ConnOk(s, c0);
    ConnFrame(s, s', c0);
    forall c, m ensures QueueOk(s', c, m) { assert QueueOk(s, c, m); AcceptQueue(s, io, c, m); }
    TodoFrame(s, s', c0);
  }

  /** Events after which at most one callback closes a connection of this kind. */
  ghost predicate CalmReport(s: ServerState, r: Ready) {
    && Sane(r.revents)
    && (r.conn in s.conns && !s.conns[r.conn].Interested() ==> !r.revents.hup)
  }

  /** No poll reports a hang-up of a descriptor with an empty mask. */
  ghost predicate Calm(s: ServerState, op: Op) {
    op.Poll? ==> forall i :: 0 <= i < |op.ready| ==> CalmReport(s, op.ready[i])
  }

  lemma PollKeepsInv(s: ServerState, l: LoopId, ready: seq<Ready>)
    requires Inv(s) && Enabled(s, Poll(l, ready)) && Calm(s, Poll(l, ready))
    ensures Inv(Apply(s, Poll(l, ready)))
  {
    var s' := Apply(s, Poll(l, ready));
    forall c ensures ConnOk(s', c) { assert ConnOk(s, c); }
    forall c, m ensures QueueOk(s', c, m) { assert QueueOk(s, c, m); }
    forall m, i ensures TodoOk(s', m, i) {
      assert TodoOk(s, m, i);
      if m == l && 0 <= i < |ready| {
        assert CalmReport(s, ready[i]);
        DispatchClosesOnce(ready[i].revents);
        assert ConnOk(s, ready[i].conn);
      }
    }
    forall m ensures TodoDistinct(s', m) { assert TodoDistinct(s, m); }
  }

  lemma PopCallbackKeepsInv(s: ServerState, l: LoopId)
    requires Inv(s) && l in s.loops && s.loops[l].todo != []
    ensures Inv(s.(loops := s.loops[l := s.loops[l].(todo := PopCallback(s.loops[l].todo))]))
  {
    var s' := s.(loops := s.loops[l := s.loops[l].(todo := PopCallback(s.loops[l].todo))]);
    forall c ensures ConnOk(s', c) { assert ConnOk(s, c); }
    forall c, m ensures QueueOk(s', c, m) { assert QueueOk(s, c, m); }
    forall m, i ensures TodoOk(s', m, i) { assert TodoOk(s, m, i) && TodoOk(s, m, i + 1); }
    forall m ensures TodoDistinct(s', m) { assert TodoDistinct(s, m); }
  }

  lemma CallBackKeepsInv(s: ServerState, l: LoopId, readZero: bool)
    requires Inv(s) && Enabled(s, CallBack(l, readZero))
    ensures Inv(Apply(s, CallBack(l, readZero)))
  {
    var head := s.loops[l].todo[0];
    var rest := s.(loops := s.loops[l := s.loops[l].(todo := PopCallback(s.loops[l].todo))]);
    PopCallbackKeepsInv(s, l);
    assert TodoOk(s, l, 0) && TodoDistinct(s, l);
    if head.callbacks != [] && MayClose(head.callbacks[0]) {
      assert ConnOk(s, head.conn);
      BeginCloseKeepsInv(rest, l, head.conn);
    }
  }

  /** Changing one connection within its stage. */
  lemma SetConnKeepsInv(s: ServerState, c0: ConnId, conn: Conn)
    requires Inv(s) && c0 in s.conns
    requires conn.loop == s.conns[c0].loop && conn.history == s.conns[c0].history
    requires ConnOk(SetConn(s, c0, conn), c0)
    ensures Inv(SetConn(s, c0, conn))
  {
    var s' := SetConn(s, c0, conn);
    assert ConnOk(s, c0);
    ConnFrame(s, s', c0);
    forall c, m ensures QueueOk(s', c, m) { assert QueueOk(s, c, m); }
    if |conn.history| <= 3 {
      TodoFrame(s, s', c0);
    } else {
      forall m, i ensures TodoOk(s', m, i) { assert TodoOk(s, m, i); }
      forall m ensures TodoDistinct(s', m) { assert TodoDistinct(s, m); }
    }
  }

  lemma PushForceCloseKeepsInv(s: ServerState, c0: ConnId)
    requires Inv(s) && c0 in s.conns && Live(s.conns[c0])
    ensures Inv(Push(s, s.conns[c0].loop, ForceCloseInLoop(c0)))
  {
    var home, f := s.conns[c0].loop, ForceCloseInLoop(c0);
    var s' := Push(s, home, f);
    assert ConnOk(s, c0);
    ConnFrame(s, s', c0);
    forall c, m ensures QueueOk(s', c, m) { assert QueueOk(s, c, m); CountsAfterPush(s, home, f, c, m); }
    TodoFrame(s, s', c0);
  }

  lemma UserKeepsInv(s: ServerState, op: Op)
    requires Inv(s) && Enabled(s, op)
    requires op.UserShutdown? || op.UserForceClose? || op.StartRead? || op.StopRead? || op.SetWriting?
    ensures Inv(Apply(s, op))
  {
    var c := op.conn;
    var conn := s.conns[c];
    assert ConnOk(s, c);
    match op
    case UserShutdown(_) =>
      if conn.state.Connected? { SetConnKeepsInv(s, c, conn.(state := ConnState.Disconnecting)); }
    case UserForceClose(_) =>
      if Live(conn) {
        SetConnKeepsInv(s, c, conn.(state := ConnState.Disconnecting));
        PushForceCloseKeepsInv(SetConn(s, c, conn.(state := ConnState.Disconnecting)), c);
      }
    case StartRead(_) => SetConnKeepsInv(s, c, StartReading(s.poller, conn));
    case StopRead(_) => SetConnKeepsInv(s, c, StopReading(s.poller, conn));
    case SetWriting(_, on) => SetConnKeepsInv(s, c, WithInterest(s.poller, conn, conn.reading, on));
  }

  lemma StepKeepsInv(s: ServerState, op: Op)
    requires Inv(s) && Enabled(s, op) && Calm(s, op)
    ensures Inv(Apply(s, op))
  {
    match op
    case Accept(io) => AcceptKeepsInv(s, io);
    case Poll(l, ready) => PollKeepsInv(s, l, ready);
    case CallBack(l, readZero) => CallBackKeepsInv(s, l, readZero);
    case FinishClose(l) => FinishCloseKeepsInv(s, l);
    case RunFunctor(l) =>
      match s.loops[l].queue[0] {
        case ConnectEstablished(_) => EstablishedKeepsInv(s, l);
        case RemoveConnectionInLoop(_) => RemoveKeepsInv(s, l);
        case ConnectDestroyed(_) => DestroyedKeepsInv(s, l);
        case ForceCloseInLoop(_) => ForceCloseKeepsInv(s, l);
      }
    case _ => UserKeepsInv(s, op);
  }

  ghost predicate CalmRun(s: ServerState, ops: seq<Op>)
    requires CanRun(s, ops)
    decreases |ops|
  {
    ops == [] || (Calm(s, ops[0]) && CalmRun(Apply(s, ops[0]), ops[1..]))
  }

  lemma {:induction false} RunKeepsInv(s: ServerState, ops: seq<Op>)
    requires Inv(s) && CanRun(s, ops) && CalmRun(s, ops)
    ensures Inv(Run(s, ops))
    decreases |ops|
  {
    if ops != [] {
      StepKeepsInv(s, ops[0]);
      RunKeepsInv(Apply(s, ops[0]), ops[1..]);
    }
  }

  lemma InitialInv(kind: PollerKind, loops: set<LoopId>)
    requires BASE in loops
    ensures Inv(InitialState(kind, loops))
  {
    var s := InitialState(kind, loops);
    forall c ensures ConnOk(s, c) {}
    forall c, l ensures QueueOk(s, c, l) {}
    forall l, i ensures TodoOk(s, l, i) {}
    forall l ensures TodoDistinct(s, l) {}
  }

  // ---- Closed connections the kernel still watches ----

  ghost predicate AllSane(ops: seq<Op>) {
    forall i :: 0 <= i < |ops| ==> SaneOp(ops[i])
  }

  /** The connection on which a step calls handleClose, or forceCloseInLoop. */
  function Closes(s: ServerState, op: Op): Option<ConnId>
    requires Enabled(s, op)
  {
    match op
    case CallBack(l, readZero) =>
      var head := s.loops[l].todo[0];
      if head.callbacks != [] && (head.callbacks[0].OnClose? || (head.callbacks[0].OnRead? && readZero)) then Some(head.conn)
      else None
    case RunFunctor(l) => if s.loops[l].queue[0].ForceCloseInLoop? then Some(s.loops[l].queue[0].conn) else None
    case _ => None
  }

  /** A step that does not close a connection whose mask is empty, and does not stop the reading of a closed
      connection on which it was not stopped before. */
  predicate Careful(s: ServerState, op: Op)
    requires Enabled(s, op)
  {
    var c := Closes(s, op);
    && (c.Some? && c.value in s.conns && Live(s.conns[c.value]) ==> s.conns[c.value].Interested())
    && (op.StopRead? && !Live(s.conns[op.conn]) ==> !s.conns[op.conn].wantsRead)
  }

  ghost predicate CarefulRun(s: ServerState, ops: seq<Op>)
    requires CanRun(s, ops)
    decreases |ops|
  {
    ops == [] || (Careful(s, ops[0]) && CarefulRun(Apply(s, ops[0]), ops[1..]))
  }

  /** A connection that has been closed but not destroyed, and is still on the kernel's list. */
  ghost predicate Exposed(s: ServerState, c: ConnId) {
    c in s.conns && |s.conns[c].history| >= 2 && s.conns[c].listed
  }

  ghost predicate Hidden(s: ServerState) {
    forall c :: !Exposed(s, c)
  }

  lemma HiddenIsCalm(s: ServerState, op: Op)
    requires Inv(s) && Hidden(s) && Enabled(s, op) && SaneOp(op)
    ensures Calm(s, op)
  {
    if op.Poll? {
      forall i | 0 <= i < |op.ready| ensures CalmReport(s, op.ready[i]) {
        assert ConnOk(s, op.ready[i].conn) && !Exposed(s, op.ready[i].conn);
      }
    }
  }

  lemma PollHides(s: ServerState)
    requires Inv(s) && s.poller.UsesPoll?
    ensures Hidden(s)
  {
    forall c ensures !Exposed(s, c) { assert ConnOk(s, c); }
  }

  /** handleClose of a live connection leaves it on the kernel's list exactly when its mask was empty already. */
  lemma CloseExposesIff(s: ServerState, l: LoopId, c0: ConnId)
    requires l in s.loops && Hidden(s) && s.poller.UsesEpoll?
    requires c0 in s.conns && Live(s.conns[c0]) && ConnOk(s, c0)
    ensures Hidden(BeginClose(s, l, c0)) <==> s.conns[c0].Interested()
  {
    var s' := BeginClose(s, l, c0);
    if s.conns[c0].Interested() {
      forall c ensures !Exposed(s', c) { assert !Exposed(s, c); }
    } else {
      assert Exposed(s', c0);
    }
  }

  lemma OthersStayHidden(s: ServerState, s': ServerState, c0: ConnId)
    requires Hidden(s) && OnlyConn(s, s', c0) && !Exposed(s', c0)
    ensures Hidden(s')
  {
    forall c ensures !Exposed(s', c) { assert !Exposed(s, c); assert c != c0 ==> SameConn(s, s', c); }
  }

  lemma UserHiddenIff(s: ServerState, op: Op)
    requires Inv(s) && Hidden(s) && Enabled(s, op) && s.poller.UsesEpoll?
    requires op.UserShutdown? || op.UserForceClose? || op.StartRead? || op.StopRead? || op.SetWriting?
    ensures Hidden(Apply(s, op)) <==> Careful(s, op)
  {
    var s' := Apply(s, op);
    assert ConnOk(s, op.conn) && !Exposed(s, op.conn);
    if op.StopRead? && !Live(s.conns[op.conn]) && s.conns[op.conn].wantsRead {
      assert Exposed(s', op.conn);
    } else {
      OthersStayHidden(s, s', op.conn);
    }
  }

  lemma FunctorHiddenIff(s: ServerState, l: LoopId)
    requires Inv(s) && Hidden(s) && Enabled(s, RunFunctor(l)) && s.poller.UsesEpoll?
    ensures Hidden(Apply(s, RunFunctor(l))) <==> Careful(s, RunFunctor(l))
  {
    HeadFunctor(s, l);
    var s', f := Apply(s, RunFunctor(l)), s.loops[l].queue[0];
    assert ConnOk(s, f.conn) && !Exposed(s, f.conn);
    if f.ForceCloseInLoop? && Live(s.conns[f.conn]) {
      var popped := PopFunctor(s, l);
      OthersStayHidden(s, popped, f.conn);
      CloseExposesIff(popped, l, f.conn) by { assert ConnOk(popped, f.conn); }
    } else {
      OthersStayHidden(s, s', f.conn);
    }
  }

  lemma CallBackHiddenIff(s: ServerState, l: LoopId, readZero: bool)
    requires Inv(s) && Hidden(s) && Enabled(s, CallBack(l, readZero)) && s.poller.UsesEpoll?
    ensures Hidden(Apply(s, CallBack(l, readZero))) <==> Careful(s, CallBack(l, readZero))
  {
    var c := s.loops[l].todo[0].conn;
    var rest := s.(loops := s.loops[l := s.loops[l].(todo := PopCallback(s.loops[l].todo))]);
    assert TodoOk(s, l, 0) && ConnOk(s, c) && !Exposed(s, c);
    OthersStayHidden(s, rest, c);
    if Closes(s, CallBack(l, readZero)).Some? {
      CloseExposesIff(rest, l, c) by { assert ConnOk(rest, c); }
    }
  }

  /** With an EPollPoller, exactly the careful steps keep every closed connection off the kernel's list. */
  lemma HiddenIffCareful(s: ServerState, op: Op)
    requires Inv(s) && Hidden(s) && Enabled(s, op) && s.poller.UsesEpoll?
    ensures Hidden(Apply(s, op)) <==> Careful(s, op)
  {
    match op
    case Accept(io) => OthersStayHidden(s, Apply(s, op), s.nextConnId);
    case Poll(_, _) => forall c ensures !Exposed(Apply(s, op), c) { assert !Exposed(s, c); }
    case CallBack(l, readZero) => CallBackHiddenIff(s, l, readZero);
    case FinishClose(l) =>
      var c := s.loops[l].closing.value;
      assert QueueOk(s, c, l) && ConnOk(s, c) && !Exposed(s, c);
      OthersStayHidden(s, Apply(s, op), c);
    case RunFunctor(l) => FunctorHiddenIff(s, l);
    case _ => UserHiddenIff(s, op);
  }

  lemma StepKeepsPoller(s: ServerState, op: Op)
    requires Enabled(s, op)
    ensures Apply(s, op).poller == s.poller && Apply(s, op).loops.Keys == s.loops.Keys
  {
    match op
    case CallBack(l, readZero) => CallBackKeepsPoller(s, l, readZero);
    case RunFunctor(l) => FunctorKeepsPoller(PopFunctor(s, l), l, s.loops[l].queue[0]);
    case _ =>
  }

  lemma CallBackKeepsPoller(s: ServerState, l: LoopId, readZero: bool)
    requires l in s.loops && s.loops[l].todo != []
    ensures DoCallBack(s, l, readZero).poller == s.poller && DoCallBack(s, l, readZero).loops.Keys == s.loops.Keys
  {
  }

  lemma FunctorKeepsPoller(s: ServerState, l: LoopId, f: Functor)
    requires l in s.loops
    ensures DoFunctor(s, l, f).poller == s.poller && DoFunctor(s, l, f).loops.Keys == s.loops.Keys
  {
  }

  lemma {:induction false} CarefulRunIsCalm(s: ServerState, ops: seq<Op>)
    requires Inv(s) && Hidden(s) && CanRun(s, ops) && AllSane(ops)
    requires s.poller.UsesPoll? || CarefulRun(s, ops)
    ensures CalmRun(s, ops) && Hidden(Run(s, ops)) && Run(s, ops).poller == s.poller
    decreases |ops|
  {
    if ops != [] {
      var s' := Apply(s, ops[0]);
      assert SaneOp(ops[0]);
      HiddenIsCalm(s, ops[0]);
      StepKeepsInv(s, ops[0]);
      StepKeepsPoller(s, ops[0]);
      if s.poller.UsesPoll? {
        PollHides(s');
      } else {
        HiddenIffCareful(s, ops[0]);
      }
      forall i | 0 <= i < |ops| - 1 ensures SaneOp(ops[1..][i]) { assert SaneOp(ops[i + 1]); }
      CarefulRunIsCalm(s', ops[1..]);
    }
  }

  // ---- Main results ----

  /** The runs the lifecycle is made for: no hang-up without input together with urgent data or a half-close; and
      with an EPollPoller, careful steps. */
  ghost predicate Lawful(kind: PollerKind, loops: set<LoopId>, ops: seq<Op>) {
    && BASE in loops && CanRun(InitialState(kind, loops), ops) && AllSane(ops)
    && (kind.UsesPoll? || CarefulRun(InitialState(kind, loops), ops))
  }

  lemma LawfulKeepsInv(kind: PollerKind, loops: set<LoopId>, ops: seq<Op>)
    requires Lawful(kind, loops, ops)
    ensures Inv(Run(InitialState(kind, loops), ops)) && Hidden(Run(InitialState(kind, loops), ops))
    ensures Run(InitialState(kind, loops), ops).poller == kind
  {
    InitialInv(kind, loops);
    CarefulRunIsCalm(InitialState(kind, loops), ops);
    RunKeepsInv(InitialState(kind, loops), ops);
  }

  /** In every such interleaving of the accept loop, the I/O loops and the users' threads no assertion of the
      lifecycle code fails (so erase finds its element and a channel is removed without events), every
      connection has lived through a prefix of established, closed, erased, destroyed, and it is in
      connections_ exactly until it is erased. */
  lemma ConnectionsLiveInOrder(kind: PollerKind, loops: set<LoopId>, ops: seq<Op>)
    requires Lawful(kind, loops, ops)
    ensures
      var s := Run(InitialState(kind, loops), ops);
      !s.failed && forall c :: c in s.conns ==> InOrder(s, c)
  {
    LawfulKeepsInv(kind, loops, ops);
    var s := Run(InitialState(kind, loops), ops);
    forall c | c in s.conns ensures InOrder(s, c) {
      assert ConnOk(s, c);
      PrefixOfLife(s.conns[c].history);
    }
  }

  ghost predicate InOrder(s: ServerState, c: ConnId)
    requires c in s.conns
  {
    var conn := s.conns[c];
    && conn.history <= LIFE
    && (c in s.connections <==> Erased !in conn.history)
    && (conn.registered <==> Established in conn.history && Destroyed !in conn.history)
    && (conn.state.Disconnected? <==> Closed in conn.history)
    && (Closed in conn.history ==> !conn.Interested())
  }

  lemma PrefixOfLife(h: seq<Event>)
    requires h <= LIFE
    ensures Established in h <==> |h| >= 1
    ensures Closed in h <==> |h| >= 2
    ensures Erased in h <==> |h| >= 3
    ensures Destroyed in h <==> |h| >= 4
  {
    assert forall i :: 0 <= i < |h| ==> h[i] == LIFE[i];
    assert |h| >= 1 ==> h[0] == Established;
    assert |h| >= 2 ==> h[1] == Closed;
    assert |h| >= 3 ==> h[2] == Erased;
    assert |h| >= 4 ==> h[3] == Destroyed;
  }

  /** No connection is ever forgotten: accepted but not established, closed but not erased, or erased but
      not destroyed, the next functor of its life is queued exactly once on the right loop, or the thread
      of its loop is still inside handleClose and will queue it. */
  lemma NoConnectionForgotten(kind: PollerKind, loops: set<LoopId>, ops: seq<Op>, c: ConnId)
    requires Lawful(kind, loops, ops)
    requires c in Run(InitialState(kind, loops), ops).conns
    ensures
      var s := Run(InitialState(kind, loops), ops);
      var conn := s.conns[c];
      && conn.loop in loops
      && (conn.history == [] ==> Queued(s, conn.loop, ConnectEstablished(c)) == 1)
      && (|conn.history| == 2 ==>
            (Queued(s, BASE, RemoveConnectionInLoop(c)) == 1) != ClosingOn(s, conn.loop, c))
      && (|conn.history| == 3 ==> Queued(s, conn.loop, ConnectDestroyed(c)) == 1)
  {
    LawfulKeepsInv(kind, loops, ops);
    RunKeepsLoops(InitialState(kind, loops), ops);
    var s := Run(InitialState(kind, loops), ops);
    assert ConnOk(s, c);
    assert QueueOk(s, c, BASE) && QueueOk(s, c, s.conns[c].loop);
  }

  lemma {:induction false} RunKeepsLoops(s: ServerState, ops: seq<Op>)
    requires CanRun(s, ops)
    ensures Run(s, ops).loops.Keys == s.loops.Keys
    decreases |ops|
  {
    if ops != [] {
      StepKeepsPoller(s, ops[0]);
      RunKeepsLoops(Apply(s, ops[0]), ops[1..]);
    }
  }

  // ---- What is asked for happens ----

  function AcceptOf(op: Op): seq<LoopId> {
    if op.Accept? then [op.io] else []
  }

  /** The loops chosen for the connections accepted, in order. */
  function AcceptedOn(ops: seq<Op>): seq<LoopId> {
    if ops == [] then [] else AcceptOf(ops[0]) + AcceptedOn(ops[1..])
  }

  /** The connections are numbered from 1 in the order accepted, and each is on the loop chosen for it. */
  ghost predicate Numbered(s: ServerState, on: seq<LoopId>) {
    s.nextConnId == |on| + 1 && forall c :: PlacedOn(s, on, c)
  }

  ghost predicate PlacedOn(s: ServerState, on: seq<LoopId>, c: ConnId) {
    (c in s.conns <==> 1 <= c <= |on|) && (c in s.conns && 1 <= c <= |on| ==> s.conns[c].loop == on[c - 1])
  }

  /** Nothing that happened to a connection is forgotten, and it stays on its loop. */
  ghost predicate Later(s: ServerState, s': ServerState, c: ConnId) {
    c in s.conns ==> c in s'.conns && s'.conns[c].loop == s.conns[c].loop && s.conns[c].history <= s'.conns[c].history
  }

  lemma FunctorLater(s: ServerState, l: LoopId, f: Functor, c: ConnId)
    requires l in s.loops
    ensures var s' := DoFunctor(s, l, f);
            Later(s, s', c) && s'.nextConnId == s.nextConnId && (c in s'.conns <==> c in s.conns)
  {
  }

  lemma CallBackLater(s: ServerState, l: LoopId, readZero: bool, c: ConnId)
    requires l in s.loops && s.loops[l].todo != []
    ensures var s' := DoCallBack(s, l, readZero);
            Later(s, s', c) && s'.nextConnId == s.nextConnId && (c in s'.conns <==> c in s.conns)
  {
  }

  lemma StepLater(s: ServerState, op: Op, c: ConnId)
    requires Enabled(s, op) && (op.Accept? ==> c != s.nextConnId)
    ensures var s' := Apply(s, op);
            && Later(s, s', c) && (c in s'.conns <==> c in s.conns)
            && s'.nextConnId == s.nextConnId + |AcceptOf(op)|
  {
    match op
    case CallBack(l, readZero) => CallBackLater(s, l, readZero, c);
    case RunFunctor(l) => FunctorLater(PopFunctor(s, l), l, s.loops[l].queue[0], c);
    case _ =>
  }

  lemma StepNumbered(s: ServerState, op: Op, on: seq<LoopId>)
    requires Enabled(s, op) && Numbered(s, on)
    ensures Numbered(Apply(s, op), on + AcceptOf(op))
  {
    var s', on' := Apply(s, op), on + AcceptOf(op);
    forall c ensures PlacedOn(s', on', c) {
      assert PlacedOn(s, on, c);
      if !(op.Accept? && c == s.nextConnId) {
        StepLater(s, op, c);
      }
    }
    StepLater(s, op, 0);
  }

  lemma {:induction false} RunNumbered(s: ServerState, ops: seq<Op>, on: seq<LoopId>)
    requires CanRun(s, ops) && Numbered(s, on)
    ensures Numbered(Run(s, ops), on + AcceptedOn(ops))
    decreases |ops|
  {
    if ops == [] {
      assert on + [] == on;
    } else {
      StepNumbered(s, ops[0], on);
      RunNumbered(Apply(s, ops[0]), ops[1..], on + AcceptOf(ops[0]));
      AppendAssociative(on, AcceptOf(ops[0]), AcceptedOn(ops[1..]));
    }
  }

  /** In every run the k-th connection accepted has number k and is on the loop chosen for it. */
  lemma ConnectionsAreNumbered(kind: PollerKind, loops: set<LoopId>, ops: seq<Op>)
    requires CanRun(InitialState(kind, loops), ops)
    ensures Numbered(Run(InitialState(kind, loops), ops), AcceptedOn(ops))
  {
    RunNumbered(InitialState(kind, loops), ops, []);
    assert [] + AcceptedOn(ops) == AcceptedOn(ops);
  }

  /** A callback that closes, if it is a read that it reads 0 bytes, is still to be called for c. */
  predicate Owes(t: Todo, c: ConnId) {
    t.conn == c && (OnClose in t.callbacks || OnRead in t.callbacks)
  }

  ghost predicate CloseComing(s: ServerState, l: LoopId, c: ConnId) {
    && c in s.conns && l in s.loops
    && (Closed in s.conns[c].history || exists i :: 0 <= i < |s.loops[l].todo| && Owes(s.loops[l].todo[i], c))
  }

  /** When the read callback of c is called on loop l, it reads 0 bytes. */
  predicate ReadsEnd(s: ServerState, op: Op, l: LoopId, c: ConnId)
    requires Enabled(s, op)
  {
    op.CallBack? && op.loop == l ==>
      var head := s.loops[l].todo[0];
      head.conn == c && head.callbacks != [] && head.callbacks[0].OnRead? ==> op.readZero
  }

  ghost predicate AlwaysReadsEnd(s: ServerState, ops: seq<Op>, l: LoopId, c: ConnId)
    requires CanRun(s, ops)
    decreases |ops|
  {
    ops == [] || (ReadsEnd(s, ops[0], l, c) && AlwaysReadsEnd(Apply(s, ops[0]), ops[1..], l, c))
  }

  lemma PopOwes(todo: seq<Todo>, i: nat, c: ConnId)
    requires i < |todo| && Owes(todo[i], c)
    requires i == 0 ==> todo[0].callbacks[0].OnError? || todo[0].callbacks[0].OnWrite?
    ensures exists k :: 0 <= k < |PopCallback(todo)| && Owes(PopCallback(todo)[k], c)
  {
    var rest := PopCallback(todo);
    if i == 0 {
      var cs := todo[0].callbacks;
      assert cs == [cs[0]] + cs[1..];
      assert Owes(rest[0], c);
    } else {
      var k := if |todo[0].callbacks| <= 1 then i - 1 else i;
      assert rest[k] == todo[i];
    }
  }

  lemma CallBackCloseComing(s: ServerState, l: LoopId, readZero: bool, c: ConnId)
    requires Enabled(s, CallBack(l, readZero)) && CloseComing(s, l, c) && ReadsEnd(s, CallBack(l, readZero), l, c)
    ensures CloseComing(DoCallBack(s, l, readZero), l, c)
  {
    var s', todo := DoCallBack(s, l, readZero), s.loops[l].todo;
    CallBackLater(s, l, readZero, c);
    if Closed !in s.conns[c].history {
      var i :| 0 <= i < |todo| && Owes(todo[i], c);
      if i > 0 || todo[0].callbacks[0].OnError? || todo[0].callbacks[0].OnWrite? {
        PopOwes(todo, i, c);
      } else {
        assert s'.conns[c].history == s.conns[c].history + [Closed];
      }
    }
  }

  lemma FunctorKeepsTodo(s: ServerState, l: LoopId, f: Functor, m: LoopId)
    requires l in s.loops && m in s.loops
    ensures m in DoFunctor(s, l, f).loops && DoFunctor(s, l, f).loops[m].todo == s.loops[m].todo
  {
  }

  lemma StepCloseComing(s: ServerState, op: Op, l: LoopId, c: ConnId)
    requires Enabled(s, op) && c < s.nextConnId && CloseComing(s, l, c) && ReadsEnd(s, op, l, c)
    ensures CloseComing(Apply(s, op), l, c)
  {
    StepLater(s, op, c);
    StepKeepsPoller(s, op);
    if Closed !in s.conns[c].history {
      if op.CallBack? && op.loop == l {
        CallBackCloseComing(s, l, op.readZero, c);
      } else {
        if op.RunFunctor? {
          FunctorKeepsTodo(PopFunctor(s, op.loop), op.loop, s.loops[op.loop].queue[0], l);
        }
        assert Apply(s, op).loops[l].todo == s.loops[l].todo;
      }
    }
  }

  lemma {:induction false} RunCloseComing(s: ServerState, ops: seq<Op>, l: LoopId, c: ConnId)
    requires CanRun(s, ops) && c < s.nextConnId && CloseComing(s, l, c) && AlwaysReadsEnd(s, ops, l, c)
    ensures CloseComing(Run(s, ops), l, c)
    decreases |ops|
  {
    if ops != [] {
      StepLater(s, ops[0], c);
      StepCloseComing(s, ops[0], l, c);
      RunCloseComing(Apply(s, ops[0]), ops[1..], l, c);
    }
  }

  /** A connection reported with input, urgent data, a half-close or a hang-up has been closed once its callbacks
      have been called, if its read reads 0 bytes; whatever else runs meanwhile. */
  lemma EndOfInputCloses(kind: PollerKind, loops: set<LoopId>, before: seq<Op>, l: LoopId, ready: seq<Ready>, i: nat,
                         turn: seq<Op>)
    requires CanRun(InitialState(kind, loops), before) && i < |ready|
    requires Enabled(Run(InitialState(kind, loops), before), Poll(l, ready))
    requires ready[i].revents.pollin || ready[i].revents.pri || ready[i].revents.rdhup || ready[i].revents.hup
    requires CanRun(Apply(Run(InitialState(kind, loops), before), Poll(l, ready)), turn)
    requires AlwaysReadsEnd(Apply(Run(InitialState(kind, loops), before), Poll(l, ready)), turn, l, ready[i].conn)
    ensures var e := Run(Apply(Run(InitialState(kind, loops), before), Poll(l, ready)), turn);
            var c := ready[i].conn;
            && c in e.conns && l in e.loops
            && (Closed in e.conns[c].history || exists k :: 0 <= k < |e.loops[l].todo| && e.loops[l].todo[k].conn == c)
  {
    ConnectionsAreNumbered(kind, loops, before);
    var s, c := Run(InitialState(kind, loops), before), ready[i].conn;
    assert PlacedOn(s, AcceptedOn(before), c);
    var s' := Apply(s, Poll(l, ready));
    DispatchMeaning(ready[i].revents);
    assert Owes(s'.loops[l].todo[i], c);
    RunCloseComing(s', turn, l, c);
    var e := Run(s', turn);
    if Closed !in e.conns[c].history {
      var k :| 0 <= k < |e.loops[l].todo| && Owes(e.loops[l].todo[k], c);
      assert e.loops[l].todo[k].conn == c;
    }
  }

  /** forceClose() or shutdown() was called on c, or it was closed. */
  ghost predicate Leaving(s: ServerState, c: ConnId) {
    c in s.conns && s.conns[c].history != [] && !s.conns[c].state.Connected?
  }

  ghost predicate ForceComing(s: ServerState, c: ConnId) {
    Leaving(s, c) && (|s.conns[c].history| >= 2 || Queued(s, s.conns[c].loop, ForceCloseInLoop(c)) > 0)
  }

  lemma FunctorKeepsQueued(s: ServerState, l: LoopId, f: Functor, m: LoopId, g: Functor)
    requires l in s.loops
    ensures Queued(DoFunctor(s, l, f), m, g) >= Queued(s, m, g)
  {
    if f.RemoveConnectionInLoop? && f.conn in s.conns {
      var conn := s.conns[f.conn];
      var s' := Check(s, f.conn in s.connections).(connections := s.connections - {f.conn});
      PushCounts(SetConn(s', f.conn, conn.(history := conn.history + [Erased])), conn.loop, ConnectDestroyed(f.conn), m, g);
    }
  }

  lemma RunFunctorLeaving(s: ServerState, l: LoopId, c: ConnId)
    requires Inv(s) && Enabled(s, RunFunctor(l)) && Leaving(s, c)
    ensures Leaving(Apply(s, RunFunctor(l)), c)
  {
    var f := s.loops[l].queue[0];
    HeadFunctor(s, l);
    FunctorLater(PopFunctor(s, l), l, f, c);
    assert QueueOk(s, c, l) && ConnOk(s, c);
  }

  lemma StepLeaving(s: ServerState, op: Op, c: ConnId)
    requires Inv(s) && Enabled(s, op) && Leaving(s, c)
    ensures Leaving(Apply(s, op), c)
  {
    assert ConnOk(s, c);
    StepLater(s, op, c);
    match op
    case RunFunctor(l) => RunFunctorLeaving(s, l, c);
    case _ =>
  }

  lemma RunFunctorForceComing(s: ServerState, l: LoopId, c: ConnId)
    requires Inv(s) && Enabled(s, RunFunctor(l)) && ForceComing(s, c)
    ensures ForceComing(Apply(s, RunFunctor(l)), c)
  {
    var f, popped, g := s.loops[l].queue[0], PopFunctor(s, l), ForceCloseInLoop(c);
    var home := s.conns[c].loop;
    RunFunctorLeaving(s, l, c);
    FunctorLater(popped, l, f, c);
    assert ConnOk(s, c) && QueueOk(s, c, l);
    PopCounts(s, l, home, g);
    FunctorKeepsQueued(popped, l, f, home, g);
  }

  lemma StepForceComing(s: ServerState, op: Op, c: ConnId)
    requires Inv(s) && Enabled(s, op) && ForceComing(s, c)
    ensures ForceComing(Apply(s, op), c)
  {
    assert ConnOk(s, c);
    StepLater(s, op, c);
    StepLeaving(s, op, c);
    if op.RunFunctor? {
      RunFunctorForceComing(s, op.loop, c);
    } else {
      StepKeepsQueued(s, op, s.conns[c].loop, ForceCloseInLoop(c));
    }
  }

  lemma StepKeepsQueued(s: ServerState, op: Op, m: LoopId, g: Functor)
    requires Enabled(s, op) && !op.RunFunctor?
    ensures Queued(Apply(s, op), m, g) >= Queued(s, m, g)
  {
    match op
    case Accept(io) =>
      var c := s.nextConnId;
      var s' := s.(conns := s.conns[c := NewConn(io)], connections := s.connections + {c}, nextConnId := c + 1);
      PushCounts(s', io, ConnectEstablished(c), m, g);
    case FinishClose(l) => FinishKeepsQueued(s, l, m, g);
    case UserForceClose(c) =>
      PushCounts(SetConn(s, c, s.conns[c].(state := ConnState.Disconnecting)), s.conns[c].loop, ForceCloseInLoop(c), m, g);
    case _ =>
  }

  lemma FinishKeepsQueued(s: ServerState, l: LoopId, m: LoopId, g: Functor)
    requires l in s.loops && s.loops[l].closing.Some?
    ensures Queued(DoFinishClose(s, l), m, g) >= Queued(s, m, g)
  {
    var c := s.loops[l].closing.value;
    var s' := s.(loops := s.loops[l := s.loops[l].(closing := None)]);
    if l == BASE && c in s.conns {
      FunctorKeepsQueued(s', l, RemoveConnectionInLoop(c), m, g);
    } else {
      PushCounts(s', BASE, RemoveConnectionInLoop(c), m, g);
    }
  }

  lemma {:induction false} RunLeaving(s: ServerState, ops: seq<Op>, c: ConnId)
    requires Inv(s) && CanRun(s, ops) && CalmRun(s, ops) && Leaving(s, c)
    ensures Leaving(Run(s, ops), c) && (ForceComing(s, c) ==> ForceComing(Run(s, ops), c))
    decreases |ops|
  {
    if ops != [] {
      StepKeepsInv(s, ops[0]);
      StepLeaving(s, ops[0], c);
      if ForceComing(s, c) {
        StepForceComing(s, ops[0], c);
      }
      RunLeaving(Apply(s, ops[0]), ops[1..], c);
    }
  }

  /** shutdown() and forceClose() of a live connection take effect: whatever runs after, it is never connected
      again, and after forceClose() it has been closed as soon as no forceCloseInLoop is queued for it. */
  lemma RequestsTakeEffect(s: ServerState, c: ConnId, op: Op, ops: seq<Op>)
    requires Inv(s) && c in s.conns && Live(s.conns[c]) && (op == UserShutdown(c) || op == UserForceClose(c))
    requires CanRun(Apply(s, op), ops) && CalmRun(Apply(s, op), ops)
    ensures var e := Run(Apply(s, op), ops);
            && c in e.conns && !e.conns[c].state.Connected?
            && (op.UserForceClose? ==> Closed in e.conns[c].history || Queued(e, e.conns[c].loop, ForceCloseInLoop(c)) > 0)
  {
    assert ConnOk(s, c);
    var s' := Apply(s, op);
    StepKeepsInv(s, op);
    if op.UserForceClose? {
      var home, f := s.conns[c].loop, ForceCloseInLoop(c);
      PushCounts(SetConn(s, c, s.conns[c].(state := ConnState.Disconnecting)), home, f, home, f);
    }
    RunLeaving(s', ops, c);
    RunKeepsInv(s', ops);
    var e := Run(s', ops);
    assert ConnOk(e, c);
    PrefixOfLife(e.conns[c].history);
  }

  lemma {:induction false} RunLater(s: ServerState, ops: seq<Op>, c: ConnId)
    requires CanRun(s, ops) && c < s.nextConnId
    ensures Later(s, Run(s, ops), c)
    decreases |ops|
  {
    if ops != [] {
      StepLater(s, ops[0], c);
      RunLater(Apply(s, ops[0]), ops[1..], c);
    }
  }

  /** The event mask of connection c, as startRead, stopRead and the output buffer ask for it. */
  datatype Mask = Mask(reading: bool, writing: bool)

  function MaskAfter(mask: Mask, op: Op, c: ConnId): Mask {
    match op
    case StartRead(d) => if d == c then mask.(reading := true) else mask
    case StopRead(d) => if d == c then mask.(reading := false) else mask
    case SetWriting(d, on) => if d == c then mask.(writing := on) else mask
    case _ => mask
  }

  function MaskBy(mask: Mask, ops: seq<Op>, c: ConnId): Mask
    decreases |ops|
  {
    if ops == [] then mask else MaskBy(MaskAfter(mask, ops[0], c), ops[1..], c)
  }

  function MaskOf(conn: Conn): Mask {
    Mask(conn.reading, conn.writing)
  }

  lemma StepMask(s: ServerState, op: Op, c: ConnId)
    requires Inv(s) && Enabled(s, op) && c in s.conns && Live(s.conns[c])
    requires c in Apply(s, op).conns && Live(Apply(s, op).conns[c])
    ensures MaskOf(Apply(s, op).conns[c]) == MaskAfter(MaskOf(s.conns[c]), op, c)
  {
    assert ConnOk(s, c);
    if op.RunFunctor? {
      HeadFunctor(s, op.loop);
    }
  }

  /** While a connection lives its event mask is what was asked for last. */
  lemma {:induction false} RunMask(s: ServerState, ops: seq<Op>, c: ConnId)
    requires Inv(s) && CanRun(s, ops) && CalmRun(s, ops) && c in s.conns && Live(s.conns[c])
    requires c in Run(s, ops).conns && Live(Run(s, ops).conns[c])
    ensures MaskOf(Run(s, ops).conns[c]) == MaskBy(MaskOf(s.conns[c]), ops, c)
    decreases |ops|
  {
    if ops != [] {
      var s' := Apply(s, ops[0]);
      assert ConnOk(s, c);
      StepKeepsInv(s, ops[0]);
      StepLater(s, ops[0], c);
      RunLater(s', ops[1..], c);
      RunKeepsInv(s', ops[1..]);
      assert ConnOk(s', c) && ConnOk(Run(s', ops[1..]), c);
      StepMask(s, ops[0], c);
      RunMask(s', ops[1..], c);
    }
  }

  // ---- Where the law ends: single runs ----

  lemma RunCons(s: ServerState, op: Op, rest: seq<Op>)
    requires Enabled(s, op) && CanRun(Apply(s, op), rest)
    ensures CanRun(s, [op] + rest) && Run(s, [op] + rest) == Run(Apply(s, op), rest)
    ensures Careful(s, op) && CarefulRun(Apply(s, op), rest) ==> CarefulRun(s, [op] + rest)
    ensures SaneOp(op) && AllSane(rest) ==> AllSane([op] + rest)
  {
    assert ([op] + rest)[1..] == rest;
  }

  /** Callbacks still to be called on a loop. */
  function Work(todo: seq<Todo>): nat {
    if todo == [] then 0 else 1 + |todo[0].callbacks| + Work(todo[1..])
  }

  lemma PopWork(todo: seq<Todo>)
    requires todo != []
    ensures Work(PopCallback(todo)) < Work(todo)
  {
    if |todo[0].callbacks| > 1 {
      var t := Todo(todo[0].conn, todo[0].callbacks[1..]);
      assert ([t] + todo[1..])[1..] == todo[1..];
    }
  }

  const HANG_UP := Revents(true, false, false, false, false, false, false)

  /** A hang-up of a closed connection that is still listed: handleClose is entered a second time. */
  lemma HangUpReported(s: ServerState, l: LoopId, c: ConnId, r: Revents)
    requires r.hup && OnlyHangUp(r) && Idle(s, l) && s.loops[l].todo == []
    requires c in s.conns && s.conns[c].loop == l && s.conns[c].state.Disconnected?
    requires s.conns[c].registered && s.conns[c].listed
    ensures var ops := [Poll(l, [Ready(c, r)]), CallBack(l, false)];
            CanRun(s, ops) && AllSane(ops) && CarefulRun(s, ops) && Run(s, ops).failed
  {
    var poll, call := Poll(l, [Ready(c, r)]), CallBack(l, false);
    var s1 := Apply(s, poll);
    assert s1.loops[l].todo == [Todo(c, Dispatch(r))] && Dispatch(r)[0] == OnClose;
    RunCons(s1, call, []);
    RunCons(s, poll, [call]);
    assert [poll] + [call] == [poll, call] && [call] + [] == [call];
  }

  /** With an EPollPoller a connection that is exposed can be made to fail, without another careless step: the
      loop ends what it is doing, and then the kernel reports a hang-up. */
  lemma ExposedFails(s: ServerState, l: LoopId, c: ConnId) returns (ops: seq<Op>)
    requires Inv(s) && Exposed(s, c) && l == s.conns[c].loop && l in s.loops
    ensures CanRun(s, ops) && AllSane(ops) && CarefulRun(s, ops) && Run(s, ops).failed
    decreases Work(s.loops[l].todo), s.loops[l].closing.Some?
  {
    if s.loops[l].closing.Some? {
      var finish := FinishClose(l);
      StepKeepsInv(s, finish);
      FinishKeepsExposed(s, l, c);
      ops := ExposedFails(Apply(s, finish), l, c);
      RunCons(s, finish, ops);
      ops := [finish] + ops;
    } else if s.loops[l].todo == [] {
      assert ConnOk(s, c);
      HangUpReported(s, l, c, HANG_UP);
      ops := [Poll(l, [Ready(c, HANG_UP)]), CallBack(l, false)];
    } else {
      ops := ExposedWhileBusyFails(s, l, c);
    }
  }

  /** The next callback, on a live connection after its reading has been started again. */
  lemma ExposedWhileBusyFails(s: ServerState, l: LoopId, c: ConnId) returns (ops: seq<Op>)
    requires Inv(s) && Exposed(s, c) && l == s.conns[c].loop && Idle(s, l) && s.loops[l].todo != []
    ensures CanRun(s, ops) && AllSane(ops) && CarefulRun(s, ops) && Run(s, ops).failed
    decreases Work(s.loops[l].todo), false, 0
  {
    var d, call := s.loops[l].todo[0].conn, CallBack(l, false);
    assert TodoOk(s, l, 0) && ConnOk(s, d) && ConnOk(s, c);
    var start := StartRead(d);
    var s1 := if Live(s.conns[d]) then Apply(s, start) else s;
    if Live(s.conns[d]) {
      StepKeepsInv(s, start);
      assert ConnOk(s1, d);
    }
    var s2 := Apply(s1, call);
    CallBackKeepsInv(s1, l, false);
    PopWork(s1.loops[l].todo);
    assert TodoOk(s1, l, 0) && ConnOk(s1, c);
    ops := ExposedFails(s2, l, c);
    RunCons(s1, call, ops);
    ops := [call] + ops;
    if Live(s.conns[d]) {
      RunCons(s, start, ops);
      ops := [start] + ops;
    }
  }

  lemma FinishKeepsExposed(s: ServerState, l: LoopId, c: ConnId)
    requires Inv(s) && Exposed(s, c) && l == s.conns[c].loop && Enabled(s, FinishClose(l))
    ensures var s' := Apply(s, FinishClose(l));
            && Exposed(s', c) && s'.conns[c].loop == l
            && s'.loops[l].todo == s.loops[l].todo && s'.loops[l].closing.None?
  {
    var d := s.loops[l].closing.value;
    assert QueueOk(s, d, l) && ConnOk(s, d) && ConnOk(s, c);
  }

  ghost predicate CanStillFail(s: ServerState) {
    exists ops :: CanRun(s, ops) && AllSane(ops) && CarefulRun(s, ops) && Run(s, ops).failed
  }

  /** After a lawful run with an EPollPoller, a step opens the way to a failure, by careful steps alone, if and
      only if it is careless. */
  lemma CarefulIsExact(loops: set<LoopId>, before: seq<Op>, op: Op)
    requires Lawful(UsesEpoll, loops, before)
    requires Enabled(Run(InitialState(UsesEpoll, loops), before), op) && SaneOp(op)
    ensures var s := Run(InitialState(UsesEpoll, loops), before);
            CanStillFail(Apply(s, op)) <==> !Careful(s, op)
  {
    LawfulKeepsInv(UsesEpoll, loops, before);
    var s := Run(InitialState(UsesEpoll, loops), before);
    var s' := Apply(s, op);
    HiddenIsCalm(s, op);
    StepKeepsInv(s, op);
    StepKeepsPoller(s, op);
    HiddenIffCareful(s, op);
    if Careful(s, op) {
      forall ops | CanRun(s', ops) && AllSane(ops) && CarefulRun(s', ops) ensures !Run(s', ops).failed {
        CarefulRunIsCalm(s', ops);
        RunKeepsInv(s', ops);
      }
    } else {
      var c :| Exposed(s', c);
      assert ConnOk(s', c);
      var ops := ExposedFails(s', s'.conns[c].loop, c);
      assert CanRun(s', ops);
    }
  }

  // ---- Where the law ends: events ----

  ghost predicate UsesOnly(ops: seq<Op>, r: Revents) {
    forall i, j :: 0 <= i < |ops| && ops[i].Poll? && 0 <= j < |ops[i].ready| ==> ops[i].ready[j].revents == r
  }

  ghost predicate NeverFails(kind: PollerKind, loops: set<LoopId>, r: Revents) {
    forall ops :: CanRun(InitialState(kind, loops), ops) && UsesOnly(ops, r) ==> !Run(InitialState(kind, loops), ops).failed
  }

  /** Events that break no run: sane, and with an EPollPoller not a hang-up alone or with an error. */
  predicate Harmless(kind: PollerKind, r: Revents) {
    Sane(r) && (kind.UsesEpoll? ==> !(r.hup && OnlyHangUp(r)))
  }

  lemma {:induction false} HarmlessRunIsCalm(s: ServerState, ops: seq<Op>, r: Revents)
    requires Inv(s) && CanRun(s, ops) && UsesOnly(ops, r) && Harmless(s.poller, r)
    ensures CalmRun(s, ops)
    decreases |ops|
  {
    if ops != [] {
      var op := ops[0];
      if s.poller.UsesPoll? {
        PollHides(s);
        HiddenIsCalm(s, op);
      }
      assert Calm(s, op);
      StepKeepsInv(s, op);
      StepKeepsPoller(s, op);
      forall i, j | 0 <= i < |ops| - 1 && ops[1..][i].Poll? && 0 <= j < |ops[1..][i].ready|
        ensures ops[1..][i].ready[j].revents == r
      {
        assert ops[1..][i] == ops[i + 1];
      }
      HarmlessRunIsCalm(Apply(s, op), ops[1..], r);
    }
  }

  /** The lifecycle is safe with a set of returned events exactly when they are harmless for the poller. */
  lemma SafeIffHarmless(kind: PollerKind, loops: set<LoopId>, r: Revents)
    requires BASE in loops
    ensures NeverFails(kind, loops, r) <==> Harmless(kind, r)
  {
    var s := InitialState(kind, loops);
    if Harmless(kind, r) {
      InitialInv(kind, loops);
      forall ops | CanRun(s, ops) && UsesOnly(ops, r) ensures !Run(s, ops).failed {
        HarmlessRunIsCalm(s, ops, r);
        RunKeepsInv(s, ops);
      }
    } else {
      var ops;
      if Sane(r) {
        ops := HangUpAfterClose(loops, r);
      } else {
        ops := ClosedTwice(kind, loops, r);
      }
      assert CanRun(s, ops) && UsesOnly(ops, r);
    }
  }

  /** Closed but listed, the connection is removed and then a hang-up of it is reported. */
  lemma LateHangUp(s: ServerState, r: Revents)
    requires r.hup && OnlyHangUp(r) && BASE in s.loops && s.loops[BASE].closing == Some(1) && s.loops[BASE].todo == []
    requires 1 in s.conns && s.conns[1].loop == BASE && s.conns[1].state.Disconnected?
    requires s.conns[1].registered && s.conns[1].listed
    ensures var ops := [FinishClose(BASE), Poll(BASE, [Ready(1, r)]), CallBack(BASE, false)];
            CanRun(s, ops) && Run(s, ops).failed
  {
    var finish, poll, call := FinishClose(BASE), Poll(BASE, [Ready(1, r)]), CallBack(BASE, false);
    HangUpReported(Apply(s, finish), BASE, 1, r);
    RunCons(s, finish, [poll, call]);
    assert [finish] + [poll, call] == [finish, poll, call];
  }

  lemma ListedAfterClose(loops: set<LoopId>) returns (ops: seq<Op>)
    requires BASE in loops
    ensures ops == [Accept(BASE), StopRead(1), UserForceClose(1), RunFunctor(BASE)]
    ensures CanRun(InitialState(UsesEpoll, loops), ops) && AllSane(ops)
    ensures var s := Run(InitialState(UsesEpoll, loops), ops);
            && BASE in s.loops && s.loops[BASE].closing == Some(1) && s.loops[BASE].todo == []
            && 1 in s.conns && s.conns[1].loop == BASE && s.conns[1].state.Disconnected?
            && s.conns[1].registered && s.conns[1].listed
  {
    var s0 := InitialState(UsesEpoll, loops);
    var s1 := Apply(s0, Accept(BASE));
    assert s1.conns[1].listed && s1.conns[1].Interested();
    var s2 := Apply(s1, StopRead(1));
    assert !s2.conns[1].listed;
    var s3 := Apply(s2, UserForceClose(1));
    assert s3.loops[BASE].queue == [ForceCloseInLoop(1)];
    RunCons(s3, RunFunctor(BASE), []);
    RunCons(s2, UserForceClose(1), [RunFunctor(BASE)] + []);
    ops := [UserForceClose(1)] + ([RunFunctor(BASE)] + []);
    RunCons(s1, StopRead(1), ops);
    ops := [StopRead(1)] + ops;
    RunCons(s0, Accept(BASE), ops);
    ops := [Accept(BASE)] + ops;
  }

  lemma {:induction false} RunAppend(s: ServerState, a: seq<Op>, b: seq<Op>)
    requires CanRun(s, a) && CanRun(Run(s, a), b)
    ensures CanRun(s, a + b) && Run(s, a + b) == Run(Run(s, a), b)
    decreases |a|
  {
    if a == [] {
      assert a + b == b;
    } else {
      assert (a + b)[1..] == a[1..] + b;
      RunAppend(Apply(s, a[0]), a[1..], b);
    }
  }

  /** One connection on the accept loop: its reading is stopped, which takes it off epoll's list; the forced close
      puts it back with an empty mask; a hang-up reported before it is destroyed closes it again. */
  lemma HangUpAfterClose(loops: set<LoopId>, r: Revents) returns (ops: seq<Op>)
    requires BASE in loops && r.hup && OnlyHangUp(r)
    ensures ops == [Accept(BASE), StopRead(1), UserForceClose(1), RunFunctor(BASE), FinishClose(BASE),
                    Poll(BASE, [Ready(1, r)]), CallBack(BASE, false)]
    ensures CanRun(InitialState(UsesEpoll, loops), ops) && UsesOnly(ops, r) && AllSane(ops)
    ensures Run(InitialState(UsesEpoll, loops), ops).failed
  {
    var s := InitialState(UsesEpoll, loops);
    var first := ListedAfterClose(loops);
    var last := [FinishClose(BASE), Poll(BASE, [Ready(1, r)]), CallBack(BASE, false)];
    LateHangUp(Run(s, first), r);
    RunAppend(s, first, last);
    ops := first + last;
  }

  /** One connection on the accept loop: the hang-up closes and removes it, the read that follows closes it again. */
  lemma ClosedTwice(kind: PollerKind, loops: set<LoopId>, r: Revents) returns (ops: seq<Op>)
    requires BASE in loops && !Sane(r)
    ensures CanRun(InitialState(kind, loops), ops) && UsesOnly(ops, r) && Run(InitialState(kind, loops), ops).failed
  {
    var s0, poll := InitialState(kind, loops), Poll(BASE, [Ready(1, r)]);
    var s1 := Apply(s0, Accept(BASE));
    var s2 := Apply(s1, poll);
    assert s2.loops[BASE].todo == [Todo(1, Dispatch(r))];
    assert Dispatch(r)[0] == OnClose && |Dispatch(r)| >= 2;
    var rest := FirstClose(s2, Dispatch(r));
    RunCons(s1, poll, rest);
    RunCons(s0, Accept(BASE), [poll] + rest);
    ops := [Accept(BASE)] + ([poll] + rest);
  }

  lemma FirstClose(s: ServerState, cs: seq<Callback>) returns (ops: seq<Op>)
    requires Idle(s, BASE) && s.loops[BASE].todo == [Todo(1, cs)] && 1 in s.conns
    requires |cs| >= 2 && cs[0].OnClose? && (cs[1].OnRead? || (cs[1].OnError? && |cs| >= 3 && cs[2].OnRead?))
    ensures CanRun(s, ops) && Run(s, ops).failed
    ensures forall i :: 0 <= i < |ops| ==> !ops[i].Poll?
  {
    var s' := Apply(s, CallBack(BASE, false));
    assert s'.loops[BASE].todo == [Todo(1, cs[1..])];
    var s'' := Apply(s', FinishClose(BASE));
    assert s''.loops[BASE].todo == [Todo(1, cs[1..])];
    var rest := SecondClose(s'', cs[1..]);
    RunCons(s', FinishClose(BASE), rest);
    RunCons(s, CallBack(BASE, false), [FinishClose(BASE)] + rest);
    ops := [CallBack(BASE, false)] + ([FinishClose(BASE)] + rest);
  }

  lemma SecondClose(s: ServerState, cs: seq<Callback>) returns (ops: seq<Op>)
    requires Idle(s, BASE) && s.loops[BASE].todo == [Todo(1, cs)]
    requires 1 in s.conns && s.conns[1].state.Disconnected?
    requires cs != [] && (cs[0].OnRead? || (cs[0].OnError? && |cs| >= 2 && cs[1].OnRead?))
    ensures CanRun(s, ops) && Run(s, ops).failed
    ensures forall i :: 0 <= i < |ops| ==> ops[i].CallBack?
    decreases |cs|
  {
    if cs[0].OnRead? {
      ops := [CallBack(BASE, true)];
      assert ops[1..] == [];
    } else {
      var s' := Apply(s, CallBack(BASE, false));
      ops := SecondClose(s', cs[1..]);
      RunCons(s, CallBack(BASE, false), ops);
      ops := [CallBack(BASE, false)] + ops;
    }
  }

  // ---- The server as an object ----

  /** The code's assertions are assertions here, so that proving a method proves them. */
  class TcpServer {
    const poller: PollerKind
    var conns: map<ConnId, Conn>
    var connections: set<ConnId>
    var nextConnId: nat
    var loops: map<LoopId, Loop>

    function View(): ServerState
      reads this
    {
      ServerState(poller, conns, connections, nextConnId, loops, false)
    }

    ghost predicate Valid()
      reads this
    {
      Inv(View())
    }

    constructor (kind: PollerKind, loopIds: set<LoopId>)
      requires BASE in loopIds
      ensures Valid() && View() == InitialState(kind, loopIds)
    {
      poller := kind;
      conns, connections, nextConnId := map[], {}, 1;
      loops := map l | l in loopIds :: Loop([], [], None);
      new;
      InitialInv(kind, loopIds);
    }

    /** EventLoop::queueInLoop. */
    method QueueInLoop(l: LoopId, f: Functor)
      requires l in loops
      modifies this`loops
      ensures View() == Push(old(View()), l, f)
    {
      loops := loops[l := loops[l].(queue := loops[l].queue + [f])];
    }

    method ConnectEstablished(c: ConnId)
      requires c in conns && conns[c].state.Connecting? && !conns[c].registered
      modifies this`conns
      ensures View() == DoEstablished(old(View()), c)
    {
      var conn := conns[c];
      assert conn.state.Connecting?;
      conn := conn.(state := ConnState.Connected, history := conn.history + [Established]);
      conns := conns[c := WithInterest(poller, conn, true, conn.writing)];
    }

    method NewConnection(io: LoopId)
      requires Valid() && Enabled(View(), Accept(io))
      modifies this
      ensures Valid() && View() == Apply(old(View()), Accept(io))
    {
      ghost var before := View();
      var c := nextConnId;
      nextConnId := nextConnId + 1;
      conns := conns[c := NewConn(io)];
      connections := connections + {c};
      if io == BASE {
        ConnectEstablished(c);
      } else {
        QueueInLoop(io, Functor.ConnectEstablished(c));
      }
      StepKeepsInv(before, Accept(io));
    }

    /** handleClose up to the connection callback. */
    method HandleClose(l: LoopId, c: ConnId)
      requires l in loops && c in conns && Live(conns[c])
      modifies this`conns, this`loops
      ensures View() == BeginClose(old(View()), l, c)
    {
      var conn := conns[c];
      assert conn.state.Connected? || conn.state.Disconnecting?;
      conn := conn.(state := ConnState.Disconnected, history := conn.history + [Closed]);
      conns := conns[c := WithInterest(poller, conn, false, false)];
      loops := loops[l := loops[l].(closing := Some(c))];
    }

    method RemoveConnectionInLoop(c: ConnId)
      requires c in conns && c in connections && conns[c].loop in loops
      modifies this
      ensures View() == DoRemoveInLoop(old(View()), c)
    {
      var n := if c in connections then 1 else 0;
      connections := connections - {c};
      assert n == 1;
      conns := conns[c := conns[c].(history := conns[c].history + [Erased])];
      QueueInLoop(conns[c].loop, Functor.ConnectDestroyed(c));
    }

    /** The end of handleClose: the close callback, which is removeConnection. */
    method RemoveConnection(l: LoopId)
      requires Valid() && Enabled(View(), FinishClose(l))
      modifies this
      ensures Valid() && View() == Apply(old(View()), FinishClose(l))
    {
      ghost var before := View();
      var c := loops[l].closing.value;
      assert QueueOk(View(), c, l) && ConnOk(View(), c);
      loops := loops[l := loops[l].(closing := None)];
      if l == BASE {
        RemoveConnectionInLoop(c);
      } else {
        QueueInLoop(BASE, Functor.RemoveConnectionInLoop(c));
      }
      StepKeepsInv(before, FinishClose(l));
    }

    method ConnectDestroyed(c: ConnId)
      requires c in conns && conns[c].registered
      requires conns[c].state.Connected? || (conns[c].state.Disconnected? && Removable(poller, conns[c]))
      modifies this`conns
      ensures View() == DoDestroyed(old(View()), c)
    {
      var conn := conns[c];
      if conn.state.Connected? {
        conn := WithInterest(poller, conn, false, false).(state := ConnState.Disconnected);
      }
      assert Removable(poller, conn);
      conns := conns[c := conn.(registered := false, listed := false, history := conn.history + [Destroyed])];
    }

    method RunNextFunctor(l: LoopId)
      requires Valid() && Enabled(View(), RunFunctor(l))
      modifies this
      ensures Valid() && View() == Apply(old(View()), RunFunctor(l))
    {
      ghost var before := View();
      HeadFunctor(before, l);
      var f := loops[l].queue[0];
      assert ConnOk(before, f.conn);
      loops := loops[l := loops[l].(queue := loops[l].queue[1..])];
      match f {
        case ConnectEstablished(c) => ConnectEstablished(c);
        case RemoveConnectionInLoop(c) => RemoveConnectionInLoop(c);
        case ConnectDestroyed(c) => ConnectDestroyed(c);
        case ForceCloseInLoop(c) => if Live(conns[c]) { HandleClose(l, c); }
      }
      StepKeepsInv(before, RunFunctor(l));
    }

    method HandleNextCallback(l: LoopId, readZero: bool)
      requires Valid() && Enabled(View(), CallBack(l, readZero))
      modifies this
      ensures Valid() && View() == Apply(old(View()), CallBack(l, readZero))
    {
      ghost var before := View();
      var head := loops[l].todo[0];
      assert TodoOk(before, l, 0) && ConnOk(before, head.conn);
      loops := loops[l := loops[l].(todo := PopCallback(loops[l].todo))];
      if head.callbacks != [] && (head.callbacks[0].OnClose? || (head.callbacks[0].OnRead? && readZero)) {
        HandleClose(l, head.conn);
      }
      StepKeepsInv(before, CallBack(l, readZero));
    }

    /** startReadInLoop. */
    method BeginRead(c: ConnId)
      requires Valid() && Enabled(View(), StartRead(c))
      modifies `conns
      ensures Valid() && View() == Apply(old(View()), StartRead(c))
    {
      StepKeepsInv(View(), StartRead(c));
      var conn := conns[c];
      if !conn.wantsRead || !conn.reading {
        conn := WithInterest(poller, conn, true, conn.writing);
        conn := conn.(wantsRead := true);
      }
      conns := conns[c := conn];
    }

    /** stopReadInLoop, also of a closed connection. */
    method EndRead(c: ConnId)
      requires Valid() && Enabled(View(), StopRead(c))
      modifies `conns
      ensures Valid() && View() == Apply(old(View()), StopRead(c))
    {
      StepKeepsInv(View(), StopRead(c));
      var conn := conns[c];
      if conn.wantsRead || conn.reading {
        conn := WithInterest(poller, conn, false, conn.writing);
        conn := conn.(wantsRead := false);
      }
      conns := conns[c := conn];
    }

    method ForceClose(c: ConnId)
      requires Valid() && c in conns
      modifies this
      ensures Valid() && View() == Apply(old(View()), UserForceClose(c))
    {
      ghost var before := View();
      assert ConnOk(before, c);
      if Live(conns[c]) {
        conns := conns[c := conns[c].(state := ConnState.Disconnecting)];
        QueueInLoop(conns[c].loop, ForceCloseInLoop(c));
      }
      StepKeepsInv(before, UserForceClose(c));
    }
  }
}
