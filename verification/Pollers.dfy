/** muduo/net/poller: PollPoller (a dense vector of pollfds, swap-and-pop removal) and EPollPoller
    (registrations in the kernel) as refinements of one map from descriptor to interest. */
module Pollers {

  /** POLLIN | POLLPRI, POLLOUT and their combinations. */
  type Events = x: int | 0 <= x <= 7

  const NONE_EVENT: Events := 0

  class Channel {
    const fd: nat
    var events: Events
    var index: int

    constructor (fd: nat)
      ensures this.fd == fd && events == NONE_EVENT && index == -1
    {
      this.fd := fd;
      events, index := NONE_EVENT, -1;
    }
  }

  /** The interest that matters to the kernel: descriptors with a non-empty mask. */
  function NonEmpty(registered: map<nat, Events>): map<nat, Events> {
    map fd | fd in registered && registered[fd] != NONE_EVENT :: registered[fd]
  }

  ghost function Registered(channels: map<nat, Channel>): map<nat, Events>
    reads channels.Values
  {
    map fd | fd in channels :: channels[fd].events
  }

  predicate Maps(m: map<nat, Events>, fd: nat, events: Events) { fd in m && m[fd] == events }

  lemma SameEntries(a: map<nat, Events>, b: map<nat, Events>)
    requires forall fd, events :: Maps(a, fd, events) <==> Maps(b, fd, events)
    ensures a == b
  {
    forall fd: nat ensures (fd in a <==> fd in b) && (fd in a ==> a[fd] == b[fd]) {
      if fd in a {
        assert Maps(a, fd, a[fd]);
      }
      if fd in b {
        assert Maps(b, fd, b[fd]);
      }
    }
  }

  // ---- PollPoller ----

  datatype PollFd = PollFd(fd: int, events: Events)

  /** The descriptor a slot stands for; an ignored one is stored as -fd-1. */
  function SlotFd(p: PollFd): nat {
    if p.fd < 0 then -p.fd - 1 else p.fd
  }

  /** The descriptors given to poll(2), which skips negative ones. Of one with an empty mask it still reports a
      hang-up and an error. */
  function Polled(pollfds: seq<PollFd>): map<nat, Events> {
    if pollfds == [] then map[]
    else
      var n := |pollfds| - 1;
      var rest := Polled(pollfds[..n]);
      if pollfds[n].fd >= 0 then rest[pollfds[n].fd := pollfds[n].events] else rest
  }

  /** What poll(2) is asked to watch for. */
  function Watched(pollfds: seq<PollFd>): map<nat, Events> {
    NonEmpty(Polled(pollfds))
  }

  ghost predicate DistinctSlots(pollfds: seq<PollFd>) {
    forall i, j :: 0 <= i < j < |pollfds| ==> SlotFd(pollfds[i]) != SlotFd(pollfds[j])
  }

  /** Slot i gives fd to poll(2) with these events. */
  predicate Asks(pollfds: seq<PollFd>, i: int, fd: nat, events: Events) {
    0 <= i < |pollfds| && pollfds[i].fd == fd && pollfds[i].events == events
  }

  /** The polled map holds exactly what the slots ask for. */
  lemma {:induction false} PolledMeaning(pollfds: seq<PollFd>, fd: nat, events: Events)
    requires DistinctSlots(pollfds)
    ensures Maps(Polled(pollfds), fd, events) <==> exists i :: Asks(pollfds, i, fd, events)
    decreases |pollfds|
  {
    if pollfds != [] {
      var n := |pollfds| - 1;
      var front := pollfds[..n];
      PolledMeaning(front, fd, events);
      forall i ensures 0 <= i < n ==> (Asks(pollfds, i, fd, events) <==> Asks(front, i, fd, events)) {
      }
      if Asks(pollfds, n, fd, events) {
      } else if pollfds[n].fd == fd {
        forall i ensures !Asks(pollfds, i, fd, events) {
          assert 0 <= i < n ==> SlotFd(pollfds[i]) != SlotFd(pollfds[n]);
        }
      } else if exists i :: Asks(front, i, fd, events) {
        var i :| Asks(front, i, fd, events);
        assert Asks(pollfds, i, fd, events);
      }
    }
  }

  /** The channels in slots with returned events, in slot order. */
  function ActiveFds(pollfds: seq<PollFd>, revents: seq<nat>, n: nat): seq<(nat, nat)>
    requires n <= |pollfds| == |revents|
  {
    if n == 0 then []
    else
      var front := ActiveFds(pollfds, revents, n - 1);
      if revents[n - 1] > 0 then front + [(SlotFd(pollfds[n - 1]), revents[n - 1])] else front
  }

  /** The active list is that of exactly the slots with returned events, in slot order. */
  lemma {:induction false} ActiveFdsMeaning(pollfds: seq<PollFd>, revents: seq<nat>, n: nat) returns (slots: seq<nat>)
    requires n <= |pollfds| == |revents|
    ensures |slots| == |ActiveFds(pollfds, revents, n)|
    ensures forall k :: 0 <= k < |slots| ==>
              && slots[k] < n && revents[slots[k]] > 0
              && ActiveFds(pollfds, revents, n)[k] == (SlotFd(pollfds[slots[k]]), revents[slots[k]])
    ensures forall j, k :: 0 <= j < k < |slots| ==> slots[j] < slots[k]
    ensures forall i :: 0 <= i < n && revents[i] > 0 ==> i in slots
    decreases n
  {
    slots := [];
    if n > 0 {
      slots := ActiveFdsMeaning(pollfds, revents, n - 1);
      if revents[n - 1] > 0 {
        slots := slots + [n - 1];
      }
    }
  }

  class PollPoller {
    var pollfds: seq<PollFd>
    var channels: map<nat, Channel>

    /** Channel and slot point at each other. */
    ghost predicate ChannelOk(fd: nat)
      reads this, channels.Values
    {
      fd in channels ==>
        var c := channels[fd];
        && c.fd == fd
        && 0 <= c.index < |pollfds|
        && SlotFd(pollfds[c.index]) == fd
        && pollfds[c.index].events == c.events
        && (pollfds[c.index].fd < 0 ==> c.events == NONE_EVENT)
    }

    ghost predicate SlotOk(i: nat)
      reads this, channels.Values
    {
      i < |pollfds| ==> SlotFd(pollfds[i]) in channels && channels[SlotFd(pollfds[i])].index == i
    }

    ghost predicate Valid()
      reads this, channels.Values
    {
      (forall fd :: ChannelOk(fd)) && (forall i :: SlotOk(i))
    }

    lemma SlotsDistinct()
      requires Valid()
      ensures DistinctSlots(pollfds)
    {
      forall i, j | 0 <= i < j < |pollfds| ensures SlotFd(pollfds[i]) != SlotFd(pollfds[j]) {
        assert SlotOk(i) && SlotOk(j);
      }
    }

    /** The slot of fd holds a negated descriptor, which poll(2) skips. */
    predicate Ignored(fd: nat)
      reads this, channels.Values
    {
      fd in channels && 0 <= channels[fd].index < |pollfds| && pollfds[channels[fd].index].fd < 0
    }

    /** poll(2) is given exactly the registered channels that are not ignored, with their current masks. */
    lemma KernelList(fd: nat, events: Events)
      requires Valid()
      ensures Maps(Polled(pollfds), fd, events) <==> Maps(Registered(channels), fd, events) && !Ignored(fd)
    {
      SlotsDistinct();
      PolledMeaning(pollfds, fd, events);
      assert ChannelOk(fd);
      if Maps(Registered(channels), fd, events) && !Ignored(fd) {
        assert Asks(pollfds, channels[fd].index, fd, events);
      }
      forall i ensures Asks(pollfds, i, fd, events) ==> Maps(Registered(channels), fd, events) && !Ignored(fd) {
        if Asks(pollfds, i, fd, events) {
          assert SlotOk(i);
        }
      }
    }

    /** poll(2) is asked for exactly the current non-empty interest of the registered channels. */
    lemma KernelSeesInterest()
      requires Valid()
      ensures Watched(pollfds) == NonEmpty(Registered(channels))
    {
      var w, r := Watched(pollfds), NonEmpty(Registered(channels));
      forall fd: nat, events: Events ensures Maps(w, fd, events) <==> Maps(r, fd, events) {
        KernelList(fd, events);
        assert ChannelOk(fd);
      }
      SameEntries(w, r);
    }

    constructor ()
      ensures Valid() && channels == map[]
    {
      pollfds, channels := [], map[];
    }

    lemma OnlyFd(c: Channel)
      requires Valid() && (c.fd in channels ==> channels[c.fd] == c)
      ensures forall fd :: fd in channels && channels[fd] == c ==> fd == c.fd
      ensures forall i :: 0 <= i < |pollfds| ==> SlotFd(pollfds[i]) in channels
    {
      forall fd | fd in channels && channels[fd] == c ensures fd == c.fd {
        assert ChannelOk(fd);
      }
      forall i | 0 <= i < |pollfds| ensures SlotFd(pollfds[i]) in channels {
        assert SlotOk(i);
      }
    }

    /** Channel::update with the new mask. A channel with a negative index is new; another one must be
        registered: a channel removed before is not updated again. */
    method UpdateChannel(c: Channel, events: Events)
      requires Valid()
      requires if c.index < 0 then c.fd !in channels else c.fd in channels && channels[c.fd] == c
      modifies this, c
      ensures Valid() && channels == old(channels)[c.fd := c]
      ensures Registered(channels) == old(Registered(channels))[c.fd := events]
      ensures forall fd :: Ignored(fd) <==> if fd == c.fd then old(c.index) >= 0 && events == NONE_EVENT else old(Ignored(fd))
    {
      if c.index < 0 {
        AddChannel(c, events);
      } else {
        ChangeChannel(c, events);
      }
    }

    method AddChannel(c: Channel, events: Events)
      requires Valid() && c.index < 0 && c.fd !in channels
      modifies this, c
      ensures Valid() && channels == old(channels)[c.fd := c]
      ensures Registered(channels) == old(Registered(channels))[c.fd := events]
      ensures forall fd :: Ignored(fd) <==> fd != c.fd && old(Ignored(fd))
    {
      OnlyFd(c);
      c.events := events;
      pollfds := pollfds + [PollFd(c.fd, events)];
      c.index := |pollfds| - 1;
      channels := channels[c.fd := c];
      forall fd: nat ensures ChannelOk(fd) && (Ignored(fd) <==> fd != c.fd && old(Ignored(fd))) {
        assert old(ChannelOk(fd));
      }
      forall i: nat ensures SlotOk(i) {
        assert old(SlotOk(i));
      }
    }

    method ChangeChannel(c: Channel, events: Events)
      requires Valid() && c.index >= 0 && c.fd in channels && channels[c.fd] == c
      modifies this, c
      ensures Valid() && channels == old(channels)
      ensures Registered(channels) == old(Registered(channels))[c.fd := events]
      ensures forall fd :: Ignored(fd) <==> if fd == c.fd then events == NONE_EVENT else old(Ignored(fd))
    {
      assert ChannelOk(c.fd);
      OnlyFd(c);
      c.events := events;
      var idx := c.index;
      assert pollfds[idx].fd == c.fd || pollfds[idx].fd == -1 - c.fd;
      pollfds := pollfds[idx := PollFd(if events == NONE_EVENT then -1 - c.fd else c.fd, events)];
      forall fd: nat
        ensures ChannelOk(fd) && (Ignored(fd) <==> if fd == c.fd then events == NONE_EVENT else old(Ignored(fd)))
      {
        assert old(ChannelOk(fd));
      }
      forall i: nat ensures SlotOk(i) {
        assert old(SlotOk(i));
      }
    }

    method RemoveChannel(c: Channel)
      requires Valid()
      requires c.fd in channels && channels[c.fd] == c && c.events == NONE_EVENT
      requires 0 <= c.index < |pollfds| && pollfds[c.index].fd == -1 - c.fd
      modifies this, channels.Values
      ensures Valid() && channels == old(channels) - {c.fd}
      ensures Registered(channels) == old(Registered(channels)) - {c.fd}
      ensures forall fd :: Ignored(fd) <==> fd != c.fd && old(Ignored(fd))
    {
      if c.index == |pollfds| - 1 {
        PopLast(c);
      } else {
        SwapAndPop(c);
      }
    }

    method PopLast(c: Channel)
      requires Valid()
      requires c.fd in channels && channels[c.fd] == c && 0 <= c.index == |pollfds| - 1
      modifies `channels, `pollfds
      ensures Valid() && channels == old(channels) - {c.fd}
      ensures Registered(channels) == old(Registered(channels)) - {c.fd}
      ensures forall fd :: Ignored(fd) <==> fd != c.fd && old(Ignored(fd))
    {
      assert ChannelOk(c.fd) && SlotOk(c.index);
      channels := channels - {c.fd};
      pollfds := pollfds[..|pollfds| - 1];
      forall fd: nat ensures ChannelOk(fd) && (Ignored(fd) <==> fd != c.fd && old(Ignored(fd))) {
        assert old(ChannelOk(fd));
      }
      forall i: nat ensures SlotOk(i) {
        assert old(SlotOk(i));
      }
    }

    /** The last slot takes the place of the removed one, and its channel is told. */
    method SwapAndPop(c: Channel)
      requires Valid()
      requires c.fd in channels && channels[c.fd] == c && 0 <= c.index < |pollfds| - 1
      modifies this, channels.Values
      ensures Valid() && channels == old(channels) - {c.fd}
      ensures Registered(channels) == old(Registered(channels)) - {c.fd}
      ensures forall fd :: Ignored(fd) <==> fd != c.fd && old(Ignored(fd))
    {
      ghost var idx, n := c.index, |pollfds| - 1;
      assert ChannelOk(c.fd) && SlotOk(idx) && SlotOk(n);
      forall fd | fd in channels && channels[fd] == channels[SlotFd(pollfds[n])] ensures fd == SlotFd(pollfds[n]) {
        assert ChannelOk(fd) && ChannelOk(SlotFd(pollfds[n]));
      }
      MoveLastSlot(c);
      forall fd: nat ensures ChannelOk(fd) && (Ignored(fd) <==> fd != c.fd && old(Ignored(fd))) {
        assert old(ChannelOk(fd));
        if fd in channels && old(channels[fd].index) == n {
          assert fd == SlotFd(old(pollfds)[n]);
        }
      }
      forall i: nat ensures SlotOk(i) {
        assert old(SlotOk(i));
      }
    }

    /** The code: the map entry goes, the last slot is swapped in and popped. */
    method MoveLastSlot(c: Channel)
      requires c.fd in channels && channels[c.fd] == c && 0 <= c.index < |pollfds| - 1
      requires var last := SlotFd(pollfds[|pollfds| - 1]);
               && last in channels && last != c.fd
               && forall fd :: fd in channels && channels[fd] == channels[last] ==> fd == last
      modifies this, channels.Values
      ensures channels == old(channels) - {c.fd}
      ensures pollfds == old(pollfds[c.index := pollfds[|pollfds| - 1]][..|pollfds| - 1])
      ensures forall fd :: fd in channels ==>
                && channels[fd].events == old(channels[fd].events)
                && channels[fd].index == old(if fd == SlotFd(pollfds[|pollfds| - 1]) then c.index else channels[fd].index)
    {
      var idx, n := c.index, |pollfds| - 1;
      channels := channels - {c.fd};
      var channelAtEnd := pollfds[n].fd;
      pollfds := pollfds[idx := pollfds[n]];
      if channelAtEnd < 0 {
        channelAtEnd := -channelAtEnd - 1;
      }
      channels[channelAtEnd].index := idx;
      pollfds := pollfds[..n];
    }

    /** Collects the channels of the slots for which poll(2) returned events. `numEvents` is its
        result; it never reports on an ignored slot. */
    method FillActiveChannels(revents: seq<nat>, numEvents: nat) returns (active: seq<(Channel, nat)>)
      requires Valid() && |revents| == |pollfds|
      requires forall i :: 0 <= i < |revents| && revents[i] > 0 ==> pollfds[i].fd >= 0
      requires numEvents == |ActiveFds(pollfds, revents, |pollfds|)|
      ensures seq(|active|, i requires 0 <= i < |active| => (active[i].0.fd, active[i].1))
           == ActiveFds(pollfds, revents, |pollfds|)
      ensures forall i :: 0 <= i < |active| ==> active[i].0.fd in channels && channels[active[i].0.fd] == active[i].0
    {
      active := [];
      var left := numEvents;
      var i := 0;
      ghost var fds: seq<(nat, nat)> := [];
      while i < |pollfds| && left > 0
        invariant 0 <= i <= |pollfds| && |fds| == |active| == numEvents - left
        invariant fds == ActiveFds(pollfds, revents, i)
        invariant forall k :: 0 <= k < |active| ==> fds[k] == (active[k].0.fd, active[k].1)
        invariant forall k :: 0 <= k < |active| ==> active[k].0.fd in channels && channels[active[k].0.fd] == active[k].0
      {
        if revents[i] > 0 {
          left := left - 1;
          assert SlotOk(i) && ChannelOk(SlotFd(pollfds[i]));
          var channel := channels[pollfds[i].fd];
          active := active + [(channel, revents[i])];
          fds := fds + [(channel.fd, revents[i])];
        }
        i := i + 1;
      }
      if i < |pollfds| {
        NoMoreActive(pollfds, revents, i, |pollfds|);
      }
    }
  }

  lemma {:induction false} NoMoreActive(pollfds: seq<PollFd>, revents: seq<nat>, i: nat, n: nat)
    requires i <= n <= |pollfds| == |revents|
    ensures ActiveFds(pollfds, revents, i) <= ActiveFds(pollfds, revents, n)
    decreases n
  {
    if i < n {
      NoMoreActive(pollfds, revents, i, n - 1);
    }
  }

  // ---- EPollPoller ----

  const NEW: int := -1
  const ADDED: int := 1
  const DELETED: int := 2

  datatype CtlOp = Add | Mod | Del

  /** epoll's list after updateChannel: what is listed is taken off by an empty mask, what is not listed is added
      with any mask, also an empty one. */
  function Listed(kernel: map<nat, Events>, fd: nat, events: Events): map<nat, Events> {
    if fd in kernel && events == NONE_EVENT then kernel - {fd} else kernel[fd := events]
  }

  class EPollPoller {
    var channels: map<nat, Channel>
    /** The interest list the kernel keeps for epollfd_. */
    var kernel: map<nat, Events>

    ghost predicate ChannelOk(fd: nat)
      reads this, channels.Values
    {
      && (fd in kernel ==> fd in channels)
      && (fd in channels ==>
            var c := channels[fd];
            && c.fd == fd
            && (c.index == ADDED || c.index == DELETED)
            && (fd in kernel <==> c.index == ADDED)
            && (fd in kernel ==> kernel[fd] == c.events)
            && (fd !in kernel ==> c.events == NONE_EVENT))
    }

    ghost predicate Valid()
      reads this, channels.Values
    {
      forall fd :: ChannelOk(fd)
    }

    /** Of the descriptors epoll lists, those with a non-empty mask are exactly the current non-empty interest of
        the registered channels. */
    lemma KernelSeesInterest()
      requires Valid()
      ensures NonEmpty(kernel) == NonEmpty(Registered(channels))
    {
      forall fd: nat ensures fd in NonEmpty(kernel) <==> fd in NonEmpty(Registered(channels)) {
        assert ChannelOk(fd);
      }
      forall fd: nat | fd in NonEmpty(kernel) ensures kernel[fd] == channels[fd].events {
        assert ChannelOk(fd);
      }
    }

    constructor ()
      ensures Valid() && channels == map[] && kernel == map[]
    {
      channels, kernel := map[], map[];
    }

    /** update(): epoll_ctl fails when an added descriptor is present already or a modified or deleted
        one is absent, which the code treats as fatal or logs; the precondition is that it does not. */
    method Update(op: CtlOp, c: Channel)
      requires if op.Add? then c.fd !in kernel else c.fd in kernel
      modifies this`kernel
      ensures kernel == if op.Del? then old(kernel) - {c.fd} else old(kernel)[c.fd := c.events]
    {
      kernel := if op.Del? then kernel - {c.fd} else kernel[c.fd := c.events];
    }

    method UpdateChannel(c: Channel, events: Events)
      requires Valid()
      requires if c.index == NEW then c.fd !in channels else c.fd in channels && channels[c.fd] == c
      modifies this, c
      ensures Valid() && channels == old(channels)[c.fd := c]
      ensures Registered(channels) == old(Registered(channels))[c.fd := events]
      ensures kernel == Listed(old(kernel), c.fd, events)
    {
      assert ChannelOk(c.fd);
      assert forall fd :: fd in channels && channels[fd] == c ==> fd == c.fd by {
        forall fd | fd in channels && channels[fd] == c ensures fd == c.fd {
          assert ChannelOk(fd);
        }
      }
      if c.index == NEW || c.index == DELETED {
        AddToList(c, events);
      } else {
        ChangeListed(c, events);
      }
    }

    /** A new or deleted channel. */
    method AddToList(c: Channel, events: Events)
      requires Valid() && (c.index == NEW || c.index == DELETED)
      requires if c.index == NEW then c.fd !in channels else c.fd in channels && channels[c.fd] == c
      requires forall fd :: fd in channels && channels[fd] == c ==> fd == c.fd
      modifies this, c
      ensures Valid() && channels == old(channels)[c.fd := c]
      ensures Registered(channels) == old(Registered(channels))[c.fd := events]
      ensures kernel == old(kernel)[c.fd := events] && c.fd !in old(kernel)
    {
      assert ChannelOk(c.fd);
      c.events := events;
      if c.index == NEW {
        channels := channels[c.fd := c];
      }
      c.index := ADDED;
      Update(Add, c);
      assert channels == old(channels)[c.fd := c];
      forall fd: nat ensures ChannelOk(fd) {
        assert old(ChannelOk(fd));
      }
    }

    /** A channel that is in the list. */
    method ChangeListed(c: Channel, events: Events)
      requires Valid() && c.index == ADDED && c.fd in channels && channels[c.fd] == c
      requires forall fd :: fd in channels && channels[fd] == c ==> fd == c.fd
      modifies `kernel, c
      ensures Valid() && channels == old(channels)[c.fd := c]
      ensures Registered(channels) == old(Registered(channels))[c.fd := events]
      ensures kernel == Listed(old(kernel), c.fd, events)
    {
      assert ChannelOk(c.fd);
      c.events := events;
      if events == NONE_EVENT {
        Update(Del, c);
        c.index := DELETED;
      } else {
        Update(Mod, c);
      }
      forall fd: nat ensures ChannelOk(fd) {
        assert old(ChannelOk(fd));
      }
    }

    method RemoveChannel(c: Channel)
      requires Valid()
      requires c.fd in channels && channels[c.fd] == c && c.events == NONE_EVENT
      modifies this, c
      ensures Valid() && channels == old(channels) - {c.fd} && c.index == NEW
      ensures Registered(channels) == old(Registered(channels)) - {c.fd} && kernel == old(kernel) - {c.fd}
    {
      assert ChannelOk(c.fd);
      assert forall fd :: fd in channels && channels[fd] == c ==> fd == c.fd by {
        forall fd | fd in channels && channels[fd] == c ensures fd == c.fd {
          assert ChannelOk(fd);
        }
      }
      channels := channels - {c.fd};
      if c.index == ADDED {
        Update(Del, c);
      }
      c.index := NEW;
      forall fd: nat ensures ChannelOk(fd) {
        assert old(ChannelOk(fd));
      }
    }
  }

  // ---- Both at once ----

  datatype PollerOp = Update(fd: nat, events: Events) | Remove(fd: nat)

  /** The abstract poller. */
  function Change(before: map<nat, Events>, op: PollerOp): map<nat, Events> {
    match op
    case Update(fd, events) => before[fd := events]
    case Remove(fd) => before - {fd}
  }

  function Interest(ops: seq<PollerOp>): map<nat, Events> {
    if ops == [] then map[] else Change(Interest(ops[..|ops| - 1]), ops[|ops| - 1])
  }

  /** The descriptors whose interest was last set to nothing by an update after the first one. */
  function Parked(ops: seq<PollerOp>): set<nat> {
    if ops == [] then {}
    else
      var front := ops[..|ops| - 1];
      match ops[|ops| - 1]
      case Update(fd, events) =>
        if fd in Interest(front) && events == NONE_EVENT then Parked(front) + {fd} else Parked(front) - {fd}
      case Remove(fd) => Parked(front) - {fd}
  }

  /** The list a PollPoller gives to poll(2). */
  function PollList(ops: seq<PollerOp>): map<nat, Events> {
    map fd | fd in Interest(ops) && fd !in Parked(ops) :: Interest(ops)[fd]
  }

  /** The list an EPollPoller keeps in the kernel. */
  function EPollList(ops: seq<PollerOp>): map<nat, Events> {
    if ops == [] then map[]
    else
      var front := EPollList(ops[..|ops| - 1]);
      match ops[|ops| - 1]
      case Update(fd, events) => Listed(front, fd, events)
      case Remove(fd) => front - {fd}
  }

  /** The assertions removeChannel makes about the channel of fd. */
  predicate Removable(p: PollPoller, fd: nat)
    reads p, p.channels.Values
  {
    && fd in p.channels && p.channels[fd].events == NONE_EVENT
    && 0 <= p.channels[fd].index < |p.pollfds| && p.pollfds[p.channels[fd].index].fd == -1 - fd
  }

  lemma RemovableIffIgnored(p: PollPoller, fd: nat)
    requires p.Valid()
    ensures Removable(p, fd) <==> p.Ignored(fd)
  {
    assert p.ChannelOk(fd);
  }

  /** The objects of a poller: itself and its channels. */
  ghost function Objects(channels: map<nat, Channel>): set<object> {
    set fd | fd in channels :: channels[fd] as object
  }

  method PollStep(p: PollPoller, op: PollerOp)
    requires p.Valid() && (op.Remove? ==> Removable(p, op.fd))
    requires op.Update? && op.fd in p.channels ==> p.channels[op.fd].fd == op.fd && p.channels[op.fd].index >= 0
    modifies p, Objects(p.channels)
    ensures p.Valid() && fresh(Objects(p.channels) - old(Objects(p.channels)))
    ensures Registered(p.channels) == Change(old(Registered(p.channels)), op)
    ensures forall fd :: p.Ignored(fd) <==>
              if fd == op.fd then op.Update? && op.fd in old(p.channels) && op.events == NONE_EVENT else old(p.Ignored(fd))
  {
    match op
    case Update(fd, events) =>
      if fd in p.channels {
        p.UpdateChannel(p.channels[fd], events);
      } else {
        var c := new Channel(fd);
        p.UpdateChannel(c, events);
      }
    case Remove(fd) =>
      assert p.ChannelOk(fd);
      p.RemoveChannel(p.channels[fd]);
  }

  method EPollStep(e: EPollPoller, op: PollerOp)
    requires e.Valid()
    requires op.Remove? ==> op.fd in e.channels && e.channels[op.fd].events == NONE_EVENT
    modifies e, Objects(e.channels)
    ensures e.Valid() && fresh(Objects(e.channels) - old(Objects(e.channels)))
    ensures Registered(e.channels) == Change(old(Registered(e.channels)), op)
    ensures e.kernel == if op.Update? then Listed(old(e.kernel), op.fd, op.events) else old(e.kernel) - {op.fd}
  {
    assert e.ChannelOk(op.fd);
    match op
    case Update(fd, events) =>
      if fd in e.channels {
        e.UpdateChannel(e.channels[fd], events);
      } else {
        var c := new Channel(fd);
        e.UpdateChannel(c, events);
      }
    case Remove(fd) => e.RemoveChannel(e.channels[fd]);
  }

  lemma PrefixStep(ops: seq<PollerOp>, n: nat)
    requires n < |ops|
    ensures Interest(ops[..n + 1]) == Change(Interest(ops[..n]), ops[n])
    ensures forall fd :: fd in Parked(ops[..n + 1]) <==>
              if fd == ops[n].fd then ops[n].Update? && fd in Interest(ops[..n]) && ops[n].events == NONE_EVENT
              else fd in Parked(ops[..n])
    ensures EPollList(ops[..n + 1]) ==
              if ops[n].Update? then Listed(EPollList(ops[..n]), ops[n].fd, ops[n].events)
              else EPollList(ops[..n]) - {ops[n].fd}
  {
    assert ops[..n + 1][..n] == ops[..n];
  }

  /** removeChannel's demand in terms of the abstract poller. */
  predicate MayRemove(ops: seq<PollerOp>, i: nat)
    requires i < |ops|
  {
    ops[i].Remove? ==> ops[i].fd in Parked(ops[..i])
  }

  /** A parked descriptor is registered and interested in nothing; the converse fails for one that has been
      interested in nothing from its first update on. */
  lemma {:induction false} ParkedIsIdle(ops: seq<PollerOp>)
    ensures forall fd :: fd in Parked(ops) ==> fd in Interest(ops) && Interest(ops)[fd] == NONE_EVENT
  {
    if ops != [] {
      ParkedIsIdle(ops[..|ops| - 1]);
    }
  }

  /** The same for EPollPoller: registered, and interested in nothing. */
  predicate MayDelete(ops: seq<PollerOp>, i: nat)
    requires i < |ops|
  {
    ops[i].Remove? ==> ops[i].fd in Interest(ops[..i]) && Interest(ops[..i])[ops[i].fd] == NONE_EVENT
  }

  /** Whatever epoll lists is registered, with its current mask. */
  lemma {:induction false} EPollListIsRegistered(ops: seq<PollerOp>)
    ensures forall fd :: fd in EPollList(ops) ==> fd in Interest(ops) && EPollList(ops)[fd] == Interest(ops)[fd]
  {
    if ops != [] {
      EPollListIsRegistered(ops[..|ops| - 1]);
    }
  }

  /** A descriptor registered with an empty mask and then removed: PollPoller's assertion rejects the removal, and
      EPollPoller accepts it. */
  lemma EmptyFromTheStart(fd: nat)
    ensures var ops := [Update(fd, NONE_EVENT), Remove(fd)];
            MayRemove(ops, 0) && MayDelete(ops, 0) && !MayRemove(ops, 1) && MayDelete(ops, 1)
  {
    var ops := [Update(fd, NONE_EVENT), Remove(fd)];
    assert ops[..0] == [] && ops[..1] == [ops[0]];
    PrefixStep(ops, 0);
  }

  /** Two updates to an empty mask in a row: PollPoller hides the descriptor, EPollPoller lists it again. */
  lemma EmptiedTwice(fd: nat, events: Events)
    requires events != NONE_EVENT
    ensures var ops := [Update(fd, events), Update(fd, NONE_EVENT), Update(fd, NONE_EVENT)];
            PollList(ops) == map[] && EPollList(ops) == map[fd := NONE_EVENT]
  {
    var ops := [Update(fd, events), Update(fd, NONE_EVENT), Update(fd, NONE_EVENT)];
    assert ops[..0] == [] && ops[..3] == ops;
    PrefixStep(ops, 0);
    PrefixStep(ops, 1);
    PrefixStep(ops, 2);
  }

  /** A PollPoller carries out operations exactly up to the first removal of a descriptor not parked, and gives
      poll(2) the registered descriptors that are not parked. */
  method RunPoll(ops: seq<PollerOp>) returns (p: PollPoller, done: nat)
    ensures p.Valid() && done <= |ops| && Registered(p.channels) == Interest(ops[..done])
    ensures Polled(p.pollfds) == PollList(ops[..done])
    ensures forall i :: 0 <= i < done ==> MayRemove(ops, i)
    ensures done < |ops| ==> !MayRemove(ops, done) && !Removable(p, ops[done].fd)
  {
    p, done := PollUntilRejected(ops);
    PolledIsPollList(p, ops[..done]);
  }

  /** The poller has carried out exactly these operations. */
  ghost predicate Follows(p: PollPoller, ops: seq<PollerOp>)
    reads p, p.channels.Values
  {
    p.Valid() && Registered(p.channels) == Interest(ops) && forall fd :: p.Ignored(fd) <==> fd in Parked(ops)
  }

  /** Carries out operation n, unless its assertions reject it. */
  method PollNext(p: PollPoller, ops: seq<PollerOp>, n: nat) returns (ok: bool)
    requires n < |ops| && Follows(p, ops[..n])
    modifies p, Objects(p.channels)
    ensures ok == MayRemove(ops, n)
    ensures Follows(p, ops[..if ok then n + 1 else n]) && fresh(Objects(p.channels) - old(Objects(p.channels)))
    ensures !ok ==> !Removable(p, ops[n].fd)
  {
    var op := ops[n];
    PrefixStep(ops, n);
    assert p.ChannelOk(op.fd);
    RemovableIffIgnored(p, op.fd);
    assert op.fd in p.channels <==> op.fd in Registered(p.channels);
    ok := op.Remove? ==> Removable(p, op.fd);
    if ok {
      PollStep(p, op);
    }
  }

  method PollUntilRejected(ops: seq<PollerOp>) returns (p: PollPoller, done: nat)
    ensures done <= |ops| && Follows(p, ops[..done])
    ensures forall i :: 0 <= i < done ==> MayRemove(ops, i)
    ensures done < |ops| ==> !MayRemove(ops, done) && !Removable(p, ops[done].fd)
  {
    p := new PollPoller();
    done := 0;
    var ok := true;
    while done < |ops| && ok
      invariant fresh(p) && fresh(Objects(p.channels)) && done <= |ops| && Follows(p, ops[..done])
      invariant forall i :: 0 <= i < done ==> MayRemove(ops, i)
      invariant !ok ==> done < |ops| && !MayRemove(ops, done) && !Removable(p, ops[done].fd)
      decreases |ops| - done, ok
    {
      ok := PollNext(p, ops, done);
      if ok {
        done := done + 1;
      }
    }
  }

  lemma PolledIsPollList(p: PollPoller, ops: seq<PollerOp>)
    requires Follows(p, ops)
    ensures Polled(p.pollfds) == PollList(ops)
  {
    forall fd: nat, events: Events ensures Maps(Polled(p.pollfds), fd, events) <==> Maps(PollList(ops), fd, events) {
      p.KernelList(fd, events);
    }
    SameEntries(Polled(p.pollfds), PollList(ops));
  }

  /** An EPollPoller carries out operations exactly up to the first removal of a descriptor that is not registered
      or has a non-empty mask. */
  method RunEPoll(ops: seq<PollerOp>) returns (e: EPollPoller, done: nat)
    ensures e.Valid() && done <= |ops| && Registered(e.channels) == Interest(ops[..done])
    ensures e.kernel == EPollList(ops[..done])
    ensures forall i :: 0 <= i < done ==> MayDelete(ops, i)
    ensures done < |ops| ==> !MayDelete(ops, done)
  {
    e := new EPollPoller();
    done := 0;
    while done < |ops|
      invariant fresh(e) && fresh(Objects(e.channels)) && e.Valid() && done <= |ops|
      invariant Registered(e.channels) == Interest(ops[..done]) && e.kernel == EPollList(ops[..done])
      invariant forall i :: 0 <= i < done ==> MayDelete(ops, i)
    {
      PrefixStep(ops, done);
      var op := ops[done];
      assert op.fd in e.channels <==> op.fd in Registered(e.channels);
      if op.Remove? && (op.fd !in e.channels || e.channels[op.fd].events != NONE_EVENT) {
        break;
      }
      EPollStep(e, op);
      done := done + 1;
    }
  }

  /** Every list of operations is carried out by both pollers exactly up to the first removal of a descriptor
      that is not parked, and the two kernels are asked to watch the same map: the abstract one. */
  method Lockstep(ops: seq<PollerOp>) returns (p: PollPoller, e: EPollPoller, done: nat)
    ensures p.Valid() && e.Valid() && done <= |ops|
    ensures Watched(p.pollfds) == NonEmpty(e.kernel) == NonEmpty(Interest(ops[..done]))
    ensures Polled(p.pollfds) == PollList(ops[..done]) && e.kernel == EPollList(ops[..done])
    ensures forall i :: 0 <= i < done ==> MayRemove(ops, i)
    ensures done < |ops| ==> !MayRemove(ops, done) && !Removable(p, ops[done].fd)
  {
    p, done := RunPoll(ops);
    p.KernelSeesInterest();
    var front := ops[..done];
    var reached;
    e, reached := RunEPoll(front);
    if reached < done {
      assert MayRemove(ops, reached) && front[..reached] == ops[..reached];
      ParkedIsIdle(ops[..reached]);
    }
    assert front[..reached] == front;
    e.KernelSeesInterest();
  }
}
