/** What each event does to ipcd's tables, as an observer of connections, routes and queues sees it. */
module BrokerEvents {
  import opened Bytes
  import opened Codec
  import opened BrokerState
  import opened BrokerInvariants
  import opened BrokerRuns

  // ---- Connections end ----

  /** A connection that hangs up is gone, and its daemons are free; nothing else is touched. */
  lemma HangUpVanishes(p: Params, events: seq<Event>, fd: int)
    ensures var s, s' := Run(p, events), Run(p, events + [HungUp(fd)]);
      if fd in s.conns then Vanished(s, s', fd) else s' == s
  {
    RunSnoc(p, events, HungUp(fd));
    if fd in Run(p, events).conns {
      CloseVanishes(Run(p, events), fd, Run(p, events + [HungUp(fd)]));
    }
  }

  /** `k` bytes of the connection's queue are taken by the kernel; EPOLLOUT stays armed exactly if some are left. */
  ghost predicate BytesLeave(s: State, s': State, fd: int, k: nat)
    requires fd in s.conns
  {
    var c := s.conns[fd];
    && k <= |c.tx|
    && s' == s.(conns := s'.conns, interest := s'.interest)
    && s'.conns == s.conns[fd := Conn(c.tx[k..], c.sent + c.tx[..k], c.frames)]
    && s'.interest == s.interest[fd := k < |c.tx|]
  }

  /** A send that fails before everything is taken ends the connection; any other takes what the kernel grants. */
  lemma FlushTakesOrVanishes(p: Params, events: seq<Event>, fd: int, n: nat, failed: bool)
    ensures var s, s' := Run(p, events), Run(p, events + [Flushed(fd, n, failed)]);
      if fd !in s.conns then s' == s
      else if failed && n < |s.conns[fd].tx| then Vanished(s, s', fd)
      else BytesLeave(s, s', fd, if n < |s.conns[fd].tx| then n else |s.conns[fd].tx|)
  {
    RunSnoc(p, events, Flushed(fd, n, failed));
    FlushedIs(Run(p, events), fd, n, failed, Run(p, events + [Flushed(fd, n, failed)]));
  }

  lemma FlushedIs(s: State, fd: int, n: nat, failed: bool, s': State)
    requires s' == Writable(s, fd, n, failed)
    ensures if fd !in s.conns then s' == s
      else if failed && n < |s.conns[fd].tx| then Vanished(s, s', fd)
      else BytesLeave(s, s', fd, if n < |s.conns[fd].tx| then n else |s.conns[fd].tx|)
  {
    if fd in s.conns && failed && n < |s.conns[fd].tx| {
      CloseVanishes(s, fd, s');
    }
  }

  // ---- Connections begin ----

  /** Everybody waiting is let in until the maximum is reached; who was there stays as he was. */
  ghost predicate Admits(p: Params, s: State, s': State, fds: seq<nat>) {
    && s' == s.(conns := s'.conns, interest := s'.interest)
    && (forall fd :: fd in s.conns ==> fd in s'.conns && s'.conns[fd] == s.conns[fd])
    && (forall fd :: fd in s.interest ==> fd in s'.interest && s'.interest[fd] == s.interest[fd])
    && (forall fd :: fd in s'.conns && fd !in s.conns ==>
          fd in fds && s'.conns[fd] == Conn([], [], []) && fd in s'.interest && !s'.interest[fd])
    && (forall fd :: fd in fds ==> fd in s'.conns || |s'.conns| >= p.maxConnections)
  }

  lemma AcceptAdmits(p: Params, events: seq<Event>, fds: seq<nat>)
    ensures Admits(p, Run(p, events), Run(p, events + [Accepted(fds)]), fds)
  {
    RunKeepsInv(p, events);
    RunSnoc(p, events, Accepted(fds));
    AllAdmitted(p, Run(p, events), fds);
  }

  lemma {:induction false} AllAdmitted(p: Params, s: State, fds: seq<nat>)
    requires s.interest.Keys == s.conns.Keys
    ensures Admits(p, s, Accept(p, s, fds), fds)
    ensures Accept(p, s, fds).interest.Keys == Accept(p, s, fds).conns.Keys
  {
    if fds == [] {
      NobodyAdmitted(p, s);
    } else {
      var front, fd := fds[..|fds| - 1], fds[|fds| - 1];
      AllAdmitted(p, s, front);
      assert fds == front + [fd];
      OneMoreAdmitted(p, s, Accept(p, s, front), Accept(p, s, fds), front, fd, fds);
    }
  }

  lemma NobodyAdmitted(p: Params, s: State)
    ensures Admits(p, s, s, [])
  {
  }

  lemma OneMoreAdmitted(p: Params, s: State, s1: State, s2: State, front: seq<nat>, fd: nat, fds: seq<nat>)
    requires Admits(p, s, s1, front) && fds == front + [fd] && s1.interest.Keys == s1.conns.Keys
    requires s2 == if |s1.conns| >= p.maxConnections || fd in s1.interest then s1
      else s1.(conns := s1.conns[fd := Conn([], [], [])], interest := s1.interest[fd := false])
    ensures Admits(p, s, s2, fds)
  {
    if s2 != s1 {
      OneMore(s1.conns, fd, Conn([], [], []));
    }
  }

  // ---- A message comes in ----

  /** The source of `m` is bound to `fd`: as it was if it was bound here, otherwise anew and unready. */
  ghost predicate BoundBy(s: State, s': State, fd: int, m: Message) {
    && s'.routes.Keys == s.routes.Keys + {m.src}
    && (forall d :: d in s.routes && d != m.src ==> s'.routes[d] == s.routes[d])
    && s'.routes[m.src] ==
         if m.src !in s.routes then Route(fd, false, 1, 0)
         else if s.routes[m.src].fd == fd then s.routes[m.src]
         else Route(fd, false, (s.routes[m.src].generation + 1) % 0x1_0000_0000, 0)
  }

  /** The source of `m` is bound to another connection. */
  predicate Hijacks(s: State, fd: int, m: Message) {
    m.src in s.routes && s.routes[m.src].fd >= 0 && s.routes[m.src].fd != fd
  }

  lemma BindIs(s: State, fd: int, m: Message, s1: State, bound: bool)
    requires RoutesLive(s) && fd in s.conns && Bind(s, m.src, fd) == (s1, bound)
    ensures bound <==> !Hijacks(s, fd, m)
    ensures bound ==> BoundBy(s, s1, fd, m) && s1 == s.(routes := s1.routes, acquired := s1.acquired)
  {
  }

  /** The state in which a message that is taken is dispatched. */
  ghost predicate Recorded(s: State, s2: State, fd: int, m: Message) {
    && BoundBy(s, s2, fd, m) && s2.inputs == s.inputs + [Input(fd, Frame(m), m)]
    && s2 == s.(routes := s2.routes, acquired := s2.acquired, inputs := s2.inputs)
  }

  lemma OneReceived(p: Params, s: State, fd: int, m: Message, s': State) returns (s2: State)
    requires Inv(p, s) && fd in s.conns && Sendable(m) && s' == Receive(p, s, fd, [Frame(m)], true)
    ensures Hijacks(s, fd, m) ==> Vanished(s, s', fd)
    ensures !Hijacks(s, fd, m) ==> Recorded(s, s2, fd, m) && s' == Dispatch(p, s2, m, Some(|s.inputs|))
    ensures !Hijacks(s, fd, m) ==> Inv(p, s') && s'.conns.Keys == s.conns.Keys
  {
    TakesFrame(p, s, fd, m);
    var (s1, bound) := Bind(s, m.src, fd);
    BindIs(s, fd, m, s1, bound);
    s2 := s1.(inputs := s1.inputs + [Input(fd, Frame(m), m)]);
    if bound {
      IngressKeepsInv(p, s, fd, Frame(m));
      ReceivedOne(p, s, fd, Frame(m), true, Dispatch(p, s2, m, Some(|s1.inputs|)), s');
    } else {
      CloseVanishes(s, fd, s');
    }
  }

  /**
   * A message from a daemon bound elsewhere ends the connection it comes on; any other binds its source, which keeps
   * readiness and version if it was bound here already, and is recorded.
   */
  lemma MessageBinds(p: Params, events: seq<Event>, fd: int, m: Message)
    requires fd in Run(p, events).conns && Sendable(m)
    ensures var s, s' := Run(p, events), Run(p, events + [Received(fd, [Frame(m)], true)]);
      if Hijacks(s, fd, m) then Vanished(s, s', fd)
      else BoundBy(s, s', fd, m) && s'.inputs == s.inputs + [Input(fd, Frame(m), m)] && s'.conns.Keys == s.conns.Keys
  {
    RunKeepsInv(p, events);
    RunSnoc(p, events, Received(fd, [Frame(m)], true));
    var s' := Run(p, events + [Received(fd, [Frame(m)], true)]);
    var s2 := OneReceived(p, Run(p, events), fd, m, s');
    DispatchKeepsRoutes(p, s2, m, Some(|Run(p, events).inputs|));
  }

  /** A frame that is not that of any message ends the connection. */
  lemma GarbageVanishes(p: Params, events: seq<Event>, fd: int, frame: seq<byte>, ok: bool)
    requires fd in Run(p, events).conns && forall m :: Sendable(m) ==> frame != Frame(m)
    ensures Vanished(Run(p, events), Run(p, events + [Received(fd, [frame], ok)]), fd)
  {
    var s := Run(p, events);
    RunSnoc(p, events, Received(fd, [frame], ok));
    var rc := Decode(p.host, Some(frame));
    if rc.DecodeOk? {
      DecodeIsInverse(p.host, frame, rc.msg);
    }
    assert Ingress(p, s, fd, frame) == (s, false);
    CloseVanishes(s, fd, Run(p, events + [Received(fd, [frame], ok)]));
  }

  /** A daemon whose connection hung up is bound by its next message on another one, a generation later. */
  lemma BoundAgain(p: Params, events: seq<Event>, fd: int, x: int, m: Message, later: seq<Event>)
    requires fd in Run(p, events).conns && x in Run(p, events).conns && x != fd && Sendable(m)
    requires m.src in Run(p, events).routes && Run(p, events).routes[m.src].fd == fd
    requires later == events + [HungUp(fd)]
    ensures BoundAnew(Run(p, events), Run(p, later + [Received(x, [Frame(m)], true)]), x, m.src)
  {
    RunKeepsInv(p, events);
    HangUpVanishes(p, events, fd);
    FreeAfter(Run(p, events), Run(p, later), fd, x, m);
    MessageBinds(p, later, x, m);
    AnewAfter(Run(p, events), Run(p, later), Run(p, later + [Received(x, [Frame(m)], true)]), fd, x, m);
  }

  /** Daemon `d` is bound to the open connection `x`, unready, at no version and a generation later. */
  ghost predicate BoundAnew(s: State, s': State, x: int, d: byte) {
    && x in s'.conns && d in s.routes && d in s'.routes
    && s'.routes[d] == Route(x, false, (s.routes[d].generation + 1) % 0x1_0000_0000, 0)
  }

  lemma FreeAfter(s: State, s': State, fd: int, x: int, m: Message)
    requires Vanished(s, s', fd) && x in s.conns && x != fd && m.src in s.routes && s.routes[m.src].fd == fd
    ensures x in s'.conns && !Hijacks(s', x, m)
  {
  }

  lemma AnewAfter(s: State, s1: State, s2: State, fd: int, x: int, m: Message)
    requires Vanished(s, s1, fd) && BoundBy(s1, s2, x, m) && x in s2.conns && x >= 0
    requires m.src in s.routes && s.routes[m.src].fd == fd
    ensures BoundAnew(s, s2, x, m.src)
  {
  }

  // ---- And is passed on ----

  /** The daemons on connection `x` other than the sender, ipcd (1) and the broadcast address (255). */
  ghost function Others(s: State, src: byte, x: int): set<byte> {
    set d: byte | d in s.routes && s.routes[d].fd == x && d != src && d != 1 && d != 255
  }

  /** What a message for other daemons leaves on their queues, with the routes as they are after binding its source. */
  ghost predicate PassedOn(p: Params, s: State, s': State, m: Message, origin: Option<nat>) {
    var q := Queued(Frame(m), origin);
    if m.dst == 255 || m.flags / 8 % 2 == 1 then
      forall x :: x in s.conns ==>
        x in s'.conns && CopiesQueued(s.conns[x], q, p.txCapacity, |Others(s', m.src, x)|, s'.conns[x])
    else
      var x := FdOf(s'.routes, m.dst);
      if x in s.conns && |s.conns[x].tx| + |Frame(m)| <= p.txCapacity
      then
        && x in s'.conns && s'.conns[x].frames == s.conns[x].frames + [q]
        && s'.conns - {x} == s.conns - {x} && s'.interest == s.interest[x := true]
      else s'.conns == s.conns && s'.interest == s.interest
  }

  /**
   * A message that is taken goes to ipcd's own services if it is a ClientHello (1), a SyncRequest (3) or a RuntimeReady
   * (5), and to nobody else; otherwise to all daemons it is for, and not to the services.
   */
  lemma MessageIsPassedOn(p: Params, events: seq<Event>, fd: int, m: Message)
    requires var s := Run(p, events); fd in s.conns && Sendable(m) && !Hijacks(s, fd, m)
    ensures var s, s' := Run(p, events), Run(p, events + [Received(fd, [Frame(m)], true)]);
      if m.cmd == 1 || m.cmd == 3 || m.cmd == 5
      then s'.posted == s.posted + [Posted(m, Times(s', m.src))] && s'.conns == s.conns && s'.interest == s.interest
      else s'.posted == s.posted && PassedOn(p, s, s', m, Some(|s.inputs|))
  {
    RunKeepsInv(p, events);
    var s := Run(p, events);
    RunSnoc(p, events, Received(fd, [Frame(m)], true));
    var s' := Run(p, events + [Received(fd, [Frame(m)], true)]);
    var s2 := OneReceived(p, s, fd, m, s');
    if !IsHandshake(m.cmd) {
      EgressIsQueueing(p, s2, m, Some(|s.inputs|));
      RecordedKeepsInv(p, s, s2, fd, m);
      EgressPassesOn(p, s, s2, s', m, Some(|s.inputs|));
    }
  }

  lemma RecordedKeepsInv(p: Params, s: State, s2: State, fd: int, m: Message)
    requires Inv(p, s) && fd in s.conns && !Hijacks(s, fd, m) && Recorded(s, s2, fd, m)
    ensures Traffic(p, s2) && RoutesLive(s2) && Armed(s2)
  {
    RecordedIsSticky(s, s2, fd, m);
    TrafficPersists(p, s, s2, {});
  }

  lemma RecordedIsSticky(s: State, s2: State, fd: int, m: Message)
    requires RoutesLive(s) && Armed(s) && fd in s.conns && !Hijacks(s, fd, m) && Recorded(s, s2, fd, m)
    ensures Sticky(s.routes, s2.routes, {}) && RoutesLive(s2) && Armed(s2)
  {
  }

  lemma EgressPassesOn(p: Params, s: State, s2: State, s': State, m: Message, origin: Option<nat>)
    requires Traffic(p, s2) && RoutesLive(s2) && Armed(s2) && Fits(m)
    requires s2.conns == s.conns && s2.interest == s.interest && s'.routes == s2.routes
    requires s' == Egress(p, s2, m, origin)
    ensures PassedOn(p, s, s', m, origin)
  {
    if IsBroadcast(m) {
      forall x | x in s.conns
        ensures CopiesQueued(s.conns[x], Queued(Frame(m), origin), p.txCapacity, |Others(s', m.src, x)|, s'.conns[x])
      {
        assert Others(s', m.src, x) == Audience(s'.routes, m.src, x);
        assert ConnOk(p, s2.routes, s2.inputs, x, s2.conns[x]);
        CopiesThatFit(s.conns[x], Queued(Frame(m), origin), p.txCapacity, |Audience(s'.routes, m.src, x)|,
                      s'.conns[x]);
      }
    }
  }

  /** So is a message that ipcd sends by itself, which changes nothing else. */
  lemma SentIsPassedOn(p: Params, events: seq<Event>, m: Message)
    ensures var s, s' := Run(p, events), Run(p, events + [Sent(m)]);
      && s' == s.(conns := s'.conns, interest := s'.interest)
      && if Fits(m) then PassedOn(p, s, s', m, None) else s' == s
  {
    RunKeepsInv(p, events);
    RunSnoc(p, events, Sent(m));
    var s, s' := Run(p, events), Run(p, events + [Sent(m)]);
    EgressIsQueueing(p, s, m, None);
    if Fits(m) {
      EgressPassesOn(p, s, s, s', m, None);
    }
  }

  /** The flag that makes a message a broadcast is bit 3, whatever the other bits. */
  lemma BroadcastFlagIsBitThree(m: Message, high: nat, low: nat)
    requires high < 16 && low < 8
    ensures m.flags == high * 16 + 8 + low ==> IsBroadcast(m)
    ensures m.flags == high * 16 + low && m.dst != 255 ==> !IsBroadcast(m)
  {
    assert (high * 16 + 8 + low) / 8 == 2 * high + 1 && (high * 16 + low) / 8 == 2 * high;
  }

  // ---- The services ----

  /** Only the readiness and, if one is stated, the version of the reporting daemon change. */
  ghost predicate Marked(s: State, s': State, d: byte, version: nat)
    requires d in s.routes
  {
    && s'.routes.Keys == s.routes.Keys
    && (forall k :: k in s.routes && k != d ==> s'.routes[k] == s.routes[k])
    && s'.routes[d].fd == s.routes[d].fd && s'.routes[d].generation == s.routes[d].generation
    && s'.routes[d].ready
    && s'.routes[d].appliedVersion == if version > 0 then version else s.routes[d].appliedVersion
  }

  /** The services take what was posted first: a RuntimeReady (5) of a known daemon marks it, nothing else does. */
  lemma ServingMarks(p: Params, events: seq<Event>, version: nat)
    ensures var s, s' := Run(p, events), Run(p, events + [Served(version)]);
      && s'.conns == s.conns && s'.interest == s.interest && s'.inputs == s.inputs && s'.acquired == s.acquired
      && if s.posted == [] then s' == s
         else
           && s'.posted == s.posted[1..]
           && var m := s.posted[0].msg;
           if m.cmd == 5 && m.src in s.routes then Marked(s, s', m.src, version) else s'.routes == s.routes
  {
    RunSnoc(p, events, Served(version));
  }
}
