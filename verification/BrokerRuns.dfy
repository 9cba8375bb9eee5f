/** What every run of ipcd does, from any sequence of events (ipcd/ipc, ipcd/router). */
module BrokerRuns {
  import opened Bytes
  import opened Codec
  import opened BrokerState
  import opened BrokerInvariants

  lemma RunSnoc(p: Params, events: seq<Event>, e: Event)
    ensures Run(p, events + [e]) == Step(p, Run(p, events), e)
  {
    assert (events + [e])[..|events|] == events;
  }

  lemma RunOfTwo(p: Params, a: Event, b: Event)
    ensures Run(p, [a, b]) == Step(p, Step(p, Initial, a), b)
  {
    RunSnoc(p, [], a);
    RunSnoc(p, [a], b);
    assert [] + [a] == [a] && [a] + [b] == [a, b];
  }

  lemma RunOfThree(p: Params, a: Event, b: Event, c: Event)
    ensures Run(p, [a, b, c]) == Step(p, Run(p, [a, b]), c)
  {
    RunSnoc(p, [a, b], c);
    assert [a, b] + [c] == [a, b, c];
  }

  // ---- One message ----

  lemma DispatchKeepsRoutes(p: Params, s: State, m: Message, origin: Option<nat>)
    ensures var s' := Dispatch(p, s, m, origin);
      s'.routes == s.routes && s'.acquired == s.acquired && s'.reports == s.reports && s'.inputs == s.inputs
  {
    EgressIsQueueing(p, s, m, origin);
  }

  lemma {:induction false} AcceptKeepsRoutes(p: Params, s: State, fds: seq<nat>)
    ensures var s' := Accept(p, s, fds); s'.routes == s.routes && s'.acquired == s.acquired && s'.reports == s.reports
  {
    if fds != [] {
      AcceptKeepsRoutes(p, s, fds[..|fds| - 1]);
    }
  }

  /** After the first message of a daemon not seen before: its source is bound to the connection, and it is recorded. */
  function Introduced(s: State, fd: int, m: Message): State {
    s.(routes := s.routes[m.src := Route(fd, false, 1, 0)], acquired := s.acquired[m.src := 1],
       inputs := s.inputs + [Input(fd, Frame(m), m)])
  }

  /** A frame is taken if its source may be bound here; then it is recorded and dispatched. */
  lemma TakesFrame(p: Params, s: State, fd: int, m: Message)
    requires Sendable(m)
    ensures var (s1, bound) := Bind(s, m.src, fd);
      Ingress(p, s, fd, Frame(m)) ==
        if bound then (Dispatch(p, s1.(inputs := s1.inputs + [Input(fd, Frame(m), m)]), m, Some(|s1.inputs|)), true)
        else (s, false)
  {
    DecodeIsInverse(p.host, Frame(m), m);
  }

  lemma FirstMessage(p: Params, s: State, fd: int, m: Message)
    requires Sendable(m) && m.src !in s.routes
    ensures Ingress(p, s, fd, Frame(m)) == (Dispatch(p, Introduced(s, fd, m), m, Some(|s.inputs|)), true)
  {
    TakesFrame(p, s, fd, m);
  }

  lemma IntroducedKeepsInv(p: Params, s: State, fd: int, m: Message, s': State)
    requires Inv(p, s) && fd in s.conns && m.src !in s.routes && s' == Introduced(s, fd, m)
    ensures Inv(p, s')
  {
    BindKeepsInv(p, s, m.src, fd);
    RoutesKeepInv(p, Bind(s, m.src, fd).0, s');
  }

  /** The handshake of such a daemon goes to the services and to nobody else. */
  lemma Greeting(p: Params, s: State, fd: int, m: Message)
    requires Sendable(m) && IsHandshake(m.cmd) && m.src !in s.routes
    ensures var (s', taken) := Ingress(p, s, fd, Frame(m));
      && taken && s'.conns == s.conns && s'.routes == s.routes[m.src := Route(fd, false, 1, 0)]
      && s'.acquired == s.acquired[m.src := 1] && s'.interest == s.interest
      && s'.posted == s.posted + [Posted(m, 1)] && s'.inputs == s.inputs + [Input(fd, Frame(m), m)]
  {
    FirstMessage(p, s, fd, m);
  }

  lemma OneAccepted(p: Params, fds: seq<nat>, fd: nat)
    requires var s := Accept(p, Initial, fds); |s.conns| < p.maxConnections && fd !in s.interest
    ensures var s, s' := Accept(p, Initial, fds), Accept(p, Initial, fds + [fd]);
      s' == s.(conns := s.conns[fd := Conn([], [], [])], interest := s.interest[fd := false])
  {
    assert (fds + [fd])[..|fds|] == fds;
  }

  lemma ReceivedOne(p: Params, s: State, fd: int, frame: seq<byte>, ok: bool, s1: State, s': State)
    requires fd in s.conns && Ingress(p, s, fd, frame) == (s1, true) && s' == Receive(p, s, fd, [frame], ok)
    requires fd in s1.conns
    ensures s' == if ok then s1 else Close(s1, fd)
  {
    assert [frame][1..] == [];
    assert Receive(p, s1, fd, [], ok) == if ok then s1 else Close(s1, fd);
  }

  // ---- Routes ----

  /** Daemon `d` keeps its connection, or that is gone and no daemon is bound to it. */
  ghost predicate Follows(s: State, s': State, d: byte)
    requires d in s.routes
  {
    var fd := s.routes[d].fd;
    && d in s'.routes
    && (s'.routes[d].fd == fd ||
        (s'.routes[d].fd == -1 && fd !in s'.conns && forall k :: k in s'.routes ==> s'.routes[k].fd != fd))
  }

  lemma KeptFollows(s: State, s': State, fd: int, d: byte)
    requires KeptOrDropped(s, s', fd) && d in s.routes && s.routes[d].fd >= 0
    ensures Follows(s, s', d)
  {
  }

  lemma StickyFollows(s: State, s': State, d: byte)
    requires Sticky(s.routes, s'.routes, {}) && d in s.routes && s.routes[d].fd >= 0
    ensures Follows(s, s', d)
  {
  }

  /** Only a close changes a bound route, and then it unbinds every daemon of that connection. */
  lemma StepFollows(p: Params, s: State, e: Event, s': State, d: byte)
    requires Inv(p, s) && d in s.routes && s.routes[d].fd >= 0 && s' == Step(p, s, e)
    ensures Follows(s, s', d)
  {
    if e.Received? {
      ReceivedFollows(p, s, e.fd, e.frames, e.ok, s', d);
    } else if e.Sent? {
      SentFollows(p, s, e.m, s', d);
    } else {
      OtherEventFollows(p, s, e, s', d);
    }
  }

  lemma OtherEventFollows(p: Params, s: State, e: Event, s': State, d: byte)
    requires Inv(p, s) && d in s.routes && s.routes[d].fd >= 0 && s' == Step(p, s, e) && !e.Received? && !e.Sent?
    ensures Follows(s, s', d)
  {
    match e {
      case Accepted(fds) => AcceptedFollows(p, s, fds, s', d);
      case Flushed(fd, n, failed) => FlushedFollows(p, s, fd, n, failed, s', d);
      case HungUp(fd) => HungUpFollows(p, s, fd, s', d);
      case Served(version) => ServedFollows(p, s, version, s', d);
    }
  }

  lemma AcceptedFollows(p: Params, s: State, fds: seq<nat>, s': State, d: byte)
    requires d in s.routes && s.routes[d].fd >= 0 && s' == Accept(p, s, fds)
    ensures Follows(s, s', d)
  {
    AcceptKeepsRoutes(p, s, fds);
    StickyFollows(s, s', d);
  }

  lemma ReceivedFollows(p: Params, s: State, fd: int, frames: seq<seq<byte>>, ok: bool, s': State, d: byte)
    requires Inv(p, s) && d in s.routes && s.routes[d].fd >= 0 && s' == Receive(p, s, fd, frames, ok)
    ensures Follows(s, s', d)
  {
    ReceiveKeepsInv(p, s, fd, frames, ok);
    KeptFollows(s, s', fd, d);
  }

  lemma FlushedFollows(p: Params, s: State, fd: int, n: nat, failed: bool, s': State, d: byte)
    requires Inv(p, s) && d in s.routes && s.routes[d].fd >= 0 && s' == Writable(s, fd, n, failed)
    ensures Follows(s, s', d)
  {
    WritableKeepsRoutes(p, s, fd, n, failed);
    KeptFollows(s, s', fd, d);
  }

  lemma ServedFollows(p: Params, s: State, version: nat, s': State, d: byte)
    requires Inv(p, s) && d in s.routes && s.routes[d].fd >= 0 && s' == Serve(s, version)
    ensures Follows(s, s', d)
  {
    ServeKeepsInv(p, s, version);
    StickyFollows(s, s', d);
  }

  lemma SentFollows(p: Params, s: State, m: Message, s': State, d: byte)
    requires d in s.routes && s.routes[d].fd >= 0 && s' == Egress(p, s, m, None)
    ensures Follows(s, s', d)
  {
    EgressIsQueueing(p, s, m, None);
    StickyFollows(s, s', d);
  }

  lemma HungUpFollows(p: Params, s: State, fd: int, s': State, d: byte)
    requires Inv(p, s) && d in s.routes && s.routes[d].fd >= 0 && s' == if fd in s.conns then Close(s, fd) else s
    ensures Follows(s, s', d)
  {
    if fd in s.conns {
      CloseKeepsInv(p, s, fd);
      KeptFollows(s, s', fd, d);
    }
  }

  /** A bound daemon keeps its connection until that connection is gone, which unbinds every daemon on it. */
  lemma RouteChangesOnlyByClosing(p: Params, events: seq<Event>, e: Event, daemon: byte)
    requires var s := Run(p, events); daemon in s.routes && s.routes[daemon].fd >= 0
    ensures Follows(Run(p, events), Run(p, events + [e]), daemon)
  {
    RunKeepsInv(p, events);
    RunSnoc(p, events, e);
    StepFollows(p, Run(p, events), e, Run(p, events + [e]), daemon);
  }

  // ---- Acquisitions ----

  /** A message that is taken counts one acquisition exactly if it changed the connection of its daemon. */
  lemma AcquisitionIsAChange(p: Params, s: State, fd: int, frame: seq<byte>, d: byte)
    requires Counted(s) && fd >= 0
    ensures var s' := Ingress(p, s, fd, frame).0;
      Times(s', d) == Times(s, d) + if FdOf(s'.routes, d) != FdOf(s.routes, d) then 1 else 0
  {
    var (s', taken) := Ingress(p, s, fd, frame);
    if taken {
      var m := Decode(p.host, Some(frame)).msg;
      var s1 := Bind(s, m.src, fd).0;
      BindIsAChange(s, m.src, fd, d);
      DispatchKeepsRoutes(p, s1.(inputs := s1.inputs + [Input(fd, frame, m)]), m, Some(|s1.inputs|));
    }
  }

  lemma BindIsAChange(s: State, daemon: byte, fd: int, d: byte)
    requires Counted(s) && fd >= 0
    ensures var s' := Bind(s, daemon, fd).0;
      Times(s', d) == Times(s, d) + if FdOf(s'.routes, d) != FdOf(s.routes, d) then 1 else 0
  {
  }

  /** Nothing but taking a message acquires a connection: not a close, and no event other than a receive. */
  lemma NothingElseAcquires(p: Params, s: State, e: Event, fd: int)
    ensures Close(s, fd).acquired == s.acquired
    ensures !e.Received? ==> Step(p, s, e).acquired == s.acquired
  {
    match e {
      case Accepted(fds) => AcceptKeepsRoutes(p, s, fds);
      case Sent(m) => EgressIsQueueing(p, s, m, None);
      case _ =>
    }
  }

  // ---- What is recorded ----

  lemma IngressRecords(p: Params, s: State, fd: int, frame: seq<byte>)
    ensures var (s', taken) := Ingress(p, s, fd, frame);
      if taken then
        && Decode(p.host, Some(frame)).DecodeOk?
        && s'.inputs == s.inputs + [Input(fd, frame, Decode(p.host, Some(frame)).msg)]
        && FdOf(s'.routes, Decode(p.host, Some(frame)).msg.src) == (if fd >= 0 then fd else -1)
      else s' == s
  {
    var (s', taken) := Ingress(p, s, fd, frame);
    if taken {
      var m := Decode(p.host, Some(frame)).msg;
      var s1 := Bind(s, m.src, fd).0;
      DispatchKeepsRoutes(p, s1.(inputs := s1.inputs + [Input(fd, frame, m)]), m, Some(|s1.inputs|));
    }
  }

  ghost predicate CameAs(host: Host, input: Input, fd: int, frame: seq<byte>) {
    input.fd == fd && input.frame == frame && Decode(host, Some(frame)) == DecodeOk(input.msg)
  }

  /** `after` adds to `before` a prefix of `frames`, each as it came and with the message it decodes to. */
  ghost predicate Recorded(host: Host, before: seq<Input>, after: seq<Input>, fd: int, frames: seq<seq<byte>>) {
    && before <= after && |after| <= |before| + |frames|
    && forall i :: |before| <= i < |after| ==> CameAs(host, after[i], fd, frames[i - |before|])
  }

  /** The inputs recorded are the frames that came in, in the order they came in, up to the first that was not taken. */
  lemma {:induction false} ReceiveRecordsInOrder(p: Params, s: State, fd: int, frames: seq<seq<byte>>, ok: bool)
    ensures Recorded(p.host, s.inputs, Receive(p, s, fd, frames, ok).inputs, fd, frames)
    decreases |frames|
  {
    if fd in s.conns && frames != [] {
      IngressRecords(p, s, fd, frames[0]);
      var (s', taken) := Ingress(p, s, fd, frames[0]);
      if taken {
        ReceiveRecordsInOrder(p, s', fd, frames[1..], ok);
        var after := Receive(p, s', fd, frames[1..], ok).inputs;
        OneMoreRecorded(p.host, s.inputs, s'.inputs[|s.inputs|], after, fd, frames);
      }
    }
  }

  lemma OneMoreRecorded(host: Host, before: seq<Input>, input: Input, after: seq<Input>, fd: int,
                        frames: seq<seq<byte>>)
    requires frames != [] && CameAs(host, input, fd, frames[0])
    requires Recorded(host, before + [input], after, fd, frames[1..])
    ensures Recorded(host, before, after, fd, frames)
  {
    var mid := before + [input];
    assert after[|before|] == mid[|before|];
    assert mid <= after && before <= mid;
    forall i | |before| <= i < |after| ensures CameAs(host, after[i], fd, frames[i - |before|]) {
      if i > |before| {
        CameLater(host, mid, after, fd, frames, i);
      }
    }
  }

  lemma CameLater(host: Host, mid: seq<Input>, after: seq<Input>, fd: int, frames: seq<seq<byte>>, i: nat)
    requires frames != [] && Recorded(host, mid, after, fd, frames[1..]) && |mid| <= i < |after|
    ensures CameAs(host, after[i], fd, frames[i - |mid| + 1])
  {
    assert frames[1..][i - |mid|] == frames[i - |mid| + 1];
  }

  /** The source of every input from `from` on is bound to the connection that it came on, while that is open. */
  ghost predicate FromBound(s: State, fd: int, from: nat) {
    forall i :: from <= i < |s.inputs| ==> FdOf(s.routes, s.inputs[i].msg.src) == if fd in s.conns then fd else -1
  }

  lemma {:induction false} ReceiveIsFromBound(p: Params, s: State, fd: int, frames: seq<seq<byte>>, ok: bool, from: nat)
    requires Inv(p, s) && fd in s.conns && from <= |s.inputs| && FromBound(s, fd, from)
    ensures FromBound(Receive(p, s, fd, frames, ok), fd, from)
    decreases |frames|
  {
    if frames == [] {
      if !ok { CloseUnbinds(p, s, fd, from); }
    } else {
      var (s', taken) := Ingress(p, s, fd, frames[0]);
      IngressKeepsInv(p, s, fd, frames[0]);
      IngressRecords(p, s, fd, frames[0]);
      if taken {
        OneMoreBound(s, s', fd, from);
        ReceiveIsFromBound(p, s', fd, frames[1..], ok, from);
      } else {
        CloseUnbinds(p, s', fd, from);
      }
    }
  }

  lemma OneMoreBound(s: State, s': State, fd: int, from: nat)
    requires RoutesLive(s) && fd in s.conns && fd in s'.conns && from <= |s.inputs| && FromBound(s, fd, from)
    requires Sticky(s.routes, s'.routes, {}) && |s'.inputs| == |s.inputs| + 1 && s.inputs <= s'.inputs
    requires FdOf(s'.routes, s'.inputs[|s.inputs|].msg.src) == fd
    ensures FromBound(s', fd, from)
  {
    forall i | from <= i < |s'.inputs| ensures FdOf(s'.routes, s'.inputs[i].msg.src) == fd {
      if i < |s.inputs| {
        assert s'.inputs[i] == s.inputs[i];
      }
    }
  }

  lemma CloseUnbinds(p: Params, s: State, fd: int, from: nat)
    requires Inv(p, s) && fd in s.conns && from <= |s.inputs| && FromBound(s, fd, from)
    ensures FromBound(Close(s, fd), fd, from)
  {
    CloseKeepsInv(p, s, fd);
  }

  /**
   * In every run only receiving records inputs: a prefix of the frames received, in order, byte for byte, each from a
   * source bound to that connection, unless the connection has gone and taken the route with it.
   */
  lemma InputsAreReceived(p: Params, events: seq<Event>, e: Event)
    ensures var s, s' := Run(p, events), Run(p, events + [e]);
      if e.Received?
      then Recorded(p.host, s.inputs, s'.inputs, e.fd, e.frames) &&
        (e.fd in s.conns ==> FromBound(s', e.fd, |s.inputs|))
      else s'.inputs == s.inputs
  {
    var s := Run(p, events);
    RunKeepsInv(p, events);
    RunSnoc(p, events, e);
    if e.Received? {
      ReceiveRecordsInOrder(p, s, e.fd, e.frames, e.ok);
      if e.fd in s.conns {
        ReceiveIsFromBound(p, s, e.fd, e.frames, e.ok, |s.inputs|);
      }
    } else {
      OtherEventsRecordNothing(p, s, e);
    }
  }

  lemma {:induction false} AcceptRecordsNothing(p: Params, s: State, fds: seq<nat>)
    ensures Accept(p, s, fds).inputs == s.inputs
  {
    if fds != [] {
      AcceptRecordsNothing(p, s, fds[..|fds| - 1]);
    }
  }

  lemma OtherEventsRecordNothing(p: Params, s: State, e: Event)
    requires !e.Received?
    ensures Step(p, s, e).inputs == s.inputs
  {
    match e {
      case Accepted(fds) => AcceptRecordsNothing(p, s, fds);
      case Sent(m) => EgressIsQueueing(p, s, m, None);
      case _ =>
    }
  }

  // ---- What is forwarded ----

  /** Every forwarded frame on a connection is, byte for byte, an input that was no handshake and is meant for it. */
  lemma ForwardedIsItsInput(p: Params, events: seq<Event>, fd: int, i: nat)
    requires fd in Run(p, events).conns
    requires var fs := Run(p, events).conns[fd].frames; i < |fs| && fs[i].origin.Some?
    ensures var s := Run(p, events);
      var q := s.conns[fd].frames[i];
      var k := q.origin.value;
      && k < |s.inputs| && q.frame == s.inputs[k].frame
      && !IsHandshake(s.inputs[k].msg.cmd) && Addressed(s.routes, s.inputs[k].msg, fd)
  {
    RunKeepsInv(p, events);
    var s := Run(p, events);
    assert ConnOk(p, s.routes, s.inputs, fd, s.conns[fd]);
    assert Faithful(s.routes, s.inputs, fd, s.conns[fd].frames[i]);
  }

  /** Forwarded frames keep the order of their inputs; where no two daemons share the connection none is repeated. */
  lemma ForwardingIsInOrder(p: Params, events: seq<Event>, fd: int, i: nat, j: nat)
    requires fd in Run(p, events).conns
    requires var fs := Run(p, events).conns[fd].frames;
      i < j < |fs| && fs[i].origin.Some? && fs[j].origin.Some?
    ensures var s := Run(p, events);
      var a, b := s.conns[fd].frames[i].origin.value, s.conns[fd].frames[j].origin.value;
      a <= b && (!TwoDaemons(s.routes, fd) ==> a < b)
  {
    RunKeepsInv(p, events);
    var s := Run(p, events);
    assert ConnOk(p, s.routes, s.inputs, fd, s.conns[fd]);
  }

  /** No queued byte is stranded, and none is lost or invented between the queue and the kernel. */
  lemma NothingIsStranded(p: Params, events: seq<Event>, fd: int)
    requires fd in Run(p, events).conns
    ensures var s := Run(p, events);
      && fd in s.interest
      && (s.interest[fd] <==> s.conns[fd].tx != [])
      && s.conns[fd].sent + s.conns[fd].tx == Flat(s.conns[fd].frames)
      && |s.conns[fd].tx| <= p.txCapacity
  {
    RunKeepsInv(p, events);
    var s := Run(p, events);
    assert ConnOk(p, s.routes, s.inputs, fd, s.conns[fd]);
  }

  /** A unicast with a route and room is queued, last, on exactly the connection of its destination, and arms it. */
  lemma UnicastReachesItsRoute(p: Params, events: seq<Event>, m: Message, origin: Option<nat>)
    requires !IsBroadcast(m) && Fits(m)
    ensures var s := Run(p, events);
      var s' := Egress(p, s, m, origin);
      var fd := FdOf(s.routes, m.dst);
      if fd in s.conns && |s.conns[fd].tx| + |Frame(m)| <= p.txCapacity
      then
        && fd in s'.conns && s'.conns[fd].frames == s.conns[fd].frames + [Queued(Frame(m), origin)]
        && s'.conns - {fd} == s.conns - {fd} && s'.interest == s.interest[fd := true]
      else s' == s
  {
    RunKeepsInv(p, events);
  }

  // ---- Broadcasts ----

  /**
   * On a connection with `n` daemons of the audience: one copy for each, as often as there is room; so at most one
   * exactly when there is at most one such daemon or no room for two copies.
   */
  ghost predicate CopiesQueued(c: Conn, q: Queued, capacity: nat, n: nat, c': Conn) {
    var k := |c'.frames| - |c.frames|;
    && 0 <= k <= n && c'.frames == c.frames + seq(k, _ => q)
    && |c.tx| + k * |q.frame| <= capacity
    && (k < n ==> |c.tx| + (k + 1) * |q.frame| > capacity)
    && (k <= 1 <==> n <= 1 || |c.tx| + 2 * |q.frame| > capacity)
  }

  /** What a broadcast queues on each connection, in any state and whatever room there is. */
  lemma BroadcastCopies(p: Params, s: State, m: Message, origin: Option<nat>, fd: int, c': Conn)
    requires Inv(p, s) && Fits(m) && fd in s.conns && c' == Broadcast(p, s, m, origin).conns[fd]
    ensures CopiesQueued(s.conns[fd], Queued(Frame(m), origin), p.txCapacity, |Audience(s.routes, m.src, fd)|, c')
  {
    assert ConnOk(p, s.routes, s.inputs, fd, s.conns[fd]);
    CopiesThatFit(s.conns[fd], Queued(Frame(m), origin), p.txCapacity, |Audience(s.routes, m.src, fd)|, c');
  }

  lemma CopiesThatFit(c: Conn, q: Queued, capacity: nat, n: nat, c': Conn)
    requires |c.tx| <= capacity && q.frame != [] && c' == PushMany(c, q.frame, q.origin, capacity, n)
    ensures CopiesQueued(c, q, capacity, n, c')
  {
    PushManyIsGreedy(c, q.frame, q.origin, capacity, n);
    PushManyAdds(c, q, capacity, n);
    var k := |c'.frames| - |c.frames|;
    OneCopyMore(k, |q.frame|);
    if k >= 2 {
      AtLeastTwo(k, |q.frame|);
    }
  }

  lemma OneCopyMore(k: nat, size: nat)
    ensures (k + 1) * size == k * size + size
  {
  }

  lemma AtLeastTwo(k: nat, size: nat)
    requires k >= 2
    ensures k * size >= 2 * size
  {
  }

  /** One peer that speaks for two daemons puts both on its connection, whoever else is connected. */
  lemma TwoDaemonsOnOneConnection(p: Params, s: State, fd: int, a: Message, b: Message, s': State)
    requires fd in s.conns && a.src !in s.routes && b.src !in s.routes && a.src != b.src
    requires Sendable(a) && Sendable(b) && IsHandshake(a.cmd) && IsHandshake(b.cmd)
    requires s' == Receive(p, s, fd, [Frame(a), Frame(b)], true)
    ensures
      && s'.conns == s.conns
      && s'.inputs == s.inputs + [Input(fd, Frame(a), a)] + [Input(fd, Frame(b), b)]
      && s'.routes == s.routes[a.src := Route(fd, false, 1, 0)][b.src := Route(fd, false, 1, 0)]
  {
    Greeting(p, s, fd, a);
    var s1 := Ingress(p, s, fd, Frame(a)).0;
    Greeting(p, s1, fd, b);
    var s2 := Ingress(p, s1, fd, Frame(b)).0;
    assert [Frame(a), Frame(b)][1..] == [Frame(b)] && [Frame(b)][1..] == [];
    assert Receive(p, s2, fd, [], true) == s2;
    assert Receive(p, s1, fd, [Frame(b)], true) == s2;
  }

  /** A broadcast of a daemon that speaks for the first time on another connection, with room for two copies. */
  lemma BroadcastToTwo(p: Params, s: State, x: int, y: int, a: byte, b: byte, m: Message, s': State)
    requires Inv(p, s) && x in s.conns && y in s.conns && x != y && s.conns[x] == Conn([], [], [])
    requires s.routes == map[a := Route(x, false, 1, 0), b := Route(x, false, 1, 0)]
    requires Sendable(m) && IsBroadcast(m) && !IsHandshake(m.cmd) && 2 * |Frame(m)| <= p.txCapacity
    requires a != b && {a, b} !! {IPCD, BROADCAST, m.src}
    requires s' == Receive(p, s, y, [Frame(m)], true)
    ensures var q := Queued(Frame(m), Some(|s.inputs|));
      x in s'.conns && s'.conns[x].frames == [q, q]
  {
    FirstMessage(p, s, y, m);
    var s1, s2 := Introduced(s, y, m), Ingress(p, s, y, Frame(m)).0;
    IntroducedKeepsInv(p, s, y, m, s1);
    ReceivedOne(p, s, y, Frame(m), true, s2, s');
    AudienceOfTwo(s.routes, a, b, m.src, x, y);
    CopiesForTwo(p, s1, x, a, b, m, Some(|s.inputs|), s2);
  }

  lemma AudienceOfTwo(routes: map<byte, Route>, a: byte, b: byte, src: byte, x: int, y: int)
    requires routes == map[a := Route(x, false, 1, 0), b := Route(x, false, 1, 0)]
    requires x != y && {a, b} !! {IPCD, BROADCAST, src}
    ensures Audience(routes[src := Route(y, false, 1, 0)], src, x) == {a, b}
  {
  }

  lemma CopiesForTwo(p: Params, s: State, x: int, a: byte, b: byte, m: Message, origin: Option<nat>, s': State)
    requires Inv(p, s) && x in s.conns && s.conns[x] == Conn([], [], []) && a != b
    requires Audience(s.routes, m.src, x) == {a, b}
    requires Sendable(m) && 2 * |Frame(m)| <= p.txCapacity && s' == Broadcast(p, s, m, origin)
    ensures var q := Queued(Frame(m), origin); x in s'.conns && s'.conns[x].frames == [q, q]
  {
    BroadcastCopies(p, s, m, origin, x, s'.conns[x]);
    assert |{a, b}| == 2;
  }

  /** A run that queues one input twice on one connection: its peer speaks for two daemons, and another broadcasts. */
  lemma BroadcastQueuedTwice(p: Params, x: nat, y: nat, a: Message, b: Message, m: Message)
    requires p.maxConnections >= 2 && x != y
    requires Sendable(a) && Sendable(b) && IsHandshake(a.cmd) && IsHandshake(b.cmd) && a.src != b.src
    requires Sendable(m) && IsBroadcast(m) && !IsHandshake(m.cmd) && 2 * |Frame(m)| <= p.txCapacity
    requires {a.src, b.src} !! {IPCD, BROADCAST, m.src}
    ensures var s := Run(p, [Accepted([x, y]), Received(x, [Frame(a), Frame(b)], true), Received(y, [Frame(m)], true)]);
      var q := Queued(Frame(m), Some(2));
      x in s.conns && s.conns[x].frames == [q, q]
  {
    var e1, e2, e3 := Accepted([x, y]), Received(x, [Frame(a), Frame(b)], true), Received(y, [Frame(m)], true);
    RunOfTwo(p, e1, e2);
    RunOfThree(p, e1, e2, e3);
    RunKeepsInv(p, [e1, e2]);
    TwiceFrom(p, x, y, a, b, m, Step(p, Initial, e1), Run(p, [e1, e2]), Run(p, [e1, e2, e3]));
  }

  lemma TwiceFrom(p: Params, x: nat, y: nat, a: Message, b: Message, m: Message, s1: State, s2: State, s3: State)
    requires p.maxConnections >= 2 && x != y
    requires Sendable(a) && Sendable(b) && IsHandshake(a.cmd) && IsHandshake(b.cmd) && a.src != b.src
    requires Sendable(m) && IsBroadcast(m) && !IsHandshake(m.cmd) && 2 * |Frame(m)| <= p.txCapacity
    requires {a.src, b.src} !! {IPCD, BROADCAST, m.src}
    requires s1 == Step(p, Initial, Accepted([x, y])) && s2 == Receive(p, s1, x, [Frame(a), Frame(b)], true)
    requires Inv(p, s2) && s3 == Receive(p, s2, y, [Frame(m)], true)
    ensures var q := Queued(Frame(m), Some(2)); x in s3.conns && s3.conns[x].frames == [q, q]
  {
    TwoAccepted(p, x, y);
    TwoDaemonsOnOneConnection(p, s1, x, a, b, s2);
    assert |s2.inputs| == 2;
    assert s2.routes == map[a.src := Route(x, false, 1, 0), b.src := Route(x, false, 1, 0)];
    BroadcastToTwo(p, s2, x, y, a.src, b.src, m, s3);
  }

  lemma TwoAccepted(p: Params, x: nat, y: nat)
    requires p.maxConnections >= 2 && x != y
    ensures var s := Step(p, Initial, Accepted([x, y]));
      s.conns == map[x := Conn([], [], []), y := Conn([], [], [])] && s.routes == map[] && s.inputs == []
  {
    OneAccepted(p, [], x);
    assert [] + [x] == [x] && [x] + [y] == [x, y] && Accept(p, Initial, []) == Initial;
    OneAccepted(p, [x], y);
  }
}
