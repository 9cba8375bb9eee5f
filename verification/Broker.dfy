/** ipcd itself: the object whose every method moves the state as the broker's state functions say. */
module Broker {
  import opened Bytes
  import opened Codec
  import opened RingBuffer
  import opened BrokerState
  import opened BrokerInvariants

  /**
   * The server with its handler, which the source keeps as two objects that point at each other. Of each connection
   * it holds the transmit ring; `inputs`, `acquired`, `reports`, the times of a posted message and the `sent` and
   * `frames` of a connection are history that no branch reads.
   */
  class IpcServer {
    const p: Params
    var routes: map<byte, Route>
    var conns: map<int, Conn>
    var interest: map<int, bool>
    var posted: seq<Posted>
    var inputs: seq<Input>
    var acquired: map<byte, nat>
    var reports: map<byte, nat>

    ghost function Abs(): State
      reads this
    {
      State(routes, conns, interest, posted, inputs, acquired, reports)
    }

    constructor (p: Params)
      ensures this.p == p && Abs() == Initial && Inv(p, Abs())
    {
      this.p := p;
      routes, conns, interest, posted, inputs, acquired, reports := map[], map[], map[], [], [], map[], map[];
    }

    // ---- Routes ----

    method BindRoute(daemon: byte, fd: int) returns (bound: bool)
      requires acquired.Keys == routes.Keys
      modifies this`routes, this`acquired
      ensures (Abs(), bound) == Bind(old(Abs()), daemon, fd)
    {
      if daemon !in routes {
        routes := routes[daemon := Route(fd, false, 1, 0)];
        acquired := acquired[daemon := 1];
        return true;
      }
      var state := routes[daemon];
      if state.fd == fd {
        return true;
      }
      if state.fd >= 0 && state.fd != fd {
        return false;
      }
      state := state.(fd := fd, ready := false, appliedVersion := 0);
      state := state.(generation := (state.generation + 1) % 0x1_0000_0000);
      routes := routes[daemon := state];
      acquired := acquired[daemon := acquired[daemon] + 1];
      bound := true;
    }

    method FindRoute(daemon: byte) returns (fd: int)
      ensures fd == FdOf(routes, daemon)
    {
      if daemon !in routes {
        return -1;
      }
      if routes[daemon].fd < 0 {
        return -1;
      }
      fd := routes[daemon].fd;
    }

    method RemoveRoute(fd: int)
      modifies this`routes
      ensures routes == Unbind(old(routes), fd)
    {
      var todo := routes.Keys;
      while todo != {}
        invariant todo <= routes.Keys && routes.Keys == old(routes).Keys
        invariant forall d :: d in routes ==>
          routes[d] == if d in todo then old(routes)[d] else Released(old(routes)[d], fd)
        decreases |todo|
      {
        var daemon :| daemon in todo;
        todo := todo - {daemon};
        if routes[daemon].fd != fd {
          continue;
        }
        routes := routes[daemon := routes[daemon].(fd := -1, ready := false, appliedVersion := 0)];
      }
    }

    method CloseConnection(fd: int)
      modifies this`routes, this`conns, this`interest
      ensures fd in old(conns) ==> Abs() == Close(old(Abs()), fd)
      ensures fd !in old(conns) ==> Abs() == old(Abs()).(routes := Unbind(old(routes), fd))
    {
      RemoveRoute(fd);
      if fd !in conns {
        return;
      }
      interest := interest - {fd};
      conns := conns - {fd};
    }

    method MarkRuntimeReady(daemon: byte, ready: bool, appliedVersion: nat)
      modifies this`routes
      ensures Abs() == MarkReady(old(Abs()), daemon, ready, appliedVersion)
    {
      if daemon !in routes {
        return;
      }
      routes := routes[daemon := routes[daemon].(ready := ready)];
      if appliedVersion > 0 {
        routes := routes[daemon := routes[daemon].(appliedVersion := appliedVersion)];
      }
    }

    // ---- Egress ----

    method EnqueueFrame(fd: int, frame: seq<byte>, origin: Option<nat>) returns (queued: bool)
      requires interest.Keys == conns.Keys
      modifies this`conns, this`interest
      ensures Abs() == Enqueue(p, old(Abs()), fd, frame, origin)
      ensures queued <==> fd in old(conns) && frame != [] && |old(conns)[fd].tx| + |frame| <= p.txCapacity
    {
      if fd !in conns || frame == [] {
        return false;
      }
      var conn := conns[fd];
      if |conn.tx| + |frame| > p.txCapacity {
        return false;
      }
      conns := conns[fd := conn.(tx := conn.tx + frame, frames := conn.frames + [Queued(frame, origin)])];
      if fd !in interest {
        // A connection that is not registered; there is none.
        assert false;
        return false;
      }
      interest := interest[fd := true];
      queued := true;
    }

    method SendFrame(fd: int, m: Message, origin: Option<nat>) returns (queued: bool)
      requires interest.Keys == conns.Keys
      modifies this`conns, this`interest
      ensures Abs() == if Fits(m) then Enqueue(p, old(Abs()), fd, Frame(m), origin) else old(Abs())
    {
      var frame := Encode(p.host, Some(m));
      if frame.Length == 0 {
        return false;
      }
      queued := EnqueueFrame(fd, frame[..], origin);
    }

    method UnicastMessage(m: Message, origin: Option<nat>)
      requires interest.Keys == conns.Keys
      modifies this`conns, this`interest
      ensures Abs() == Unicast(p, old(Abs()), m, origin)
    {
      var fd := FindRoute(m.dst);
      if fd < 0 {
        return;
      }
      var queued := SendFrame(fd, m, origin);
    }

    method BroadcastMessage(m: Message, origin: Option<nat>)
      requires Armed(Abs()) && RoutesLive(Abs())
      modifies this`conns, this`interest
      ensures Abs() == Broadcast(p, old(Abs()), m, origin)
    {
      var encoded := Encode(p.host, Some(m));
      if encoded.Length == 0 {
        return;
      }
      ghost var s0 := Abs();
      CopyToAudience(m.src, encoded[..], origin);
      EverythingVisited(s0, m, origin, conns, interest);
    }

    /** Visits the routes in an arbitrary order; the outcome does not depend on it. */
    method CopyToAudience(src: byte, frame: seq<byte>, origin: Option<nat>)
      requires Armed(Abs()) && RoutesLive(Abs()) && frame != []
      modifies this`conns, this`interest
      ensures Visited(old(Abs()), src, frame, origin, {}, conns, interest)
    {
      ghost var s0 := Abs();
      var todo := routes.Keys;
      NothingVisited(s0, src, frame, origin);
      while todo != {}
        invariant todo <= routes.Keys && routes == s0.routes
        invariant Visited(s0, src, frame, origin, todo, conns, interest)
        decreases |todo|
      {
        var daemon :| daemon in todo;
        VisitRoute(daemon, src, frame, origin, s0, todo);
        todo := todo - {daemon};
      }
    }

    method VisitRoute(daemon: byte, src: byte, frame: seq<byte>, origin: Option<nat>, ghost s0: State,
                      ghost todo: set<byte>)
      requires daemon in todo && daemon in routes && frame != []
      requires routes == s0.routes && RoutesLive(s0) && Visited(s0, src, frame, origin, todo, conns, interest)
      modifies this`conns, this`interest
      ensures Visited(s0, src, frame, origin, todo - {daemon}, conns, interest)
    {
      if routes[daemon].fd < 0 || daemon == src || daemon == IPCD || daemon == BROADCAST {
        SkipVisit(s0, src, frame, origin, todo, daemon, conns, interest);
        return;
      }
      ghost var c, i := conns, interest;
      CopyTo(routes[daemon].fd, frame, origin);
      OneVisit(s0, src, frame, origin, todo, daemon, routes[daemon].fd, c, i, conns, interest);
    }

    method CopyTo(fd: int, frame: seq<byte>, origin: Option<nat>)
      requires fd in conns && interest.Keys == conns.Keys && frame != []
      modifies this`conns, this`interest
      ensures conns == old(conns)[fd := Push(old(conns)[fd], frame, origin, p.txCapacity)]
      ensures interest == old(interest)[fd := old(interest)[fd] || |old(conns)[fd].tx| + |frame| <= p.txCapacity]
    {
      EnqueueShape(Abs(), fd, frame, origin);
      var queued := EnqueueFrame(fd, frame, origin);
    }

    /** What a connection holds after `n` copies, and whether it is armed. */
    ghost predicate VisitedAt(c0: Conn, armed0: bool, f: seq<byte>, origin: Option<nat>, n: nat, c: Conn, armed: bool) {
      && c == PushMany(c0, f, origin, p.txCapacity, n)
      && |c.frames| >= |c0.frames|
      && armed == (armed0 || |c.frames| > |c0.frames|)
    }

    /** The daemons of the audience on `fd` that are not still to be visited. */
    ghost function Reached(s0: State, src: byte, todo: set<byte>, fd: int): nat {
      |Audience(s0.routes, src, fd) - todo|
    }

    ghost predicate Visited(s0: State, src: byte, f: seq<byte>, origin: Option<nat>, todo: set<byte>,
                            c: map<int, Conn>, i: map<int, bool>) {
      && c.Keys == i.Keys == s0.conns.Keys == s0.interest.Keys
      && (forall fd :: fd in c ==>
            VisitedAt(s0.conns[fd], s0.interest[fd], f, origin, Reached(s0, src, todo, fd), c[fd], i[fd]))
    }

    lemma NothingVisited(s0: State, src: byte, f: seq<byte>, origin: Option<nat>)
      requires s0.interest.Keys == s0.conns.Keys
      ensures Visited(s0, src, f, origin, s0.routes.Keys, s0.conns, s0.interest)
    {
      forall fd | fd in s0.conns
        ensures Reached(s0, src, s0.routes.Keys, fd) == 0
      {
        assert Audience(s0.routes, src, fd) - s0.routes.Keys == {};
      }
    }

    /** One daemon more is reached on its own connection if it is of the audience, and on no other. */
    lemma OneReached(s0: State, src: byte, todo: set<byte>, daemon: byte, fd: int)
      requires daemon in todo
      ensures Reached(s0, src, todo - {daemon}, fd) ==
        Reached(s0, src, todo, fd) + if daemon in Audience(s0.routes, src, fd) then 1 else 0
    {
      var a := Audience(s0.routes, src, fd);
      if daemon in a {
        assert a - (todo - {daemon}) == (a - todo) + {daemon};
      } else {
        assert a - (todo - {daemon}) == a - todo;
      }
    }

    lemma SkipVisit(s0: State, src: byte, f: seq<byte>, origin: Option<nat>, todo: set<byte>, daemon: byte,
                    c: map<int, Conn>, i: map<int, bool>)
      requires Visited(s0, src, f, origin, todo, c, i) && daemon in todo && daemon in s0.routes && RoutesLive(s0)
      requires s0.routes[daemon].fd < 0 || daemon == src || daemon == IPCD || daemon == BROADCAST
      ensures Visited(s0, src, f, origin, todo - {daemon}, c, i)
    {
      forall fd | fd in c
        ensures Reached(s0, src, todo - {daemon}, fd) == Reached(s0, src, todo, fd)
      {
        OneReached(s0, src, todo, daemon, fd);
      }
    }

    /** One more daemon of the audience on this connection: one more copy, if it fits. */
    lemma OneMoreCopy(c0: Conn, armed0: bool, f: seq<byte>, origin: Option<nat>, n: nat, c: Conn, armed: bool)
      requires VisitedAt(c0, armed0, f, origin, n, c, armed)
      ensures VisitedAt(c0, armed0, f, origin, n + 1, Push(c, f, origin, p.txCapacity),
                        armed || |c.tx| + |f| <= p.txCapacity)
    {
    }

    lemma OneVisit(s0: State, src: byte, f: seq<byte>, origin: Option<nat>, todo: set<byte>, daemon: byte, target: int,
                   c: map<int, Conn>, i: map<int, bool>, c': map<int, Conn>, i': map<int, bool>)
      requires Visited(s0, src, f, origin, todo, c, i)
      requires daemon in todo && target in c && daemon in Audience(s0.routes, src, target)
      requires c' == c[target := Push(c[target], f, origin, p.txCapacity)]
      requires i' == i[target := i[target] || |c[target].tx| + |f| <= p.txCapacity]
      ensures Visited(s0, src, f, origin, todo - {daemon}, c', i')
    {
      assert c'.Keys == c.Keys && i'.Keys == i.Keys;
      forall fd | fd in c'
        ensures VisitedAt(s0.conns[fd], s0.interest[fd], f, origin, Reached(s0, src, todo - {daemon}, fd),
                          c'[fd], i'[fd])
      {
        OneReached(s0, src, todo, daemon, fd);
        if fd == target {
          OneMoreCopy(s0.conns[fd], s0.interest[fd], f, origin, Reached(s0, src, todo, fd), c[fd], i[fd]);
        }
      }
    }

    /** Queueing touches one connection, and arms it if the frame fits. */
    lemma EnqueueShape(s: State, fd: int, f: seq<byte>, origin: Option<nat>)
      requires fd in s.conns && fd in s.interest && f != []
      ensures var s' := Enqueue(p, s, fd, f, origin);
        && s'.conns == s.conns[fd := Push(s.conns[fd], f, origin, p.txCapacity)]
        && s'.interest == s.interest[fd := s.interest[fd] || |s.conns[fd].tx| + |f| <= p.txCapacity]
    {
    }

    lemma EverythingVisited(s0: State, m: Message, origin: Option<nat>, c: map<int, Conn>, i: map<int, bool>)
      requires Visited(s0, m.src, Frame(m), origin, {}, c, i) && Fits(m)
      ensures s0.(conns := c, interest := i) == Broadcast(p, s0, m, origin)
    {
      var s := Broadcast(p, s0, m, origin);
      AllVisited(s0, m.src, Frame(m), origin, c, i, s.conns, s.interest);
    }

    lemma AllVisited(s0: State, src: byte, f: seq<byte>, origin: Option<nat>, c: map<int, Conn>, i: map<int, bool>,
                     c': map<int, Conn>, i': map<int, bool>)
      requires Visited(s0, src, f, origin, {}, c, i) && c'.Keys == i'.Keys == s0.conns.Keys
      requires forall fd :: fd in c' ==>
        c'[fd] == PushMany(s0.conns[fd], f, origin, p.txCapacity, |Audience(s0.routes, src, fd)|)
      requires forall fd :: fd in i' ==> i'[fd] == (s0.interest[fd] || |c'[fd].frames| > |s0.conns[fd].frames|)
      ensures c == c' && i == i'
    {
      forall fd | fd in c ensures Reached(s0, src, {}, fd) == |Audience(s0.routes, src, fd)| {
        assert Audience(s0.routes, src, fd) - {} == Audience(s0.routes, src, fd);
      }
      forall fd | fd in c ensures c[fd] == c'[fd] && i[fd] == i'[fd] {
        assert VisitedAt(s0.conns[fd], s0.interest[fd], f, origin, Reached(s0, src, {}, fd), c[fd], i[fd]);
      }
    }

    method EgressMessage(m: Message, origin: Option<nat>)
      requires Armed(Abs()) && RoutesLive(Abs())
      modifies this`conns, this`interest
      ensures Abs() == Egress(p, old(Abs()), m, origin)
    {
      if m.dst == BROADCAST || HasBroadcastFlag(m.flags) {
        BroadcastMessage(m, origin);
        return;
      }
      UnicastMessage(m, origin);
    }

    // ---- Ingress ----

    method HandleIpcMessage(m: Message, origin: Option<nat>)
      requires Armed(Abs()) && RoutesLive(Abs())
      modifies this`conns, this`interest, this`posted
      ensures Abs() == Dispatch(p, old(Abs()), m, origin)
    {
      if m.cmd == CLIENT_HELLO || m.cmd == SYNC_REQUEST || m.cmd == RUNTIME_READY {
        posted := posted + [Posted(m, if m.src in acquired then acquired[m.src] else 0)];
      } else {
        EgressMessage(m, origin);
      }
    }

    method IngressFrame(fd: int, frame: seq<byte>) returns (taken: bool)
      requires Inv(p, Abs()) && fd in conns
      modifies this
      ensures (Abs(), taken) == Ingress(p, old(Abs()), fd, frame)
    {
      if frame == [] {
        return false;
      }
      var rc := Decode(p.host, Some(frame));
      if !rc.DecodeOk? {
        return false;
      }
      ghost var s := Abs();
      var bound := BindRoute(rc.msg.src, fd);
      if !bound {
        return false;
      }
      BindEffect(s, rc.msg.src, fd);
      var origin := |inputs|;
      inputs := inputs + [Input(fd, frame, rc.msg)];
      HandleIpcMessage(rc.msg, Some(origin));
      taken := true;
    }

    /** Runs the frames that a drain cut out through `ingress`; `ok` is false if the connection itself failed. */
    method HandleRecv(fd: int, frames: seq<seq<byte>>, ok: bool) returns (open: bool)
      requires Inv(p, Abs())
      modifies this
      ensures Abs() == Receive(p, old(Abs()), fd, frames, ok) && Inv(p, Abs())
      ensures open ==> fd in conns
    {
      if fd !in conns {
        return false;
      }
      ghost var s0 := Abs();
      for i := 0 to |frames|
        invariant Inv(p, Abs()) && fd in conns
        invariant Receive(p, s0, fd, frames, ok) == Receive(p, Abs(), fd, frames[i..], ok)
      {
        IngressKeepsInv(p, Abs(), fd, frames[i]);
        assert frames[i..][1..] == frames[i + 1..];
        ghost var s := Abs();
        var taken := IngressFrame(fd, frames[i]);
        if !taken {
          CloseKeepsInv(p, s, fd);
          CloseConnection(fd);
          return false;
        }
      }
      if !ok {
        CloseKeepsInv(p, Abs(), fd);
        CloseConnection(fd);
      }
      open := ok;
    }

    /** The kernel takes up to `n` of the queued bytes. */
    method HandleSend(fd: int, n: nat, failed: bool) returns (open: bool)
      requires Inv(p, Abs())
      modifies this
      ensures Abs() == Writable(old(Abs()), fd, n, failed) && Inv(p, Abs())
    {
      WritableKeepsInv(p, Abs(), fd, n, failed);
      open := Flush(fd, n, failed);
    }

    method Flush(fd: int, n: nat, failed: bool) returns (open: bool)
      modifies this`routes, this`conns, this`interest
      ensures Abs() == Writable(old(Abs()), fd, n, failed)
    {
      if fd !in conns {
        return false;
      }
      var conn := conns[fd];
      if n < |conn.tx| && failed {
        CloseConnection(fd);
        return false;
      }
      var k := Min(n, |conn.tx|);
      conns := conns[fd := conn.(tx := conn.tx[k..], sent := conn.sent + conn.tx[..k])];
      interest := interest[fd := conns[fd].tx != []];
      open := true;
    }

    method HandleAccept(fds: seq<nat>)
      requires Inv(p, Abs())
      modifies this
      ensures Abs() == Accept(p, old(Abs()), fds) && Inv(p, Abs())
    {
      ghost var s0 := Abs();
      for i := 0 to |fds|
        invariant Abs() == Accept(p, s0, fds[..i])
      {
        assert fds[..i + 1][..i] == fds[..i];
        if |conns| >= p.maxConnections {
          continue;
        }
        if fds[i] in interest {
          continue;
        }
        interest := interest[fds[i] := false];
        conns := conns[fds[i] := Conn([], [], [])];
      }
      assert fds[..|fds|] == fds;
      AcceptKeepsInv(p, s0, fds);
    }

    /** ipcd's services take what was posted first; only a RuntimeReady touches the routes. */
    method ServePosted(version: nat)
      requires Inv(p, Abs())
      modifies this
      ensures Abs() == Step(p, old(Abs()), Served(version)) && Inv(p, Abs())
    {
      ServedKeepsInv(p, Abs(), version);
      TakePosted(version);
    }

    method TakePosted(version: nat)
      modifies this`posted, this`routes, this`reports
      ensures Abs() == Serve(old(Abs()), version)
    {
      if posted == [] {
        return;
      }
      var Posted(m, times) := posted[0];
      posted := posted[1..];
      if m.cmd == RUNTIME_READY {
        reports := reports[m.src := times];
        MarkRuntimeReady(m.src, true, version);
      }
    }

    /** One epoll event of a connection: closing comes first, and a send follows a receive only if still open. */
    method HandleEvent(fd: int, isClose: bool, isRecv: bool, isSend: bool, frames: seq<seq<byte>>, ok: bool,
                       n: nat, failed: bool)
      requires Inv(p, Abs())
      modifies this
      ensures Abs() ==
        RunFrom(p, old(Abs()), EventsOf(old(conns).Keys, fd, isClose, isRecv, isSend, frames, ok, n, failed))
      ensures Inv(p, Abs())
      ensures fd !in old(conns) ==> Abs() == old(Abs())
      ensures fd in old(conns) && isClose ==> Vanished(old(Abs()), Abs(), fd)
    {
      EventOutcome(p, Abs(), fd, isClose, isRecv, isSend, frames, ok, n, failed);
      EventKeepsInv(p, Abs(), EventsOf(conns.Keys, fd, isClose, isRecv, isSend, frames, ok, n, failed));
      ActOn(fd, isClose, isRecv, isSend, frames, ok, n, failed);
    }

    method HangUp(fd: int)
      requires fd in conns
      modifies this`routes, this`conns, this`interest
      ensures Abs() == Step(p, old(Abs()), HungUp(fd))
    {
      CloseConnection(fd);
    }

    method ActOn(fd: int, isClose: bool, isRecv: bool, isSend: bool, frames: seq<seq<byte>>, ok: bool, n: nat,
                 failed: bool)
      requires Inv(p, Abs())
      modifies this
      ensures Abs() ==
        RunFrom(p, old(Abs()), EventsOf(old(conns).Keys, fd, isClose, isRecv, isSend, frames, ok, n, failed))
    {
      ghost var s0 := Abs();
      if fd !in conns {
        return;
      }
      if isClose {
        HangUp(fd);
        ThenOne(p, s0, HungUp(fd), []);
        return;
      }
      var open;
      ghost var sending := if isSend then [Flushed(fd, n, failed)] else [];
      if isRecv {
        open := HandleRecv(fd, frames, ok);
        ThenOne(p, s0, Received(fd, frames, ok), sending);
      }
      SendIf(isSend, fd, n, failed);
    }

    method SendIf(isSend: bool, fd: int, n: nat, failed: bool)
      modifies this`routes, this`conns, this`interest
      ensures Abs() == RunFrom(p, old(Abs()), if isSend then [Flushed(fd, n, failed)] else [])
    {
      if isSend {
        ThenOne(p, Abs(), Flushed(fd, n, failed), []);
        var open := Flush(fd, n, failed);
      }
    }
  }

  /** What one epoll event on descriptor `fd` amounts to when `live` are connected. */
  function EventsOf(live: set<int>, fd: int, isClose: bool, isRecv: bool, isSend: bool, frames: seq<seq<byte>>,
                    ok: bool, n: nat, failed: bool): seq<Event> {
    if fd !in live then []
    else if isClose then [HungUp(fd)]
    else (if isRecv then [Received(fd, frames, ok)] else []) + (if isSend then [Flushed(fd, n, failed)] else [])
  }

  /**
   * An event for an unknown descriptor does nothing. Otherwise a close ends the connection whatever else is signalled;
   * else what is signalled is done, receiving before sending.
   */
  lemma EventOutcome(p: Params, s: State, fd: int, isClose: bool, isRecv: bool, isSend: bool, frames: seq<seq<byte>>,
                     ok: bool, n: nat, failed: bool)
    ensures var s' := RunFrom(p, s, EventsOf(s.conns.Keys, fd, isClose, isRecv, isSend, frames, ok, n, failed));
      if fd !in s.conns then s' == s
      else if isClose then Vanished(s, s', fd)
      else
        var s1 := if isRecv then Step(p, s, Received(fd, frames, ok)) else s;
        s' == if isSend then Step(p, s1, Flushed(fd, n, failed)) else s1
  {
    var sending := if isSend then [Flushed(fd, n, failed)] else [];
    ThenOne(p, s, HungUp(fd), []);
    ThenOne(p, s, Received(fd, frames, ok), sending);
    var s1 := if isRecv then Step(p, s, Received(fd, frames, ok)) else s;
    ThenOne(p, s1, Flushed(fd, n, failed), []);
    assert [HungUp(fd)] + [] == [HungUp(fd)] && [Flushed(fd, n, failed)] + [] == [Flushed(fd, n, failed)];
    assert [] + sending == sending;
  }

  function RunFrom(p: Params, s: State, events: seq<Event>): State
    decreases |events|
  {
    if events == [] then s else RunFrom(p, Step(p, s, events[0]), events[1..])
  }

  lemma ThenOne(p: Params, s: State, e: Event, events: seq<Event>)
    ensures RunFrom(p, s, [e] + events) == RunFrom(p, Step(p, s, e), events)
  {
    assert ([e] + events)[1..] == events;
  }

  lemma {:induction false} EventKeepsInv(p: Params, s: State, events: seq<Event>)
    requires Inv(p, s)
    ensures Inv(p, RunFrom(p, s, events))
    decreases |events|
  {
    if events != [] {
      StepKeepsInv(p, s, events[0]);
      EventKeepsInv(p, Step(p, s, events[0]), events[1..]);
    }
  }
}
