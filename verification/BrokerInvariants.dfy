/** What holds of ipcd in every state that any sequence of events can reach. */
module BrokerInvariants {
  import opened Bytes
  import opened Codec
  import opened RingBuffer
  import opened BrokerState

  function Flat(frames: seq<Queued>): seq<byte> {
    if frames == [] then [] else Flat(frames[..|frames| - 1]) + frames[|frames| - 1].frame
  }

  lemma FlatAppend(frames: seq<Queued>, q: Queued)
    ensures Flat(frames + [q]) == Flat(frames) + q.frame
  {
    assert (frames + [q])[..|frames|] == frames;
  }

  // ---- The parts of the invariant ----

  /** A bound route leads to a live connection. */
  ghost predicate RoutesLive(s: State) {
    && (forall fd :: fd in s.conns ==> fd >= 0)
    && (forall d :: d in s.routes ==> s.routes[d].fd == -1 || s.routes[d].fd in s.conns)
  }

  /** EPOLLOUT is armed on exactly the connections that have bytes to send, and exactly those are registered. */
  ghost predicate Armed(s: State) {
    && s.interest.Keys == s.conns.Keys
    && (forall fd :: fd in s.conns ==> (s.interest[fd] <==> s.conns[fd].tx != []))
  }

  ghost predicate Counted(s: State) {
    && s.acquired.Keys == s.routes.Keys
    && (forall d :: d in s.routes ==> s.acquired[d] > 0 && s.routes[d].generation == s.acquired[d] % 0x1_0000_0000)
  }

  /** The message is for a daemon on `fd`. */
  ghost predicate Addressed(routes: map<byte, Route>, m: Message, fd: int) {
    if IsBroadcast(m) then Audience(routes, m.src, fd) != {} else m.dst in routes && routes[m.dst].fd == fd
  }

  /** A forwarded frame is, byte for byte, the input it forwards, which was no handshake and was for this connection. */
  ghost predicate Faithful(routes: map<byte, Route>, inputs: seq<Input>, fd: int, q: Queued) {
    q.origin.Some? ==>
      var k := q.origin.value;
      && k < |inputs|
      && q.frame == inputs[k].frame
      && !IsHandshake(inputs[k].msg.cmd)
      && Addressed(routes, inputs[k].msg, fd)
  }

  ghost predicate TwoDaemons(routes: map<byte, Route>, fd: int) {
    exists d, d' :: d in routes && d' in routes && d != d' && routes[d].fd == fd && routes[d'].fd == fd
  }

  /** Forwarded frames keep the order of their inputs, and one is repeated only on a connection of several daemons. */
  ghost predicate InOrder(routes: map<byte, Route>, fd: int, frames: seq<Queued>) {
    forall i, j :: 0 <= i < j < |frames| && frames[i].origin.Some? && frames[j].origin.Some? ==>
      && frames[i].origin.value <= frames[j].origin.value
      && (frames[i].origin.value == frames[j].origin.value ==> TwoDaemons(routes, fd))
  }

  /** Everything queued on the connection has been sent or is still in its ring. */
  ghost predicate Accounted(p: Params, c: Conn) {
    c.sent + c.tx == Flat(c.frames) && |c.tx| <= p.txCapacity
  }

  ghost predicate ConnOk(p: Params, routes: map<byte, Route>, inputs: seq<Input>, fd: int, c: Conn) {
    && Accounted(p, c)
    && InOrder(routes, fd, c.frames)
    && (forall i :: 0 <= i < |c.frames| ==> Faithful(routes, inputs, fd, c.frames[i]))
  }

  ghost predicate Traffic(p: Params, s: State) {
    forall fd :: fd in s.conns ==> ConnOk(p, s.routes, s.inputs, fd, s.conns[fd])
  }

  ghost predicate Inv(p: Params, s: State) {
    RoutesLive(s) && Armed(s) && Counted(s) && Traffic(p, s) && |s.conns| <= p.maxConnections
  }

  // ---- Routes change in few ways ----

  /** Every route that leads to a connection other than `closed` is still there. */
  ghost predicate Sticky(r: map<byte, Route>, r': map<byte, Route>, closed: set<int>) {
    forall d :: d in r && r[d].fd >= 0 && r[d].fd !in closed ==> d in r' && r'[d].fd == r[d].fd
  }

  lemma AddressedPersists(r: map<byte, Route>, r': map<byte, Route>, m: Message, fd: int, closed: set<int>)
    requires Addressed(r, m, fd) && fd >= 0 && fd !in closed && Sticky(r, r', closed)
    ensures Addressed(r', m, fd)
  {
    if IsBroadcast(m) {
      var d :| d in Audience(r, m.src, fd);
      assert d in Audience(r', m.src, fd);
    }
  }

  lemma ConnOkPersists(p: Params, r: map<byte, Route>, r': map<byte, Route>, ins: seq<Input>, ins': seq<Input>,
                       fd: int, c: Conn, closed: set<int>)
    requires ConnOk(p, r, ins, fd, c) && fd >= 0 && fd !in closed
    requires Sticky(r, r', closed) && ins <= ins'
    ensures ConnOk(p, r', ins', fd, c)
  {
    if TwoDaemons(r, fd) {
      var d, d' :| d in r && d' in r && d != d' && r[d].fd == fd && r[d'].fd == fd;
      assert d in r' && d' in r' && r'[d].fd == fd && r'[d'].fd == fd;
    }
    forall i | 0 <= i < |c.frames|
      ensures Faithful(r', ins', fd, c.frames[i])
    {
      var q := c.frames[i];
      assert Faithful(r, ins, fd, q);
      if q.origin.Some? {
        AddressedPersists(r, r', ins[q.origin.value].msg, fd, closed);
      }
    }
  }

  /** Queues untouched and routes kept: the traffic invariant survives. */
  lemma TrafficPersists(p: Params, s: State, s': State, closed: set<int>)
    requires Traffic(p, s) && RoutesLive(s)
    requires Sticky(s.routes, s'.routes, closed) && s.inputs <= s'.inputs
    requires forall fd :: fd in s'.conns ==> fd !in closed && fd in s.conns && s'.conns[fd] == s.conns[fd]
    ensures Traffic(p, s')
  {
    forall fd | fd in s'.conns
      ensures ConnOk(p, s'.routes, s'.inputs, fd, s'.conns[fd])
    {
      ConnOkPersists(p, s.routes, s'.routes, s.inputs, s'.inputs, fd, s.conns[fd], closed);
    }
  }

  /** Routes, inputs and services may change while the connections stay as they are. */
  lemma RoutesKeepInv(p: Params, s: State, s': State)
    requires Inv(p, s) && s'.conns == s.conns && s'.interest == s.interest
    requires RoutesLive(s') && Counted(s') && Sticky(s.routes, s'.routes, {}) && s.inputs <= s'.inputs
    ensures Inv(p, s')
  {
    TrafficPersists(p, s, s', {});
  }

  /** The connection's queue is in order, and EPOLLOUT is armed exactly while it holds bytes. */
  ghost predicate QueueOk(p: Params, routes: map<byte, Route>, inputs: seq<Input>, fd: int, c: Conn, armed: bool) {
    ConnOk(p, routes, inputs, fd, c) && (armed <==> c.tx != [])
  }

  /** Queues may change while routes and inputs stay as they are. */
  lemma QueuesKeepInv(p: Params, s: State, c: map<int, Conn>, i: map<int, bool>)
    requires Inv(p, s) && c.Keys == i.Keys == s.conns.Keys
    requires forall fd :: fd in c ==> QueueOk(p, s.routes, s.inputs, fd, c[fd], i[fd])
    ensures Inv(p, s.(conns := c, interest := i))
  {
    SameSize(s.conns, c);
  }

  /** So may one queue. */
  lemma OneQueueKeepsInv(p: Params, s: State, fd: int, c: Conn, armed: bool)
    requires Inv(p, s) && fd in s.conns && QueueOk(p, s.routes, s.inputs, fd, c, armed)
    ensures Inv(p, s.(conns := s.conns[fd := c], interest := s.interest[fd := armed]))
    ensures s.conns[fd := c].Keys == s.conns.Keys
  {
    var cs, i := s.conns[fd := c], s.interest[fd := armed];
    assert cs.Keys == s.conns.Keys && i.Keys == s.interest.Keys;
    forall k | k in cs ensures QueueOk(p, s.routes, s.inputs, k, cs[k], i[k]) {
      assert k == fd || ConnOk(p, s.routes, s.inputs, k, s.conns[k]);
    }
    QueuesKeepInv(p, s, cs, i);
  }

  lemma BindEffect(s: State, daemon: byte, fd: int)
    requires RoutesLive(s) && Counted(s) && fd in s.conns
    ensures var (s', bound) := Bind(s, daemon, fd);
      && RoutesLive(s') && Sticky(s.routes, s'.routes, {})
      && s' == s.(routes := s'.routes, acquired := s'.acquired)
      && (bound <==> daemon !in s.routes || s.routes[daemon].fd in {-1, fd})
      && (bound ==> daemon in s'.routes && s'.routes[daemon].fd == fd)
      && (!bound ==> s' == s)
  {
  }

  lemma BindCounts(s: State, daemon: byte, fd: int)
    requires Counted(s)
    ensures Counted(Bind(s, daemon, fd).0)
  {
    var r, a := s.routes, s.acquired;
    if daemon in r && r[daemon].fd < 0 {
      OneGenerationMore(a[daemon]);
    }
  }

  lemma OneGenerationMore(n: nat)
    ensures (n % 0x1_0000_0000 + 1) % 0x1_0000_0000 == (n + 1) % 0x1_0000_0000
  {
  }

  lemma BindKeepsInv(p: Params, s: State, daemon: byte, fd: int)
    requires Inv(p, s) && fd in s.conns
    ensures Inv(p, Bind(s, daemon, fd).0)
  {
    BindEffect(s, daemon, fd);
    BindCounts(s, daemon, fd);
    RoutesKeepInv(p, s, Bind(s, daemon, fd).0);
  }

  /** A daemon that acquires a connection starts unready, at no version, and counts one more generation. */
  lemma AcquiringStartsAfresh(p: Params, s: State, daemon: byte, fd: int)
    requires Inv(p, s) && fd in s.conns
    requires FdOf(s.routes, daemon) != fd && Bind(s, daemon, fd).1
    ensures var s' := Bind(s, daemon, fd).0;
      && daemon in s'.routes
      && s'.routes[daemon] == Route(fd, false, s'.acquired[daemon] % 0x1_0000_0000, 0)
      && s'.acquired[daemon] == (if daemon in s.acquired then s.acquired[daemon] else 0) + 1
  {
    BindEffect(s, daemon, fd);
    BindCounts(s, daemon, fd);
  }

  lemma CloseEffect(s: State, fd: int)
    requires RoutesLive(s) && Armed(s) && Counted(s) && fd >= 0
    ensures var s' := Close(s, fd);
      && RoutesLive(s') && Armed(s') && Counted(s')
      && fd !in s'.conns && s'.conns.Keys == s.conns.Keys - {fd}
      && Sticky(s.routes, s'.routes, {fd})
      && (forall d :: d in s'.routes ==> s'.routes[d].fd != fd)
  {
  }

  /** Closing clears every route on the connection; a cleared route keeps nothing but its generation. */
  lemma CloseKeepsInv(p: Params, s: State, fd: int)
    requires Inv(p, s) && fd >= 0
    ensures Inv(p, Close(s, fd)) && Dropped(s, Close(s, fd), fd)
    ensures forall d :: d in s.routes && s.routes[d].fd == fd ==>
      Close(s, fd).routes[d] == Route(-1, false, s.routes[d].generation, 0)
  {
    CloseEffect(s, fd);
    TrafficPersists(p, s, Close(s, fd), {fd});
    SmallerMap(s.conns, fd);
  }

  /** The connection is gone, and with it every route that led to it, and no other. */
  ghost predicate Dropped(s: State, s': State, fd: int) {
    && fd !in s'.conns && s'.conns.Keys == s.conns.Keys - {fd}
    && Sticky(s.routes, s'.routes, {fd})
    && (forall d :: d in s'.routes ==> s'.routes[d].fd != fd)
    && forall d :: d in s.routes && s.routes[d].fd == fd ==> d in s'.routes && s'.routes[d].fd == -1
  }

  /**
   * Between the states connection `fd` has gone: it is neither connected nor registered, every daemon that was bound to
   * it is bound to nothing, unready and at no version, and everything else is as it was.
   */
  ghost predicate Vanished(s: State, s': State, fd: int) {
    && s' == s.(routes := s'.routes, conns := s'.conns, interest := s'.interest)
    && s'.conns == s.conns - {fd} && s'.interest == s.interest - {fd}
    && s'.routes.Keys == s.routes.Keys
    && forall d :: d in s.routes ==>
         s'.routes[d] == if s.routes[d].fd == fd then Route(-1, false, s.routes[d].generation, 0) else s.routes[d]
  }

  lemma CloseVanishes(s: State, fd: int, s': State)
    requires s' == Close(s, fd)
    ensures Vanished(s, s', fd)
  {
  }

  lemma SmallerMap(m: map<int, Conn>, fd: int)
    ensures |m - {fd}| <= |m|
  {
    var m' := m - {fd};
    assert m'.Keys == m.Keys - {fd};
    assert |m'| == |m'.Keys| && |m| == |m.Keys|;
    SubsetSize(m'.Keys, m.Keys);
  }

  lemma {:induction false} SubsetSize<T>(a: set<T>, b: set<T>)
    requires a <= b
    ensures |a| <= |b|
  {
    if a != {} {
      var x :| x in a;
      SubsetSize(a - {x}, b - {x});
    }
  }

  // ---- Queueing ----

  /** One more frame, forwarding an input at least as recent as every one forwarded before. */
  lemma PushKeepsOk(p: Params, r: map<byte, Route>, ins: seq<Input>, fd: int, c: Conn, q: Queued)
    requires ConnOk(p, r, ins, fd, c) && Faithful(r, ins, fd, q) && |c.tx| + |q.frame| <= p.txCapacity
    requires q.origin.Some? ==> forall i :: 0 <= i < |c.frames| && c.frames[i].origin.Some? ==>
      && c.frames[i].origin.value <= q.origin.value
      && (c.frames[i].origin.value == q.origin.value ==> TwoDaemons(r, fd))
    ensures ConnOk(p, r, ins, fd, Push(c, q.frame, q.origin, p.txCapacity))
  {
    FlatAppend(c.frames, q);
    assert c.sent + (c.tx + q.frame) == (c.sent + c.tx) + q.frame;
  }

  /** The frames already on the connection forward earlier inputs than `origin`. */
  ghost predicate Newest(c: Conn, origin: Option<nat>) {
    origin.Some? ==>
      forall i :: 0 <= i < |c.frames| && c.frames[i].origin.Some? ==> c.frames[i].origin.value < origin.value
  }

  lemma OneOfTwo(routes: map<byte, Route>, src: byte, fd: int)
    requires |Audience(routes, src, fd)| >= 2
    ensures TwoDaemons(routes, fd)
  {
    var a := Audience(routes, src, fd);
    var d :| d in a;
    assert |a - {d}| == |a| - 1;
    var d' :| d' in a - {d};
    assert d in routes && d' in routes && d != d' && routes[d].fd == fd && routes[d'].fd == fd;
  }

  /** What pushing many copies adds: some number of the same frame. */
  ghost predicate Added(c: Conn, c': Conn, q: Queued, n: nat) {
    && c.frames <= c'.frames && |c'.frames| <= |c.frames| + n
    && (forall i :: |c.frames| <= i < |c'.frames| ==> c'.frames[i] == q)
    && (|c'.frames| == |c.frames| ==> c' == c)
    && (|c'.frames| > |c.frames| && q.frame != [] ==> c'.tx != [])
  }

  lemma {:induction false} PushManyAdds(c: Conn, q: Queued, capacity: nat, n: nat)
    ensures Added(c, PushMany(c, q.frame, q.origin, capacity, n), q, n)
  {
    if n > 0 {
      PushManyAdds(c, q, capacity, n - 1);
    }
  }

  lemma {:induction false} PushManyKeepsOk(p: Params, r: map<byte, Route>, ins: seq<Input>, fd: int, c: Conn,
                                           q: Queued, n: nat)
    requires ConnOk(p, r, ins, fd, c) && Newest(c, q.origin)
    requires n > 0 ==> Faithful(r, ins, fd, q)
    requires n > 1 ==> TwoDaemons(r, fd)
    ensures ConnOk(p, r, ins, fd, PushMany(c, q.frame, q.origin, p.txCapacity, n))
  {
    if n > 0 {
      PushManyKeepsOk(p, r, ins, fd, c, q, n - 1);
      var before := PushMany(c, q.frame, q.origin, p.txCapacity, n - 1);
      if |before.tx| + |q.frame| <= p.txCapacity {
        if q.origin.Some? {
          PushManyAdds(c, q, p.txCapacity, n - 1);
          OldOrSame(r, fd, c, before, q, n - 1);
        }
        PushKeepsOk(p, r, ins, fd, before, q);
      }
    }
  }

  /** What is on the connection before another copy forwards earlier inputs, or is a copy itself. */
  lemma OldOrSame(r: map<byte, Route>, fd: int, c: Conn, c': Conn, q: Queued, n: nat)
    requires Newest(c, q.origin) && Added(c, c', q, n) && q.origin.Some? && (n > 0 ==> TwoDaemons(r, fd))
    ensures forall i :: 0 <= i < |c'.frames| && c'.frames[i].origin.Some? ==>
      && c'.frames[i].origin.value <= q.origin.value
      && (c'.frames[i].origin.value == q.origin.value ==> TwoDaemons(r, fd))
  {
    forall i | 0 <= i < |c'.frames| && c'.frames[i].origin.Some?
      ensures c'.frames[i].origin.value <= q.origin.value
      ensures c'.frames[i].origin.value == q.origin.value ==> TwoDaemons(r, fd)
    {
      if i < |c.frames| {
        assert c'.frames[i] == c.frames[i];
      }
    }
  }

  /** As many copies as fit are queued, and no fewer. */
  lemma {:induction false} PushManyIsGreedy(c: Conn, frame: seq<byte>, origin: Option<nat>, capacity: nat, n: nat)
    requires |c.tx| <= capacity && frame != []
    ensures var c' := PushMany(c, frame, origin, capacity, n);
      && |c.tx| <= |c'.tx| <= capacity
      && |c'.tx| == |c.tx| + (|c'.frames| - |c.frames|) * |frame|
      && c.frames <= c'.frames && |c'.frames| <= |c.frames| + n
      && (|c'.frames| < |c.frames| + n ==> |c'.tx| + |frame| > capacity)
  {
    if n > 0 {
      PushManyIsGreedy(c, frame, origin, capacity, n - 1);
      var before := PushMany(c, frame, origin, capacity, n - 1);
      var c' := PushMany(c, frame, origin, capacity, n);
      assert (|before.frames| + 1 - |c.frames|) * |frame| == (|before.frames| - |c.frames|) * |frame| + |frame|;
    }
  }

  /** The input being forwarded, if any, is `m`, and its frame is the encoding of `m`. */
  ghost predicate Forwards(s: State, m: Message, origin: Option<nat>) {
    origin.Some? ==>
      && origin.value < |s.inputs| && s.inputs[origin.value].msg == m && s.inputs[origin.value].frame == Frame(m)
      && !IsHandshake(m.cmd)
  }

  lemma BroadcastKeepsConn(p: Params, s: State, m: Message, origin: Option<nat>, fd: int)
    requires fd in s.conns && ConnOk(p, s.routes, s.inputs, fd, s.conns[fd])
    requires Newest(s.conns[fd], origin) && Forwards(s, m, origin) && IsBroadcast(m)
    ensures var n := |Audience(s.routes, m.src, fd)|;
      var c' := PushMany(s.conns[fd], Frame(m), origin, p.txCapacity, n);
      ConnOk(p, s.routes, s.inputs, fd, c') && Added(s.conns[fd], c', Queued(Frame(m), origin), n)
  {
    var audience := Audience(s.routes, m.src, fd);
    if |audience| >= 2 {
      OneOfTwo(s.routes, m.src, fd);
    }
    PushManyKeepsOk(p, s.routes, s.inputs, fd, s.conns[fd], Queued(Frame(m), origin), |audience|);
    PushManyAdds(s.conns[fd], Queued(Frame(m), origin), p.txCapacity, |audience|);
  }

  /** Armed before or holding more than before: exactly while bytes are queued. */
  lemma BroadcastArms(c: Conn, c': Conn, q: Queued, n: nat, armed: bool)
    requires Added(c, c', q, n) && q.frame != [] && (armed <==> c.tx != [])
    requires |c'.frames| > |c.frames| || c' == c
    ensures (armed || |c'.frames| > |c.frames|) <==> c'.tx != []
  {
  }

  lemma BroadcastKeepsInv(p: Params, s: State, m: Message, origin: Option<nat>)
    requires Inv(p, s) && Forwards(s, m, origin) && IsBroadcast(m)
    requires forall fd :: fd in s.conns ==> Newest(s.conns[fd], origin)
    ensures Inv(p, Broadcast(p, s, m, origin))
    ensures Broadcast(p, s, m, origin).conns.Keys == s.conns.Keys
  {
    if Fits(m) {
      var s' := Broadcast(p, s, m, origin);
      CopiesKeepInv(p, s, m, origin, s'.conns, s'.interest);
    }
  }

  lemma CopiesKeepInv(p: Params, s: State, m: Message, origin: Option<nat>, c: map<int, Conn>, i: map<int, bool>)
    requires Inv(p, s) && Forwards(s, m, origin) && IsBroadcast(m)
    requires forall fd :: fd in s.conns ==> Newest(s.conns[fd], origin)
    requires c.Keys == i.Keys == s.conns.Keys
    requires forall fd :: fd in c ==>
      c[fd] == PushMany(s.conns[fd], Frame(m), origin, p.txCapacity, |Audience(s.routes, m.src, fd)|)
    requires forall fd :: fd in i ==> i[fd] == (s.interest[fd] || |c[fd].frames| > |s.conns[fd].frames|)
    ensures Inv(p, s.(conns := c, interest := i))
  {
    forall fd | fd in c ensures QueueOk(p, s.routes, s.inputs, fd, c[fd], i[fd]) {
      assert ConnOk(p, s.routes, s.inputs, fd, s.conns[fd]);
      BroadcastKeepsQueue(p, s, m, origin, fd, c[fd], i[fd]);
    }
    QueuesKeepInv(p, s, c, i);
  }

  lemma BroadcastKeepsQueue(p: Params, s: State, m: Message, origin: Option<nat>, fd: int, c: Conn, armed: bool)
    requires fd in s.conns && fd in s.interest && Newest(s.conns[fd], origin) && Forwards(s, m, origin)
    requires IsBroadcast(m)
    requires QueueOk(p, s.routes, s.inputs, fd, s.conns[fd], s.interest[fd])
    requires c == PushMany(s.conns[fd], Frame(m), origin, p.txCapacity, |Audience(s.routes, m.src, fd)|)
    requires armed <==> s.interest[fd] || |c.frames| > |s.conns[fd].frames|
    ensures QueueOk(p, s.routes, s.inputs, fd, c, armed)
  {
    BroadcastKeepsConn(p, s, m, origin, fd);
    BroadcastArms(s.conns[fd], c, Queued(Frame(m), origin), |Audience(s.routes, m.src, fd)|, s.interest[fd]);
  }

  lemma SameSize(a: map<int, Conn>, b: map<int, Conn>)
    requires a.Keys == b.Keys
    ensures |a| == |b|
  {
    assert |a| == |a.Keys| && |b| == |b.Keys|;
  }

  lemma EnqueueKeepsInv(p: Params, s: State, fd: int, f: seq<byte>, origin: Option<nat>)
    requires Inv(p, s) && fd in s.conns && f != []
    requires Faithful(s.routes, s.inputs, fd, Queued(f, origin)) && Newest(s.conns[fd], origin)
    ensures Inv(p, Enqueue(p, s, fd, f, origin)) && Enqueue(p, s, fd, f, origin).conns.Keys == s.conns.Keys
  {
    var c := s.conns[fd];
    if |c.tx| + |f| <= p.txCapacity {
      var c' := Push(c, f, origin, p.txCapacity);
      PushedQueueOk(p, s.routes, s.inputs, fd, c, Queued(f, origin));
      OneQueueKeepsInv(p, s, fd, c', true);
      assert Enqueue(p, s, fd, f, origin) == s.(conns := s.conns[fd := c'], interest := s.interest[fd := true]);
    }
  }

  lemma PushedQueueOk(p: Params, r: map<byte, Route>, ins: seq<Input>, fd: int, c: Conn, q: Queued)
    requires ConnOk(p, r, ins, fd, c) && Faithful(r, ins, fd, q) && Newest(c, q.origin)
    requires |c.tx| + |q.frame| <= p.txCapacity && q.frame != []
    ensures QueueOk(p, r, ins, fd, Push(c, q.frame, q.origin, p.txCapacity), true)
  {
    PushKeepsOk(p, r, ins, fd, c, q);
  }

  lemma UnicastKeepsInv(p: Params, s: State, m: Message, origin: Option<nat>)
    requires Inv(p, s) && Forwards(s, m, origin) && !IsBroadcast(m)
    requires forall fd :: fd in s.conns ==> Newest(s.conns[fd], origin)
    ensures var s' := Unicast(p, s, m, origin); Inv(p, s') && s'.conns.Keys == s.conns.Keys
  {
    var fd := FdOf(s.routes, m.dst);
    if fd in s.conns && Fits(m) {
      EnqueueKeepsInv(p, s, fd, Frame(m), origin);
    }
  }

  lemma EgressKeepsInv(p: Params, s: State, m: Message, origin: Option<nat>)
    requires Inv(p, s) && Forwards(s, m, origin)
    requires forall fd :: fd in s.conns ==> Newest(s.conns[fd], origin)
    ensures Inv(p, Egress(p, s, m, origin)) && Egress(p, s, m, origin).conns.Keys == s.conns.Keys
  {
    if IsBroadcast(m) {
      BroadcastKeepsInv(p, s, m, origin);
    } else {
      UnicastKeepsInv(p, s, m, origin);
    }
  }

  /** Sending touches queues and interest only. */
  lemma EgressIsQueueing(p: Params, s: State, m: Message, origin: Option<nat>)
    ensures var s' := Egress(p, s, m, origin); s' == s.(conns := s'.conns, interest := s'.interest)
  {
  }

  /** Every frame queued so far forwards an input already recorded. */
  lemma NextInputIsNewest(p: Params, s: State, fd: int)
    requires Inv(p, s) && fd in s.conns
    ensures Newest(s.conns[fd], Some(|s.inputs|))
  {
    var c := s.conns[fd];
    assert ConnOk(p, s.routes, s.inputs, fd, c);
    forall i | 0 <= i < |c.frames| && c.frames[i].origin.Some?
      ensures c.frames[i].origin.value < |s.inputs|
    {
      assert Faithful(s.routes, s.inputs, fd, c.frames[i]);
    }
  }

  lemma DispatchKeepsInv(p: Params, s: State, input: Input)
    requires Inv(p, s) && input.frame == Frame(input.msg)
    ensures var s' := Dispatch(p, s.(inputs := s.inputs + [input]), input.msg, Some(|s.inputs|));
      && Inv(p, s') && s'.routes == s.routes && s'.conns.Keys == s.conns.Keys && s'.inputs == s.inputs + [input]
  {
    var s2 := s.(inputs := s.inputs + [input]);
    RoutesKeepInv(p, s, s2);
    if IsHandshake(input.msg.cmd) {
      RoutesKeepInv(p, s2, s2.(posted := s2.posted + [Posted(input.msg, Times(s2, input.msg.src))]));
    } else {
      forall fd | fd in s2.conns
        ensures Newest(s2.conns[fd], Some(|s.inputs|))
      {
        NextInputIsNewest(p, s, fd);
      }
      EgressKeepsInv(p, s2, input.msg, Some(|s.inputs|));
      EgressIsQueueing(p, s2, input.msg, Some(|s.inputs|));
    }
  }

  lemma IngressKeepsInv(p: Params, s: State, fd: int, frame: seq<byte>)
    requires Inv(p, s) && fd in s.conns
    ensures var (s', taken) := Ingress(p, s, fd, frame);
      Inv(p, s') && s'.conns.Keys == s.conns.Keys && Sticky(s.routes, s'.routes, {}) && (!taken ==> s' == s)
  {
    match Decode(p.host, Some(frame)) {
      case DecodeOk(m) =>
        var (s1, bound) := Bind(s, m.src, fd);
        if bound {
          BindEffect(s, m.src, fd);
          BindKeepsInv(p, s, m.src, fd);
          ReencodeIsIdentity(p.host, frame);
          DispatchKeepsInv(p, s1, Input(fd, frame, m));
        }
      case _ =>
    }
  }

  /** Nothing closed and every route kept, or exactly the connection `fd` dropped. */
  ghost predicate KeptOrDropped(s: State, s': State, fd: int) {
    (s'.conns.Keys == s.conns.Keys && Sticky(s.routes, s'.routes, {})) || Dropped(s, s', fd)
  }

  lemma KeptThen(s: State, s1: State, s2: State, fd: int)
    requires s1.conns.Keys == s.conns.Keys && Sticky(s.routes, s1.routes, {}) && KeptOrDropped(s1, s2, fd)
    requires fd >= 0
    ensures KeptOrDropped(s, s2, fd)
  {
  }

  lemma {:induction false} ReceiveKeepsInv(p: Params, s: State, fd: int, frames: seq<seq<byte>>, ok: bool)
    requires Inv(p, s)
    ensures Inv(p, Receive(p, s, fd, frames, ok))
    ensures KeptOrDropped(s, Receive(p, s, fd, frames, ok), fd)
    decreases |frames|
  {
    if fd !in s.conns {
    } else if frames == [] {
      if !ok {
        CloseKeepsInv(p, s, fd);
      }
    } else {
      IngressKeepsInv(p, s, fd, frames[0]);
      var (s', taken) := Ingress(p, s, fd, frames[0]);
      if taken {
        ReceiveKeepsInv(p, s', fd, frames[1..], ok);
        KeptThen(s, s', Receive(p, s', fd, frames[1..], ok), fd);
      } else {
        CloseKeepsInv(p, s', fd);
      }
    }
  }

  lemma TakenKeepsConn(p: Params, r: map<byte, Route>, ins: seq<Input>, fd: int, c: Conn, k: nat)
    requires ConnOk(p, r, ins, fd, c) && k <= |c.tx|
    ensures ConnOk(p, r, ins, fd, c.(tx := c.tx[k..], sent := c.sent + c.tx[..k]))
  {
    assert (c.sent + c.tx[..k]) + c.tx[k..] == c.sent + c.tx;
  }

  lemma TakenKeepsInv(p: Params, s: State, fd: int, k: nat)
    requires Inv(p, s) && fd in s.conns && k <= |s.conns[fd].tx|
    ensures var c := s.conns[fd];
      Inv(p, s.(conns := s.conns[fd := c.(tx := c.tx[k..], sent := c.sent + c.tx[..k])],
                interest := s.interest[fd := k < |c.tx|]))
  {
    var c := s.conns[fd];
    assert ConnOk(p, s.routes, s.inputs, fd, c);
    TakenKeepsConn(p, s.routes, s.inputs, fd, c, k);
    OneQueueKeepsInv(p, s, fd, c.(tx := c.tx[k..], sent := c.sent + c.tx[..k]), k < |c.tx|);
  }

  lemma WritableKeepsInv(p: Params, s: State, fd: int, n: nat, failed: bool)
    requires Inv(p, s)
    ensures Inv(p, Writable(s, fd, n, failed))
    ensures KeptOrDropped(s, Writable(s, fd, n, failed), fd)
  {
    WritableKeepsRoutes(p, s, fd, n, failed);
    if fd in s.conns {
      if n < |s.conns[fd].tx| && failed {
        CloseKeepsInv(p, s, fd);
      } else {
        TakenKeepsInv(p, s, fd, Min(n, |s.conns[fd].tx|));
      }
    }
  }

  lemma WritableKeepsRoutes(p: Params, s: State, fd: int, n: nat, failed: bool)
    requires Inv(p, s)
    ensures KeptOrDropped(s, Writable(s, fd, n, failed), fd)
  {
    if fd in s.conns {
      if n < |s.conns[fd].tx| && failed {
        CloseKeepsInv(p, s, fd);
      } else {
        assert Writable(s, fd, n, failed).conns.Keys == s.conns.Keys;
      }
    }
  }

  lemma OneMore(m: map<int, Conn>, fd: int, c: Conn)
    requires fd !in m
    ensures |m[fd := c]| == |m| + 1
  {
    var m' := m[fd := c];
    assert m'.Keys == m.Keys + {fd} && |m'| == |m'.Keys| && |m| == |m.Keys|;
  }

  /** A connection that is new starts with nothing queued and EPOLLOUT unarmed. */
  lemma NewConnKeepsInv(p: Params, s: State, fd: nat)
    requires Inv(p, s) && fd !in s.conns && |s.conns| < p.maxConnections
    ensures Inv(p, s.(conns := s.conns[fd := Conn([], [], [])], interest := s.interest[fd := false]))
  {
    var c := Conn([], [], []);
    var cs := s.conns[fd := c];
    OneMore(s.conns, fd, c);
    NewConnKeepsTraffic(p, s, fd, c, s.(conns := cs, interest := s.interest[fd := false]));
    NewConnKeepsShape(s, s.(conns := cs, interest := s.interest[fd := false]), fd, c);
  }

  lemma NewConnKeepsTraffic(p: Params, s: State, fd: nat, c: Conn, s': State)
    requires Traffic(p, s) && fd !in s.conns && c == Conn([], [], [])
    requires s'.conns == s.conns[fd := c] && s'.routes == s.routes && s'.inputs == s.inputs
    ensures Traffic(p, s')
  {
    assert ConnOk(p, s.routes, s.inputs, fd, c);
  }

  lemma NewConnKeepsShape(s: State, s': State, fd: nat, c: Conn)
    requires RoutesLive(s) && Armed(s) && Counted(s) && fd !in s.conns && c.tx == []
    requires s' == s.(conns := s.conns[fd := c], interest := s.interest[fd := false])
    ensures RoutesLive(s') && Armed(s') && Counted(s')
  {
  }

  lemma {:induction false} AcceptKeepsInv(p: Params, s: State, fds: seq<nat>)
    requires Inv(p, s)
    ensures Inv(p, Accept(p, s, fds)) && Accept(p, s, fds).routes == s.routes
    ensures s.conns.Keys <= Accept(p, s, fds).conns.Keys
  {
    if fds != [] {
      AcceptKeepsInv(p, s, fds[..|fds| - 1]);
      var s', fd := Accept(p, s, fds[..|fds| - 1]), fds[|fds| - 1];
      if |s'.conns| < p.maxConnections && fd !in s'.interest {
        NewConnKeepsInv(p, s', fd);
      }
    }
  }

  /** Marking a daemon ready, or not, leaves connections and counts alone. */
  lemma MarkReadyEffect(s: State, daemon: byte, ready: bool, version: nat)
    requires RoutesLive(s) && Counted(s)
    ensures var s' := MarkReady(s, daemon, ready, version);
      RoutesLive(s') && Counted(s') && Sticky(s.routes, s'.routes, {}) && s' == s.(routes := s'.routes)
  {
  }

  lemma ServeKeepsInv(p: Params, s: State, version: nat)
    requires Inv(p, s)
    ensures Inv(p, Serve(s, version)) && Sticky(s.routes, Serve(s, version).routes, {})
    ensures Serve(s, version).conns == s.conns
  {
    if s.posted != [] {
      var Posted(m, times) := s.posted[0];
      var s1 := s.(posted := s.posted[1..]);
      RoutesKeepInv(p, s, s1);
      if m.cmd == RUNTIME_READY {
        var s2 := s1.(reports := s.reports[m.src := times]);
        RoutesKeepInv(p, s1, s2);
        MarkKeepsInv(p, s2, m.src, true, version, Serve(s, version));
      }
    }
  }

  lemma MarkKeepsInv(p: Params, s: State, daemon: byte, ready: bool, version: nat, s': State)
    requires Inv(p, s) && s' == MarkReady(s, daemon, ready, version)
    ensures Inv(p, s') && Sticky(s.routes, s'.routes, {}) && s'.conns == s.conns
  {
    MarkReadyEffect(s, daemon, ready, version);
    RoutesKeepInv(p, s, s');
  }

  lemma SentKeepsInv(p: Params, s: State, m: Message)
    requires Inv(p, s)
    ensures Inv(p, Step(p, s, Sent(m)))
  {
    SentMessageKeepsInv(p, s, m, Step(p, s, Sent(m)));
  }

  lemma SentMessageKeepsInv(p: Params, s: State, m: Message, s': State)
    requires Inv(p, s) && s' == Egress(p, s, m, None)
    ensures Inv(p, s')
  {
    EgressKeepsInv(p, s, m, None);
  }

  lemma ReceivedKeepsInv(p: Params, s: State, fd: int, frames: seq<seq<byte>>, ok: bool)
    requires Inv(p, s)
    ensures Inv(p, Step(p, s, Received(fd, frames, ok)))
  {
    ReceiveKeepsInv(p, s, fd, frames, ok);
  }

  lemma FlushedKeepsInv(p: Params, s: State, fd: int, n: nat, failed: bool)
    requires Inv(p, s)
    ensures Inv(p, Step(p, s, Flushed(fd, n, failed)))
  {
    WritableKeepsInv(p, s, fd, n, failed);
  }

  lemma ServedKeepsInv(p: Params, s: State, version: nat)
    requires Inv(p, s)
    ensures Inv(p, Step(p, s, Served(version)))
  {
    ServeKeepsInv(p, s, version);
  }

  lemma AcceptedKeepsInv(p: Params, s: State, fds: seq<nat>)
    requires Inv(p, s)
    ensures Inv(p, Step(p, s, Accepted(fds)))
  {
    AcceptKeepsInv(p, s, fds);
  }

  lemma HungUpKeepsInv(p: Params, s: State, fd: int)
    requires Inv(p, s)
    ensures Inv(p, Step(p, s, HungUp(fd)))
  {
    if fd in s.conns { ClosedKeepsInv(p, s, fd, Step(p, s, HungUp(fd))); }
  }

  lemma ClosedKeepsInv(p: Params, s: State, fd: int, s': State)
    requires Inv(p, s) && fd in s.conns && s' == Close(s, fd)
    ensures Inv(p, s')
  {
    CloseKeepsInv(p, s, fd);
  }

  lemma StepKeepsInv(p: Params, s: State, e: Event)
    requires Inv(p, s)
    ensures Inv(p, Step(p, s, e))
  {
    match e {
      case Accepted(fds) => AcceptedKeepsInv(p, s, fds);
      case Received(fd, frames, ok) => ReceivedKeepsInv(p, s, fd, frames, ok);
      case Flushed(fd, n, failed) => FlushedKeepsInv(p, s, fd, n, failed);
      case HungUp(fd) => HungUpKeepsInv(p, s, fd);
      case Served(version) => ServedKeepsInv(p, s, version);
      case Sent(m) => SentKeepsInv(p, s, m);
    }
  }

  /** Every reachable state satisfies the whole invariant. */
  lemma {:induction false} RunKeepsInv(p: Params, events: seq<Event>)
    ensures Inv(p, Run(p, events))
  {
    if events != [] {
      RunKeepsInv(p, events[..|events| - 1]);
      StepKeepsInv(p, Run(p, events[..|events| - 1]), events[|events| - 1]);
    }
  }
}
