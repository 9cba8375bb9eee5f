/** What ipcd keeps and how each of its operations changes it (ipcd/ipc/IpcServerHandler.cpp, IpcServer.cpp). */
module BrokerState {
  import opened Bytes
  import opened Codec
  import opened RingBuffer

  const IPCD: byte := 1
  const BROADCAST: byte := 255
  const BROADCAST_FLAG := 8

  const CLIENT_HELLO: u16 := 1
  const SYNC_REQUEST: u16 := 3
  const RUNTIME_READY: u16 := 5

  /** `RuntimeState`: the connection of a daemon, -1 when it has none. */
  datatype Route = Route(fd: int, ready: bool, generation: u32, appliedVersion: nat)

  /** A frame put on a connection's transmit ring, with the input it forwards if it forwards one. */
  datatype Queued = Queued(frame: seq<byte>, origin: Option<nat>)

  /** A live connection: its transmit ring, and the history of what was queued and of what the kernel took. */
  datatype Conn = Conn(tx: seq<byte>, sent: seq<byte>, frames: seq<Queued>)

  /** A message that `ingress` accepted, and the bytes it came as. */
  datatype Input = Input(fd: int, frame: seq<byte>, msg: Message)

  /** A message for ipcd's services; `times` says how often its source had acquired a connection when it came. */
  datatype Posted = Posted(msg: Message, times: nat)

  /**
   * `posted` waits for the services. History that no branch reads: `inputs`, how often each daemon has acquired a
   * connection, and for the report that last made it ready how often it had when that came.
   */
  datatype State = State(routes: map<byte, Route>, conns: map<int, Conn>, interest: map<int, bool>,
                         posted: seq<Posted>, inputs: seq<Input>, acquired: map<byte, nat>, reports: map<byte, nat>)

  datatype Params = Params(host: Host, txCapacity: nat, maxConnections: nat)

  const Initial := State(map[], map[], map[], [], [], map[], map[])

  predicate IsHandshake(cmd: u16) {
    cmd == CLIENT_HELLO || cmd == SYNC_REQUEST || cmd == RUNTIME_READY
  }

  predicate HasBroadcastFlag(flags: byte) {
    flags / BROADCAST_FLAG % 2 == 1
  }

  predicate IsBroadcast(m: Message) {
    m.dst == BROADCAST || HasBroadcastFlag(m.flags)
  }

  // ---- Routes ----

  /** How often a daemon has acquired a connection. */
  function Times(s: State, daemon: byte): nat {
    if daemon in s.acquired then s.acquired[daemon] else 0
  }

  function Bind(s: State, daemon: byte, fd: int): (State, bool) {
    if daemon !in s.routes then
      (s.(routes := s.routes[daemon := Route(fd, false, 1, 0)], acquired := s.acquired[daemon := 1]), true)
    else
      var state := s.routes[daemon];
      if state.fd == fd then (s, true)
      else if state.fd >= 0 then (s, false)
      else
        var generation: u32 := (state.generation + 1) % 0x1_0000_0000;
        (s.(routes := s.routes[daemon := Route(fd, false, generation, 0)],
            acquired := s.acquired[daemon := Times(s, daemon) + 1]), true)
  }

  function Released(r: Route, fd: int): Route {
    if r.fd == fd then r.(fd := -1, ready := false, appliedVersion := 0) else r
  }

  function Unbind(routes: map<byte, Route>, fd: int): map<byte, Route> {
    map d | d in routes :: Released(routes[d], fd)
  }

  function FdOf(routes: map<byte, Route>, daemon: byte): int {
    if daemon in routes && routes[daemon].fd >= 0 then routes[daemon].fd else -1
  }

  function Close(s: State, fd: int): State {
    s.(routes := Unbind(s.routes, fd), conns := s.conns - {fd}, interest := s.interest - {fd})
  }

  function MarkReady(s: State, daemon: byte, ready: bool, version: nat): State {
    if daemon !in s.routes then s
    else
      var r := s.routes[daemon];
      var applied := if version > 0 then version else r.appliedVersion;
      s.(routes := s.routes[daemon := r.(ready := ready, appliedVersion := applied)])
  }

  /**
   * The services take the message posted first: a RuntimeReady makes its daemon ready, at the version its payload
   * states, which is a parameter here; the others lead to messages that ipcd sends.
   */
  function Serve(s: State, version: nat): State {
    if s.posted == [] then s
    else
      var Posted(m, times) := s.posted[0];
      var s' := s.(posted := s.posted[1..]);
      if m.cmd == RUNTIME_READY then MarkReady(s'.(reports := s.reports[m.src := times]), m.src, true, version) else s'
  }

  // ---- Queues ----

  /** All or nothing, as `IpcConnection::write`. */
  function Push(c: Conn, frame: seq<byte>, origin: Option<nat>, capacity: nat): Conn {
    if |c.tx| + |frame| <= capacity
    then c.(tx := c.tx + frame, frames := c.frames + [Queued(frame, origin)]) else c
  }

  function PushMany(c: Conn, frame: seq<byte>, origin: Option<nat>, capacity: nat, n: nat): Conn {
    if n == 0 then c else Push(PushMany(c, frame, origin, capacity, n - 1), frame, origin, capacity)
  }

  function Enqueue(p: Params, s: State, fd: int, frame: seq<byte>, origin: Option<nat>): State {
    if fd in s.conns && frame != [] && |s.conns[fd].tx| + |frame| <= p.txCapacity
    then s.(conns := s.conns[fd := Push(s.conns[fd], frame, origin, p.txCapacity)], interest := s.interest[fd := true])
    else s
  }

  /** The daemons on `fd` that a broadcast from `src` is for. */
  function Audience(routes: map<byte, Route>, src: byte, fd: int): set<byte> {
    set d | d in routes && routes[d].fd == fd && d != src && d != IPCD && d != BROADCAST
  }

  /** Every connection gets one copy for each daemon it carries in the audience, as far as they fit. */
  function Broadcast(p: Params, s: State, m: Message, origin: Option<nat>): State {
    if !(|m.payload| <= MAX_FRAME_SIZE - HEADER_LEN) then s
    else
      var conns' := map fd | fd in s.conns ::
        PushMany(s.conns[fd], Frame(m), origin, p.txCapacity, |Audience(s.routes, m.src, fd)|);
      s.(conns := conns', interest := map fd | fd in s.interest ::
        s.interest[fd] || (fd in s.conns && |conns'[fd].frames| > |s.conns[fd].frames|))
  }

  function Unicast(p: Params, s: State, m: Message, origin: Option<nat>): State {
    var fd := FdOf(s.routes, m.dst);
    if fd < 0 || !(|m.payload| <= MAX_FRAME_SIZE - HEADER_LEN) then s else Enqueue(p, s, fd, Frame(m), origin)
  }

  function Egress(p: Params, s: State, m: Message, origin: Option<nat>): State {
    if IsBroadcast(m) then Broadcast(p, s, m, origin) else Unicast(p, s, m, origin)
  }

  /** The receive router: handshake commands to ipcd's services, everything else straight through. */
  function Dispatch(p: Params, s: State, m: Message, origin: Option<nat>): State {
    if IsHandshake(m.cmd) then s.(posted := s.posted + [Posted(m, Times(s, m.src))]) else Egress(p, s, m, origin)
  }

  function Ingress(p: Params, s: State, fd: int, frame: seq<byte>): (State, bool) {
    match Decode(p.host, Some(frame))
    case DecodeOk(m) =>
      var (s1, bound) := Bind(s, m.src, fd);
      if !bound then (s, false)
      else (Dispatch(p, s1.(inputs := s1.inputs + [Input(fd, frame, m)]), m, Some(|s1.inputs|)), true)
    case _ => (s, false)
  }

  // ---- Events ----

  /** The frames one drain cuts out; `ok` is false when the connection fails for a reason of its own. */
  function Receive(p: Params, s: State, fd: int, frames: seq<seq<byte>>, ok: bool): State
    decreases |frames|
  {
    if fd !in s.conns then s
    else if frames == [] then (if ok then s else Close(s, fd))
    else
      var (s', taken) := Ingress(p, s, fd, frames[0]);
      if taken then Receive(p, s', fd, frames[1..], ok) else Close(s', fd)
  }

  /** The kernel takes up to `n` bytes; `failed` tells an error from a full socket when it takes fewer than all. */
  function Writable(s: State, fd: int, n: nat, failed: bool): State {
    if fd !in s.conns then s
    else
      var c := s.conns[fd];
      if n < |c.tx| && failed then Close(s, fd)
      else
        var k := Min(n, |c.tx|);
        s.(conns := s.conns[fd := c.(tx := c.tx[k..], sent := c.sent + c.tx[..k])],
           interest := s.interest[fd := k < |c.tx|])
  }

  /** Connections beyond the maximum, and descriptors already registered, are turned away. */
  function Accept(p: Params, s: State, fds: seq<nat>): State {
    if fds == [] then s
    else
      var s' := Accept(p, s, fds[..|fds| - 1]);
      var fd := fds[|fds| - 1];
      if |s'.conns| >= p.maxConnections || fd in s'.interest then s'
      else s'.(conns := s'.conns[fd := Conn([], [], [])], interest := s'.interest[fd := false])
  }

  datatype Event =
    | Accepted(fds: seq<nat>)
    | Received(fd: int, frames: seq<seq<byte>>, ok: bool)
    | Flushed(fd: int, n: nat, failed: bool)
    | HungUp(fd: int)
    | Served(version: nat)
    | Sent(m: Message)

  function Step(p: Params, s: State, e: Event): State {
    match e
    case Accepted(fds) => Accept(p, s, fds)
    case Received(fd, frames, ok) => Receive(p, s, fd, frames, ok)
    case Flushed(fd, n, failed) => Writable(s, fd, n, failed)
    case HungUp(fd) => if fd in s.conns then Close(s, fd) else s
    case Served(version) => Serve(s, version)
    case Sent(m) => Egress(p, s, m, None)
  }

  /** The state after any sequence of events. */
  function Run(p: Params, events: seq<Event>): State {
    if events == [] then Initial else Step(p, Run(p, events[..|events| - 1]), events[|events| - 1])
  }
}
