/** When a daemon that is marked ready is also bound (ipcd/service/bootstrap/BootstrapService.cpp, ipcd/ipc). */
module BrokerReadiness {
  import opened Bytes
  import opened Codec
  import opened BrokerState
  import opened BrokerInvariants
  import opened BrokerRuns

  // ---- Ready and bound ----

  /** A daemon marked ready that has no connection. */
  predicate Stray(s: State, d: byte) {
    d in s.routes && s.routes[d].ready && s.routes[d].fd == -1
  }

  ghost predicate ReadyBound(s: State) {
    forall d: byte :: !Stray(s, d)
  }

  /** The services take a RuntimeReady. */
  predicate ServesReport(s: State, e: Event) {
    e.Served? && s.posted != [] && s.posted[0].msg.cmd == RUNTIME_READY
  }

  /** The message that the services take is the RuntimeReady of a daemon that has no connection any more. */
  predicate ServesLate(s: State, e: Event) {
    && ServesReport(s, e)
    && s.posted[0].msg.src in s.routes && s.routes[s.posted[0].msg.src].fd == -1
  }

  /** Daemon `d` is ready as it was: on the same connection, by the same report. */
  ghost predicate ReadyAsBefore(s: State, s': State, d: byte) {
    d in s'.routes && s'.routes[d].ready ==>
      d in s.routes && s.routes[d].ready && s'.routes[d].fd == s.routes[d].fd && Times(s', d) == Times(s, d)
  }

  /** No daemon becomes ready or goes astray; one that was astray stays so until it acquires a connection. */
  ghost predicate Calm(s: State, s': State) {
    && s'.reports == s.reports
    && forall d: byte ::
         && Times(s, d) <= Times(s', d) && ReadyAsBefore(s, s', d)
         && (Stray(s', d) <==> Stray(s, d) && Times(s', d) == Times(s, d))
  }

  lemma CalmThen(s: State, s1: State, s2: State)
    requires Calm(s, s1) && Calm(s1, s2)
    ensures Calm(s, s2)
  {
  }

  lemma SameRoutesCalm(s: State, s': State)
    requires s'.routes == s.routes && s'.acquired == s.acquired && s'.reports == s.reports
    ensures Calm(s, s')
  {
  }

  lemma BindCalm(s: State, daemon: byte, fd: int)
    requires Counted(s) && fd >= 0
    ensures Calm(s, Bind(s, daemon, fd).0)
  {
  }

  lemma CloseCalm(s: State, fd: int)
    requires fd >= 0
    ensures Calm(s, Close(s, fd))
  {
  }

  lemma IngressCalm(p: Params, s: State, fd: int, frame: seq<byte>)
    requires Counted(s) && fd >= 0
    ensures Calm(s, Ingress(p, s, fd, frame).0)
  {
    var (s', taken) := Ingress(p, s, fd, frame);
    if taken {
      var m := Decode(p.host, Some(frame)).msg;
      var s1 := Bind(s, m.src, fd).0;
      BindCalm(s, m.src, fd);
      DispatchKeepsRoutes(p, s1.(inputs := s1.inputs + [Input(fd, frame, m)]), m, Some(|s1.inputs|));
      SameRoutesCalm(s1, s');
      CalmThen(s, s1, s');
    } else {
      SameRoutesCalm(s, s');
    }
  }

  lemma {:induction false} ReceiveCalm(p: Params, s: State, fd: int, frames: seq<seq<byte>>, ok: bool)
    requires Inv(p, s)
    ensures Calm(s, Receive(p, s, fd, frames, ok))
    decreases |frames|
  {
    var end := Receive(p, s, fd, frames, ok);
    if fd !in s.conns || (frames == [] && ok) {
      SameRoutesCalm(s, end);
    } else if frames == [] {
      CloseCalm(s, fd);
    } else {
      var (s', taken) := Ingress(p, s, fd, frames[0]);
      IngressKeepsInv(p, s, fd, frames[0]);
      IngressCalm(p, s, fd, frames[0]);
      if taken {
        ReceiveCalm(p, s', fd, frames[1..], ok);
      } else {
        CloseCalm(s', fd);
      }
      CalmThen(s, s', end);
    }
  }

  lemma FlushedCalm(s: State, fd: int, n: nat, failed: bool, s': State)
    requires (fd in s.conns ==> fd >= 0) && s' == Writable(s, fd, n, failed)
    ensures Calm(s, s')
  {
    if fd in s.conns && n < |s.conns[fd].tx| && failed {
      CloseCalm(s, fd);
    } else {
      SameRoutesCalm(s, s');
    }
  }

  lemma HungUpCalm(s: State, fd: int, s': State)
    requires (fd in s.conns ==> fd >= 0) && s' == if fd in s.conns then Close(s, fd) else s
    ensures Calm(s, s')
  {
    if fd in s.conns {
      CloseCalm(s, fd);
    } else {
      SameRoutesCalm(s, s');
    }
  }

  lemma SentCalm(p: Params, s: State, m: Message, s': State)
    requires s' == Egress(p, s, m, None)
    ensures Calm(s, s')
  {
    EgressIsQueueing(p, s, m, None);
    SameRoutesCalm(s, s');
  }

  lemma AcceptedCalm(p: Params, s: State, fds: seq<nat>, s': State)
    requires s' == Accept(p, s, fds)
    ensures Calm(s, s')
  {
    AcceptKeepsRoutes(p, s, fds);
    SameRoutesCalm(s, s');
  }

  lemma StepCalm(p: Params, s: State, e: Event, s': State)
    requires Inv(p, s) && !e.Served? && s' == Step(p, s, e)
    ensures Calm(s, s')
  {
    match e {
      case Accepted(fds) => AcceptedCalm(p, s, fds, s');
      case Received(fd, frames, ok) => ReceiveCalm(p, s, fd, frames, ok);
      case Flushed(fd, n, failed) => FlushedCalm(s, fd, n, failed, s');
      case HungUp(fd) => HungUpCalm(s, fd, s');
      case Sent(m) => SentCalm(p, s, m, s');
    }
  }

  lemma ServeStray(s: State, e: Event, s': State, d: byte)
    requires e.Served? && s' == Serve(s, e.version)
    ensures Times(s', d) == Times(s, d)
    ensures Stray(s', d) <==> (ServesLate(s, e) && s.posted[0].msg.src == d) || Stray(s, d)
  {
  }

  /** A step leaves a daemon ready without a connection if it serves its late report or it stays so, and only then. */
  lemma StrayAfter(p: Params, s: State, e: Event, s': State, d: byte)
    requires Inv(p, s) && s' == Step(p, s, e)
    ensures
      Stray(s', d) <==> (ServesLate(s, e) && s.posted[0].msg.src == d) || (Stray(s, d) && Times(s', d) == Times(s, d))
  {
    if e.Served? {
      ServeStray(s, e, s', d);
    } else {
      StepCalm(p, s, e, s');
    }
  }

  /** "Ready implies bound" survives a step exactly if the step serves no late report. */
  lemma ReadyBoundAfter(p: Params, s: State, e: Event)
    requires Inv(p, s) && ReadyBound(s)
    ensures ReadyBound(Step(p, s, e)) <==> !ServesLate(s, e)
  {
    forall d: byte
      ensures Stray(Step(p, s, e), d) <==> ServesLate(s, e) && s.posted[0].msg.src == d
    {
      StrayAfter(p, s, e, Step(p, s, e), d);
    }
    if ServesLate(s, e) {
      assert Stray(Step(p, s, e), s.posted[0].msg.src);
    }
  }

  /** Event `k` of the run serves no late report. */
  ghost predicate OnTime(p: Params, events: seq<Event>, k: nat)
    requires k < |events|
  {
    !ServesLate(Run(p, events[..k]), events[k])
  }

  /** It holds throughout a run exactly if no RuntimeReady is served after its daemon has lost its connection. */
  lemma ReadyMeansBoundIff(p: Params, events: seq<Event>)
    ensures (forall k :: 0 <= k <= |events| ==> ReadyBound(Run(p, events[..k])))
       <==> (forall k :: 0 <= k < |events| ==> OnTime(p, events, k))
  {
    if forall k :: 0 <= k <= |events| ==> ReadyBound(Run(p, events[..k])) {
      forall k | 0 <= k < |events| ensures OnTime(p, events, k) {
        assert ReadyBound(Run(p, events[..k + 1]));
        OneEventMore(p, events, k);
      }
    }
    if forall k :: 0 <= k < |events| ==> OnTime(p, events, k) {
      forall k | 0 <= k <= |events| ensures ReadyBound(Run(p, events[..k])) {
        NeverLate(p, events, k);
      }
    }
  }

  lemma OneEventMore(p: Params, events: seq<Event>, k: nat)
    requires k < |events| && ReadyBound(Run(p, events[..k]))
    ensures ReadyBound(Run(p, events[..k + 1])) <==> OnTime(p, events, k)
  {
    assert events[..k + 1] == events[..k] + [events[k]];
    ReadyBoundAfterEvent(p, events[..k], events[k]);
  }

  /** In any run, an event keeps "ready implies bound" exactly if it serves no late report. */
  lemma ReadyBoundAfterEvent(p: Params, events: seq<Event>, e: Event)
    requires ReadyBound(Run(p, events))
    ensures ReadyBound(Run(p, events + [e])) <==> !ServesLate(Run(p, events), e)
  {
    RunSnoc(p, events, e);
    RunKeepsInv(p, events);
    ReadyBoundAfter(p, Run(p, events), e);
  }

  lemma {:induction false} NeverLate(p: Params, events: seq<Event>, k: nat)
    requires k <= |events| && forall i :: 0 <= i < |events| ==> OnTime(p, events, i)
    ensures ReadyBound(Run(p, events[..k]))
  {
    if k > 0 {
      NeverLate(p, events, k - 1);
      assert OnTime(p, events, k - 1);
      OneEventMore(p, events, k - 1);
    }
  }

  /**
   * A run in which a daemon ends ready without a connection: a drain that hands on its RuntimeReady ends in a failure,
   * say a broken header behind it, and closes the connection; the services take the message only afterwards.
   */
  lemma LateReport(p: Params, fd: nat, m: Message, version: nat)
    requires p.maxConnections >= 1 && Sendable(m) && m.cmd == RUNTIME_READY
    ensures var before := Run(p, ComeAndGo(fd, m));
      && Gone(before, m) && ServesLate(before, Served(version))
      && Stray(Run(p, ComeAndGo(fd, m) + [Served(version)]), m.src)
  {
    GoneAfter(p, fd, m);
    RunSnoc(p, ComeAndGo(fd, m), Served(version));
    RunKeepsInv(p, ComeAndGo(fd, m));
    var s := Run(p, ComeAndGo(fd, m));
    StrayAfter(p, s, Served(version), Step(p, s, Served(version)), m.src);
  }

  /** One connection, on which `m` comes in and the drain fails. */
  function ComeAndGo(fd: nat, m: Message): seq<Event> {
    [Accepted([fd]), Received(fd, [Frame(m)], false)]
  }

  /** What that leaves: nobody connected, and `m` not yet served. */
  ghost predicate Gone(s: State, m: Message) {
    && s.posted == [Posted(m, 1)] && s.conns == map[] && s.interest == map[]
    && s.routes == map[m.src := Route(-1, false, 1, 0)] && s.acquired == map[m.src := 1]
  }

  lemma GoneAfter(p: Params, fd: nat, m: Message)
    requires p.maxConnections >= 1 && Sendable(m) && IsHandshake(m.cmd)
    ensures Gone(Run(p, ComeAndGo(fd, m)), m)
  {
    var s := Step(p, Initial, Accepted([fd]));
    RunOfTwo(p, Accepted([fd]), Received(fd, [Frame(m)], false));
    FirstAccepted(p, fd, s);
    HelloAndGoodbye(p, s, fd, m, Run(p, ComeAndGo(fd, m)));
  }

  lemma FirstAccepted(p: Params, fd: nat, s: State)
    requires p.maxConnections >= 1 && s == Step(p, Initial, Accepted([fd]))
    ensures s == Initial.(conns := map[fd := Conn([], [], [])], interest := map[fd := false])
  {
    OneAccepted(p, [], fd);
    assert [] + [fd] == [fd] && Accept(p, Initial, []) == Initial;
  }

  lemma HelloAndGoodbye(p: Params, s: State, fd: nat, m: Message, s': State)
    requires s.routes == map[] && s.conns == map[fd := Conn([], [], [])] && s.posted == []
    requires s.acquired == map[] && s.interest == map[fd := false]
    requires Sendable(m) && IsHandshake(m.cmd) && s' == Receive(p, s, fd, [Frame(m)], false)
    ensures Gone(s', m)
  {
    Greeting(p, s, fd, m);
    var s1 := Ingress(p, s, fd, Frame(m)).0;
    ReceivedOne(p, s, fd, Frame(m), false, s1, s');
    ClosedAlone(s1, fd, m.src, s');
  }

  lemma ClosedAlone(s: State, fd: nat, d: byte, s': State)
    requires s.conns == map[fd := Conn([], [], [])] && s.routes == map[d := Route(fd, false, 1, 0)]
    requires s' == Close(s, fd)
    ensures s'.posted == s.posted && s'.conns == map[] && s'.routes == map[d := Route(-1, false, 1, 0)]
    ensures s'.acquired == s.acquired && s'.interest == s.interest - {fd}
  {
  }

  // ---- Ready by a report of its own ----

  /** A daemon marked ready that has no connection, or whose report came on an earlier one. */
  predicate Amiss(s: State, d: byte) {
    && d in s.routes && s.routes[d].ready
    && (s.routes[d].fd == -1 || d !in s.reports || s.reports[d] != Times(s, d))
  }

  ghost predicate OwnReports(s: State) {
    forall d: byte :: !Amiss(s, d)
  }

  /** The services take the RuntimeReady of a daemon that has since lost its connection, or acquired another one. */
  predicate ServesStale(s: State, e: Event) {
    && ServesReport(s, e)
    && var Posted(m, times) := s.posted[0];
    m.src in s.routes && (s.routes[m.src].fd == -1 || times != Times(s, m.src))
  }

  lemma CalmKeepsOwnReports(s: State, s': State)
    requires Calm(s, s') && OwnReports(s)
    ensures OwnReports(s')
  {
    forall d: byte ensures !Amiss(s', d) {
      assert ReadyAsBefore(s, s', d) && !Amiss(s, d);
    }
  }

  lemma ServeOwnReports(s: State, e: Event, s': State)
    requires e.Served? && s' == Serve(s, e.version) && OwnReports(s)
    ensures OwnReports(s') <==> !ServesStale(s, e)
  {
    if ServesReport(s, e) {
      var src := s.posted[0].msg.src;
      forall d: byte | d != src ensures Amiss(s', d) <==> Amiss(s, d) {
      }
      assert Amiss(s', src) <==> ServesStale(s, e);
    } else {
      forall d: byte ensures Amiss(s', d) <==> Amiss(s, d) {
      }
    }
  }

  /** In any run, an event keeps every ready daemon ready by its own report exactly if it serves no stale one. */
  lemma OwnReportsAfterEvent(p: Params, events: seq<Event>, e: Event)
    requires OwnReports(Run(p, events))
    ensures OwnReports(Run(p, events + [e])) <==> !ServesStale(Run(p, events), e)
  {
    RunSnoc(p, events, e);
    RunKeepsInv(p, events);
    OwnReportsAfter(p, Run(p, events), e, Run(p, events + [e]));
  }

  lemma OwnReportsAfter(p: Params, s: State, e: Event, s': State)
    requires Inv(p, s) && OwnReports(s) && s' == Step(p, s, e)
    ensures OwnReports(s') <==> !ServesStale(s, e)
  {
    if e.Served? {
      ServeOwnReports(s, e, s');
    } else {
      StepCalm(p, s, e, s');
      CalmKeepsOwnReports(s, s');
    }
  }

  /** Event `k` of the run serves no stale report. */
  ghost predicate Fresh(p: Params, events: seq<Event>, k: nat)
    requires k < |events|
  {
    !ServesStale(Run(p, events[..k]), events[k])
  }

  /**
   * Throughout a run every ready daemon is bound to the connection on which it reported, exactly if no RuntimeReady is
   * served after its daemon has lost that connection, be it to none or to another.
   */
  lemma ReadyByOwnReportIff(p: Params, events: seq<Event>)
    ensures (forall k :: 0 <= k <= |events| ==> OwnReports(Run(p, events[..k])))
       <==> (forall k :: 0 <= k < |events| ==> Fresh(p, events, k))
  {
    if forall k :: 0 <= k <= |events| ==> OwnReports(Run(p, events[..k])) {
      forall k | 0 <= k < |events| ensures Fresh(p, events, k) {
        assert OwnReports(Run(p, events[..k + 1]));
        OneReportMore(p, events, k);
      }
    }
    if forall k :: 0 <= k < |events| ==> Fresh(p, events, k) {
      forall k | 0 <= k <= |events| ensures OwnReports(Run(p, events[..k])) {
        NeverStale(p, events, k);
      }
    }
  }

  lemma OneReportMore(p: Params, events: seq<Event>, k: nat)
    requires k < |events| && OwnReports(Run(p, events[..k]))
    ensures OwnReports(Run(p, events[..k + 1])) <==> Fresh(p, events, k)
  {
    assert events[..k + 1] == events[..k] + [events[k]];
    OwnReportsAfterEvent(p, events[..k], events[k]);
  }

  lemma {:induction false} NeverStale(p: Params, events: seq<Event>, k: nat)
    requires k <= |events| && forall i :: 0 <= i < |events| ==> Fresh(p, events, i)
    ensures OwnReports(Run(p, events[..k]))
  {
    if k > 0 {
      NeverStale(p, events, k - 1);
      assert Fresh(p, events, k - 1);
      OneReportMore(p, events, k - 1);
    }
  }

  /**
   * A run in which a daemon ends ready on its second connection by what it reported on its first: it comes back before
   * the services take the message.
   */
  lemma StaleReport(p: Params, fd: nat, m: Message, again: Message, version: nat, events: seq<Event>)
    requires p.maxConnections >= 1 && Sendable(m) && m.cmd == RUNTIME_READY
    requires Sendable(again) && again.cmd == CLIENT_HELLO && again.src == m.src
    requires events == ComeAndGo(fd, m) + [Accepted([fd])]
    ensures StaleNext(Run(p, events + [Received(fd, [Frame(again)], true)]), fd, m.src, version)
  {
    BackAfter(p, fd, m, Run(p, events));
    RunSnoc(p, events, Received(fd, [Frame(again)], true));
    StaleFrom(p, Run(p, events), fd, m, again, version, Run(p, events + [Received(fd, [Frame(again)], true)]));
  }

  /** Daemon `d` is bound to `fd`, not ready; serving what waits makes it ready by a report that came before. */
  ghost predicate StaleNext(s: State, fd: nat, d: byte, version: nat) {
    && d in s.routes && s.routes[d].fd == fd && !s.routes[d].ready
    && ServesStale(s, Served(version)) && Amiss(Serve(s, version), d)
  }

  lemma StaleFrom(p: Params, s: State, fd: nat, m: Message, again: Message, version: nat, before: State)
    requires Back(s, fd, m) && m.cmd == RUNTIME_READY && Sendable(again) && again.cmd == CLIENT_HELLO
    requires again.src == m.src
    requires before == Receive(p, s, fd, [Frame(again)], true)
    ensures StaleNext(before, fd, m.src, version)
  {
    ComesBack(p, s, fd, m, again, before);
    ServedStale(before, fd, m, again, version, Serve(before, version));
  }

  lemma BackAfter(p: Params, fd: nat, m: Message, s: State)
    requires p.maxConnections >= 1 && Sendable(m) && IsHandshake(m.cmd)
    requires s == Run(p, ComeAndGo(fd, m) + [Accepted([fd])])
    ensures Back(s, fd, m)
  {
    GoneAfter(p, fd, m);
    RunSnoc(p, ComeAndGo(fd, m), Accepted([fd]));
    AcceptedAgain(p, Run(p, ComeAndGo(fd, m)), fd, m, s);
  }

  /** Somebody connected, who has not yet spoken. */
  ghost predicate Back(s: State, fd: nat, m: Message) {
    Gone(s.(conns := map[], interest := map[]), m) && s.conns == map[fd := Conn([], [], [])]
  }

  lemma AcceptedAgain(p: Params, s: State, fd: nat, m: Message, s': State)
    requires p.maxConnections >= 1 && Gone(s, m) && s' == Step(p, s, Accepted([fd]))
    ensures Back(s', fd, m)
  {
    assert [fd][..0] == [];
    assert Accept(p, s, []) == s;
  }

  /** The old report still waits, in front of the new handshake. */
  ghost predicate Reintroduced(s: State, fd: nat, m: Message, again: Message) {
    && s.posted == [Posted(m, 1), Posted(again, 2)]
    && s.routes == map[m.src := Route(fd, false, 2, 0)] && s.acquired == map[m.src := 2]
  }

  lemma ComesBack(p: Params, s: State, fd: nat, m: Message, again: Message, s': State)
    requires Back(s, fd, m) && Sendable(again) && again.cmd == CLIENT_HELLO && again.src == m.src
    requires s' == Receive(p, s, fd, [Frame(again)], true)
    ensures Reintroduced(s', fd, m, again)
  {
    TakesFrame(p, s, fd, again);
    var s1 := Bind(s, again.src, fd).0;
    Rebound(s, fd, m, s1);
    var s2 := s1.(inputs := s1.inputs + [Input(fd, Frame(again), again)]);
    var s3 := Dispatch(p, s2, again, Some(|s1.inputs|));
    assert s3 == s2.(posted := s2.posted + [Posted(again, 2)]);
    ReceivedOne(p, s, fd, Frame(again), true, s3, s');
  }

  lemma Rebound(s: State, fd: nat, m: Message, s': State)
    requires Back(s, fd, m) && s' == Bind(s, m.src, fd).0
    ensures Bind(s, m.src, fd).1
    ensures s' == s.(routes := map[m.src := Route(fd, false, 2, 0)], acquired := map[m.src := 2])
  {
  }

  lemma ServedStale(s: State, fd: nat, m: Message, again: Message, version: nat, s': State)
    requires m.cmd == RUNTIME_READY && Reintroduced(s, fd, m, again) && s' == Serve(s, version)
    ensures ServesStale(s, Served(version)) && Amiss(s', m.src)
  {
  }
}
