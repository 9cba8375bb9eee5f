/**
 * How often the handshake speaks: rates over every run, and what one batch of the executor sends
 * (authd/service/bootstrap/BootstrapService.cpp, authd/process/AuthdProcess.cpp).
 */
module HandshakeTiming {
  import opened Handshake

  // ---- The first moments ----

  /** Step `k` of the run from `s`, at clock `at`, moves the phase from one to the other. */
  ghost predicate MovesAt(p: Params, s: State, labels: seq<Label>, k: nat, at: int, from: Phase, to: Phase) {
    && k < |labels| && labels[k].now == at
    && Run(p, s, labels[..k]).state.phase == from && Run(p, s, labels[..k + 1]).state.phase == to
  }

  lemma RunPrefix(p: Params, s: State, labels: seq<Label>, k: nat)
    requires 0 < k <= |labels|
    ensures Run(p, s, labels[..k]).state == Run(p, Next(p, s, labels[0]).state, labels[1..][..k - 1]).state
  {
    assert labels[..k][1..] == labels[1..][..k - 1];
  }

  lemma MovesLater(p: Params, s: State, labels: seq<Label>, k: nat, at: int, from: Phase, to: Phase)
    requires labels != [] && MovesAt(p, Next(p, s, labels[0]).state, labels[1..], k, at, from, to)
    ensures MovesAt(p, s, labels, k + 1, at, from, to)
  {
    RunPrefix(p, s, labels, k + 1);
    RunPrefix(p, s, labels, k + 2);
  }

  lemma MovesFirst(p: Params, s: State, labels: seq<Label>, to: Phase)
    requires labels != [] && Next(p, s, labels[0]).state.phase == to
    ensures MovesAt(p, s, labels, 0, labels[0].now, s.phase, to)
  {
    assert labels[..0] == [] && labels[..1] == [labels[0]];
    RunOne(p, s, labels[0]);
  }

  /** The first ClientHello falls due as the timer leaves Init. */
  lemma {:induction false} FirstHello(p: Params, s: State, labels: seq<Label>)
    requires s.phase == Init && Run(p, s, labels).log.helloDue != []
    ensures exists k :: MovesAt(p, s, labels, k, Run(p, s, labels).log.helloDue[0], Init, WaitServerHello)
    decreases |labels|
  {
    var o := Next(p, s, labels[0]);
    StepDue(p, s, labels[0]);
    if o.log.helloDue != [] {
      MovesFirst(p, s, labels, WaitServerHello);
      assert Run(p, s, labels).log.helloDue[0] == labels[0].now;
    } else {
      FirstHello(p, o.state, labels[1..]);
      var at := Run(p, o.state, labels[1..]).log.helloDue[0];
      var k :| MovesAt(p, o.state, labels[1..], k, at, Init, WaitServerHello);
      MovesLater(p, s, labels, k, at, Init, WaitServerHello);
      assert Run(p, s, labels).log.helloDue == Run(p, o.state, labels[1..]).log.helloDue;
    }
  }

  /** The first RuntimeReady falls due as the ServerHello is accepted. */
  lemma {:induction false} FirstReady(p: Params, s: State, labels: seq<Label>)
    requires Rank(s.phase) < 2 && Run(p, s, labels).log.readyDue != []
    ensures exists k :: MovesAt(p, s, labels, k, Run(p, s, labels).log.readyDue[0], WaitServerHello, WaitRuntimeStart)
    decreases |labels|
  {
    var o := Next(p, s, labels[0]);
    StepDue(p, s, labels[0]);
    PhaseClimbs(p, s, labels[0]);
    if o.log.readyDue != [] {
      MovesFirst(p, s, labels, WaitRuntimeStart);
      assert Run(p, s, labels).log.readyDue[0] == labels[0].now;
    } else {
      FirstReady(p, o.state, labels[1..]);
      var at := Run(p, o.state, labels[1..]).log.readyDue[0];
      var k :| MovesAt(p, o.state, labels[1..], k, at, WaitServerHello, WaitRuntimeStart);
      MovesLater(p, s, labels, k, at, WaitServerHello, WaitRuntimeStart);
      assert Run(p, s, labels).log.readyDue == Run(p, o.state, labels[1..]).log.readyDue;
    }
  }

  // ---- Rates ----

  lemma AtMost(n: nat, interval: int, span: int)
    requires interval > 0 && n > 0 && (n - 1) * interval <= span
    ensures n <= 1 + span / interval
  {
    var q, r := span / interval, span % interval;
    assert span == q * interval + r;
    if n > q + 1 {
      TimesMonotone(q + 1, n - 1, interval);
      assert false;
    }
  }

  lemma TimesMonotone(a: int, b: int, k: int)
    requires a <= b && k > 0
    ensures a * k <= b * k
  {
  }

  ghost predicate DueBy(g: Log, t: int) {
    (forall x | x in g.helloDue :: x <= t) && (forall x | x in g.readyDue :: x <= t)
  }

  lemma JoinedDueBy(a: Log, b: Log, t: int)
    requires DueBy(a, t) && DueBy(b, t)
    ensures DueBy(Joined(a, b), t)
  {
  }

  /** Every moment is a clock reading of the run. */
  lemma {:induction false} DueBefore(p: Params, s: State, labels: seq<Label>, t: int)
    requires s.phase != Failed && forall l | l in labels :: l.now <= t
    ensures DueBy(Run(p, s, labels).log, t)
    decreases |labels|
  {
    if labels != [] {
      var l := labels[0];
      assert l in labels;
      var o := Next(p, s, l);
      StepDue(p, s, l);
      PhaseClimbs(p, s, l);
      assert DueBy(o.log, t);
      DueBefore(p, o.state, labels[1..], t);
      JoinedDueBy(o.log, Run(p, o.state, labels[1..]).log, t);
    }
  }

  /** `sent` messages within the budget of moments that are spaced out. */
  lemma Rate(sent: nat, due: seq<int>, interval: int, last: int, t: int)
    requires interval > 0 && Spaced(due, interval, last) && 0 < sent <= |due|
    requires forall x | x in due :: x <= t
    ensures sent <= 1 + (t - due[0]) / interval
  {
    assert due[|due| - 1] in due;
    TimesMonotone(sent - 1, |due| - 1, interval);
    AtMost(sent, interval, t - due[0]);
  }

  ghost predicate WithinRate(m: Message, sent: seq<Message>, due: seq<int>, interval: int, t: int)
    requires interval > 0
  {
    m in sent ==> due != [] && Count(m, sent) <= 1 + (t - due[0]) / interval
  }

  /** By time `t`, at most one ClientHello for each interval since the timer first left Init, and one more. */
  lemma ClientHelloRate(p: Params, labels: seq<Label>, t: int)
    requires p.helloInterval > 0
    requires forall l | l in labels :: Allowed(l) && l.now <= t
    ensures var g := Run(p, Started, labels).log;
      && WithinRate(ClientHello, g.sent, g.helloDue, p.helloInterval, t)
      && (g.helloDue != [] ==> exists k :: MovesAt(p, Started, labels, k, g.helloDue[0], Init, WaitServerHello))
  {
    RunFromStart(p, labels);
    DueBefore(p, Started, labels, t);
    HelloRate(p, Run(p, Started, labels).state, Run(p, Started, labels).log, t);
    if Run(p, Started, labels).log.helloDue != [] {
      FirstHello(p, Started, labels);
    }
  }

  lemma HelloRate(p: Params, s: State, g: Log, t: int)
    requires p.helloInterval > 0 && Inv(p, s, g) && DueBy(g, t)
    ensures WithinRate(ClientHello, g.sent, g.helloDue, p.helloInterval, t)
  {
    if ClientHello in g.sent {
      Rate(Count(ClientHello, g.sent), g.helloDue, p.helloInterval, s.lastHello, t);
    }
  }

  /** Likewise for RuntimeReady, from the moment at which the ServerHello is accepted. */
  lemma RuntimeReadyRate(p: Params, labels: seq<Label>, t: int)
    requires p.readyInterval > 0
    requires forall l | l in labels :: Allowed(l) && l.now <= t
    ensures var g := Run(p, Started, labels).log;
      && WithinRate(RuntimeReady, g.sent, g.readyDue, p.readyInterval, t)
      && (g.readyDue != [] ==>
           exists k :: MovesAt(p, Started, labels, k, g.readyDue[0], WaitServerHello, WaitRuntimeStart))
  {
    RunFromStart(p, labels);
    DueBefore(p, Started, labels, t);
    ReadyRate(p, Run(p, Started, labels).state, Run(p, Started, labels).log, t);
    if Run(p, Started, labels).log.readyDue != [] {
      FirstReady(p, Started, labels);
    }
  }

  lemma ReadyRate(p: Params, s: State, g: Log, t: int)
    requires p.readyInterval > 0 && Inv(p, s, g) && DueBy(g, t)
    ensures WithinRate(RuntimeReady, g.sent, g.readyDue, p.readyInterval, t)
  {
    if RuntimeReady in g.sent {
      Rate(Count(RuntimeReady, g.sent), g.readyDue, p.readyInterval, s.lastReady, t);
    }
  }

  // ---- One batch ----

  /** ClientHellos that the queues still hold, as events or as actions. */
  function Pending(s: State): nat {
    Count(SendClientHello, s.events) + Count(ClientHelloAction, s.actions)
  }

  lemma {:induction false} NoHelloAfterAnswer(p: Params, s: State, labels: seq<Label>)
    requires 2 <= Rank(s.phase) <= 4
    ensures Count(ClientHello, Run(p, s, labels).log.sent) == 0
    decreases |labels|
  {
    if labels != [] {
      var o := Next(p, s, labels[0]);
      StepAdds(p, s, labels[0]);
      PhaseClimbs(p, s, labels[0]);
      NoHelloAfterAnswer(p, o.state, labels[1..]);
      CountAppend(ClientHello, o.log.sent, Run(p, o.state, labels[1..]).log.sent);
    }
  }

  /** One turn while waiting for the ServerHello: a ClientHello moves on, or the answer is taken. */
  lemma HelloTurn(p: Params, s: State, now: int, o: Outcome)
    requires p.actionFactory && s.phase == WaitServerHello && o == Dispatch(p, s, now)
    ensures if s.events != [] && s.events[0] == ReceiveServerHello(true)
      then o.state.phase == WaitRuntimeStart && o.log.sent == []
      else
        && o.state.phase == WaitServerHello
        && (ReceiveServerHello(true) in o.state.events <==> ReceiveServerHello(true) in s.events)
        && Count(ClientHello, o.log.sent) + Pending(o.state) == Pending(s)
        && (s.events != [] ==> o.log.sent == [])
  {
    if s.events != [] {
      HelloEventTurn(p, s, now, o);
    } else if s.actions != [] {
      CountFront(ClientHelloAction, s.actions);
    }
  }

  lemma HelloEventTurn(p: Params, s: State, now: int, o: Outcome)
    requires p.actionFactory && s.phase == WaitServerHello && s.events != [] && o == HandleEvent(p, s, now)
    ensures o.log.sent == []
    ensures if s.events[0] == ReceiveServerHello(true) then o.state.phase == WaitRuntimeStart
      else
        && o.state.phase == WaitServerHello
        && (ReceiveServerHello(true) in o.state.events <==> ReceiveServerHello(true) in s.events)
        && Pending(o.state) == Pending(s)
  {
    CountFront(SendClientHello, s.events);
    assert s.events == [s.events[0]] + s.events[1..];
    match s.events[0] {
      case SendClientHello => CountPosted(s.actions, ClientHelloAction);
      case SendRuntimeReady => CountPosted(s.actions, RuntimeReadyAction);
      case OtherEvent(posts) => if posts.Some? { CountPosted(s.actions, OtherAction(posts.value)); }
      case _ =>
    }
  }

  lemma CountPosted(actions: seq<Action>, a: Action)
    ensures Count(ClientHelloAction, actions + [a]) ==
      Count(ClientHelloAction, actions) + if a == ClientHelloAction then 1 else 0
  {
  }

  /**
   * A batch executed while waiting for the ServerHello transmits exactly the ClientHellos that were pending, unless it
   * holds a ServerHello: events outrank actions, so then it transmits none.
   */
  lemma {:induction false} BatchSendsPending(p: Params, s: State, labels: seq<Label>)
    requires p.actionFactory && s.phase == WaitServerHello && Draining(p, s, labels)
    ensures Count(ClientHello, Run(p, s, labels).log.sent) ==
      if ReceiveServerHello(true) in s.events then 0 else Pending(s)
    decreases |labels|
  {
    if labels != [] {
      assert labels[0] in labels;
      var o := Next(p, s, labels[0]);
      var rest := Run(p, o.state, labels[1..]);
      HelloTurn(p, s, labels[0].now, o);
      CountAppend(ClientHello, o.log.sent, rest.log.sent);
      if o.state.phase == WaitRuntimeStart {
        NoHelloAfterAnswer(p, o.state, labels[1..]);
      } else {
        BatchSendsPending(p, o.state, labels[1..]);
      }
    }
  }

  /** So two ClientHellos leave in one batch exactly if two were pending and no answer came with them. */
  lemma HellosBunchIff(p: Params, s: State, labels: seq<Label>)
    requires p.actionFactory && s.phase == WaitServerHello && Draining(p, s, labels)
    ensures Count(ClientHello, Run(p, s, labels).log.sent) >= 2 <==>
      Pending(s) >= 2 && ReceiveServerHello(true) !in s.events
  {
    BatchSendsPending(p, s, labels);
  }

  /** A run in which they do: the executor is late, and what fell due an interval apart leaves at the same time. */
  lemma HellosBunch(p: Params)
    requires p.eventFactory && p.actionFactory && p.helloInterval > 0
    ensures var h := p.helloInterval;
      Run(p, Started, [Schedule(0), Schedule(h), Execute(h), Execute(h), Execute(h), Execute(h)]).log.sent
        == [ClientHello, ClientHello]
  {
    var h := p.helloInterval;
    var s2 := State(WaitServerHello, h, 0, [SendClientHello, SendClientHello], []);
    var s4 := State(WaitServerHello, h, 0, [], [ClientHelloAction, ClientHelloAction]);
    var turns := [Execute(h), Execute(h), Execute(h), Execute(h)];
    assert [Schedule(0), Schedule(h), Execute(h), Execute(h), Execute(h), Execute(h)] ==
      [Schedule(0), Schedule(h)] + turns;
    assert turns == [Execute(h), Execute(h)] + [Execute(h), Execute(h)];
    TwoDue(p, h, s2, turns);
    TwoTaken(p, h, s2, s4, [Execute(h), Execute(h)]);
    TwoSent(p, h, s4);
  }

  lemma TwoDue(p: Params, h: int, s: State, rest: seq<Label>)
    requires p.eventFactory && p.helloInterval == h
    requires s == State(WaitServerHello, h, 0, [SendClientHello, SendClientHello], [])
    ensures Run(p, Started, [Schedule(0), Schedule(h)] + rest).log.sent == Run(p, s, rest).log.sent
  {
    var s1 := State(WaitServerHello, 0, 0, [SendClientHello], []);
    assert [Schedule(0), Schedule(h)] + rest == [Schedule(0)] + ([Schedule(h)] + rest);
    Leads(p, Started, Schedule(0), s1, [Schedule(h)] + rest);
    Leads(p, s1, Schedule(h), s, rest);
  }

  lemma TwoTaken(p: Params, h: int, s: State, s': State, rest: seq<Label>)
    requires p.actionFactory && s == State(WaitServerHello, h, 0, [SendClientHello, SendClientHello], [])
    requires s' == State(WaitServerHello, h, 0, [], [ClientHelloAction, ClientHelloAction])
    ensures Run(p, s, [Execute(h), Execute(h)] + rest).log.sent == Run(p, s', rest).log.sent
  {
    var s1 := State(WaitServerHello, h, 0, [SendClientHello], [ClientHelloAction]);
    assert [Execute(h), Execute(h)] + rest == [Execute(h)] + ([Execute(h)] + rest);
    Leads(p, s, Execute(h), s1, [Execute(h)] + rest);
    Leads(p, s1, Execute(h), s', rest);
  }

  lemma TwoSent(p: Params, h: int, s: State)
    requires s == State(WaitServerHello, h, 0, [], [ClientHelloAction, ClientHelloAction])
    ensures Run(p, s, [Execute(h), Execute(h)]).log.sent == [ClientHello, ClientHello]
  {
    var s1 := State(WaitServerHello, h, 0, [], [ClientHelloAction]);
    Leads(p, s, Execute(h), s1, [Execute(h)]);
    RunOne(p, s1, Execute(h));
  }
}
