/**
 * The handshake as the process drives it, tick by tick: how often it transmits
 * (authd/process/AuthdProcess.cpp, authd/service/bootstrap/BootstrapService.cpp).
 */
module HandshakeTicks {
  import opened Handshake
  import opened HandshakeTiming

  /** One tick: what polling received, the clock that the timer read, and the turns of the executor. */
  datatype Tick = Tick(received: seq<Label>, now: int, turns: seq<Label>)

  function Labels(t: Tick): seq<Label> {
    t.received + [Schedule(t.now)] + t.turns
  }

  /** The clock does not run backwards within the tick. */
  predicate TickOk(t: Tick) {
    && (forall l | l in t.received :: l.Receive? && Allowed(l))
    && (forall l | l in t.turns :: l.Execute? && t.now <= l.now)
  }

  /** Each tick executes until nothing waits. */
  ghost predicate AllDrain(p: Params, s: State, ticks: seq<Tick>)
    decreases |ticks|
  {
    ticks == [] ||
    (TickOk(ticks[0]) && Idle(Run(p, s, Labels(ticks[0])).state)
     && AllDrain(p, Run(p, s, Labels(ticks[0])).state, ticks[1..]))
  }

  /** The transmissions of `m`, each stamped with the clock that the timer read in its tick. */
  function Stamps(p: Params, s: State, ticks: seq<Tick>, m: Message): seq<int>
    decreases |ticks|
  {
    if ticks == [] then []
    else
      var o := Run(p, s, Labels(ticks[0]));
      seq(Count(m, o.log.sent), _ => ticks[0].now) + Stamps(p, o.state, ticks[1..], m)
  }

  // ---- The two messages alike ----

  function Interval(p: Params, m: Message): int {
    if m == ClientHello then p.helloInterval else p.readyInterval
  }

  /** The moment at which `m` fell due last. */
  function Last(s: State, m: Message): int {
    if m == ClientHello then s.lastHello else s.lastReady
  }

  function DueOf(g: Log, m: Message): seq<int> {
    if m == ClientHello then g.helloDue else g.readyDue
  }

  /** The phase in which `m` is transmitted. */
  function Waiting(m: Message): Phase {
    if m == ClientHello then WaitServerHello else WaitRuntimeStart
  }

  /** Whether `m` has fallen due at all. */
  predicate Begun(s: State, m: Message) {
    Rank(s.phase) >= Rank(Waiting(m))
  }

  /** What a run sends and leaves pending is covered by what fell due in it and what was pending before. */
  lemma {:induction false} RunSpends(p: Params, s: State, labels: seq<Label>)
    requires forall l | l in labels :: Allowed(l)
    ensures Spends(s, Run(p, s, labels))
    decreases |labels|
  {
    if labels != [] {
      var o := Next(p, s, labels[0]);
      assert labels[0] in labels;
      StepSpends(p, s, labels[0]);
      RunSpends(p, o.state, labels[1..]);
      SpendsThen(s, o, Run(p, o.state, labels[1..]));
    }
  }

  lemma SpendsThen(s: State, o: Outcome, rest: Outcome)
    requires Spends(s, o) && Spends(o.state, rest)
    ensures Spends(s, Outcome(rest.state, Joined(o.log, rest.log)))
  {
    CountAppend(ClientHello, o.log.sent, rest.log.sent);
    CountAppend(RuntimeReady, o.log.sent, rest.log.sent);
  }

  lemma {:induction false} RunAppend(p: Params, s: State, a: seq<Label>, b: seq<Label>, o: Outcome, rest: Outcome,
                                     all: Outcome)
    requires o == Run(p, s, a) && rest == Run(p, o.state, b) && all == Run(p, s, a + b)
    ensures all == Outcome(rest.state, Joined(o.log, rest.log))
    decreases |a|
  {
    if a == [] {
      assert a + b == b;
      JoinedInThree(rest.log, Quiet, Quiet);
    } else {
      var first := Next(p, s, a[0]);
      var mid, tail := Run(p, first.state, a[1..]), Run(p, first.state, a[1..] + b);
      RunAppend(p, first.state, a[1..], b, mid, rest, tail);
      assert a == [a[0]] + a[1..];
      RunAppendCons(p, s, a[0], a[1..], b, first, mid, tail, rest, o, all);
    }
  }

  lemma RunAppendCons(p: Params, s: State, l: Label, a: seq<Label>, b: seq<Label>, first: Outcome, mid: Outcome,
                      tail: Outcome, rest: Outcome, o: Outcome, all: Outcome)
    requires first == Next(p, s, l) && mid == Run(p, first.state, a) && tail == Run(p, first.state, a + b)
    requires tail == Outcome(rest.state, Joined(mid.log, rest.log))
    requires o == Run(p, s, [l] + a) && all == Run(p, s, [l] + a + b)
    ensures all == Outcome(rest.state, Joined(o.log, rest.log))
  {
    RunCons(p, s, l, a, [l] + a, first, mid, o);
    assert [l] + a + b == [l] + (a + b);
    RunCons(p, s, l, a + b, [l] + a + b, first, tail, all);
    AppendJoins(first, mid, rest, tail, o, all);
  }

  lemma AppendJoins(first: Outcome, mid: Outcome, rest: Outcome, tail: Outcome, o: Outcome, all: Outcome)
    requires o == Outcome(mid.state, Joined(first.log, mid.log))
    requires all == Outcome(tail.state, Joined(first.log, tail.log))
    requires tail == Outcome(rest.state, Joined(mid.log, rest.log))
    ensures all == Outcome(rest.state, Joined(o.log, rest.log))
  {
    JoinedInThree(first.log, mid.log, rest.log);
  }

  lemma RunCons(p: Params, s: State, l: Label, rest: seq<Label>, labels: seq<Label>, first: Outcome, last: Outcome,
                o: Outcome)
    requires labels == [l] + rest && first == Next(p, s, l) && last == Run(p, first.state, rest)
    requires o == Run(p, s, labels)
    ensures o == Outcome(last.state, Joined(first.log, last.log))
  {
    assert labels[1..] == rest;
  }

  // ---- What falls due in a tick ----

  /** At most one moment, not before `from`, and it is remembered. */
  ghost predicate Moved(s: State, o: Outcome, m: Message, from: int) {
    var due := DueOf(o.log, m);
    if due == [] then Last(o.state, m) == Last(s, m) && (Begun(o.state, m) <==> Begun(s, m))
    else |due| == 1 && from <= due[0] && Last(o.state, m) == due[0] && Begun(o.state, m)
  }

  lemma {:induction false} ReceivesMove(p: Params, s: State, received: seq<Label>)
    requires forall l | l in received :: l.Receive?
    ensures var o := Run(p, s, received);
      && o.log.helloDue == [] && o.log.readyDue == []
      && o.state.(events := s.events) == s
    decreases |received|
  {
    if received != [] {
      assert received[0] in received;
      ReceivesMove(p, Next(p, s, received[0]).state, received[1..]);
    }
  }

  /** One turn makes nothing due but the RuntimeReady that follows the ServerHello. */
  lemma TurnMoves(p: Params, s: State, now: int, o: Outcome, m: Message)
    requires s.phase != Failed && o == Dispatch(p, s, now)
    ensures Moved(s, o, m, now) && o.state.phase != Failed
    ensures DueOf(o.log, m) != [] ==> !Begun(s, m)
  {
    if s.events != [] {
      assert o == HandleEvent(p, s, now);
    }
  }

  lemma {:induction false} TurnsMove(p: Params, s: State, turns: seq<Label>, m: Message, from: int)
    requires s.phase != Failed && forall l | l in turns :: l.Execute? && from <= l.now
    ensures Moved(s, Run(p, s, turns), m, from) && Run(p, s, turns).state.phase != Failed
    ensures DueOf(Run(p, s, turns).log, m) != [] ==> !Begun(s, m)
    decreases |turns|
  {
    if turns != [] {
      assert turns[0] in turns;
      var o := Next(p, s, turns[0]);
      TurnMoves(p, s, turns[0].now, o, m);
      assert Moved(s, o, m, from);
      TurnsMove(p, o.state, turns[1..], m, from);
      MovedThen(s, o, Run(p, o.state, turns[1..]), m, from);
    }
  }

  lemma MovedThen(s: State, o: Outcome, rest: Outcome, m: Message, from: int)
    requires Moved(s, o, m, from) && Moved(o.state, rest, m, from)
    requires (DueOf(o.log, m) != [] ==> !Begun(s, m)) && (DueOf(rest.log, m) != [] ==> !Begun(o.state, m))
    ensures Moved(s, Outcome(rest.state, Joined(o.log, rest.log)), m, from)
    ensures DueOf(Joined(o.log, rest.log), m) == DueOf(o.log, m) + DueOf(rest.log, m)
    ensures DueOf(Joined(o.log, rest.log), m) != [] ==> !Begun(s, m)
  {
  }

  lemma ScheduleMoves(p: Params, s: State, now: int, o: Outcome, m: Message)
    requires s.phase != Failed && o == Scheduled(p, s, now)
    ensures Moved(s, o, m, now) && o.state.phase != Failed
    ensures DueOf(o.log, m) != [] ==> !Begun(s, m) || now - Last(s, m) >= Interval(p, m)
  {
  }

  /** The three parts of a tick. */
  lemma TickParts(p: Params, s: State, t: Tick, a: Outcome, b: Outcome, c: Outcome)
    requires a == Run(p, s, t.received) && b == Next(p, a.state, Schedule(t.now)) && c == Run(p, b.state, t.turns)
    ensures Run(p, s, Labels(t)) == Outcome(c.state, Joined(Joined(a.log, b.log), c.log))
  {
    RunSnoc(p, s, t.received, Schedule(t.now));
    RunAppend(p, s, t.received + [Schedule(t.now)], t.turns, Outcome(b.state, Joined(a.log, b.log)), c,
              Run(p, s, Labels(t)));
  }

  /** In a tick `m` falls due at most once, an interval after the time before. */
  lemma TickMoves(p: Params, s: State, t: Tick, o: Outcome, m: Message)
    requires s.phase != Failed && TickOk(t) && o == Run(p, s, Labels(t))
    ensures Moved(s, o, m, t.now) && o.state.phase != Failed
    ensures DueOf(o.log, m) != [] ==> !Begun(s, m) || t.now - Last(s, m) >= Interval(p, m)
  {
    var a := Run(p, s, t.received);
    var b := Next(p, a.state, Schedule(t.now));
    var c := Run(p, b.state, t.turns);
    TickParts(p, s, t, a, b, c);
    ReceivesMove(p, s, t.received);
    ScheduleMoves(p, a.state, t.now, b, m);
    TurnsMove(p, b.state, t.turns, m, t.now);
    PartsMove(s, a, b, c, m, t.now, o);
  }

  lemma PartsMove(s: State, a: Outcome, b: Outcome, c: Outcome, m: Message, now: int, o: Outcome)
    requires a.log.helloDue == [] && a.log.readyDue == [] && a.state.(events := s.events) == s
    requires Moved(a.state, b, m, now) && Moved(b.state, c, m, now) && (DueOf(c.log, m) != [] ==> !Begun(b.state, m))
    requires o == Outcome(c.state, Joined(Joined(a.log, b.log), c.log))
    ensures Moved(s, o, m, now)
    ensures DueOf(o.log, m) == DueOf(b.log, m) + DueOf(c.log, m)
    ensures DueOf(c.log, m) != [] ==> !Begun(s, m)
  {
  }

  /** A tick that starts with nothing waiting sends `m` at most once, and only as it falls due. */
  lemma TickSends(p: Params, s: State, t: Tick, o: Outcome, m: Message)
    requires s.phase != Failed && Idle(s) && TickOk(t) && o == Run(p, s, Labels(t))
    ensures Count(m, o.log.sent) <= |DueOf(o.log, m)| <= 1
  {
    TickMoves(p, s, t, o, m);
    TickAllowed(t);
    RunSpends(p, s, Labels(t));
    IdleSpends(s, o, m);
  }

  lemma TickAllowed(t: Tick)
    requires TickOk(t)
    ensures forall l | l in Labels(t) :: Allowed(l)
  {
    forall l | l in Labels(t) ensures Allowed(l) {
      assert l in t.received || l == Schedule(t.now) || l in t.turns;
    }
  }

  lemma IdleSpends(s: State, o: Outcome, m: Message)
    requires Idle(s) && Spends(s, o)
    ensures Count(m, o.log.sent) <= |DueOf(o.log, m)|
  {
  }

  /**
   * The process polls, then schedules, then executes until nothing waits: so no tick transmits two ClientHellos, nor
   * two RuntimeReadys, whatever it receives.
   */
  lemma OneSendPerTick(p: Params, s: State, t: Tick)
    requires s.phase != Failed && Idle(s) && TickOk(t)
    ensures var g := Run(p, s, Labels(t)).log; Count(ClientHello, g.sent) <= 1 && Count(RuntimeReady, g.sent) <= 1
  {
    TickSends(p, s, t, Run(p, s, Labels(t)), ClientHello);
    TickSends(p, s, t, Run(p, s, Labels(t)), RuntimeReady);
  }

  // ---- The rate of transmission ----

  /** Stamps lie an interval apart, the first one after `last` if there was a moment before. */
  ghost predicate Apart(stamps: seq<int>, interval: int, begun: bool, last: int, t: int) {
    stamps != [] ==>
      (begun ==> stamps[0] - last >= interval) && (|stamps| - 1) * interval <= t - stamps[0]
  }

  lemma {:induction false} StampsApart(p: Params, s: State, ticks: seq<Tick>, m: Message, t: int)
    requires Interval(p, m) > 0 && s.phase != Failed && Idle(s) && AllDrain(p, s, ticks)
    requires forall tick | tick in ticks :: tick.now <= t
    ensures Apart(Stamps(p, s, ticks, m), Interval(p, m), Begun(s, m), Last(s, m), t)
    decreases |ticks|
  {
    if ticks != [] {
      var o := Run(p, s, Labels(ticks[0]));
      assert ticks[0] in ticks;
      TickMoves(p, s, ticks[0], o, m);
      TickSends(p, s, ticks[0], o, m);
      StampsApart(p, o.state, ticks[1..], m, t);
      OneTickMore(s, o, m, ticks[0].now, Interval(p, m), Stamps(p, o.state, ticks[1..], m), t);
    }
  }

  lemma OneTickMore(s: State, o: Outcome, m: Message, now: int, interval: int, rest: seq<int>, t: int)
    requires interval > 0 && now <= t && Moved(s, o, m, now) && Count(m, o.log.sent) <= |DueOf(o.log, m)| <= 1
    requires DueOf(o.log, m) != [] ==> !Begun(s, m) || now - Last(s, m) >= interval
    requires Apart(rest, interval, Begun(o.state, m), Last(o.state, m), t)
    ensures Apart(seq(Count(m, o.log.sent), _ => now) + rest, interval, Begun(s, m), Last(s, m), t)
  {
    if Count(m, o.log.sent) == 0 {
      assert seq(0, _ => now) + rest == rest;
    } else {
      assert seq(1, _ => now) + rest == [now] + rest;
      if rest != [] {
        assert |rest| * interval == (|rest| - 1) * interval + interval;
      }
    }
  }

  /**
   * In every run of the process, with each transmission stamped by its tick's clock: by time `t` at most one for each
   * interval since the first transmission, and one more. For ClientHello and for RuntimeReady.
   */
  lemma TransmissionRate(p: Params, ticks: seq<Tick>, m: Message, t: int)
    requires Interval(p, m) > 0 && AllDrain(p, Started, ticks)
    requires forall tick | tick in ticks :: tick.now <= t
    ensures var stamps := Stamps(p, Started, ticks, m);
      stamps != [] ==> |stamps| <= 1 + (t - stamps[0]) / Interval(p, m)
  {
    StampsApart(p, Started, ticks, m, t);
    var stamps := Stamps(p, Started, ticks, m);
    if stamps != [] {
      AtMost(|stamps|, Interval(p, m), t - stamps[0]);
    }
  }

  // ---- Stamped by the executor's own clock ----

  /** The transmissions of `m`, each stamped with the clock of the turn that made it. */
  function SentAt(p: Params, s: State, labels: seq<Label>, m: Message): seq<int>
    decreases |labels|
  {
    if labels == [] then []
    else
      var o := Next(p, s, labels[0]);
      (if m in o.log.sent then [labels[0].now] else []) + SentAt(p, o.state, labels[1..], m)
  }

  lemma LeadsAt(p: Params, s: State, l: Label, next: State, sent: bool, rest: seq<Label>, m: Message)
    requires Next(p, s, l).state == next && (m in Next(p, s, l).log.sent <==> sent)
    ensures SentAt(p, s, [l] + rest, m) == (if sent then [l.now] else []) + SentAt(p, next, rest, m)
  {
    assert ([l] + rest)[1..] == rest;
  }

  /** A tick in which `m` falls due at `now` and its action runs at `at`. */
  lemma LateTick(p: Params, s: State, now: int, at: int, s': State, rest: seq<Label>, m: Message)
    requires p.eventFactory && p.actionFactory && Idle(s)
    requires (s.phase == Waiting(m) && now - Last(s, m) >= Interval(p, m)) || (s.phase == Init && m == ClientHello)
    requires s' == if m == ClientHello then s.(phase := WaitServerHello, lastHello := now) else s.(lastReady := now)
    ensures SentAt(p, s, [Schedule(now), Execute(at), Execute(at)] + rest, m) == [at] + SentAt(p, s', rest, m)
  {
    var e := if m == ClientHello then SendClientHello else SendRuntimeReady;
    var a := if m == ClientHello then ClientHelloAction else RuntimeReadyAction;
    assert [Schedule(now), Execute(at), Execute(at)] + rest ==
      [Schedule(now)] + ([Execute(at)] + ([Execute(at)] + rest));
    LeadsAt(p, s, Schedule(now), s'.(events := [e]), false, [Execute(at)] + ([Execute(at)] + rest), m);
    LeadsAt(p, s'.(events := [e]), Execute(at), s'.(actions := [a]), false, [Execute(at)] + rest, m);
    LeadsAt(p, s'.(actions := [a]), Execute(at), s', true, rest, m);
  }

  /** ClientHellos that fell due an interval apart leave closer together when the executor is late with the first. */
  lemma LateHello(p: Params)
    requires p.eventFactory && p.actionFactory && p.helloInterval >= 2
    ensures var h := p.helloInterval;
      && SentAt(p, Started, [Schedule(0), Execute(h - 1), Execute(h - 1)] + [Schedule(h), Execute(h), Execute(h)],
                ClientHello) == [h - 1, h]
      && 2 > 1 + (h - (h - 1)) / h
  {
    var h := p.helloInterval;
    var s := Started.(phase := WaitServerHello);
    LateTick(p, Started, 0, h - 1, s, [Schedule(h), Execute(h), Execute(h)], ClientHello);
    assert [Schedule(h), Execute(h), Execute(h)] + [] == [Schedule(h), Execute(h), Execute(h)];
    LateTick(p, s, h, h, s.(lastHello := h), [], ClientHello);
    assert 1 / h == 0;
  }

  /** So do RuntimeReadys, the first of which is due as the ServerHello is accepted. */
  lemma LateReady(p: Params)
    requires p.eventFactory && p.actionFactory && p.helloInterval > 0 && p.readyInterval >= 2
    ensures var r := p.readyInterval;
      && SentAt(p, Started,
                [Schedule(0), Execute(0), Execute(0)] + ([Receive(ReceiveServerHello(true), 0), Schedule(0)]
                + ([Execute(0), Execute(r - 1)] + [Schedule(r), Execute(r), Execute(r)])),
                RuntimeReady) == [r - 1, r]
      && 2 > 1 + (r - (r - 1)) / r
  {
    var r := p.readyInterval;
    var s := Started.(phase := WaitServerHello);
    var last := [Schedule(r), Execute(r), Execute(r)];
    var batch := [Execute(0), Execute(r - 1)] + last;
    FirstTick(p, s, [Receive(ReceiveServerHello(true), 0), Schedule(0)] + batch);
    AnswerArrives(p, s, batch);
    LateAnswer(p, s.(events := [ReceiveServerHello(true)]), r, last);
    assert last + [] == last;
    LateTick(p, s.(phase := WaitRuntimeStart), r, r, s.(phase := WaitRuntimeStart, lastReady := r), [], RuntimeReady);
    assert 1 / r == 0;
  }

  lemma FirstTick(p: Params, s: State, rest: seq<Label>)
    requires p.eventFactory && p.actionFactory && s == Started.(phase := WaitServerHello)
    ensures SentAt(p, Started, [Schedule(0), Execute(0), Execute(0)] + rest, RuntimeReady) ==
      SentAt(p, s, rest, RuntimeReady)
  {
    assert [Schedule(0), Execute(0), Execute(0)] + rest == [Schedule(0)] + ([Execute(0)] + ([Execute(0)] + rest));
    LeadsAt(p, Started, Schedule(0), s.(events := [SendClientHello]), false,
            [Execute(0)] + ([Execute(0)] + rest), RuntimeReady);
    LeadsAt(p, s.(events := [SendClientHello]), Execute(0), s.(actions := [ClientHelloAction]), false,
            [Execute(0)] + rest, RuntimeReady);
    LeadsAt(p, s.(actions := [ClientHelloAction]), Execute(0), s, false, rest, RuntimeReady);
  }

  lemma AnswerArrives(p: Params, s: State, rest: seq<Label>)
    requires p.helloInterval > 0 && s == Started.(phase := WaitServerHello)
    ensures SentAt(p, s, [Receive(ReceiveServerHello(true), 0), Schedule(0)] + rest, RuntimeReady)
         == SentAt(p, s.(events := [ReceiveServerHello(true)]), rest, RuntimeReady)
  {
    var s' := s.(events := [ReceiveServerHello(true)]);
    var arrival := Receive(ReceiveServerHello(true), 0);
    assert [arrival, Schedule(0)] + rest == [arrival] + ([Schedule(0)] + rest);
    LeadsAt(p, s, arrival, s', false, [Schedule(0)] + rest, RuntimeReady);
    LeadsAt(p, s', Schedule(0), s', false, rest, RuntimeReady);
  }

  lemma LateAnswer(p: Params, s: State, r: int, rest: seq<Label>)
    requires p.actionFactory && s == State(WaitServerHello, 0, 0, [ReceiveServerHello(true)], [])
    ensures SentAt(p, s, [Execute(0), Execute(r - 1)] + rest, RuntimeReady)
         == [r - 1] + SentAt(p, State(WaitRuntimeStart, 0, 0, [], []), rest, RuntimeReady)
  {
    var s1 := State(WaitRuntimeStart, 0, 0, [], [RuntimeReadyAction]);
    assert [Execute(0), Execute(r - 1)] + rest == [Execute(0)] + ([Execute(r - 1)] + rest);
    LeadsAt(p, s, Execute(0), s1, false, [Execute(r - 1)] + rest, RuntimeReady);
    LeadsAt(p, s1, Execute(r - 1), State(WaitRuntimeStart, 0, 0, [], []), true, rest, RuntimeReady);
  }

  /** All clocks lie between `at` and `t`. */
  ghost predicate Clocked(ticks: seq<Tick>, at: int, t: int) {
    at <= t && forall tick | tick in ticks :: at <= tick.now <= t && forall l | l in tick.turns :: l.now <= t
  }

  /** However the process goes on from `s`, a transmission at `at` and the later ones keep the rate from `at` on. */
  ghost predicate KeepsRate(p: Params, s: State, m: Message, at: int)
    requires Interval(p, m) > 0
  {
    forall ticks, t :: AllDrain(p, s, ticks) && Clocked(ticks, at, t) ==>
      1 + |Stamps(p, s, ticks, m)| <= 1 + (t - at) / Interval(p, m)
  }

  /**
   * Counted from the executor's clock at a transmission, the rate is kept by every continuation if and only if the
   * transmission was made at the very moment at which it fell due.
   */
  lemma LagDecides(p: Params, s: State, m: Message, at: int)
    requires p.eventFactory && p.actionFactory && Interval(p, m) > 0
    requires Idle(s) && s.phase == Waiting(m) && Last(s, m) <= at
    ensures KeepsRate(p, s, m, at) <==> at == Last(s, m)
  {
    if at == Last(s, m) {
      PromptKeepsRate(p, s, m);
    } else {
      var now := if at > Last(s, m) + Interval(p, m) then at else Last(s, m) + Interval(p, m);
      LateBreaksRate(p, s, m, at, now, Tick([], now, [Execute(now), Execute(now)]));
    }
  }

  lemma LateBreaksRate(p: Params, s: State, m: Message, at: int, now: int, tick: Tick)
    requires p.eventFactory && p.actionFactory && Idle(s) && s.phase == Waiting(m)
    requires Last(s, m) + Interval(p, m) <= now && at <= now < at + Interval(p, m)
    requires tick == Tick([], now, [Execute(now), Execute(now)])
    ensures !KeepsRate(p, s, m, at)
  {
    NextTick(p, s, m, now, tick);
    assert (now - at) / Interval(p, m) == 0;
    assert AllDrain(p, s, [tick]) && Clocked([tick], at, now);
  }

  lemma PromptKeepsRate(p: Params, s: State, m: Message)
    requires Interval(p, m) > 0 && Idle(s) && s.phase == Waiting(m)
    ensures KeepsRate(p, s, m, Last(s, m))
  {
    forall ticks, t | AllDrain(p, s, ticks) && Clocked(ticks, Last(s, m), t)
      ensures 1 + |Stamps(p, s, ticks, m)| <= 1 + (t - Last(s, m)) / Interval(p, m)
    {
      RateFromLast(p, s, m, ticks, t);
    }
  }

  lemma RateFromLast(p: Params, s: State, m: Message, ticks: seq<Tick>, t: int)
    requires Interval(p, m) > 0 && Idle(s) && s.phase == Waiting(m) && AllDrain(p, s, ticks)
    requires Clocked(ticks, Last(s, m), t)
    ensures |Stamps(p, s, ticks, m)| <= (t - Last(s, m)) / Interval(p, m)
  {
    StampsApart(p, s, ticks, m, t);
    ApartFromLast(Stamps(p, s, ticks, m), Interval(p, m), Last(s, m), t);
  }

  lemma ApartFromLast(stamps: seq<int>, interval: int, last: int, t: int)
    requires interval > 0 && Apart(stamps, interval, true, last, t) && last <= t
    ensures |stamps| <= (t - last) / interval
  {
    if stamps != [] {
      assert |stamps| * interval == (|stamps| - 1) * interval + interval;
      AtMost(|stamps| + 1, interval, t - last);
    }
  }

  /** The next tick in which `m` is due sends it. */
  lemma NextTick(p: Params, s: State, m: Message, now: int, tick: Tick)
    requires p.eventFactory && p.actionFactory && Idle(s) && s.phase == Waiting(m) && now - Last(s, m) >= Interval(p, m)
    requires tick == Tick([], now, [Execute(now), Execute(now)])
    ensures AllDrain(p, s, [tick]) && Stamps(p, s, [tick], m) == [now]
  {
    var s' := if m == ClientHello then s.(lastHello := now) else s.(lastReady := now);
    assert Labels(tick) == [Schedule(now)] + ([Execute(now)] + [Execute(now)]);
    if m == ClientHello {
      DueIsSent(p, s, now, s', SendClientHello, ClientHelloAction, m);
    } else {
      DueIsSent(p, s, now, s', SendRuntimeReady, RuntimeReadyAction, m);
    }
    OneStamp(p, s, tick, m, s');
  }

  lemma DueIsSent(p: Params, s: State, now: int, s': State, e: Event, a: Action, m: Message)
    requires p.eventFactory && p.actionFactory && Idle(s) && s.phase == Waiting(m) && now - Last(s, m) >= Interval(p, m)
    requires s' == if m == ClientHello then s.(lastHello := now) else s.(lastReady := now)
    requires if m == ClientHello then e == SendClientHello && a == ClientHelloAction
             else e == SendRuntimeReady && a == RuntimeReadyAction
    ensures var o := Run(p, s, [Schedule(now)] + ([Execute(now)] + [Execute(now)]));
      o.state == s' && o.log.sent == [m]
  {
    Leads(p, s, Schedule(now), s'.(events := [e]), [Execute(now)] + [Execute(now)]);
    Leads(p, s'.(events := [e]), Execute(now), s'.(actions := [a]), [Execute(now)]);
    RunOne(p, s'.(actions := [a]), Execute(now));
  }

  lemma OneStamp(p: Params, s: State, tick: Tick, m: Message, s': State)
    requires TickOk(tick) && Idle(s') && Run(p, s, Labels(tick)).state == s' && Run(p, s, Labels(tick)).log.sent == [m]
    ensures AllDrain(p, s, [tick]) && Stamps(p, s, [tick], m) == [tick.now]
  {
    assert [tick][1..] == [];
    assert AllDrain(p, s', []) && Stamps(p, s', [], m) == [];
    assert Count(m, [m]) == 1;
  }
}
