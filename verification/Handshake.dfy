/**
 * The daemon handshake over the event and action queues, as one step function
 * (authd/service/bootstrap/BootstrapService.cpp, authd/service/AuthdServiceManager.cpp).
 */
module Handshake {
  import opened Bytes

  datatype Phase = Init | WaitServerHello | WaitRuntimeStart | Ready | Running | Failed

  /** Incoming messages may be missing (`message == false`); other domains' events post at most one action. */
  datatype Event =
    | SendClientHello
    | ReceiveServerHello(message: bool)
    | SendRuntimeReady
    | ReceiveRuntimeStart(message: bool)
    | OtherEvent(posts: Option<nat>)

  datatype Action = ClientHelloAction | RuntimeReadyAction | OtherAction(id: nat)

  datatype Message = ClientHello | RuntimeReady

  datatype Params = Params(helloInterval: int, readyInterval: int, eventFactory: bool, actionFactory: bool)

  datatype State = State(
    phase: Phase,
    lastHello: int,
    lastReady: int,
    events: seq<Event>,
    actions: seq<Action>)

  /** What happens: events posted and taken, actions queued and run, messages sent, answers accepted, moments due. */
  datatype Log = Log(
    posted: seq<Event>,
    taken: seq<Event>,
    queued: seq<Action>,
    ran: seq<Action>,
    sent: seq<Message>,
    answers: seq<Event>,
    helloDue: seq<int>,
    readyDue: seq<int>)

  const Quiet := Log([], [], [], [], [], [], [], [])

  function Joined(a: Log, b: Log): Log {
    Log(a.posted + b.posted, a.taken + b.taken, a.queued + b.queued, a.ran + b.ran,
        a.sent + b.sent, a.answers + b.answers, a.helloDue + b.helloDue, a.readyDue + b.readyDue)
  }

  datatype Outcome = Outcome(state: State, log: Log)

  /** One micro-step: the timer, the receiving router, or one turn of the execute loop. */
  datatype Label = Schedule(now: int) | Receive(event: Event, now: int) | Execute(now: int)

  // ---- The steps ----

  const Started := State(Init, 0, 0, [], [])

  function Nothing(s: State): Outcome { Outcome(s, Quiet) }

  function PostHello(s: State, now: int): Outcome {
    Outcome(s.(phase := WaitServerHello, lastHello := now, events := s.events + [SendClientHello]),
            Quiet.(posted := [SendClientHello], helloDue := [now]))
  }

  function PostReady(s: State, now: int): Outcome {
    Outcome(s.(lastReady := now, events := s.events + [SendRuntimeReady]),
            Quiet.(posted := [SendRuntimeReady], readyDue := [now]))
  }

  function Scheduled(p: Params, s: State, now: int): Outcome {
    if s.phase == Running || !p.eventFactory then Nothing(s)
    else
      match s.phase
      case Init => PostHello(s, now)
      case WaitServerHello => if now - s.lastHello >= p.helloInterval then PostHello(s, now) else Nothing(s)
      case WaitRuntimeStart => if now - s.lastReady >= p.readyInterval then PostReady(s, now) else Nothing(s)
      case Ready => Nothing(s.(phase := Running))
      case _ => Nothing(s)
  }

  function Received(s: State, e: Event): Outcome {
    Outcome(s.(events := s.events + [e]), Quiet.(posted := [e]))
  }

  /** Taking the first event, with nothing else to do or with one action to post. */
  function Took(s: State): Outcome
    requires s.events != []
  {
    Outcome(s.(events := s.events[1..]), Quiet.(taken := [s.events[0]]))
  }

  function TookPosting(s: State, a: Action): Outcome
    requires s.events != []
  {
    Outcome(s.(events := s.events[1..], actions := s.actions + [a]), Quiet.(taken := [s.events[0]], queued := [a]))
  }

  /** A ServerHello: the clock is read again, and the first RuntimeReady follows at once. */
  function HelloAnswered(s: State, now: int): Outcome
    requires s.events != []
  {
    var o := TookPosting(s.(phase := WaitRuntimeStart, lastReady := now), RuntimeReadyAction);
    o.(log := o.log.(answers := [s.events[0]], readyDue := [now]))
  }

  function StartAnswered(s: State): Outcome
    requires s.events != []
  {
    var o := Took(s.(phase := Ready));
    o.(log := o.log.(answers := [s.events[0]]))
  }

  /** Dispatch of the first event. */
  function HandleEvent(p: Params, s: State, now: int): Outcome
    requires s.events != []
  {
    match s.events[0]
    case OtherEvent(None) => Took(s)
    case OtherEvent(Some(id)) => TookPosting(s, OtherAction(id))
    case SendClientHello => if p.actionFactory then TookPosting(s, ClientHelloAction) else Took(s)
    case SendRuntimeReady => if p.actionFactory then TookPosting(s, RuntimeReadyAction) else Took(s)
    case ReceiveServerHello(message) =>
      if p.actionFactory && message && s.phase == WaitServerHello then HelloAnswered(s, now) else Took(s)
    case ReceiveRuntimeStart(message) =>
      if p.actionFactory && message && s.phase == WaitRuntimeStart then StartAnswered(s) else Took(s)
  }

  /** What an action transmits: a message whose phase has passed is dropped. */
  function MessagesOf(phase: Phase, a: Action): seq<Message> {
    if a.ClientHelloAction? && phase == WaitServerHello then [ClientHello]
    else if a.RuntimeReadyAction? && phase == WaitRuntimeStart then [RuntimeReady]
    else []
  }

  function HandleAction(s: State): Outcome
    requires s.actions != []
  {
    Outcome(s.(actions := s.actions[1..]), Quiet.(ran := [s.actions[0]], sent := MessagesOf(s.phase, s.actions[0])))
  }

  predicate Idle(s: State) { s.events == [] && s.actions == [] }

  /** One turn of `execute`: events before actions. */
  function Dispatch(p: Params, s: State, now: int): Outcome {
    if s.events != [] then HandleEvent(p, s, now)
    else if s.actions != [] then HandleAction(s)
    else Nothing(s)
  }

  /** What other parts post: anything but the two events that only the timer makes. */
  predicate Allowed(l: Label) {
    l.Receive? ==> !l.event.SendClientHello? && !l.event.SendRuntimeReady?
  }

  function Next(p: Params, s: State, l: Label): Outcome {
    match l
    case Schedule(now) => Scheduled(p, s, now)
    case Receive(e, _) => Received(s, e)
    case Execute(now) => Dispatch(p, s, now)
  }

  function Run(p: Params, s: State, labels: seq<Label>): Outcome
    decreases |labels|
  {
    if labels == [] then Nothing(s)
    else
      var o := Next(p, s, labels[0]);
      var rest := Run(p, o.state, labels[1..]);
      Outcome(rest.state, Joined(o.log, rest.log))
  }

  lemma {:induction false} RunSnoc(p: Params, s: State, labels: seq<Label>, l: Label)
    ensures var o := Run(p, s, labels);
      var last := Next(p, o.state, l);
      Run(p, s, labels + [l]) == Outcome(last.state, Joined(o.log, last.log))
    decreases |labels|
  {
    if labels == [] {
      var o := Next(p, s, l);
      JoinedInThree(o.log, Quiet, Quiet);
      RunOne(p, s, l);
    } else {
      var first := Next(p, s, labels[0]);
      RunSnoc(p, first.state, labels[1..], l);
      assert (labels + [l])[1..] == labels[1..] + [l];
      var o := Run(p, first.state, labels[1..]);
      JoinedInThree(first.log, o.log, Next(p, o.state, l).log);
    }
  }

  lemma RunOne(p: Params, s: State, l: Label)
    ensures Run(p, s, [l]) == Next(p, s, l)
  {
    var o := Next(p, s, l);
    assert [l][1..] == [];
    JoinedInThree(o.log, Quiet, Quiet);
    assert Run(p, o.state, []) == Nothing(o.state);
  }

  // ---- Every event and action once, in order ----

  /** What was posted is what was taken, followed by what waits. */
  ghost predicate InOrder(s: State, t: Log) {
    t.posted == t.taken + s.events && t.queued == t.ran + s.actions
  }

  /** The same law for one step, from what waited before it. */
  ghost predicate PassedOn(s: State, o: Outcome) {
    && s.events + o.log.posted == o.log.taken + o.state.events
    && s.actions + o.log.queued == o.log.ran + o.state.actions
  }

  lemma StepInOrder(p: Params, s: State, l: Label)
    ensures PassedOn(s, Next(p, s, l))
  {
    if l.Execute? {
      DispatchInOrder(p, s, l.now);
    }
  }

  lemma DispatchInOrder(p: Params, s: State, now: int)
    ensures PassedOn(s, Dispatch(p, s, now))
  {
    if s.events != [] {
      assert [s.events[0]] + s.events[1..] == s.events;
      EventInOrder(p, s, now);
    } else if s.actions != [] {
      assert [s.actions[0]] + s.actions[1..] == s.actions;
    }
  }

  lemma EventInOrder(p: Params, s: State, now: int)
    requires s.events != [] && [s.events[0]] + s.events[1..] == s.events
    ensures PassedOn(s, HandleEvent(p, s, now))
  {
    var o := HandleEvent(p, s, now);
    if o.log.queued == [] {
      assert o.log.taken == [s.events[0]] && o.state.events == s.events[1..];
    } else {
      assert o.state.actions == s.actions + o.log.queued;
    }
  }

  lemma Shuffle<T>(posted: seq<T>, taken: seq<T>, waiting: seq<T>, more: seq<T>, gone: seq<T>, left: seq<T>)
    requires posted == taken + waiting && waiting + more == gone + left
    ensures posted + more == taken + gone + left
  {
    assert taken + waiting + more == taken + (waiting + more) == taken + gone + left;
  }

  /** Events and actions leave in the order they came, each once. */
  lemma StepKeepsOrder(p: Params, s: State, t: Log, l: Label)
    requires InOrder(s, t)
    ensures InOrder(Next(p, s, l).state, Joined(t, Next(p, s, l).log))
  {
    StepInOrder(p, s, l);
    OrderJoins(s, t, Next(p, s, l));
  }

  lemma OrderJoins(s: State, t: Log, o: Outcome)
    requires InOrder(s, t) && PassedOn(s, o)
    ensures InOrder(o.state, Joined(t, o.log))
  {
    Shuffle(t.posted, t.taken, s.events, o.log.posted, o.log.taken, o.state.events);
    Shuffle(t.queued, t.ran, s.actions, o.log.queued, o.log.ran, o.state.actions);
  }

  // ---- The handshake ----

  function Rank(phase: Phase): nat {
    match phase
    case Init => 0
    case WaitServerHello => 1
    case WaitRuntimeStart => 2
    case Ready => 3
    case Running => 4
    case Failed => 5
  }

  /** The phase moves up one at a time, if at all, and never fails. */
  lemma PhaseClimbs(p: Params, s: State, l: Label)
    requires s.phase != Failed
    ensures var now := Next(p, s, l).state.phase;
      now != Failed && (now == s.phase || Rank(now) == Rank(s.phase) + 1)
  {
  }

  function Answers(phase: Phase): seq<Event> {
    if Rank(phase) < 2 then []
    else if Rank(phase) == 2 then [ReceiveServerHello(true)]
    else [ReceiveServerHello(true), ReceiveRuntimeStart(true)]
  }

  /** Once a RuntimeReady has gone out no ClientHello follows. */
  ghost predicate HellosFirst(ms: seq<Message>) {
    forall i, j :: 0 <= i < j < |ms| && ms[i] == RuntimeReady ==> ms[j] == RuntimeReady
  }

  function Count<T(==)>(x: T, s: seq<T>): nat { multiset(s)[x] }

  lemma CountAppend<T>(x: T, s: seq<T>, t: seq<T>)
    ensures Count(x, s + t) == Count(x, s) + Count(x, t)
  {
  }

  lemma CountFront<T>(x: T, s: seq<T>)
    requires s != []
    ensures Count(x, s) == Count(x, s[1..]) + if s[0] == x then 1 else 0
  {
    assert s == [s[0]] + s[1..];
  }

  /** Messages sent or still to be sent never outnumber the moments at which they fell due. */
  ghost predicate Budgeted(s: State, t: Log) {
    && Count(ClientHello, t.sent) + Count(SendClientHello, s.events) + Count(ClientHelloAction, s.actions)
         <= |t.helloDue|
    && Count(RuntimeReady, t.sent) + Count(SendRuntimeReady, s.events) + Count(RuntimeReadyAction, s.actions)
         <= |t.readyDue|
  }

  /** The moments lie at least `interval` apart, the last being `last`. */
  ghost predicate Spaced(due: seq<int>, interval: int, last: int) {
    due != [] ==> due[|due| - 1] == last && (|due| - 1) * interval <= last - due[0]
  }

  ghost predicate Paced(p: Params, s: State, t: Log) {
    && (Rank(s.phase) == 0 ==> t.helloDue == [])
    && (Rank(s.phase) < 2 ==> t.readyDue == [])
    && Spaced(t.helloDue, p.helloInterval, s.lastHello)
    && Spaced(t.readyDue, p.readyInterval, s.lastReady)
  }

  ghost predicate Talked(s: State, t: Log) {
    && t.answers == Answers(s.phase)
    && HellosFirst(t.sent)
    && (Rank(s.phase) < 2 ==> RuntimeReady !in t.sent)
  }

  ghost predicate Inv(p: Params, s: State, t: Log) {
    s.phase != Failed && InOrder(s, t) && Talked(s, t) && Budgeted(s, t) && Paced(p, s, t)
  }

  /** What one step adds: at most one message, only in its phase; one answer, only as the phase moves. */
  lemma StepAdds(p: Params, s: State, l: Label)
    requires s.phase != Failed
    ensures var o := Next(p, s, l);
      && Answers(s.phase) + o.log.answers == Answers(o.state.phase)
      && (o.log.sent == [] || (o.log.sent == [ClientHello] && s.phase == WaitServerHello == o.state.phase)
                           || (o.log.sent == [RuntimeReady] && s.phase == WaitRuntimeStart == o.state.phase))
  {
  }

  lemma StepKeepsTalk(p: Params, s: State, t: Log, l: Label)
    requires s.phase != Failed && Talked(s, t)
    ensures Talked(Next(p, s, l).state, Joined(t, Next(p, s, l).log))
  {
    StepAdds(p, s, l);
    PhaseClimbs(p, s, l);
  }

  /** The moments that one step adds. */
  ghost predicate HelloPaced(p: Params, s: State, now: int, o: Outcome) {
    if o.log.helloDue == [] then o.state.lastHello == s.lastHello && (s.phase == Init ==> o.state.phase == Init)
    else
      && o.log.helloDue == [now] && o.state.lastHello == now && o.state.phase == WaitServerHello
      && (s.phase == Init || now - s.lastHello >= p.helloInterval)
  }

  ghost predicate ReadyPaced(p: Params, s: State, now: int, o: Outcome) {
    if o.log.readyDue == [] then o.state.lastReady == s.lastReady && (Rank(s.phase) < 2 ==> Rank(o.state.phase) < 2)
    else
      && o.log.readyDue == [now] && o.state.lastReady == now && o.state.phase == WaitRuntimeStart
      && (Rank(s.phase) < 2 || now - s.lastReady >= p.readyInterval)
  }

  lemma StepDue(p: Params, s: State, l: Label)
    requires s.phase != Failed
    ensures HelloPaced(p, s, l.now, Next(p, s, l)) && ReadyPaced(p, s, l.now, Next(p, s, l))
  {
  }

  lemma OneMoreDue(due: seq<int>, interval: int, last: int, now: int)
    requires Spaced(due, interval, last) && (due != [] ==> now - last >= interval)
    ensures Spaced(due + [now], interval, now)
  {
    if due != [] {
      assert |due| * interval == (|due| - 1) * interval + interval;
    }
  }

  /** The moments lie an interval apart. */
  lemma StepKeepsPace(p: Params, s: State, t: Log, l: Label)
    requires s.phase != Failed && Paced(p, s, t)
    ensures Paced(p, Next(p, s, l).state, Joined(t, Next(p, s, l).log))
  {
    StepDue(p, s, l);
    PhaseClimbs(p, s, l);
    PaceJoins(p, s, t, l.now, Next(p, s, l));
  }

  lemma PaceJoins(p: Params, s: State, t: Log, now: int, o: Outcome)
    requires HelloPaced(p, s, now, o) && ReadyPaced(p, s, now, o) && Paced(p, s, t)
    requires Rank(o.state.phase) >= Rank(s.phase)
    ensures Paced(p, o.state, Joined(t, o.log))
  {
    if o.log.helloDue != [] {
      OneMoreDue(t.helloDue, p.helloInterval, s.lastHello, now);
    }
    if o.log.readyDue != [] {
      OneMoreDue(t.readyDue, p.readyInterval, s.lastReady, now);
    }
  }

  /** A step passes a message on, from due to event to action to sent, or drops it. */
  ghost predicate Spends(s: State, o: Outcome) {
    && Count(ClientHello, o.log.sent) + Count(SendClientHello, o.state.events) +
         Count(ClientHelloAction, o.state.actions)
         <= |o.log.helloDue| + Count(SendClientHello, s.events) + Count(ClientHelloAction, s.actions)
    && Count(RuntimeReady, o.log.sent) + Count(SendRuntimeReady, o.state.events) +
         Count(RuntimeReadyAction, o.state.actions)
         <= |o.log.readyDue| + Count(SendRuntimeReady, s.events) + Count(RuntimeReadyAction, s.actions)
  }

  lemma StepSpends(p: Params, s: State, l: Label)
    requires Allowed(l)
    ensures Spends(s, Next(p, s, l))
  {
    match l
    case Schedule(now) => ScheduleSpends(p, s, now, Scheduled(p, s, now));
    case Receive(e, _) => PostedSpends(s, Received(s, e), e);
    case Execute(now) => DispatchSpends(p, s, now, Dispatch(p, s, now));
  }

  lemma ScheduleSpends(p: Params, s: State, now: int, o: Outcome)
    requires o == Scheduled(p, s, now)
    ensures Spends(s, o)
  {
    if o.log.posted != [] {
      PostedSpends(s, o, o.log.posted[0]);
    }
  }

  lemma DispatchSpends(p: Params, s: State, now: int, o: Outcome)
    requires o == Dispatch(p, s, now)
    ensures Spends(s, o)
  {
    if s.events != [] {
      EventSpends(p, s, now);
    } else if s.actions != [] {
      CountFront(ClientHelloAction, s.actions);
      CountFront(RuntimeReadyAction, s.actions);
    }
  }

  lemma PostedSpends(s: State, o: Outcome, e: Event)
    requires o.state.events == s.events + [e] && o.state.actions == s.actions && o.log.sent == []
    requires e == SendClientHello ==> o.log.helloDue != []
    requires e == SendRuntimeReady ==> o.log.readyDue != []
    ensures Spends(s, o)
  {
    CountAppend(SendClientHello, s.events, [e]);
    CountAppend(SendRuntimeReady, s.events, [e]);
  }

  lemma EventSpends(p: Params, s: State, now: int)
    requires s.events != []
    ensures Spends(s, HandleEvent(p, s, now))
  {
    var o := HandleEvent(p, s, now);
    if o.log.readyDue != [] {
      AnswerSpends(s, now);
    } else if o.log.queued != [] {
      PostingSpends(s, o.log.queued[0]);
    } else {
      TookSpends(s);
    }
  }

  lemma TookSpends(s: State)
    requires s.events != []
    ensures Spends(s, Took(s))
    ensures s.events[0].ReceiveRuntimeStart? ==> Spends(s, StartAnswered(s))
  {
    CountFront(SendClientHello, s.events);
    CountFront(SendRuntimeReady, s.events);
  }

  lemma CountsPosting(s: State, a: Action)
    ensures Count(ClientHelloAction, s.actions + [a]) ==
      Count(ClientHelloAction, s.actions) + Count(ClientHelloAction, [a])
    ensures Count(RuntimeReadyAction, s.actions + [a]) ==
      Count(RuntimeReadyAction, s.actions) + Count(RuntimeReadyAction, [a])
  {
  }

  lemma PostingSpends(s: State, a: Action)
    requires s.events != []
    requires a == ClientHelloAction ==> s.events[0] == SendClientHello
    requires a == RuntimeReadyAction ==> s.events[0] == SendRuntimeReady
    ensures Spends(s, TookPosting(s, a))
  {
    CountFront(SendClientHello, s.events);
    CountFront(SendRuntimeReady, s.events);
    CountsPosting(s, a);
  }

  lemma AnswerSpends(s: State, now: int)
    requires s.events != [] && s.events[0].ReceiveServerHello?
    ensures Spends(s, HelloAnswered(s, now))
  {
    CountFront(SendClientHello, s.events);
    CountFront(SendRuntimeReady, s.events);
    CountsPosting(s, RuntimeReadyAction);
  }

  /** Messages sent or pending never outnumber the moments at which they fell due. */
  lemma StepKeepsBudget(p: Params, s: State, t: Log, l: Label)
    requires Allowed(l) && Budgeted(s, t)
    ensures Budgeted(Next(p, s, l).state, Joined(t, Next(p, s, l).log))
  {
    StepSpends(p, s, l);
    BudgetJoins(s, t, Next(p, s, l));
  }

  lemma BudgetJoins(s: State, t: Log, o: Outcome)
    requires Spends(s, o) && Budgeted(s, t)
    ensures Budgeted(o.state, Joined(t, o.log))
  {
    CountAppend(ClientHello, t.sent, o.log.sent);
    CountAppend(RuntimeReady, t.sent, o.log.sent);
  }

  lemma StepKeepsInv(p: Params, s: State, t: Log, l: Label)
    requires Inv(p, s, t) && Allowed(l)
    ensures Inv(p, Next(p, s, l).state, Joined(t, Next(p, s, l).log))
  {
    PhaseClimbs(p, s, l);
    StepKeepsOrder(p, s, t, l);
    StepKeepsTalk(p, s, t, l);
    StepKeepsBudget(p, s, t, l);
    StepKeepsPace(p, s, t, l);
  }

  lemma JoinedInThree(a: Log, b: Log, c: Log)
    ensures Joined(a, Joined(b, c)) == Joined(Joined(a, b), c)
    ensures Joined(a, Quiet) == a == Joined(Quiet, a)
  {
  }

  lemma {:induction false} RunKeepsInv(p: Params, s: State, t: Log, labels: seq<Label>)
    requires Inv(p, s, t) && forall l | l in labels :: Allowed(l)
    ensures Inv(p, Run(p, s, labels).state, Joined(t, Run(p, s, labels).log))
    decreases |labels|
  {
    if labels == [] {
      JoinedInThree(t, Quiet, Quiet);
    } else {
      var o := Next(p, s, labels[0]);
      StepKeepsInv(p, s, t, labels[0]);
      RunKeepsInv(p, o.state, Joined(t, o.log), labels[1..]);
      JoinedInThree(t, o.log, Run(p, o.state, labels[1..]).log);
    }
  }

  // ---- What every run from the start keeps ----

  lemma RunFromStart(p: Params, labels: seq<Label>)
    requires forall l | l in labels :: Allowed(l)
    ensures Inv(p, Run(p, Started, labels).state, Run(p, Started, labels).log)
  {
    RunKeepsInv(p, Started, Quiet, labels);
    JoinedInThree(Run(p, Started, labels).log, Quiet, Quiet);
  }

  /** What the invariant says of a state and the log up to it. */
  ghost predicate Shaped(s: State, g: Log) {
    && HellosFirst(g.sent)
    && g.answers == Answers(s.phase)
    && (s.phase == Running ==> g.answers == [ReceiveServerHello(true), ReceiveRuntimeStart(true)])
  }

  /** The transmitted sequence is ClientHello* RuntimeReady*, and Running comes after one answer of each kind. */
  lemma HandshakeShape(p: Params, labels: seq<Label>)
    requires forall l | l in labels :: Allowed(l)
    ensures Shaped(Run(p, Started, labels).state, Run(p, Started, labels).log)
  {
    RunFromStart(p, labels);
    InvShapes(p, Run(p, Started, labels).state, Run(p, Started, labels).log);
  }

  lemma InvShapes(p: Params, s: State, g: Log)
    requires Inv(p, s, g)
    ensures Shaped(s, g) && AllDispatched(s, g)
  {
  }

  /** What was taken and run are the first of what was posted and queued, and all of it once nothing waits. */
  ghost predicate AllDispatched(s: State, g: Log) {
    g.taken <= g.posted && g.ran <= g.queued && (Idle(s) ==> g.taken == g.posted && g.ran == g.queued)
  }

  /** Every event and action is dispatched once, in the order of posting. */
  lemma DispatchedOnceInOrder(p: Params, labels: seq<Label>)
    requires forall l | l in labels :: Allowed(l)
    ensures AllDispatched(Run(p, Started, labels).state, Run(p, Started, labels).log)
  {
    RunFromStart(p, labels);
    InvShapes(p, Run(p, Started, labels).state, Run(p, Started, labels).log);
  }

  /** In every run, whenever an action ran no event was waiting. */
  lemma EventsOutrankActions(p: Params, labels: seq<Label>, k: nat)
    requires k < |labels|
    ensures var before, after := Run(p, Started, labels[..k]), Run(p, Started, labels[..k + 1]);
      before.log.ran <= after.log.ran && (after.log.ran != before.log.ran ==> before.state.events == [])
  {
    RunSnoc(p, Started, labels[..k], labels[k]);
    assert labels[..k] + [labels[k]] == labels[..k + 1];
    EventsFirst(p, Run(p, Started, labels[..k]).state, labels[k]);
  }

  lemma EventsFirst(p: Params, s: State, l: Label)
    ensures Next(p, s, l).log.ran != [] ==> s.events == []
  {
  }

  /** From Ready onward no handshake message is sent, whatever still waits in the queues. */
  lemma {:induction false} SilentAfterReady(p: Params, s: State, labels: seq<Label>)
    requires 3 <= Rank(s.phase) <= 4
    ensures Run(p, s, labels).log.sent == [] && 3 <= Rank(Run(p, s, labels).state.phase) <= 4
    decreases |labels|
  {
    if labels != [] {
      StepAdds(p, s, labels[0]);
      PhaseClimbs(p, s, labels[0]);
      SilentAfterReady(p, Next(p, s, labels[0]).state, labels[1..]);
    }
  }

  // ---- Other domains are served ----

  /** The events that did not come from the timer. */
  function Foreign(es: seq<Event>): seq<Event> {
    if es == [] then []
    else (if es[0].SendClientHello? || es[0].SendRuntimeReady? then [] else [es[0]]) + Foreign(es[1..])
  }

  function ReceivedOf(labels: seq<Label>): seq<Event> {
    if labels == [] then []
    else (if labels[0].Receive? then [labels[0].event] else []) + ReceivedOf(labels[1..])
  }

  /** The actions of other domains. */
  function Others(actions: seq<Action>): seq<Action> {
    if actions == [] then [] else (if actions[0].OtherAction? then [actions[0]] else []) + Others(actions[1..])
  }

  /** What the events of other domains ask for. */
  function Asked(es: seq<Event>): seq<Action> {
    if es == [] then []
    else
      (if es[0].OtherEvent? && es[0].posts.Some? then [OtherAction(es[0].posts.value)] else []) + Asked(es[1..])
  }

  lemma {:induction false} ForeignAppend(a: seq<Event>, b: seq<Event>)
    ensures Foreign(a + b) == Foreign(a) + Foreign(b)
  {
    if a == [] {
      assert a + b == b;
    } else {
      assert (a + b)[1..] == a[1..] + b;
      ForeignAppend(a[1..], b);
    }
  }

  lemma {:induction false} AskedAppend(a: seq<Event>, b: seq<Event>)
    ensures Asked(a + b) == Asked(a) + Asked(b)
  {
    if a == [] {
      assert a + b == b;
    } else {
      assert (a + b)[1..] == a[1..] + b;
      AskedAppend(a[1..], b);
    }
  }

  lemma {:induction false} OthersAppend(a: seq<Action>, b: seq<Action>)
    ensures Others(a + b) == Others(a) + Others(b)
  {
    if a == [] {
      assert a + b == b;
    } else {
      assert (a + b)[1..] == a[1..] + b;
      OthersAppend(a[1..], b);
    }
  }

  lemma Singles(e: Event, a: Action)
    ensures Foreign([e]) == if e.SendClientHello? || e.SendRuntimeReady? then [] else [e]
    ensures Asked([e]) == if e.OtherEvent? && e.posts.Some? then [OtherAction(e.posts.value)] else []
    ensures Others([a]) == if a.OtherAction? then [a] else []
  {
    assert [e][1..] == [] && [a][1..] == [];
  }

  lemma StepServes(p: Params, s: State, l: Label, o: Outcome)
    requires Allowed(l) && o == Next(p, s, l)
    ensures Foreign(o.log.posted) == ReceivedOf([l]) && Others(o.log.queued) == Asked(o.log.taken)
  {
    assert [l][1..] == [];
    if l.Execute? {
      TurnServes(p, s, l.now, o);
    } else if l.Schedule? {
      TimerServes(p, s, l.now, o);
    } else {
      Singles(l.event, ClientHelloAction);
    }
  }

  lemma TimerServes(p: Params, s: State, now: int, o: Outcome)
    requires o == Scheduled(p, s, now)
    ensures Foreign(o.log.posted) == [] && o.log.queued == [] && o.log.taken == []
  {
    Singles(SendClientHello, ClientHelloAction);
    Singles(SendRuntimeReady, RuntimeReadyAction);
  }

  lemma TurnServes(p: Params, s: State, now: int, o: Outcome)
    requires o == Dispatch(p, s, now)
    ensures o.log.posted == [] && Others(o.log.queued) == Asked(o.log.taken)
  {
    if s.events != [] {
      var e := s.events[0];
      Singles(e, ClientHelloAction);
      Singles(e, RuntimeReadyAction);
      if e.OtherEvent? && e.posts.Some? {
        Singles(e, OtherAction(e.posts.value));
      }
    }
  }

  /**
   * What is received is posted, in order; and of the events taken, those of other domains have had their actions
   * queued, in order and each once, whatever the handshake does.
   */
  lemma {:induction false} OtherDomainsAreServed(p: Params, s: State, labels: seq<Label>)
    requires forall l | l in labels :: Allowed(l)
    ensures var g := Run(p, s, labels).log;
      Foreign(g.posted) == ReceivedOf(labels) && Others(g.queued) == Asked(g.taken)
    decreases |labels|
  {
    if labels != [] {
      var o := Next(p, s, labels[0]);
      var rest := Run(p, o.state, labels[1..]).log;
      StepServes(p, s, labels[0], o);
      OtherDomainsAreServed(p, o.state, labels[1..]);
      ForeignAppend(o.log.posted, rest.posted);
      OthersAppend(o.log.queued, rest.queued);
      AskedAppend(o.log.taken, rest.taken);
      assert [labels[0]][1..] == [];
    }
  }

  // ---- When RuntimeReady goes out before Running, and when it does not ----

  ghost predicate Draining(p: Params, s: State, labels: seq<Label>) {
    (forall l | l in labels :: l.Execute?) && Idle(Run(p, s, labels).state)
  }

  /** A RuntimeReady is on its way to being transmitted. */
  predicate ReadyQueued(s: State) {
    RuntimeReadyAction in s.actions || SendRuntimeReady in s.events
  }

  /** How one turn changes what bears on RuntimeReady while waiting for the RuntimeStart. */
  lemma TurnAfterHello(p: Params, s: State, now: int)
    requires p.actionFactory && s.phase == WaitRuntimeStart && !Idle(s)
    ensures var o := Dispatch(p, s, now);
      var start := ReceiveRuntimeStart(true) in s.events;
      var ready := ReadyQueued(s);
      if o.state.phase == Ready then start && o.log.sent == []
      else
        && o.state.phase == WaitRuntimeStart
        && (ReceiveRuntimeStart(true) in o.state.events <==> start)
        && (RuntimeReady in o.log.sent ==> !start && ready)
        && (ready <==> RuntimeReady in o.log.sent || ReadyQueued(o.state))
  {
    if s.events != [] {
      assert s.events == [s.events[0]] + s.events[1..];
    } else {
      assert s.actions == [s.actions[0]] + s.actions[1..];
    }
  }

  /** While waiting for the RuntimeStart, a batch sends a RuntimeReady exactly if one is due and no answer waits. */
  lemma {:induction false} BatchAfterHello(p: Params, s: State, labels: seq<Label>)
    requires p.actionFactory && s.phase == WaitRuntimeStart && Draining(p, s, labels)
    ensures RuntimeReady in Run(p, s, labels).log.sent
       <==> ReceiveRuntimeStart(true) !in s.events && ReadyQueued(s)
    decreases |labels|
  {
    if labels != [] {
      assert labels[0] in labels;
      var o := Next(p, s, labels[0]);
      if Idle(s) {
        BatchAfterHello(p, o.state, labels[1..]);
      } else {
        TurnAfterHello(p, s, labels[0].now);
        if o.state.phase == Ready {
          SilentAfterReady(p, o.state, labels[1..]);
        } else {
          BatchAfterHello(p, o.state, labels[1..]);
        }
      }
    }
  }

  /** The first ServerHello in the batch has no RuntimeStart behind it. */
  predicate HelloArrivesAlone(events: seq<Event>) {
    events != [] &&
    if events[0] == ReceiveServerHello(true) then ReceiveRuntimeStart(true) !in events[1..]
    else HelloArrivesAlone(events[1..])
  }

  lemma TurnBeforeHello(p: Params, s: State, now: int)
    requires p.actionFactory && s.phase == WaitServerHello
    requires SendRuntimeReady !in s.events && RuntimeReadyAction !in s.actions
    ensures var o := Dispatch(p, s, now);
      && RuntimeReady !in o.log.sent && SendRuntimeReady !in o.state.events
      && (if s.events != [] && s.events[0] == ReceiveServerHello(true)
          then
            && o.state.phase == WaitRuntimeStart && RuntimeReadyAction in o.state.actions
            && o.state.events == s.events[1..]
          else o.state.phase == WaitServerHello && RuntimeReadyAction !in o.state.actions
               && o.state.events == if s.events == [] then [] else s.events[1..])
  {
  }

  /**
   * A batch executed while waiting for the ServerHello transmits a RuntimeReady if and only if the ServerHello it holds
   * has no RuntimeStart behind it: events outrank actions, so such a RuntimeStart ends the wait and the pending
   * RuntimeReady is dropped.
   */
  lemma {:induction false} BatchSendsReadyIff(p: Params, s: State, labels: seq<Label>)
    requires p.actionFactory && s.phase == WaitServerHello && Draining(p, s, labels)
    requires SendRuntimeReady !in s.events && RuntimeReadyAction !in s.actions
    ensures RuntimeReady in Run(p, s, labels).log.sent <==> HelloArrivesAlone(s.events)
    decreases |labels|
  {
    if labels != [] {
      assert labels[0] in labels;
      var o := Next(p, s, labels[0]);
      TurnBeforeHello(p, s, labels[0].now);
      if o.state.phase == WaitRuntimeStart {
        BatchAfterHello(p, o.state, labels[1..]);
      } else {
        BatchSendsReadyIff(p, o.state, labels[1..]);
      }
    }
  }

  /** The two queues hold nothing of RuntimeReady until the ServerHello is accepted, in any run. */
  lemma NoReadyBeforeHello(p: Params, labels: seq<Label>)
    requires forall l | l in labels :: Allowed(l)
    requires Run(p, Started, labels).state.phase == WaitServerHello
    ensures var s := Run(p, Started, labels).state; SendRuntimeReady !in s.events && RuntimeReadyAction !in s.actions
  {
    RunFromStart(p, labels);
  }

  const BothAnswers: State := State(WaitServerHello, 0, 0, [ReceiveServerHello(true), ReceiveRuntimeStart(true)], [])

  lemma BothAnswersInOneBatch(p: Params)
    requires p.eventFactory && p.actionFactory
    ensures Run(p, Started, [Schedule(0), Execute(0), Execute(0), Receive(ReceiveServerHello(true), 0),
                             Receive(ReceiveRuntimeStart(true), 0)]).state == BothAnswers
  {
    var a := Receive(ReceiveServerHello(true), 0);
    var b := Receive(ReceiveRuntimeStart(true), 0);
    var greeted := State(WaitServerHello, 0, 0, [], []);
    var answered := State(WaitServerHello, 0, 0, [ReceiveServerHello(true)], []);
    GreetThen(p, [a, b]);
    assert [Schedule(0), Execute(0), Execute(0)] + [a, b] == [Schedule(0), Execute(0), Execute(0), a, b];
    Leads(p, greeted, a, answered, [b]);
    RunOne(p, answered, b);
  }

  /** The first ClientHello goes out; then the rest. */
  lemma GreetThen(p: Params, rest: seq<Label>)
    requires p.eventFactory && p.actionFactory
    ensures Run(p, Started, [Schedule(0), Execute(0), Execute(0)] + rest).state ==
      Run(p, State(WaitServerHello, 0, 0, [], []), rest).state
  {
    var s1 := State(WaitServerHello, 0, 0, [SendClientHello], []);
    var s2 := State(WaitServerHello, 0, 0, [], [ClientHelloAction]);
    Leads(p, Started, Schedule(0), s1, [Execute(0), Execute(0)] + rest);
    Leads(p, s1, Execute(0), s2, [Execute(0)] + rest);
    Leads(p, s2, Execute(0), State(WaitServerHello, 0, 0, [], []), rest);
    assert [Execute(0)] + ([Execute(0)] + rest) == [Execute(0), Execute(0)] + rest;
    assert [Schedule(0)] + ([Execute(0), Execute(0)] + rest) == [Schedule(0), Execute(0), Execute(0)] + rest;
  }

  /** From there the run reaches Running although its RuntimeReady was never sent. */
  lemma RunningWithoutReady(p: Params)
    requires p.eventFactory && p.actionFactory
    ensures var o := Run(p, BothAnswers, [Execute(0), Execute(0), Execute(0), Schedule(0)]);
      o.state.phase == Running && o.log.sent == []
  {
    var s1 := State(WaitRuntimeStart, 0, 0, [ReceiveRuntimeStart(true)], [RuntimeReadyAction]);
    var s2 := State(Ready, 0, 0, [], [RuntimeReadyAction]);
    Leads(p, BothAnswers, Execute(0), s1, [Execute(0), Execute(0), Schedule(0)]);
    Leads(p, s1, Execute(0), s2, [Execute(0), Schedule(0)]);
    DroppedThenRunning(p, s2);
  }

  lemma DroppedThenRunning(p: Params, s: State)
    requires p.eventFactory && s == State(Ready, 0, 0, [], [RuntimeReadyAction])
    ensures var o := Run(p, s, [Execute(0), Schedule(0)]); o.state.phase == Running && o.log.sent == []
  {
    var s1 := State(Ready, 0, 0, [], []);
    Leads(p, s, Execute(0), s1, [Schedule(0)]);
    RunOne(p, s1, Schedule(0));
  }

  lemma Leads(p: Params, s: State, l: Label, next: State, rest: seq<Label>)
    requires Next(p, s, l).state == next
    ensures Run(p, s, [l] + rest).state == Run(p, next, rest).state
    ensures Run(p, s, [l] + rest).log.sent == Next(p, s, l).log.sent + Run(p, next, rest).log.sent
  {
    assert ([l] + rest)[1..] == rest;
  }

  lemma RunThenOne(p: Params, s: State, labels: seq<Label>, l: Label)
    ensures Run(p, s, labels + [l]).state == Next(p, Run(p, s, labels).state, l).state
    ensures Run(p, s, labels + [l]).log.sent ==
      Run(p, s, labels).log.sent + Next(p, Run(p, s, labels).state, l).log.sent
  {
    RunSnoc(p, s, labels, l);
  }
}
