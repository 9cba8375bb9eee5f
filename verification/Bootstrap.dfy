/** The service manager and its bootstrap service as objects (authd/service). */
module Bootstrap {
  import opened Bytes
  import opened Handshake

  class AuthdServiceManager {
    const p: Params
    var phase: Phase
    var lastHello: int
    var lastReady: int
    var events: seq<Event>
    var actions: seq<Action>
    /** What the transmitting router was handed. */
    var sent: seq<Message>

    ghost function Now(): State
      reads this
    {
      State(phase, lastHello, lastReady, events, actions)
    }

    constructor (p: Params)
      ensures this.p == p && Now() == Started && sent == []
    {
      this.p := p;
      phase, lastHello, lastReady := Init, 0, 0;
      events, actions, sent := [], [], [];
    }

    /** `start`: the handshake begins anew; what is queued stays queued. */
    method Start()
      modifies this
      ensures Now() == Started.(events := old(events), actions := old(actions)) && sent == old(sent)
    {
      phase := Init;
      lastHello, lastReady := 0, 0;
    }

    method PostEvent(e: Option<Event>)
      modifies this`events
      ensures events == old(events) + if e.Some? then [e.value] else []
    {
      if e.Some? {
        events := events + [e.value];
      }
    }

    method PostAction(a: Action)
      modifies this`actions
      ensures actions == old(actions) + [a]
    {
      actions := actions + [a];
    }

    /** The timer's turn of the bootstrap service. */
    method BootstrapSchedule(now: int) returns (e: Option<Event>)
      requires phase != Running
      modifies this`phase, this`lastHello, this`lastReady
      ensures Now().(events := events + if e.Some? then [e.value] else []) == Scheduled(p, old(Now()), now).state
    {
      if !p.eventFactory {
        return None;
      }
      match phase {
        case Init =>
          phase := WaitServerHello;
          lastHello := now;
          return Some(SendClientHello);
        case WaitServerHello =>
          if now - lastHello >= p.helloInterval {
            lastHello := now;
            return Some(SendClientHello);
          }
          return None;
        case WaitRuntimeStart =>
          if now - lastReady >= p.readyInterval {
            lastReady := now;
            return Some(SendRuntimeReady);
          }
          return None;
        case Ready =>
          phase := Running;
          return None;
        case _ =>
          return None;
      }
    }

    method Schedule(now: int)
      modifies this
      ensures Now() == Next(p, old(Now()), Label.Schedule(now)).state && sent == old(sent)
    {
      if phase != Running {
        var e := BootstrapSchedule(now);
        PostEvent(e);
      }
    }

    method OnServerHello(now: int)
      modifies this
      ensures sent == old(sent)
      ensures Now() == if old(phase) != WaitServerHello then old(Now())
        else old(Now()).(phase := WaitRuntimeStart, lastReady := now, actions := old(actions) + [RuntimeReadyAction])
    {
      if phase != WaitServerHello {
        return;
      }
      phase := WaitRuntimeStart;
      lastReady := now;
      PostAction(RuntimeReadyAction);
    }

    method OnRuntimeStart()
      modifies this
      ensures sent == old(sent)
      ensures Now() == if old(phase) != WaitRuntimeStart then old(Now()) else old(Now()).(phase := Ready)
    {
      if phase != WaitRuntimeStart {
        return;
      }
      phase := Ready;
    }

    /** Dispatch of an event that was just taken from the queue. */
    method HandleEvent(e: Event, now: int)
      modifies this
      ensures Now() == Handshake.HandleEvent(p, old(Now()).(events := [e] + old(events)), now).state
      ensures sent == old(sent)
    {
      if e.OtherEvent? {
        if e.posts.Some? {
          PostAction(OtherAction(e.posts.value));
        }
        return;
      }
      if !p.actionFactory {
        return;
      }
      match e {
        case SendClientHello => PostAction(ClientHelloAction);
        case ReceiveServerHello(message) =>
          if !message {
            return;
          }
          OnServerHello(now);
        case SendRuntimeReady => PostAction(RuntimeReadyAction);
        case ReceiveRuntimeStart(message) =>
          if !message {
            return;
          }
          OnRuntimeStart();
      }
    }

    method HandleAction(a: Action)
      modifies this`sent
      ensures sent == old(sent) + MessagesOf(phase, a)
    {
      match a {
        case ClientHelloAction =>
          if phase != WaitServerHello {
            return;
          }
          sent := sent + [ClientHello];
        case RuntimeReadyAction =>
          if phase != WaitRuntimeStart {
            return;
          }
          sent := sent + [RuntimeReady];
        case OtherAction(_) =>
          return;
      }
    }

    /** One turn of the loop of `execute`. */
    method Turn(now: int)
      requires !Idle(Now())
      modifies this
      ensures Now() == Next(p, old(Now()), Label.Execute(now)).state
      ensures sent == old(sent) + Next(p, old(Now()), Label.Execute(now)).log.sent
      ensures 2 * |events| + |actions| < 2 * |old(events)| + |old(actions)|
    {
      if events != [] {
        var e := events[0];
        assert [e] + events[1..] == events;
        events := events[1..];
        HandleEvent(e, now);
      } else {
        var a := actions[0];
        actions := actions[1..];
        HandleAction(a);
      }
    }

    /** `execute` runs until both queues are empty; the clock shows `clock(i)` in turn `i`. */
    method Execute(clock: nat -> int) returns (turns: nat)
      modifies this
      ensures Idle(Now())
      ensures Now() == Run(p, old(Now()), Turns(clock, turns)).state
      ensures sent == old(sent) + Run(p, old(Now()), Turns(clock, turns)).log.sent
    {
      turns := 0;
      while events != [] || actions != []
        invariant Turned(p, old(Now()), old(sent), clock, turns, Now(), sent)
        decreases 2 * |events| + |actions|
      {
        ghost var before, already := Now(), sent;
        Turn(clock(turns));
        OneTurnMore(p, old(Now()), old(sent), clock, turns, before, already);
        turns := turns + 1;
      }
    }
  }

  ghost predicate Turned(p: Params, s: State, sent: seq<Message>, clock: nat -> int, n: nat, now: State,
                         all: seq<Message>) {
    now == Run(p, s, Turns(clock, n)).state && all == sent + Run(p, s, Turns(clock, n)).log.sent
  }

  lemma OneTurnMore(p: Params, s: State, sent: seq<Message>, clock: nat -> int, n: nat, before: State,
                    all: seq<Message>)
    requires Turned(p, s, sent, clock, n, before, all)
    ensures var o := Next(p, before, Label.Execute(clock(n)));
      Turned(p, s, sent, clock, n + 1, o.state, all + o.log.sent)
  {
    var l := Label.Execute(clock(n));
    RunThenOne(p, s, Turns(clock, n), l);
    assert Turns(clock, n + 1) == Turns(clock, n) + [l];
    SentSoFar(sent, Run(p, s, Turns(clock, n)).log.sent, Next(p, before, l).log.sent);
  }

  lemma SentSoFar(a: seq<Message>, b: seq<Message>, c: seq<Message>)
    ensures a + (b + c) == a + b + c
  {
  }

  function Turns(clock: nat -> int, n: nat): seq<Label> {
    seq(n, i requires 0 <= i < n => Label.Execute(clock(i)))
  }
}
