/** From the bytes on one connection to the queues of the others (ipcd/ipc/IpcServerHandler.cpp over shared/ipc). */
module BrokerStream {
  import opened Bytes
  import opened Codec
  import opened Framing
  import opened BrokerState
  import opened BrokerInvariants
  import opened BrokerRuns

  /** The state after the frames of `ms` have come in on `fd`, one after the other. */
  function IngressAll(p: Params, s: State, fd: int, ms: seq<Message>): State
    decreases |ms|
  {
    if ms == [] then s else IngressAll(p, Ingress(p, s, fd, Frame(ms[0])).0, fd, ms[1..])
  }

  /** What `ingress` answers beyond decoding: whether the source may be bound here, after all that came before. */
  ghost function Binding(p: Params, s: State, fd: int, log0: seq<Message>): Admission {
    (log: seq<Message>, m: Message) => |log0| <= |log| && Bind(IngressAll(p, s, fd, log[|log0|..]), m.src, fd).1
  }

  function Frames(ms: seq<Message>): seq<seq<byte>> {
    seq(|ms|, i requires 0 <= i < |ms| => Frame(ms[i]))
  }

  function InputsOf(fd: int, ms: seq<Message>): seq<Input> {
    seq(|ms|, i requires 0 <= i < |ms| => Input(fd, Frame(ms[i]), ms[i]))
  }

  /** A drain of `bytes` on `fd`, and the frames and the result it amounts to: false only for a broken header. */
  ghost predicate CutAs(p: Params, s: State, fd: int, bytes: seq<byte>, log0: seq<Message>, delivered: seq<Message>,
                        rest: seq<byte>, ok: bool, frames: seq<seq<byte>>, sound: bool) {
    && Drained(bytes, Binding(p, s, fd, log0), log0, delivered, rest, ok)
    && (sound <==> !(!ok && Hopeless(rest)))
    && (if ok || Hopeless(rest) then frames == Frames(delivered)
        else exists m :: RefusedNext(p, s, fd, log0, delivered, rest, m) && frames == Frames(delivered) + [Frame(m)])
  }

  ghost predicate RefusedNext(p: Params, s: State, fd: int, log0: seq<Message>, delivered: seq<Message>,
                              rest: seq<byte>, m: Message) {
    Sendable(m) && Frame(m) <= rest && !Binding(p, s, fd, log0)(log0 + delivered, m)
  }

  /** Every drain amounts to some frames. */
  lemma EveryDrainIsCut(p: Params, s: State, fd: int, bytes: seq<byte>, log0: seq<Message>, delivered: seq<Message>,
                        rest: seq<byte>, ok: bool)
    requires Drained(bytes, Binding(p, s, fd, log0), log0, delivered, rest, ok)
    ensures exists frames, sound :: CutAs(p, s, fd, bytes, log0, delivered, rest, ok, frames, sound)
  {
    if ok || Hopeless(rest) {
      assert CutAs(p, s, fd, bytes, log0, delivered, rest, ok, Frames(delivered), !(!ok && Hopeless(rest)));
    } else {
      var m :| Sendable(m) && Frame(m) <= rest && !Binding(p, s, fd, log0)(log0 + delivered, m);
      assert RefusedNext(p, s, fd, log0, delivered, rest, m);
      assert CutAs(p, s, fd, bytes, log0, delivered, rest, ok, Frames(delivered) + [Frame(m)], true);
    }
  }

  /** Each message of `ms` may be bound when its turn comes. */
  ghost predicate EachBinds(p: Params, s: State, fd: int, ms: seq<Message>) {
    forall i :: 0 <= i < |ms| ==> Bind(IngressAll(p, s, fd, ms[..i]), ms[i].src, fd).1
  }

  lemma TakenBinds(p: Params, s: State, fd: int, log0: seq<Message>, ms: seq<Message>)
    requires Taken(Binding(p, s, fd, log0), log0, ms)
    ensures EachBinds(p, s, fd, ms)
  {
    forall i | 0 <= i < |ms| ensures Bind(IngressAll(p, s, fd, ms[..i]), ms[i].src, fd).1 {
      assert Binding(p, s, fd, log0)(log0 + ms[..i], ms[i]);
      assert (log0 + ms[..i])[|log0|..] == ms[..i];
    }
  }

  lemma FirstBinds(p: Params, s: State, fd: int, ms: seq<Message>)
    requires ms != [] && EachBinds(p, s, fd, ms)
    ensures Bind(s, ms[0].src, fd).1
    ensures EachBinds(p, Ingress(p, s, fd, Frame(ms[0])).0, fd, ms[1..])
  {
    assert ms[..0] == [];
    assert Bind(IngressAll(p, s, fd, ms[..0]), ms[0].src, fd).1;
    var s1 := Ingress(p, s, fd, Frame(ms[0])).0;
    forall i | 0 <= i < |ms[1..]| ensures Bind(IngressAll(p, s1, fd, ms[1..][..i]), ms[1..][i].src, fd).1 {
      assert Bind(IngressAll(p, s, fd, ms[..i + 1]), ms[i + 1].src, fd).1;
      assert ms[..i + 1][1..] == ms[1..][..i];
    }
  }

  /** Messages that bind are all taken, recorded in order, and leave what follows to be received. */
  lemma {:induction false} AllTaken(p: Params, s: State, fd: int, ms: seq<Message>, tail: seq<seq<byte>>, ok: bool)
    requires Inv(p, s) && fd in s.conns && AllSendable(ms) && EachBinds(p, s, fd, ms)
    ensures var end := IngressAll(p, s, fd, ms);
      && Inv(p, end) && fd in end.conns && end.inputs == s.inputs + InputsOf(fd, ms)
      && Receive(p, s, fd, Frames(ms) + tail, ok) == Receive(p, end, fd, tail, ok)
    decreases |ms|
  {
    if ms == [] {
      NoFrames(s.inputs, tail, fd);
    } else {
      var s1 := Ingress(p, s, fd, Frame(ms[0])).0;
      FirstBinds(p, s, fd, ms);
      FirstTaken(p, s, fd, ms[0], s1);
      AllTaken(p, s1, fd, ms[1..], tail, ok);
      FirstFrame(s.inputs, ms, ms[0], ms[1..], tail, fd);
      ReceiveFirst(p, s, fd, Frame(ms[0]), Frames(ms[1..]) + tail, ok, s1);
    }
  }

  lemma NoFrames(inputs: seq<Input>, tail: seq<seq<byte>>, fd: int)
    ensures Frames([]) + tail == tail && inputs + InputsOf(fd, []) == inputs
  {
  }

  lemma FirstFrame(inputs: seq<Input>, ms: seq<Message>, m: Message, rest: seq<Message>, tail: seq<seq<byte>>, fd: int)
    requires ms != [] && m == ms[0] && rest == ms[1..]
    ensures Frames(ms) + tail == [Frame(m)] + (Frames(rest) + tail)
    ensures inputs + [Input(fd, Frame(m), m)] + InputsOf(fd, rest) == inputs + InputsOf(fd, ms)
  {
    assert ms == [m] + rest;
    AsOne(m, rest, tail);
    assert InputsOf(fd, ms) == [Input(fd, Frame(m), m)] + InputsOf(fd, rest);
  }

  lemma AsOne(m: Message, rest: seq<Message>, tail: seq<seq<byte>>)
    ensures Frames([m] + rest) + tail == [Frame(m)] + (Frames(rest) + tail)
  {
    assert Frames([m] + rest) == [Frame(m)] + Frames(rest);
  }

  lemma FirstTaken(p: Params, s: State, fd: int, m: Message, s1: State)
    requires Inv(p, s) && fd in s.conns && Sendable(m) && Bind(s, m.src, fd).1 && s1 == Ingress(p, s, fd, Frame(m)).0
    ensures Ingress(p, s, fd, Frame(m)).1 && Inv(p, s1) && fd in s1.conns
    ensures s1.inputs == s.inputs + [Input(fd, Frame(m), m)]
  {
    TakesFrame(p, s, fd, m);
    IngressKeepsInv(p, s, fd, Frame(m));
    IngressRecords(p, s, fd, Frame(m));
    DecodeIsInverse(p.host, Frame(m), m);
  }

  lemma ReceiveFirst(p: Params, s: State, fd: int, frame: seq<byte>, rest: seq<seq<byte>>, ok: bool, s1: State)
    requires fd in s.conns && Ingress(p, s, fd, frame) == (s1, true)
    ensures Receive(p, s, fd, [frame] + rest, ok) == Receive(p, s1, fd, rest, ok)
  {
    assert ([frame] + rest)[1..] == rest;
  }

  /**
   * Draining the bytes of a connection, with the binding answer from the current route table as admission, is receiving
   * the frames it cuts: the delivered messages are recorded in order, and the connection stays open exactly if the
   * drain went well.
   */
  lemma DrainIsReceive(p: Params, s: State, fd: int, bytes: seq<byte>, log0: seq<Message>, delivered: seq<Message>,
                       rest: seq<byte>, ok: bool, frames: seq<seq<byte>>, sound: bool)
    requires Inv(p, s) && fd in s.conns
    requires CutAs(p, s, fd, bytes, log0, delivered, rest, ok, frames, sound)
    ensures var end := IngressAll(p, s, fd, delivered);
      && bytes == Wire(delivered) + rest && end.inputs == s.inputs + InputsOf(fd, delivered)
      && Receive(p, s, fd, frames, sound) == if ok then end else Close(end, fd)
  {
    var end := IngressAll(p, s, fd, delivered);
    TakenBinds(p, s, fd, log0, delivered);
    if ok || Hopeless(rest) {
      AllTaken(p, s, fd, delivered, [], sound);
      assert Frames(delivered) + [] == frames;
    } else {
      var m :| RefusedNext(p, s, fd, log0, delivered, rest, m) && frames == Frames(delivered) + [Frame(m)];
      AllTaken(p, s, fd, delivered, [Frame(m)], sound);
      assert (log0 + delivered)[|log0|..] == delivered;
      NotTaken(p, end, fd, m, sound);
    }
  }

  /** A drain that ends in a broken header or a refused message ends the connection, after what it delivered. */
  lemma FailedDrainVanishes(p: Params, s: State, fd: int, bytes: seq<byte>, log0: seq<Message>, delivered: seq<Message>,
                            rest: seq<byte>, frames: seq<seq<byte>>, sound: bool)
    requires Inv(p, s) && fd in s.conns
    requires CutAs(p, s, fd, bytes, log0, delivered, rest, false, frames, sound)
    ensures Vanished(IngressAll(p, s, fd, delivered), Receive(p, s, fd, frames, sound), fd)
  {
    DrainIsReceive(p, s, fd, bytes, log0, delivered, rest, false, frames, sound);
    CloseVanishes(IngressAll(p, s, fd, delivered), fd, Receive(p, s, fd, frames, sound));
  }

  lemma NotTaken(p: Params, s: State, fd: int, m: Message, ok: bool)
    requires fd in s.conns && Sendable(m) && !Bind(s, m.src, fd).1
    ensures Receive(p, s, fd, [Frame(m)], ok) == Close(s, fd)
  {
    TakesFrame(p, s, fd, m);
  }

  /**
   * Forwarding is transparent from the bytes on one connection to the queues of the others: in any run, what receiving
   * those bytes queues anywhere is, byte for byte, one of the frames that they begin with.
   */
  lemma BytesAreForwarded(p: Params, events: seq<Event>, fd: int, bytes: seq<byte>, log0: seq<Message>,
                          delivered: seq<Message>, rest: seq<byte>, ok: bool, frames: seq<seq<byte>>, sound: bool,
                          x: int, i: nat)
    requires fd in Run(p, events).conns
    requires CutAs(p, Run(p, events), fd, bytes, log0, delivered, rest, ok, frames, sound)
    requires var s' := Run(p, events + [Received(fd, frames, sound)]);
      && x in s'.conns && i < |s'.conns[x].frames| && s'.conns[x].frames[i].origin.Some?
      && s'.conns[x].frames[i].origin.value >= |Run(p, events).inputs|
    ensures var q := Run(p, events + [Received(fd, frames, sound)]).conns[x].frames[i];
      var k := q.origin.value - |Run(p, events).inputs|;
      k < |delivered| && q.frame == Frame(delivered[k]) && bytes == Wire(delivered) + rest
  {
    RunKeepsInv(p, events);
    RunSnoc(p, events, Received(fd, frames, sound));
    DrainIsReceive(p, Run(p, events), fd, bytes, log0, delivered, rest, ok, frames, sound);
    ForwardedIsItsInput(p, events + [Received(fd, frames, sound)], x, i);
  }
}
