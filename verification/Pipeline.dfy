/** Two connections back to back: what a stream of messages goes through from one daemon to the other. */
module Pipeline {
  import opened Bytes
  import opened Codec
  import opened Connection
  import opened Framing
  import opened Handler

  datatype Params = Params(txCapacity: nat, rxCapacity: nat, accept: Admission)

  /** `written` are the messages queued whole; `flight` is in the kernel; `log` is what `ingress` handed on. */
  datatype System = System(written: seq<Message>, tx: seq<byte>, flight: seq<byte>, rx: seq<byte>,
                           log: seq<Message>, open: bool)

  const Start := System([], [], [], [], [], true)

  /**
   * `n` counts the bytes that one batch of system calls moved. A receive ends in one of three ways: the kernel has no
   * more, and the ring is drained; the ring is full; or the stream ended or failed. The last two close undrained.
   */
  datatype Step =
    | Egress(m: Message)
    | Flush(n: nat)
    | ReceiveAndDrain(n: nat, delivered: seq<Message>, ok: bool)
    | ReceiveFull(n: nat)
    | ReceiveEnded(n: nat)

  ghost predicate Next(p: Params, s: System, step: Step, s': System) {
    match step
    case Egress(m) =>
      s' == if Fits(m) && |s.tx| + |Frame(m)| <= p.txCapacity
            then s.(written := s.written + [m], tx := s.tx + Frame(m)) else s
    case Flush(n) =>
      n <= |s.tx| && s' == s.(tx := s.tx[n..], flight := s.flight + s.tx[..n])
    case ReceiveAndDrain(n, delivered, ok) =>
      && s.open && n <= |s.flight| && |s.rx| + n < p.rxCapacity
      && s' == s.(flight := s.flight[n..], rx := s'.rx, log := s.log + delivered, open := ok)
      && Drained(s.rx + s.flight[..n], p.accept, s.log, delivered, s'.rx, ok)
    case ReceiveFull(n) =>
      && s.open && n <= |s.flight| && |s.rx| + n == p.rxCapacity
      && s' == s.(flight := s.flight[n..], rx := s.rx + s.flight[..n], open := false)
    case ReceiveEnded(n) =>
      && s.open && n <= |s.flight| && |s.rx| + n < p.rxCapacity
      && s' == s.(flight := s.flight[n..], rx := s.rx + s.flight[..n], open := false)
  }

  ghost predicate Run(p: Params, trace: seq<System>, steps: seq<Step>) {
    && |trace| == |steps| + 1
    && trace[0] == Start
    && forall i :: 0 <= i < |steps| ==> Next(p, trace[i], steps[i], trace[i + 1])
  }

  /** Conservation: delivered, received, in flight and queued bytes are together the bytes written. */
  ghost predicate Conserved(s: System) {
    && AllFit(s.written)
    && AllSendable(s.log)
    && Wire(s.log) + (s.rx + (s.flight + s.tx)) == Wire(s.written)
  }

  ghost predicate Inv(p: Params, s: System) {
    Conserved(s) && (s.open ==> Incomplete(s.rx))
  }

  lemma NextConserves(p: Params, s: System, step: Step, s': System)
    requires Conserved(s) && Next(p, s, step, s')
    ensures Conserved(s')
  {
    match step {
      case Egress(m) =>
        if s' != s {
          WireAppend(s.written, m);
          Extend(Wire(s.log), s.rx, s.flight, s.tx, Frame(m));
        }
      case Flush(n) =>
        assert s'.flight + s'.tx == s.flight + s.tx;
      case ReceiveAndDrain(n, delivered, ok) =>
        Requeue(s, n);
        WireConcat(s.log, delivered);
        Regroup(Wire(s.log), Wire(delivered), s'.rx, s'.flight + s'.tx);
      case ReceiveFull(n) =>
        Requeue(s, n);
      case ReceiveEnded(n) =>
        Requeue(s, n);
    }
  }

  lemma Extend(a: seq<byte>, b: seq<byte>, c: seq<byte>, d: seq<byte>, e: seq<byte>)
    ensures a + (b + (c + (d + e))) == (a + (b + (c + d))) + e
  {
  }

  lemma Requeue(s: System, n: nat)
    requires n <= |s.flight|
    ensures s.rx + (s.flight + s.tx) == (s.rx + s.flight[..n]) + (s.flight[n..] + s.tx)
  {
  }

  lemma Regroup(a: seq<byte>, b: seq<byte>, c: seq<byte>, d: seq<byte>)
    ensures a + ((b + c) + d) == (a + b) + (c + d)
  {
  }

  lemma {:induction false} RunKeepsInv(p: Params, trace: seq<System>, steps: seq<Step>, i: nat)
    requires Run(p, trace, steps) && i < |trace|
    ensures Inv(p, trace[i])
  {
    if i > 0 {
      RunKeepsInv(p, trace, steps, i - 1);
      assert Next(p, trace[i - 1], steps[i - 1], trace[i]);
      NextConserves(p, trace[i - 1], steps[i - 1], trace[i]);
    }
  }

  /** In every run, at every moment, the messages delivered are a prefix of the messages written. */
  lemma DeliveryIsAPrefix(p: Params, trace: seq<System>, steps: seq<Step>, i: nat)
    requires Run(p, trace, steps) && i < |trace|
    ensures trace[i].log <= trace[i].written
    ensures trace[i].rx + (trace[i].flight + trace[i].tx) == Wire(trace[i].written[|trace[i].log|..])
  {
    RunKeepsInv(p, trace, steps, i);
    UniquelyDecodable(trace[i].log, trace[i].rx + (trace[i].flight + trace[i].tx), trace[i].written);
  }

  /** Once the sender's ring and the kernel are empty, an open receiver has delivered everything it was sent. */
  lemma NothingIsHeldBack(p: Params, trace: seq<System>, steps: seq<Step>, i: nat)
    requires Run(p, trace, steps) && i < |trace|
    requires trace[i].open && trace[i].tx == [] && trace[i].flight == []
    requires AllSendable(trace[i].written)
    ensures trace[i].log == trace[i].written && trace[i].rx == []
  {
    var s := trace[i];
    RunKeepsInv(p, trace, steps, i);
    DeliveryIsAPrefix(p, trace, steps, i);
    var left := s.written[|s.log|..];
    assert s.rx == s.rx + (s.flight + s.tx) == Wire(left);
    if left != [] {
      SplitFirst(left, []);
      assert s.rx == Frame(left[0]) + (Wire(left[1..]) + []);
      FrameInFront(left[0], Wire(left[1..]) + []);
      assert false;
    }
  }

  /** An open receiver can always take another byte: a drain never leaves its ring full. */
  lemma ReceiverNeverJams(p: Params, trace: seq<System>, steps: seq<Step>, i: nat)
    requires Run(p, trace, steps) && i < |trace| && MAX_FRAME_SIZE <= p.rxCapacity
    requires trace[i].open
    ensures |trace[i].rx| < p.rxCapacity
  {
    RunKeepsInv(p, trace, steps, i);
    LeftoverIsShort(trace[i].rx);
  }

  /** Any cut of a stream of sendable frames is never taken for a broken header. */
  lemma CutsAreNotHopeless(rest: seq<byte>, more: seq<byte>, ms: seq<Message>)
    requires AllSendable(ms) && rest + more == Wire(ms)
    ensures !Hopeless(rest)
  {
    if HEADER_LEN <= |rest| {
      assert ms != [];
      SplitFirst(ms, []);
      assert rest + more == Frame(ms[0]) + (Wire(ms[1..]) + []);
      assert rest[..HEADER_LEN] == (rest + more)[..HEADER_LEN] == HeaderBytes(ms[0]);
      assert HeaderBytes(ms[0]) <= rest;
    }
  }

  /** A receiver that turns nothing down, fed current-version messages, is never closed by draining. */
  lemma FramingNeverFails(p: Params, trace: seq<System>, steps: seq<Step>, i: nat)
    requires Run(p, trace, steps) && i < |steps|
    requires AllSendable(trace[i].written) && (forall log, m :: p.accept(log, m))
    ensures steps[i].ReceiveAndDrain? ==> steps[i].ok
  {
    var s, s' := trace[i], trace[i + 1];
    if steps[i].ReceiveAndDrain? && !steps[i].ok {
      assert Next(p, s, steps[i], s');
      DeliveryIsAPrefix(p, trace, steps, i + 1);
      CutsAreNotHopeless(s'.rx, s'.flight + s'.tx, s'.written[|s'.log|..]);
      assert false;
    }
  }

  /** One receive that nothing but the ring can end early: it drains or finds the ring full. */
  predicate OnlyDelivers(step: Step) {
    step.ReceiveAndDrain? || step.ReceiveFull?
  }

  /**
   * With a kernel that only delivers, a receive hands on every complete frame that is admitted if and only if what has
   * arrived leaves the ring at least one free byte: the full ring, and nothing else, loses frames.
   */
  lemma DeliveredUnlessFull(p: Params, trace: seq<System>, steps: seq<Step>, i: nat, ms: seq<Message>,
                            partial: seq<byte>)
    requires Run(p, trace, steps) && i < |steps| && OnlyDelivers(steps[i]) && MAX_FRAME_SIZE <= p.rxCapacity
    requires steps[i].n <= |trace[i].flight| && trace[i].rx + trace[i].flight[..steps[i].n] == Wire(ms) + partial
    requires AllSendable(ms) && Taken(p.accept, trace[i].log, ms) && Incomplete(partial)
    ensures trace[i + 1].log == trace[i].log + ms <==> |trace[i].rx| + steps[i].n < p.rxCapacity
    ensures trace[i + 1].open <==> |trace[i].rx| + steps[i].n < p.rxCapacity
  {
    var s, s' := trace[i], trace[i + 1];
    assert Next(p, s, steps[i], s');
    if steps[i].ReceiveAndDrain? {
      DrainDeliversEverything(ms, partial, p.accept, s.log, steps[i].delivered, s'.rx, steps[i].ok);
    } else {
      LeftoverIsShort(partial);
      assert ms != [];
      assert |s.log + ms| > |s.log|;
    }
  }

  /**
   * Delivery at close is not promised: a legal frame as large as the ring, received in one burst, fills the ring,
   * and the connection is closed with the frame undelivered.
   */
  lemma LegalFrameLostAtFullRing(accept: Admission)
    returns (p: Params, m: Message, trace: seq<System>, steps: seq<Step>)
    ensures p.txCapacity == p.rxCapacity == MAX_FRAME_SIZE && Sendable(m)
    ensures Run(p, trace, steps) && |steps| == 3 && steps[2] == ReceiveFull(MAX_FRAME_SIZE)
    ensures trace[3].written == [m] && trace[3].rx == Frame(m)
    ensures !trace[3].open && trace[3].log == []
  {
    p := Params(MAX_FRAME_SIZE, MAX_FRAME_SIZE, accept);
    m := Message(PROTOCOL_VERSION, 0, 0, 0, 0, 0, seq(MAX_FRAME_SIZE - HEADER_LEN, _ => 0));
    var f := Frame(m);
    var s1 := Start.(written := [m], tx := f);
    var s2 := s1.(tx := [], flight := f);
    var s3 := s2.(flight := [], rx := f, open := false);
    assert [] + f == f && [] + [m] == [m];
    trace, steps := [Start, s1, s2, s3], [Egress(m), Flush(|f|), ReceiveFull(|f|)];
    assert Next(p, Start, steps[0], s1);
    assert f[..|f|] == f && f[|f|..] == [];
    assert Next(p, s1, steps[1], s2);
    assert Next(p, s2, steps[2], s3);
  }

  /** The objects themselves: every operation on them is a step of the machine above. */
  class Link {
    const sender: IpcConnection
    const receiver: IpcConnection
    const handler: IpcHandler
    ghost var written: seq<Message>
    var flight: seq<byte>
    var open: bool

    ghost predicate Valid()
      reads this, sender, sender.rx, sender.tx, receiver, receiver.rx, receiver.tx
    {
      && sender.Valid() && receiver.Valid()
      && {sender.rx, sender.tx} !! {receiver.rx, receiver.tx}
      && {sender.rx.buffer, sender.tx.buffer} !! {receiver.rx.buffer, receiver.tx.buffer}
    }

    ghost function Parameters(): Params {
      Params(sender.tx.buffer.Length, receiver.rx.buffer.Length, handler.accept)
    }

    ghost function Abs(): System
      requires Valid()
      reads this, handler, sender, sender.rx, sender.tx, sender.tx.buffer
      reads receiver, receiver.rx, receiver.tx, receiver.rx.buffer
    {
      System(written, sender.Tx(), flight, receiver.Rx(), handler.log, open)
    }

    constructor (host: Host, accept: Admission, rxBuf: nat, txBuf: nat)
      ensures Valid() && Abs() == Start
    {
      sender := new IpcConnection(rxBuf, txBuf);
      receiver := new IpcConnection(rxBuf, txBuf);
      handler := new IpcHandler(host, accept);
      written, flight, open := [], [], true;
    }

    method Egress(host: Host, m: Message)
      requires Valid()
      modifies this`written, sender.tx, sender.tx.buffer
      ensures Valid() && Next(Parameters(), old(Abs()), Step.Egress(m), Abs())
    {
      var frame := Encode(host, Some(m));
      if frame.Length == 0 {
        return;
      }
      var queued := sender.Write(frame[..]);
      if queued {
        written := written + [m];
      }
    }

    method Flush(script: seq<Kernel>) returns (rc: IoResult, ghost n: nat)
      requires Valid()
      modifies this`flight, sender.tx
      ensures Valid() && Next(Parameters(), old(Abs()), Step.Flush(n), Abs())
    {
      var sent;
      ghost var queued := sender.Tx();
      rc, sent := sender.Send(script);
      n := |sent|;
      assert queued[..n] == sent && queued[n..] == sender.Tx();
      flight := flight + sent;
    }

    /** The first `arrived` bytes in flight have reached the receiving socket. */
    method Receive(arrived: nat, script: seq<Kernel>) returns (ghost step: Step)
      requires Valid() && open && arrived <= |flight|
      modifies this`flight, this`open, receiver.rx, receiver.rx.buffer, handler
      ensures Valid() && Next(Parameters(), old(Abs()), step, Abs())
      ensures step.ReceiveAndDrain? || step.ReceiveFull? || step.ReceiveEnded?
      ensures step.ReceiveAndDrain? ==> step.n == arrived
      ensures Delivering(script) ==>
        OnlyDelivers(step) && (step.ReceiveAndDrain? <==> old(|receiver.Rx()|) + arrived < receiver.rx.buffer.Length)
    {
      var ok, left, rc;
      ghost var delivered;
      ghost var s := Abs();
      ok, left, rc, delivered := handler.HandleRecv(receiver, flight[..arrived], script);
      step := ReceiveStep(arrived, left, rc, delivered, ok);
      flight := left + flight[arrived..];
      open := ok;
      ReceiveIsNext(Parameters(), s, Abs(), arrived, left, rc, delivered, ok);
    }
  }

  ghost function ReceiveStep(arrived: nat, left: seq<byte>, rc: IoResult, delivered: seq<Message>, ok: bool): Step
    requires |left| <= arrived
  {
    if rc == WouldBlock then ReceiveAndDrain(arrived - |left|, delivered, ok)
    else if rc == BufferFull then ReceiveFull(arrived - |left|)
    else ReceiveEnded(arrived - |left|)
  }

  lemma ReceiveIsNext(p: Params, s: System, s': System, arrived: nat, left: seq<byte>, rc: IoResult,
                      delivered: seq<Message>, ok: bool)
    requires s.open && |left| <= arrived <= |s.flight|
    requires left == s.flight[..arrived][arrived - |left|..]
    requires var n := arrived - |left|;
      && |s.rx| + n <= p.rxCapacity && (rc == BufferFull <==> |s.rx| + n == p.rxCapacity)
      && var bytes := s.rx + s.flight[..arrived][..n];
         if rc == WouldBlock then Drained(bytes, p.accept, s.log, delivered, s'.rx, ok)
         else !ok && delivered == [] && s'.rx == bytes
    requires s' == s.(flight := left + s.flight[arrived..], rx := s'.rx, log := s.log + delivered, open := ok)
    ensures Next(p, s, ReceiveStep(arrived, left, rc, delivered, ok), s')
  {
    var n := arrived - |left|;
    assert s.flight[..arrived][..n] == s.flight[..n];
    assert left + s.flight[arrived..] == s.flight[n..];
  }
}
