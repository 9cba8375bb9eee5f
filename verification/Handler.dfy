/** Frame extraction and flushing for one connection (shared/ipc/IpcHandler.cpp, IpcClientHandler.cpp). */
module Handler {
  import opened Bytes
  import opened Codec
  import opened RingBuffer
  import opened Connection
  import opened Framing

  /** The registered descriptors, each with whether EPOLLOUT is in its interest set. */
  class Epoll {
    var interest: map<int, bool>

    constructor ()
      ensures interest == map[]
    {
      interest := map[];
    }

    method Add(fd: int, out: bool) returns (ok: bool)
      modifies this
      ensures ok <==> fd !in old(interest)
      ensures interest == if ok then old(interest)[fd := out] else old(interest)
    {
      ok := fd !in interest;
      if ok {
        interest := interest[fd := out];
      }
    }

    /** Fails on a descriptor that is not registered, and only then. */
    method Mod(fd: int, out: bool) returns (ok: bool)
      modifies this
      ensures ok <==> fd in old(interest)
      ensures interest == if ok then old(interest)[fd := out] else old(interest)
    {
      ok := fd in interest;
      if ok {
        interest := interest[fd := out];
      }
    }

    method Del(fd: int)
      modifies this
      ensures interest == old(interest) - {fd}
    {
      interest := interest - {fd};
    }
  }

  /** How one turn of the drain loop ends: the two stops return true and false. */
  datatype Turn = Continue | StopOk | StopClose

  class IpcHandler {
    const host: Host
    /** Whether `ingress`, beyond decoding, takes a message: route validation on the server, always on a client. */
    const accept: Admission
    /** What `ingress` has handed to the router. */
    var log: seq<Message>

    constructor (host: Host, accept: Admission)
      ensures this.host == host && this.accept == accept && log == []
    {
      this.host, this.accept, log := host, accept, [];
    }

    method Ingress(frame: Option<seq<byte>>) returns (ok: bool)
      modifies this
      ensures ok <==> frame.Some? && Decode(host, frame).DecodeOk? && accept(old(log), Decode(host, frame).msg)
      ensures log == if ok then old(log) + [Decode(host, frame).msg] else old(log)
    {
      if frame.None? || frame.value == [] {
        return false;
      }
      var rc := Decode(host, frame);
      if !rc.DecodeOk? || !accept(log, rc.msg) {
        return false;
      }
      log := log + [rc.msg];
      ok := true;
    }

    /**
     * The drain loop: it ends on the first turn that delivers nothing. `defensive` would be set by the branches that
     * guard against a short peek, an unfinished header and an impossible size, and by a whole frame that does not
     * decode.
     */
    method DrainRxFrames(rx: ByteRingBuffer) returns (ok: bool, ghost delivered: seq<Message>, ghost defensive: bool)
      requires rx.Valid()
      modifies rx`head, rx`size, this
      ensures rx.Valid()
      ensures log == old(log) + delivered
      ensures Drained(old(rx.Contents()), accept, old(log), delivered, rx.Contents(), ok)
      ensures ok ==> |rx.Contents()| < MAX_FRAME_SIZE
      ensures !defensive
    {
      delivered, defensive := [], false;
      ghost var bytes, log0 := rx.Contents(), log;
      assert bytes == Wire([]) + bytes;
      while true
        invariant rx.Valid() && !defensive
        invariant log == log0 + delivered
        invariant Cut(bytes, accept, log0, delivered, rx.Contents())
        decreases rx.Readable()
      {
        ghost var rest := rx.Contents();
        var turn;
        ghost var m;
        turn, m, defensive := DrainTurn(rx);
        if turn != Continue {
          return turn == StopOk, delivered, defensive;
        }
        Delivered(bytes, log0, delivered, m, rest, rx.Contents());
        delivered := delivered + [m];
      }
    }

    /** One turn of the loop: delivers and consumes the frame in front, or says why there is none to deliver. */
    method DrainTurn(rx: ByteRingBuffer) returns (turn: Turn, ghost m: Message, ghost defensive: bool)
      requires rx.Valid()
      modifies rx`head, rx`size, this
      ensures rx.Valid() && !defensive
      ensures turn == Continue ==>
        && Sendable(m) && accept(old(log), m) && old(rx.Contents()) == Frame(m) + rx.Contents()
        && rx.size < old(rx.size) && log == old(log) + [m]
      ensures turn != Continue ==> rx.Contents() == old(rx.Contents()) && log == old(log)
      ensures turn == StopOk ==> Incomplete(rx.Contents())
      ensures turn == StopClose ==> Hopeless(rx.Contents()) || Refused(accept, log, rx.Contents())
    {
      m, defensive := Message(0, 0, 0, 0, 0, 0, []), false;
      if rx.Readable() < HEADER_LEN {
        return StopOk, m, defensive;
      }
      var headed, header := FetchHeader(rx);
      if !headed {
        assert false;
        return StopOk, m, true;
      }
      PeekVerdict(host, rx.Contents());
      match PeekFrameSize(host, Some(header)) {
        case PeekNeedMoreData =>
          assert false;
          return StopOk, m, true;
        case PeekInvalidFrame =>
          return StopClose, m, defensive;
        case PeekOk(frameSize) =>
          if frameSize == 0 || frameSize > MAX_FRAME_SIZE {
            assert false;
            return StopClose, m, true;
          }
          if rx.Readable() < frameSize {
            return StopOk, m, defensive;
          }
          var taken;
          taken, m, defensive := TakeFrame(rx, frameSize);
          turn := if taken then Continue else StopClose;
      }
    }

    /** Hands the whole frame in front to `ingress` and, if it is taken, consumes it. */
    method TakeFrame(rx: ByteRingBuffer, frameSize: nat) returns (taken: bool, ghost m: Message, ghost defensive: bool)
      requires rx.Valid() && HEADER_LEN <= frameSize <= rx.size
      requires PeekFrameSize(host, Some(rx.Contents()[..HEADER_LEN])) == PeekOk(frameSize)
      modifies rx`head, rx`size, this
      ensures rx.Valid() && !defensive && Sendable(m)
      ensures taken ==>
        && accept(old(log), m) && old(rx.Contents()) == Frame(m) + rx.Contents()
        && rx.size < old(rx.size) && log == old(log) + [m]
      ensures !taken ==> rx.Contents() == old(rx.Contents()) && log == old(log) && Refused(accept, log, rx.Contents())
    {
      ghost var rest := rx.Contents();
      FrameCut(host, rest, frameSize);
      m, defensive := Decode(host, Some(rest[..frameSize])).msg, false;
      var whole, frame := FetchFrame(rx, frameSize);
      if !whole {
        assert false;
        return false, m, true;
      }
      defensive := !Decode(host, Some(frame)).DecodeOk?;
      taken := Ingress(Some(frame));
      if taken {
        rx.Consume(frameSize);
        assert rest == rest[..frameSize] + rest[frameSize..];
      } else {
        assert Frame(m) <= rest;
      }
    }

    /** A copy of the next header. */
    static method FetchHeader(rx: ByteRingBuffer) returns (whole: bool, header: seq<byte>)
      requires rx.Valid() && HEADER_LEN <= rx.size
      ensures whole && header == rx.Contents()[..HEADER_LEN]
    {
      var headerBuf := new byte[HEADER_LEN](_ => 0);
      var got := rx.Peek(headerBuf, HEADER_LEN);
      if got < HEADER_LEN {
        assert false;
        return false, [];
      }
      return true, headerBuf[..];
    }

    /** The next frame: in place when it is contiguous, otherwise copied out of both ends of the ring. */
    static method FetchFrame(rx: ByteRingBuffer, frameSize: nat) returns (whole: bool, frame: seq<byte>)
      requires rx.Valid() && frameSize <= rx.size
      ensures whole && frame == rx.Contents()[..frameSize]
    {
      if rx.ReadLen() >= frameSize {
        frame := rx.buffer[rx.head..rx.head + frameSize];
        rx.FirstRun(frameSize);
        return true, frame;
      }
      var frameBuf := new byte[frameSize](_ => 0);
      var got := rx.Peek(frameBuf, frameSize);
      if got < frameSize {
        assert false;
        return false, [];
      }
      return true, frameBuf[..];
    }

    /** What the peeked header says about the bytes it heads. */
    static lemma PeekVerdict(host: Host, rest: seq<byte>)
      requires HEADER_LEN <= |rest|
      ensures var peek := PeekFrameSize(host, Some(rest[..HEADER_LEN]));
        && !peek.PeekNeedMoreData?
        && (peek.PeekInvalidFrame? ==> Hopeless(rest))
        && (peek.PeekOk? ==> HEADER_LEN <= peek.frameSize <= MAX_FRAME_SIZE)
        && (peek.PeekOk? && |rest| < peek.frameSize ==> Incomplete(rest))
    {
      var header := rest[..HEADER_LEN];
      var peek := PeekFrameSize(host, Some(header));
      PeekReads(host, header);
      if peek.PeekInvalidFrame? {
        forall m | Sendable(m) && HeaderBytes(m) <= rest
          ensures false
        {
          assert HeaderBytes(m) == header;
          PeekAnnouncesFrame(host, m);
        }
      } else {
        var payload := seq(peek.frameSize - HEADER_LEN, _ => 0);
        PeekedHeaderStartsAFrame(host, header, payload);
        var m := Announced(ReadHeader(header), payload);
        assert Frame(m)[..HEADER_LEN] == header == HeaderBytes(m);
      }
    }

    /** A peeked frame, once all there, decodes; it is the frame of the message it decodes to. */
    static lemma FrameCut(host: Host, rest: seq<byte>, n: nat)
      requires HEADER_LEN <= n <= |rest| && PeekFrameSize(host, Some(rest[..HEADER_LEN])) == PeekOk(n)
      ensures Decode(host, Some(rest[..n])).DecodeOk?
      ensures var m := Decode(host, Some(rest[..n])).msg; Sendable(m) && Frame(m) == rest[..n]
    {
      PeekIsExact(host, rest, n);
      DecodeIsInverse(host, rest[..n], Decode(host, Some(rest[..n])).msg);
    }

    lemma Delivered(bytes: seq<byte>, log0: seq<Message>, delivered: seq<Message>, m: Message, rest: seq<byte>,
                    rest': seq<byte>)
      requires Cut(bytes, accept, log0, delivered, rest) && rest == Frame(m) + rest'
      requires Sendable(m) && accept(log0 + delivered, m)
      ensures Cut(bytes, accept, log0, delivered + [m], rest')
    {
      WireAppend(delivered, m);
      Assoc(Wire(delivered), Frame(m), rest');
      forall i | 0 <= i < |delivered + [m]|
        ensures accept(log0 + (delivered + [m])[..i], (delivered + [m])[i])
      {
        assert (delivered + [m])[..i] == delivered[..i];
      }
    }

    /** Reads what has arrived, then drains. A full ring, a closed peer or an error closes without draining. */
    method HandleRecv(conn: IpcConnection, arrived: seq<byte>, script: seq<Kernel>)
      returns (ok: bool, left: seq<byte>, rc: IoResult, ghost delivered: seq<Message>)
      requires conn.Valid()
      modifies conn.rx, conn.rx.buffer, this
      ensures conn.Valid() && log == old(log) + delivered
      ensures |left| <= |arrived| && left == arrived[|arrived| - |left|..]
      ensures var bytes := old(conn.Rx()) + arrived[..|arrived| - |left|];
        if rc == WouldBlock then Drained(bytes, accept, old(log), delivered, conn.Rx(), ok)
        else !ok && delivered == [] && conn.Rx() == bytes
      ensures var n := old(|conn.Rx()|) + |arrived| - |left|;
        n <= conn.rx.buffer.Length && (rc == BufferFull <==> n == conn.rx.buffer.Length)
      ensures (rc, |arrived| - |left|) == old(conn.Receiving(script, |arrived|))
      ensures rc == WouldBlock ==> left == []
      ensures ok ==> rc == WouldBlock && |conn.Rx()| < MAX_FRAME_SIZE
      ensures Delivering(script) ==>
        rc == if old(|conn.Rx()|) + |arrived| < conn.rx.buffer.Length then WouldBlock else BufferFull
    {
      delivered := [];
      rc, left := conn.Recv(arrived, script);
      ghost var defensive;
      match rc {
        case WouldBlock =>
          ok, delivered, defensive := DrainRxFrames(conn.rx);
        case _ =>
          ok := false;
      }
    }

    /** Flushes and re-arms: EPOLLOUT stays in the interest set exactly while bytes are queued. */
    method HandleSend(fd: int, conn: IpcConnection, epoll: Epoll, script: seq<Kernel>)
      returns (ok: bool, sent: seq<byte>)
      requires conn.Valid() && fd in epoll.interest
      modifies conn.tx`head, conn.tx`size, epoll
      ensures conn.Valid()
      ensures sent + conn.Tx() == old(conn.Tx())
      ensures epoll.interest == if ok then old(epoll.interest)[fd := conn.Tx() != []] else old(epoll.interest)
      ensures |sent| == old(conn.Sending(script)).1
      ensures ok <==> old(conn.Sending(script)).0 in {Ok, WouldBlock}
      ensures !ok ==> conn.Tx() != [] && (Closed in script || exists e :: Failed(e) in script)
      ensures forall k: nat, call :: Decides(script, k, call) && old(conn.Tx()) != [] ==>
        && (call.Failed? || call.Closed? ==> !ok && sent == [])
        && (call.Blocked? ==> ok && sent == [])
        && (call.Grant? ==> 0 < |sent|)
      ensures Generous(script, conn.tx.buffer.Length) ==> conn.Tx() == []
    {
      var rc;
      rc, sent := conn.Send(script);
      match rc {
        case Ok =>
          ok := epoll.Mod(fd, false);
        case WouldBlock =>
          ok := epoll.Mod(fd, true);
        case _ =>
          ok := false;
      }
    }
  }
}
