/** The daemon's end of the connection to ipcd (shared/ipc/IpcClient.cpp, IpcClientHandler.cpp). */
module Client {
  import opened Bytes
  import opened Codec
  import opened Connection
  import opened Framing
  import opened Handler

  datatype ClientState = Disconnected | Connecting | Connected
  datatype ConnectResult = ConnectFailed | ConnectPending | ConnectDone

  /** The client as its events change it: its state, descriptor, rings and registrations. */
  datatype View = View(state: ClientState, fd: int, rx: seq<byte>, tx: seq<byte>, interest: map<int, bool>)

  /** Connection, descriptor and registration are gone. */
  function Dropped(v: View): View {
    View(Disconnected, -1, [], [], v.interest - {v.fd})
  }

  /** What a receive on a connected client does, when `outcome` is how its system calls end. */
  ghost predicate Receives(v: View, v1: View, outcome: (IoResult, nat), arrived: seq<byte>, accept: Admission,
                           log: seq<Message>, delivered: seq<Message>) {
    var (rc, n) := outcome;
    && n <= |arrived|
    && if rc != WouldBlock then v1 == Dropped(v) && delivered == []
       else exists rest, ok :: Drained(v.rx + arrived[..n], accept, log, delivered, rest, ok)
                               && v1 == if ok then v.(rx := rest) else Dropped(v)
  }

  /** What a send on a connected client does. */
  predicate Sends(v: View, v1: View, outcome: (IoResult, nat), sent: seq<byte>) {
    var (rc, n) := outcome;
    && n <= |v.tx| && sent == v.tx[..n]
    && v1 == if rc == Ok || rc == WouldBlock
             then v.(tx := v.tx[n..], interest := v.interest[v.fd := v.tx[n..] != []]) else Dropped(v)
  }

  class IpcClient {
    const handler: IpcHandler
    const epoll: Epoll
    const rxBuf: nat
    const txBuf: nat
    /** The socket descriptor, -1 without one. */
    var fd: int
    var conn: IpcConnection?
    var state: ClientState

    ghost function Footprint(): set<object>
      reads this, conn
    {
      if conn == null then {} else {conn, conn.rx, conn.tx, conn.rx.buffer, conn.tx.buffer}
    }

    /**
     * Between events: EPOLLOUT is armed while the connection is being made, and then exactly while bytes are queued,
     * which is only when connected.
     */
    ghost predicate Valid()
      reads this, epoll, conn, Footprint()
    {
      && (conn != null ==> conn.Valid())
      && (state == Disconnected ==> conn == null && fd == -1)
      && (state != Disconnected ==> conn != null && fd >= 0 && fd in epoll.interest)
      && (state == Connecting ==> conn.Tx() == [] && epoll.interest[fd])
      && (state == Connected ==> (epoll.interest[fd] <==> conn.Tx() != []))
    }

    /** What is queued and not yet taken by the kernel. */
    ghost function Pending(): seq<byte>
      requires Valid()
      reads this, epoll, conn, Footprint()
    {
      if conn == null then [] else conn.Tx()
    }

    ghost function Seen(): View
      requires Valid()
      reads this, epoll, conn, Footprint()
    {
      View(state, fd, if conn == null then [] else conn.Rx(), Pending(), epoll.interest)
    }

    /** How the system calls of a receive or a send will end. */
    ghost function Receiving(script: seq<Kernel>, left: nat): (IoResult, nat)
      requires Valid()
      reads this, epoll, conn, Footprint()
    {
      if conn == null then (WouldBlock, 0) else conn.Receiving(script, left)
    }

    ghost function Sending(script: seq<Kernel>): (IoResult, nat)
      requires Valid()
      reads this, epoll, conn, Footprint()
    {
      if conn == null then (WouldBlock, 0) else conn.Sending(script)
    }

    constructor (handler: IpcHandler, rxBuf: nat, txBuf: nat)
      ensures Valid() && state == Disconnected && Pending() == []
      ensures this.handler == handler && fresh(epoll)
    {
      this.handler, this.rxBuf, this.txBuf := handler, rxBuf, txBuf;
      epoll := new Epoll();
      fd, conn, state := -1, null, Disconnected;
    }

    /** `rc` and `newFd` are what the socket's connect call gave. */
    method ConnectServer(rc: ConnectResult, newFd: nat) returns (ok: bool)
      requires Valid() && state == Disconnected
      modifies this, epoll
      ensures Valid() && Pending() == []
      ensures ok <==> rc != ConnectFailed && newFd !in old(epoll.interest)
      ensures state == if !ok then Disconnected else if rc == ConnectDone then Connected else Connecting
      ensures ok ==> fd == newFd && fresh(Footprint())
      ensures ok ==> epoll.interest == old(epoll.interest)[newFd := rc == ConnectPending]
    {
      if rc == ConnectFailed {
        return false;
      }
      fd := newFd;
      conn := new IpcConnection(rxBuf, txBuf);
      if rc == ConnectDone {
        state := Connected;
        ok := epoll.Add(newFd, false);
      } else {
        state := Connecting;
        ok := epoll.Add(newFd, true);
      }
      if !ok {
        CloseConnection();
      }
    }

    method CloseConnection()
      modifies this, epoll
      ensures Valid() && state == Disconnected && Pending() == []
      ensures epoll.interest == if old(fd) >= 0 then old(epoll.interest) - {old(fd)} else old(epoll.interest)
    {
      if fd >= 0 {
        epoll.Del(fd);
      }
      conn, fd, state := null, -1, Disconnected;
    }

    /** Queues a whole frame and arms EPOLLOUT, or changes nothing. */
    method EnqueueFrame(frame: seq<byte>) returns (queued: bool)
      requires Valid()
      modifies this, epoll, Footprint()
      ensures Valid() && state == old(state)
      ensures queued <==> old(state) == Connected && frame != [] && old(conn.tx.Writable()) >= |frame|
      ensures Seen() == if !queued then old(Seen())
        else old(Seen()).(tx := old(Pending()) + frame, interest := old(epoll.interest)[fd := true])
    {
      if conn == null || state != Connected {
        return false;
      }
      if frame == [] {
        return false;
      }
      var written := conn.Write(frame);
      if !written {
        return false;
      }
      queued := epoll.Mod(fd, true);
    }

    method HandleConnect(soError: int) returns (ok: bool)
      requires Valid() && state == Connecting
      modifies epoll
      ensures ok <==> soError == 0
      ensures epoll.interest == if ok then old(epoll.interest)[fd := false] else old(epoll.interest)
    {
      if soError != 0 {
        return false;
      }
      ok := epoll.Mod(fd, false);
    }

    /** One epoll event for `eventFd`, with what the system calls it leads to will do. */
    method HandleEvent(eventFd: int, isClose: bool, isRecv: bool, isSend: bool, soError: int,
                       arrived: seq<byte>, recvScript: seq<Kernel>, sendScript: seq<Kernel>)
      returns (sent: seq<byte>, ghost delivered: seq<Message>)
      requires Valid()
      modifies this, epoll, Footprint(), handler
      ensures Valid()
      ensures handler.log == old(handler.log) + delivered
      ensures old(state) != Connected || eventFd != old(fd) || isClose ==> sent == [] && delivered == []
      ensures eventFd != old(fd) || old(state) == Disconnected ==> Seen() == old(Seen())
      ensures eventFd == old(fd) && old(state) == Connecting ==>
        Seen() == if !isClose && !isRecv && !isSend then old(Seen())
          else if soError != 0 then Dropped(old(Seen()))
          else old(Seen()).(state := Connected, interest := old(epoll.interest)[eventFd := false])
      ensures eventFd == old(fd) && old(state) == Connected && isClose ==> Seen() == Dropped(old(Seen()))
      ensures eventFd == old(fd) && old(state) == Connected && !isClose ==>
        Exchanged(old(Seen()), Seen(), isRecv, isSend, old(Receiving(recvScript, |arrived|)), old(Sending(sendScript)),
                  arrived, handler.accept, old(handler.log), delivered, sent)
      ensures state == Connected ==> sent + Pending() == old(Pending())
      ensures (isSend && !isClose && eventFd == old(fd) && old(state) == Connected && state == Connected
               && Generous(sendScript, old(conn).tx.buffer.Length)) ==> Pending() == []
    {
      sent, delivered := [], [];
      if fd < 0 || eventFd != fd {
        return;
      }
      if state == Connecting {
        if isClose || isRecv || isSend {
          var ok := HandleConnect(soError);
          if !ok {
            CloseConnection();
            return;
          }
          state := Connected;
        }
        return;
      }
      if state != Connected || conn == null {
        return;
      }
      if isClose {
        CloseConnection();
        return;
      }
      sent, delivered := Exchange(isRecv, isSend, arrived, recvScript, sendScript);
    }

    /** The rest of an event: what has arrived is received first, and sending follows only if that went well. */
    method Exchange(isRecv: bool, isSend: bool, arrived: seq<byte>, recvScript: seq<Kernel>, sendScript: seq<Kernel>)
      returns (sent: seq<byte>, ghost delivered: seq<Message>)
      requires Valid() && state == Connected
      modifies this, epoll, Footprint(), handler
      ensures Valid() && handler.log == old(handler.log) + delivered
      ensures Exchanged(old(Seen()), Seen(), isRecv, isSend, old(Receiving(recvScript, |arrived|)),
                        old(Sending(sendScript)), arrived, handler.accept, old(handler.log), delivered, sent)
      ensures state == Connected ==> sent + Pending() == old(Pending())
      ensures state == Connected && isSend && Generous(sendScript, old(conn).tx.buffer.Length) ==> Pending() == []
    {
      ghost var v, log := Seen(), handler.log;
      ghost var received, flushed := Receiving(recvScript, |arrived|), Sending(sendScript);
      delivered := ReceiveIf(isRecv, arrived, recvScript, sendScript);
      ghost var v1 := Seen();
      sent := SendIf(isSend, sendScript);
      ThenSent(v, v1, Seen(), isRecv, isSend, received, flushed, arrived, handler.accept, log, delivered, sent);
    }

    method ReceiveIf(isRecv: bool, arrived: seq<byte>, script: seq<Kernel>, ghost later: seq<Kernel>)
      returns (ghost delivered: seq<Message>)
      requires Valid() && state == Connected
      modifies this, epoll, conn.rx, conn.rx.buffer, handler
      ensures Valid() && handler.log == old(handler.log) + delivered
      ensures ReceivesIf(isRecv, old(Seen()), Seen(), old(Receiving(script, |arrived|)), arrived, handler.accept,
                         old(handler.log), delivered)
      ensures state == Connected ==>
        conn == old(conn) && Pending() == old(Pending()) && Sending(later) == old(Sending(later))
    {
      delivered := [];
      if isRecv {
        var ok, left, rc;
        ok, left, rc, delivered := handler.HandleRecv(conn, arrived, script);
        if !ok {
          CloseConnection();
        }
      }
    }

    method SendIf(isSend: bool, script: seq<Kernel>) returns (sent: seq<byte>)
      requires Valid()
      modifies this, epoll, if conn == null then {} else {conn.tx}
      ensures Valid() && SendsIf(isSend, old(Seen()), Seen(), old(Sending(script)), sent)
      ensures state == Connected ==> sent + Pending() == old(Pending())
      ensures state == Connected && isSend && Generous(script, old(conn).tx.buffer.Length) ==> Pending() == []
    {
      sent := [];
      if isSend && state == Connected {
        var ok;
        ghost var queued := conn.Tx();
        ok, sent := handler.HandleSend(fd, conn, epoll, script);
        assert queued[..|sent|] == sent && queued[|sent|..] == conn.Tx();
        if !ok {
          CloseConnection();
        }
      }
    }
  }

  ghost predicate ReceivesIf(isRecv: bool, v: View, v1: View, outcome: (IoResult, nat), arrived: seq<byte>,
                             accept: Admission, log: seq<Message>, delivered: seq<Message>) {
    if isRecv then Receives(v, v1, outcome, arrived, accept, log, delivered) else v1 == v && delivered == []
  }

  predicate SendsIf(isSend: bool, v: View, v1: View, outcome: (IoResult, nat), sent: seq<byte>) {
    if isSend && v.state == Connected then Sends(v, v1, outcome, sent) else v1 == v && sent == []
  }

  /** An event on a connected client: it receives if there is something to read, and then, if still there, sends. */
  ghost predicate Exchanged(v: View, v2: View, isRecv: bool, isSend: bool, received: (IoResult, nat),
                            flushed: (IoResult, nat), arrived: seq<byte>, accept: Admission, log: seq<Message>,
                            delivered: seq<Message>, sent: seq<byte>) {
    exists v1 ::
      ReceivesIf(isRecv, v, v1, received, arrived, accept, log, delivered) && SendsIf(isSend, v1, v2, flushed, sent)
  }

  lemma ThenSent(v: View, v1: View, v2: View, isRecv: bool, isSend: bool, received: (IoResult, nat),
                 flushed: (IoResult, nat), arrived: seq<byte>, accept: Admission, log: seq<Message>,
                 delivered: seq<Message>, sent: seq<byte>)
    requires ReceivesIf(isRecv, v, v1, received, arrived, accept, log, delivered)
    requires v1.state == Connected ==> SendsIf(isSend, v1, v2, flushed, sent)
    requires v1.state != Connected ==> v2 == v1 && sent == []
    ensures Exchanged(v, v2, isRecv, isSend, received, flushed, arrived, accept, log, delivered, sent)
  {
  }
}
