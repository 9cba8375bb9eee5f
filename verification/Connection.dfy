/** One socket with its receive and transmit rings (shared/ipc/IpcConnection.cpp). */
module Connection {
  import opened Bytes
  import opened Codec
  import opened RingBuffer

  datatype IoResult = Ok | WouldBlock | PeerClosed | BufferFull | Error(errno: int)

  /** What one system call does; the kernel answers `WouldBlock` by itself when there is nothing to do. */
  datatype Kernel = Grant(n: nat) | Interrupted | Blocked | Closed | Failed(errno: int)

  function Max(a: nat, b: nat): nat {
    if a >= b then a else b
  }

  /** How many bytes a call that may move at least one and at most `limit` moves when granted `n`. */
  function Clamp(n: nat, limit: nat): (k: nat)
    requires 0 < limit
    ensures 0 < k <= limit
  {
    if n == 0 then 1 else Min(n, limit)
  }

  /** The receive side of the kernel cannot claim emptiness: it only grants, interrupts or ends the stream. */
  ghost predicate Delivering(script: seq<Kernel>) {
    forall i :: 0 <= i < |script| ==> script[i].Grant? || script[i].Interrupted?
  }

  /** Two calls that would each take a whole ring. */
  ghost predicate Generous(script: seq<Kernel>, capacity: nat) {
    2 <= |script| && forall i :: 0 <= i < 2 ==> script[i].Grant? && capacity <= script[i].n
  }

  // ---- What a script of system calls does ----

  /** Call `k` is the first of the script that is not merely interrupted; past its end there is nothing to do. */
  predicate Decides(script: seq<Kernel>, k: nat, call: Kernel) {
    && k <= |script| && (forall i :: 0 <= i < k ==> script[i] == Interrupted)
    && call == (if k < |script| then script[k] else Blocked) && call != Interrupted
  }

  /** Sending `run` bytes up to the end of the ring and `rest` behind it: the result, and how many bytes went. */
  function SendOutcome(script: seq<Kernel>, run: nat, rest: nat): (IoResult, nat)
    decreases |script|
  {
    if run == 0 then (Ok, 0)
    else if script == [] then (WouldBlock, 0)
    else
      match script[0]
      case Interrupted => SendOutcome(script[1..], run, rest)
      case Blocked => (WouldBlock, 0)
      case Closed => (PeerClosed, 0)
      case Failed(errno) => (Error(errno), 0)
      case Grant(granted) =>
        var n := Clamp(granted, run);
        if n < run then (WouldBlock, n) else AndThen(run, SendOutcome(script[1..], rest, 0))
  }

  /** An outcome with `n` bytes more. */
  function AndThen(n: nat, outcome: (IoResult, nat)): (IoResult, nat) {
    (outcome.0, n + outcome.1)
  }

  /**
   * Receiving into `run` free bytes up to the end of the ring and `rest` behind it while `left` bytes are there: the
   * result, and how many of them were taken.
   */
  function RecvOutcome(script: seq<Kernel>, run: nat, rest: nat, left: nat): (IoResult, nat)
    decreases |script|, left
  {
    if run == 0 then (BufferFull, 0)
    else
      var call := if script == [] then Grant(run) else script[0];
      var more := if script == [] then [] else script[1..];
      if call.Failed? then (Error(call.errno), 0)
      else if call.Interrupted? then RecvOutcome(more, run, rest, left)
      else if left == 0 then (if call.Closed? then PeerClosed else WouldBlock, 0)
      else
        var n := Clamp(if call.Grant? then call.n else run, Min(run, left));
        AndThen(n, if n < run then RecvOutcome(more, run - n, rest, left - n) else RecvOutcome(more, rest, 0, left - n))
  }

  /** The first call of what is still ahead of a receive. */
  lemma {:induction false} RecvCall(ahead: seq<Kernel>, run: nat, rest: nat, left: nat, call: Kernel, more: seq<Kernel>)
    requires 0 < run && call == (if ahead == [] then Grant(run) else ahead[0])
    requires more == if ahead == [] then [] else ahead[1..]
    ensures RecvOutcome(ahead, run, rest, left) ==
      if call.Failed? then (Error(call.errno), 0)
      else if call.Interrupted? then RecvOutcome(more, run, rest, left)
      else if left == 0 then (if call.Closed? then PeerClosed else WouldBlock, 0)
      else After(more, run, rest, left, Clamp(if call.Grant? then call.n else run, Min(run, left)))
  {
  }

  /** After any number of interrupted calls the first other one decides what happens to queued bytes. */
  lemma {:induction false} SendDecided(script: seq<Kernel>, k: nat, call: Kernel, run: nat, rest: nat)
    requires 0 < run && Decides(script, k, call)
    ensures var outcome := SendOutcome(script, run, rest);
      match call
      case Failed(errno) => outcome == (Error(errno), 0)
      case Closed => outcome == (PeerClosed, 0)
      case Blocked => outcome == (WouldBlock, 0)
      case Grant(n) =>
        if n < run && 1 < run then outcome == (WouldBlock, Max(n, 1))
        else if rest == 0 then outcome == (Ok, run)
        else outcome == (SendOutcome(script[k + 1..], rest, 0).0, run + SendOutcome(script[k + 1..], rest, 0).1)
      case Interrupted => true
    decreases k
  {
    if k > 0 {
      assert forall i :: 0 <= i < k - 1 ==> script[1..][i] == script[i + 1];
      SendDecided(script[1..], k - 1, call, run, rest);
      if k < |script| {
        assert script[1..][k..] == script[k + 1..];
      }
    }
  }

  /** What is sent, and that it is all exactly if the result is Ok; two whole grants suffice. */
  lemma {:induction false} SendBounds(script: seq<Kernel>, run: nat, rest: nat)
    requires run == 0 ==> rest == 0
    ensures var (rc, n) := SendOutcome(script, run, rest);
      && n <= run + rest && (rc == Ok <==> n == run + rest) && rc != BufferFull
      && (script != [] && script[0].Grant? && 0 < run ==> 0 < n)
      && (rc.Error? ==> Failed(rc.errno) in script) && (rc == PeerClosed ==> Closed in script)
    decreases |script|
  {
    if run > 0 && script != [] {
      SendBounds(script[1..], run, rest);
      SendBounds(script[1..], rest, 0);
    }
  }

  lemma GenerousSends(script: seq<Kernel>, capacity: nat, run: nat, rest: nat)
    requires Generous(script, capacity) && run <= capacity && rest <= capacity && (run == 0 ==> rest == 0)
    ensures SendOutcome(script, run, rest) == (Ok, run + rest)
  {
    assert script[0].Grant? && script[1..][0] == script[1] && script[1].Grant?;
    assert SendOutcome(script[1..], rest, 0) == (Ok, rest);
  }

  /**
   * After any number of interrupted calls the first other one decides: a failure is reported with nothing taken, even
   * if bytes are there; otherwise bytes that are there are taken, and the end of the stream or its absence shows only
   * when there are none.
   */
  lemma {:induction false} RecvDecided(script: seq<Kernel>, k: nat, call: Kernel, run: nat, rest: nat, left: nat)
    requires 0 < run && k < |script| && Decides(script, k, call)
    ensures var outcome := RecvOutcome(script, run, rest, left);
      if call.Failed? then outcome == (Error(call.errno), 0)
      else if left == 0 then outcome == (if call == Closed then PeerClosed else WouldBlock, 0)
      else
        var most := Min(run, left);
        var n := if call.Grant? && call.n < most then Max(call.n, 1) else most;
        outcome == After(script[k + 1..], run, rest, left, n)
    decreases k
  {
    if k > 0 {
      assert forall i :: 0 <= i < k - 1 ==> script[1..][i] == script[i + 1];
      RecvDecided(script[1..], k - 1, call, run, rest, left);
      assert script[1..][k..] == script[k + 1..];
    }
  }

  /** The outcome once `n` bytes were taken and `script` is still to come. */
  function After(script: seq<Kernel>, run: nat, rest: nat, left: nat, n: nat): (IoResult, nat)
    requires n <= run && n <= left
  {
    AndThen(n, if n < run then RecvOutcome(script, run - n, rest, left - n) else RecvOutcome(script, rest, 0, left - n))
  }

  /** The ring ends full, or a call failed, or everything that was there is taken. */
  lemma {:induction false} RecvBounds(script: seq<Kernel>, run: nat, rest: nat, left: nat)
    requires run == 0 ==> rest == 0
    ensures var (rc, n) := RecvOutcome(script, run, rest, left);
      && n <= left && n <= run + rest && (rc == BufferFull <==> n == run + rest)
      && (rc == WouldBlock || rc == PeerClosed ==> n == left) && rc != Ok
      && (rc.Error? ==> Failed(rc.errno) in script) && (rc == PeerClosed ==> Closed in script)
    decreases |script|, left
  {
    if run > 0 {
      var call := if script == [] then Grant(run) else script[0];
      var more := if script == [] then [] else script[1..];
      if call.Interrupted? {
        RecvBounds(more, run, rest, left);
      } else if !call.Failed? && left > 0 {
        var n := Clamp(if call.Grant? then call.n else run, Min(run, left));
        if n < run {
          RecvBounds(more, run - n, rest, left - n);
        } else {
          RecvBounds(more, rest, 0, left - n);
        }
      }
    }
  }

  /** With no failure in the script everything is taken if there is room for a byte more, else the ring fills. */
  lemma UnfailingRecv(script: seq<Kernel>, run: nat, rest: nat, left: nat)
    requires run == 0 ==> rest == 0
    requires forall i :: 0 <= i < |script| ==> !script[i].Failed?
    ensures var (rc, n) := RecvOutcome(script, run, rest, left);
      if run + rest <= left then rc == BufferFull && n == run + rest
      else (rc == WouldBlock || rc == PeerClosed) && n == left
  {
    RecvBounds(script, run, rest, left);
  }

  class IpcConnection {
    const rx: ByteRingBuffer
    const tx: ByteRingBuffer

    ghost predicate Valid()
      reads this, rx, tx
    {
      && rx.Valid() && tx.Valid()
      && rx != tx && rx.buffer != tx.buffer
      && MAX_FRAME_SIZE <= rx.buffer.Length && MAX_FRAME_SIZE <= tx.buffer.Length
    }

    ghost function Rx(): seq<byte>
      requires Valid()
      reads this, rx, tx, rx.buffer
    {
      rx.Contents()
    }

    ghost function Tx(): seq<byte>
      requires Valid()
      reads this, rx, tx, tx.buffer
    {
      tx.Contents()
    }

    constructor (rxBuf: nat, txBuf: nat)
      ensures Valid() && Rx() == [] && Tx() == []
      ensures fresh(rx) && fresh(tx) && fresh(rx.buffer) && fresh(tx.buffer)
      ensures rx.buffer.Length == Max(rxBuf, MAX_FRAME_SIZE) && tx.buffer.Length == Max(txBuf, MAX_FRAME_SIZE)
    {
      rx := new ByteRingBuffer(Max(rxBuf, MAX_FRAME_SIZE));
      tx := new ByteRingBuffer(Max(txBuf, MAX_FRAME_SIZE));
    }

    /** What receiving will do with `left` bytes in the kernel. */
    ghost function Receiving(script: seq<Kernel>, left: nat): (IoResult, nat)
      requires Valid()
      reads this, rx, tx
    {
      RecvOutcome(script, rx.WriteLen(), rx.Writable() - rx.WriteLen(), left)
    }

    /** What sending will do with the queued bytes. */
    ghost function Sending(script: seq<Kernel>): (IoResult, nat)
      requires Valid()
      reads this, rx, tx, tx.buffer
    {
      SendOutcome(script, tx.ReadLen(), tx.size - tx.ReadLen())
    }

    /** `recv` until the kernel has nothing more, with `arrived` the bytes it holds for this socket. */
    method Recv(arrived: seq<byte>, script: seq<Kernel>) returns (rc: IoResult, left: seq<byte>)
      requires Valid()
      modifies rx`tail, rx`size, rx.buffer
      ensures Valid() && rc != Ok
      ensures |left| <= |arrived| && left == arrived[|arrived| - |left|..]
      ensures Rx() == old(Rx()) + arrived[..|arrived| - |left|]
      ensures (rc, |arrived| - |left|) == old(Receiving(script, |arrived|))
      ensures rc == BufferFull <==> rx.Writable() == 0
      ensures rc == WouldBlock || rc == PeerClosed ==> left == []
      ensures Delivering(script) ==>
        rc == if old(|Rx()|) + |arrived| < rx.buffer.Length then WouldBlock else BufferFull
      ensures rc.Error? ==> Failed(rc.errno) in script
      ensures rc == PeerClosed ==> Closed in script
      ensures forall k: nat, call :: k < |script| && Decides(script, k, call) && old(rx.Writable()) > 0 ==>
        && (call.Failed? ==> rc == Error(call.errno) && left == arrived)
        && (!call.Failed? && arrived == [] ==> rc == if call == Closed then PeerClosed else WouldBlock)
    {
      RecvEnds(script, |arrived|);
      rc, left := RecvLoop(arrived, script);
    }

    /** The outcome of a receive from the script alone. */
    lemma RecvEnds(script: seq<Kernel>, left: nat)
      requires Valid()
      ensures var (rc, n) := Receiving(script, left);
        && n <= left && n <= rx.Writable() && (rc == BufferFull <==> n == rx.Writable()) && rc != Ok
        && (rc == WouldBlock || rc == PeerClosed ==> n == left)
        && (rc.Error? ==> Failed(rc.errno) in script) && (rc == PeerClosed ==> Closed in script)
        && (Delivering(script) ==> rc == if rx.size + left < rx.buffer.Length then WouldBlock else BufferFull)
        && (forall k: nat, call :: k < |script| && Decides(script, k, call) && rx.Writable() > 0 ==>
              && (call.Failed? ==> rc == Error(call.errno) && n == 0)
              && (!call.Failed? && left == 0 ==> rc == if call == Closed then PeerClosed else WouldBlock))
    {
      RecvBounds(script, rx.WriteLen(), rx.Writable() - rx.WriteLen(), left);
      forall k: nat, call | k < |script| && Decides(script, k, call) && rx.Writable() > 0
        ensures var (rc, n) := Receiving(script, left);
          && (call.Failed? ==> rc == Error(call.errno) && n == 0)
          && (!call.Failed? && left == 0 ==> rc == if call == Closed then PeerClosed else WouldBlock)
      {
        RecvDecided(script, k, call, rx.WriteLen(), rx.Writable() - rx.WriteLen(), left);
      }
    }

    method RecvLoop(arrived: seq<byte>, script: seq<Kernel>) returns (rc: IoResult, left: seq<byte>)
      requires Valid()
      modifies rx`tail, rx`size, rx.buffer
      ensures Valid()
      ensures |left| <= |arrived| && left == arrived[|arrived| - |left|..]
      ensures Rx() == old(Rx()) + arrived[..|arrived| - |left|]
      ensures (rc, |arrived| - |left|) == old(Receiving(script, |arrived|))
    {
      var i: nat, taken: nat := 0, 0;
      ghost var base, all, ahead := Rx(), Receiving(script, |arrived|), script;
      while true
        invariant Valid() && i <= |script| && taken <= |arrived|
        invariant Rx() == base + arrived[..taken]
        invariant ahead == script[i..] && all == AndThen(taken, Receiving(ahead, |arrived| - taken))
        decreases |script| - i, |arrived| - taken
      {
        var wlen := rx.WriteLen();
        if wlen == 0 {
          return BufferFull, arrived[taken..];
        }
        var call := if i < |script| then script[i] else Grant(wlen);
        var stop, n;
        stop, rc, n := OneRecv(arrived, taken, call, base, ahead);
        if stop {
          return rc, arrived[taken..];
        }
        taken := taken + n;
        ahead := if ahead == [] then [] else ahead[1..];
        i := if i < |script| then i + 1 else i;
      }
    }

    /** One call of `recv`, which did what `call` says, and the outcome that is still ahead. */
    method OneRecv(arrived: seq<byte>, taken: nat, call: Kernel, ghost base: seq<byte>, ghost ahead: seq<Kernel>)
      returns (stop: bool, rc: IoResult, n: nat)
      requires Valid() && 0 < rx.WriteLen() && taken <= |arrived| && Rx() == base + arrived[..taken]
      requires call == (if ahead == [] then Grant(rx.WriteLen()) else ahead[0])
      modifies rx`tail, rx`size, rx.buffer
      ensures Valid() && taken + n <= |arrived| && Rx() == base + arrived[..taken + n]
      ensures stop ==> n == 0 && (rc, n) == old(Receiving(ahead, |arrived| - taken))
      ensures !stop ==> n > 0 || ahead != []
      ensures var more := if ahead == [] then [] else ahead[1..];
        !stop ==> AndThen(n, Receiving(more, |arrived| - (taken + n))) == old(Receiving(ahead, |arrived| - taken))
    {
      var wlen := rx.WriteLen();
      ghost var more := if ahead == [] then [] else ahead[1..];
      RecvCall(ahead, wlen, rx.Writable() - wlen, |arrived| - taken, call, more);
      n := 0;
      if call.Failed? {
        return true, Error(call.errno), n;
      } else if call.Interrupted? {
        return false, WouldBlock, n;
      } else if taken == |arrived| {
        return true, if call.Closed? then PeerClosed else WouldBlock, n;
      }
      n := Clamp(if call.Grant? then call.n else wlen, Min(wlen, |arrived| - taken));
      StoreNext(arrived, taken, n, base, more);
      return false, WouldBlock, n;
    }

    /** One chunk stored, and the outcome that is then still ahead. */
    method StoreNext(arrived: seq<byte>, taken: nat, n: nat, ghost base: seq<byte>, ghost more: seq<Kernel>)
      requires Valid() && 0 < n <= rx.WriteLen() && taken + n <= |arrived|
      requires Rx() == base + arrived[..taken]
      modifies rx`tail, rx`size, rx.buffer
      ensures Valid() && Rx() == base + arrived[..taken + n]
      ensures old(After(more, rx.WriteLen(), rx.Writable() - rx.WriteLen(), |arrived| - taken, n)) ==
        AndThen(n, Receiving(more, |arrived| - (taken + n)))
    {
      StoreChunk(arrived, taken, n, base);
    }

    /** The kernel's copy to the write pointer, then `produce`. */
    method StoreChunk(arrived: seq<byte>, taken: nat, n: nat, ghost base: seq<byte>)
      requires Valid() && 0 < n <= rx.WriteLen() && taken + n <= |arrived|
      requires Rx() == base + arrived[..taken]
      modifies rx`tail, rx`size, rx.buffer
      ensures Valid() && Rx() == base + arrived[..taken + n]
      ensures rx.Writable() == old(rx.Writable()) - n
      ensures rx.WriteLen() == if n < old(rx.WriteLen()) then old(rx.WriteLen()) - n else rx.Writable()
    {
      rx.Produce(arrived[taken..taken + n]);
      assert arrived[..taken] + arrived[taken..taken + n] == arrived[..taken + n];
    }

    /** `send` until the ring is empty or the kernel stops taking bytes; `sent` is what it took. */
    method Send(script: seq<Kernel>) returns (rc: IoResult, sent: seq<byte>)
      requires Valid()
      modifies tx`head, tx`size
      ensures Valid() && rc != BufferFull
      ensures sent + Tx() == old(Tx())
      ensures (rc, |sent|) == old(Sending(script))
      ensures rc == Ok <==> Tx() == []
      ensures Generous(script, tx.buffer.Length) ==> rc == Ok
      ensures rc.Error? ==> Failed(rc.errno) in script
      ensures rc == PeerClosed ==> Closed in script
      ensures forall k: nat, call :: Decides(script, k, call) && old(Tx()) != [] ==>
        && (call.Failed? ==> rc == Error(call.errno) && sent == [])
        && (call.Closed? ==> rc == PeerClosed && sent == [])
        && (call.Blocked? ==> rc == WouldBlock && sent == [])
        && (call.Grant? ==> 0 < |sent|)
    {
      SendEnds(script);
      rc, sent := SendLoop(script);
    }

    /** The outcome of a send from the script alone. */
    lemma SendEnds(script: seq<Kernel>)
      requires Valid()
      ensures var (rc, n) := Sending(script);
        && n <= tx.size && (rc == Ok <==> n == tx.size) && rc != BufferFull
        && (Generous(script, tx.buffer.Length) ==> rc == Ok)
        && (rc.Error? ==> Failed(rc.errno) in script) && (rc == PeerClosed ==> Closed in script)
        && (forall k: nat, call :: Decides(script, k, call) && tx.size > 0 ==>
              && (call.Failed? ==> rc == Error(call.errno) && n == 0)
              && (call.Closed? ==> rc == PeerClosed && n == 0)
              && (call.Blocked? ==> rc == WouldBlock && n == 0)
              && (call.Grant? ==> 0 < n))
    {
      var run, rest := tx.ReadLen(), tx.size - tx.ReadLen();
      SendBounds(script, run, rest);
      if Generous(script, tx.buffer.Length) {
        GenerousSends(script, tx.buffer.Length, run, rest);
      }
      forall k: nat, call | Decides(script, k, call) && tx.size > 0
        ensures var (rc, n) := Sending(script);
          && (call.Failed? ==> rc == Error(call.errno) && n == 0)
          && (call.Closed? ==> rc == PeerClosed && n == 0)
          && (call.Blocked? ==> rc == WouldBlock && n == 0)
          && (call.Grant? ==> 0 < n)
      {
        SendDecided(script, k, call, run, rest);
      }
    }

    method SendLoop(script: seq<Kernel>) returns (rc: IoResult, sent: seq<byte>)
      requires Valid()
      modifies tx`head, tx`size
      ensures Valid() && sent + Tx() == old(Tx()) && (rc, |sent|) == old(Sending(script))
    {
      var i: nat := 0;
      sent := [];
      ghost var base, all := Tx(), Sending(script);
      assert script[0..] == script;
      while tx.Readable() > 0
        invariant Valid() && i <= |script|
        invariant sent + Tx() == base
        invariant all == AndThen(|sent|, Sending(script[i..]))
        decreases |script| - i
      {
        var rlen := tx.ReadLen();
        var call := if i < |script| then script[i] else Blocked;
        assert i < |script| ==> script[i..][0] == script[i] && script[i..][1..] == script[i + 1..];
        i := if i < |script| then i + 1 else i;
        match call {
          case Grant(granted) =>
            var n := Clamp(granted, rlen);
            sent := TakeChunk(sent, n, base);
            if n < rlen {
              return WouldBlock, sent;
            }
          case Closed =>
            return PeerClosed, sent;
          case Interrupted =>
          case Blocked =>
            return WouldBlock, sent;
          case Failed(errno) =>
            return Error(errno), sent;
        }
      }
      rc := Ok;
    }

    /** The kernel's copy from the read pointer, then `consume`. */
    method TakeChunk(sent: seq<byte>, n: nat, ghost base: seq<byte>) returns (sent': seq<byte>)
      requires Valid() && 0 < n <= tx.ReadLen() && sent + Tx() == base
      modifies tx`head, tx`size
      ensures Valid() && tx.size == old(tx.size) - n
      ensures |sent'| == |sent| + n && sent' + Tx() == base
      ensures n == old(tx.ReadLen()) ==> tx.ReadLen() == tx.size
    {
      var chunk := tx.buffer[tx.head..tx.head + n];
      tx.FirstRun(n);
      tx.Consume(n);
      sent' := sent + chunk;
    }

    /** All or nothing: the bytes are queued whole, or not at all. */
    method Write(data: seq<byte>) returns (queued: bool)
      requires Valid()
      modifies tx`tail, tx`size, tx.buffer
      ensures Valid()
      ensures queued <==> |data| <= old(tx.Writable())
      ensures Tx() == if queued then old(Tx()) + data else old(Tx())
    {
      if |data| == 0 {
        assert Tx() + data == Tx();
        return true;
      }
      if tx.Writable() < |data| {
        return false;
      }
      var written, copies := tx.Write(data);
      assert data[..written] == data;
      queued := true;
    }
  }
}
