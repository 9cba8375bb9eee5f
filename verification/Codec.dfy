/** The wire format of one IPC frame (shared/ipc/IpcCodec.cpp, IpcProtocol.cpp, IpcMessage.cpp). */
module Codec {
  import opened Bytes

  const PROTOCOL_VERSION: byte := 2
  const MAX_FRAME_SIZE: nat := 1024 * 1024
  const HEADER_LEN: nat := 16

  /** `IpcMessage`: the enumerations have a fixed underlying type, so every byte or 16-bit value is one. */
  datatype Message = Message(version: byte, src: byte, dst: byte, flags: byte, cmd: u16, seqNo: u32, payload: seq<byte>)

  datatype WireHeader = WireHeader(version: byte, src: byte, dst: byte, flags: byte, cmd: u16, reserved: u16,
                                   seqNo: u32, payloadLen: u32)

  function ToWireHeader(m: Message): WireHeader {
    WireHeader(m.version, m.src, m.dst, m.flags, m.cmd, 0, m.seqNo, |m.payload| % 0x1_0000_0000)
  }

  function HostToNet(host: Host, h: WireHeader): WireHeader {
    h.(cmd := Htons(host, h.cmd), reserved := Htons(host, h.reserved),
       seqNo := Htonl(host, h.seqNo), payloadLen := Htonl(host, h.payloadLen))
  }

  function NetToHost(host: Host, h: WireHeader): WireHeader {
    h.(cmd := Htons(host, h.cmd), reserved := Htons(host, h.reserved),
       seqNo := Htonl(host, h.seqNo), payloadLen := Htonl(host, h.payloadLen))
  }

  /** The sixteen bytes of the packed header structure in the memory of `host`. */
  function Image(host: Host, h: WireHeader): (s: seq<byte>)
    ensures |s| == HEADER_LEN
  {
    [h.version, h.src, h.dst, h.flags]
    + Store16(host, h.cmd) + Store16(host, h.reserved) + Store32(host, h.seqNo) + Store32(host, h.payloadLen)
  }

  /** The packed header structure whose memory is `s`. */
  function FromImage(host: Host, s: seq<byte>): WireHeader
    requires |s| == HEADER_LEN
  {
    WireHeader(s[0], s[1], s[2], s[3], Load16(host, s[4..6]), Load16(host, s[6..8]),
               Load32(host, s[8..12]), Load32(host, s[12..16]))
  }

  /** The documented header: four single bytes, then big-endian fields. */
  function HeaderBytes(m: Message): (s: seq<byte>)
    ensures |s| == HEADER_LEN
  {
    [m.version, m.src, m.dst, m.flags] + Be16(m.cmd) + [0, 0] + Be32(m.seqNo) + Be32(|m.payload| % 0x1_0000_0000)
  }

  ghost predicate Fits(m: Message) {
    |m.payload| <= MAX_FRAME_SIZE - HEADER_LEN
  }

  /** The messages a peer accepts. */
  ghost predicate Sendable(m: Message) {
    Fits(m) && m.version == PROTOCOL_VERSION
  }

  /** The frame of a message, as the protocol defines it. */
  function Frame(m: Message): (f: seq<byte>)
    ensures |f| == HEADER_LEN + |m.payload|
  {
    HeaderBytes(m) + m.payload
  }

  /** What `encode` copies: the header in network order, as it lies in memory. */
  function WireImage(host: Host, m: Message): (s: seq<byte>)
    ensures s == HeaderBytes(m)
  {
    ImageIsHeader(host, m);
    Image(host, HostToNet(host, ToWireHeader(m)))
  }

  /** Two consecutive copies that together cover the target leave just the two sources in it. */
  lemma TwoPieces(filled: seq<byte>, full: seq<byte>, first: seq<byte>, second: seq<byte>)
    requires |filled| == |full| == |first| + |second| && filled[..|first|] == first
    requires full == if |second| > 0 then filled[..|first|] + second + filled[|first| + |second|..] else filled
    ensures full == first + second
  {
  }

  /** `encode`: empty for a missing or oversized message, otherwise header then payload. */
  method Encode(host: Host, msg: Option<Message>) returns (frame: array<byte>)
    ensures fresh(frame)
    ensures frame[..] == if msg.Some? && Fits(msg.value) then Frame(msg.value) else []
  {
    if msg.None? {
      return new byte[0](_ => 0);
    }
    var m := msg.value;
    if |m.payload| > MAX_FRAME_SIZE - HEADER_LEN {
      return new byte[0](_ => 0);
    }
    frame := new byte[HEADER_LEN + |m.payload|](_ => 0);
    Memcpy(frame, 0, WireImage(host, m));
    ghost var filled := frame[..];
    if |m.payload| > 0 {
      Memcpy(frame, HEADER_LEN, m.payload);
    }
    TwoPieces(filled, frame[..], HeaderBytes(m), m.payload);
  }

  datatype DecodeResult = DecodeOk(msg: Message) | NeedMoreData | InvalidFrame | TooLarge

  /** `decode` on a frame view; `None` is the null pointer. */
  function Decode(host: Host, view: Option<seq<byte>>): DecodeResult {
    if view.None? then InvalidFrame
    else if |view.value| < HEADER_LEN then NeedMoreData
    else DecodeBody(NetToHost(host, FromImage(host, view.value[..HEADER_LEN])), view.value)
  }

  function DecodeBody(wire: WireHeader, frame: seq<byte>): DecodeResult
    requires HEADER_LEN <= |frame|
  {
    if wire.version != PROTOCOL_VERSION then InvalidFrame
    else if wire.reserved != 0 then InvalidFrame
    else if wire.payloadLen > MAX_FRAME_SIZE - HEADER_LEN then TooLarge
    else
      var totalLen := HEADER_LEN + wire.payloadLen;
      if |frame| < totalLen then NeedMoreData
      else if |frame| != totalLen then InvalidFrame
      else DecodeOk(Message(wire.version, wire.src, wire.dst, wire.flags, wire.cmd, wire.seqNo,
                            frame[HEADER_LEN..HEADER_LEN + wire.payloadLen]))
  }

  datatype PeekResult = PeekOk(frameSize: nat) | PeekNeedMoreData | PeekInvalidFrame

  function PeekFrameSize(host: Host, view: Option<seq<byte>>): PeekResult {
    if view.None? || |view.value| < HEADER_LEN then PeekNeedMoreData
    else PeekHeader(NetToHost(host, FromImage(host, view.value[..HEADER_LEN])))
  }

  function PeekHeader(wire: WireHeader): PeekResult {
    if wire.version != PROTOCOL_VERSION then PeekInvalidFrame
    else if wire.reserved != 0 then PeekInvalidFrame
    else if wire.payloadLen > MAX_FRAME_SIZE - HEADER_LEN then PeekInvalidFrame
    else PeekOk(HEADER_LEN + wire.payloadLen)
  }

  // ---- The byte order of the host never reaches the wire ----

  lemma ImageIsHeader(host: Host, m: Message)
    ensures Image(host, HostToNet(host, ToWireHeader(m))) == HeaderBytes(m)
  {
    StoreNetwork16(host, m.cmd);
    StoreNetwork16(host, 0);
    StoreNetwork32(host, m.seqNo);
    StoreNetwork32(host, |m.payload| % 0x1_0000_0000);
  }

  /** The header a host reads out of sixteen bytes, whatever its byte order. */
  function ReadHeader(s: seq<byte>): WireHeader
    requires |s| == HEADER_LEN
  {
    WireHeader(s[0], s[1], s[2], s[3], Join16(s[4], s[5]), Join16(s[6], s[7]),
               Join32(Join16(s[8], s[9]), Join16(s[10], s[11])), Join32(Join16(s[12], s[13]), Join16(s[14], s[15])))
  }

  lemma ReadIsHostIndependent(host: Host, s: seq<byte>)
    requires |s| == HEADER_LEN
    ensures NetToHost(host, FromImage(host, s)) == ReadHeader(s)
  {
    LoadNetwork16(host, s[4..6]);
    LoadNetwork16(host, s[6..8]);
    LoadNetwork32(host, s[8..12]);
    LoadNetwork32(host, s[12..16]);
  }

  /** Reading a header is exact: the fields come back, and only the header's own bytes give them. */
  lemma ReadBackHeader(s: seq<byte>, m: Message)
    requires |s| == HEADER_LEN
    ensures ReadHeader(s) == ToWireHeader(m) <==> s == HeaderBytes(m)
  {
    var host := BigEndian;
    LoadNetwork16(host, s[4..6]);
    LoadNetwork16(host, s[6..8]);
    LoadNetwork32(host, s[8..12]);
    LoadNetwork32(host, s[12..16]);
    ReadBack16(host, s[4..6], m.cmd);
    ReadBack16(host, s[6..8], 0);
    ReadBack32(host, s[8..12], m.seqNo);
    ReadBack32(host, s[12..16], |m.payload| % 0x1_0000_0000);
    assert s == [s[0], s[1], s[2], s[3]] + s[4..6] + s[6..8] + s[8..12] + s[12..16];
    if s == HeaderBytes(m) {
      assert s[4..6] == Be16(m.cmd) && s[6..8] == Be16(0);
      assert s[8..12] == Be32(m.seqNo) && s[12..16] == Be32(|m.payload| % 0x1_0000_0000);
    }
  }

  /** Where each field lies in a frame. */
  lemma FrameLayout(m: Message)
    requires Fits(m)
    ensures var f := Frame(m);
      && f[0] == m.version && f[1] == m.src && f[2] == m.dst && f[3] == m.flags
      && Number(f[4..6]) == m.cmd && f[6] == 0 && f[7] == 0
      && Number(f[8..12]) == m.seqNo && Number(f[12..16]) == |m.payload| && f[16..] == m.payload
  {
    var f := Frame(m);
    assert f[4..6] == Be16(m.cmd) && f[8..12] == Be32(m.seqNo) && f[12..16] == Be32(|m.payload|);
    NetworkOrderSpells(m.cmd, m.seqNo);
    NetworkOrderSpells(0, |m.payload|);
  }

  /** Why bytes do not decode: by length, version byte, reserved bytes and announced length, in this order. */
  lemma RejectedBecause(host: Host, f: seq<byte>)
    ensures var rc := Decode(host, Some(f));
      if |f| < 16 then rc == NeedMoreData
      else BodyRejected(f, Number(f[12..16]), rc)
  {
    if |f| >= 16 {
      ReadIsHostIndependent(host, f[..HEADER_LEN]);
      AnnouncedLength(f);
      BodyRejects(ReadHeader(f[..HEADER_LEN]), f);
    }
  }

  predicate BodyRejected(f: seq<byte>, n: nat, rc: DecodeResult)
    requires |f| >= 16
  {
    if f[0] != 2 || f[6] != 0 || f[7] != 0 then rc == InvalidFrame
    else if n > 1048576 - 16 then rc == TooLarge
    else if |f| < 16 + n then rc == NeedMoreData
    else if |f| > 16 + n then rc == InvalidFrame
    else rc.DecodeOk?
  }

  lemma AnnouncedLength(f: seq<byte>)
    requires |f| >= 16
    ensures ReadHeader(f[..HEADER_LEN]).payloadLen == Number(f[12..16])
    ensures ReadHeader(f[..HEADER_LEN]).version == f[0]
    ensures ReadHeader(f[..HEADER_LEN]).reserved == 0 <==> f[6] == 0 && f[7] == 0
  {
    NumberOfFour(f[12..16]);
    Split16(f[6], f[7]);
  }

  lemma BodyRejects(wire: WireHeader, f: seq<byte>)
    requires |f| >= 16 && wire.version == f[0] && (wire.reserved == 0 <==> f[6] == 0 && f[7] == 0)
    ensures BodyRejected(f, wire.payloadLen, DecodeBody(wire, f))
  {
  }

  // ---- The codec is a bijection between sendable messages and valid frames ----

  /** Decoding a header already read, given that `header` is what reads as the message's. */
  lemma BodyIsInverse(wire: WireHeader, header: seq<byte>, f: seq<byte>, m: Message)
    requires |header| == HEADER_LEN <= |f|
    requires wire == ToWireHeader(m) <==> f[..HEADER_LEN] == header
    ensures DecodeBody(wire, f) == DecodeOk(m) <==> Sendable(m) && f == header + m.payload
  {
    if Sendable(m) && f == header + m.payload {
      assert f[..HEADER_LEN] == header;
      assert f[HEADER_LEN..] == m.payload;
    }
    if DecodeBody(wire, f) == DecodeOk(m) {
      assert f == f[..HEADER_LEN] + m.payload;
    }
  }

  /** Both round trips at once, between any two hosts: a frame decodes to a message exactly when it is its frame. */
  lemma DecodeIsInverse(host: Host, f: seq<byte>, m: Message)
    ensures Decode(host, Some(f)) == DecodeOk(m) <==> Sendable(m) && f == Frame(m)
  {
    if HEADER_LEN <= |f| {
      var header := f[..HEADER_LEN];
      ReadIsHostIndependent(host, header);
      ReadBackHeader(header, m);
      BodyIsInverse(ReadHeader(header), HeaderBytes(m), f, m);
    }
  }

  /** What `encode` produced on one host decodes on any other exactly when it is the current version and fits. */
  lemma RoundTrip(receiver: Host, m: Message)
    ensures Decode(receiver, Some(if Fits(m) then Frame(m) else [])) == DecodeOk(m) <==> Sendable(m)
  {
    DecodeIsInverse(receiver, if Fits(m) then Frame(m) else [], m);
  }

  /** Decoding a valid frame and encoding again gives the same bytes: what lets the broker re-encode. */
  lemma ReencodeIsIdentity(host: Host, f: seq<byte>)
    requires Decode(host, Some(f)).DecodeOk?
    ensures Fits(Decode(host, Some(f)).msg) && Frame(Decode(host, Some(f)).msg) == f
  {
    DecodeIsInverse(host, f, Decode(host, Some(f)).msg);
  }

  lemma SplitConcat(a: seq<byte>, b: seq<byte>, c: seq<byte>, d: seq<byte>)
    requires |a| == |c| && a + b == c + d
    ensures a == c && b == d
  {
    assert a == (a + b)[..|a|] && c == (c + d)[..|a|];
    assert b == (a + b)[|a|..] && d == (c + d)[|a|..];
  }

  lemma HeaderIsInjective(a: Message, b: Message)
    requires HeaderBytes(a) == HeaderBytes(b)
    ensures ToWireHeader(a) == ToWireHeader(b)
  {
    ReadBackHeader(HeaderBytes(a), a);
    ReadBackHeader(HeaderBytes(a), b);
  }

  /** The first sixteen bytes fix the length, so no frame is a proper prefix of another. */
  lemma PrefixFree(a: Message, b: Message, tail: seq<byte>, tail': seq<byte>)
    requires Fits(a) && Fits(b)
    requires Frame(a) + tail == Frame(b) + tail'
    ensures a == b && tail == tail'
  {
    var ha, hb := HeaderBytes(a), HeaderBytes(b);
    assert Frame(a) + tail == ha + (a.payload + tail);
    assert Frame(b) + tail' == hb + (b.payload + tail');
    SplitConcat(ha, a.payload + tail, hb, b.payload + tail');
    HeaderIsInjective(a, b);
    SplitConcat(a.payload, tail, b.payload, tail');
  }

  /** `peekFrameSize` promises `n` exactly when the first `n` bytes, once present, decode. */
  lemma PeekIsExact(host: Host, d: seq<byte>, n: nat)
    requires HEADER_LEN <= n <= |d|
    ensures PeekFrameSize(host, Some(d)) == PeekOk(n) <==> Decode(host, Some(d[..n])).DecodeOk?
    ensures PeekFrameSize(host, Some(d)) == PeekFrameSize(host, Some(d[..HEADER_LEN]))
  {
    assert d[..n][..HEADER_LEN] == d[..HEADER_LEN] == d[..HEADER_LEN][..HEADER_LEN];
  }

  lemma PeekReads(host: Host, d: seq<byte>)
    requires HEADER_LEN <= |d|
    ensures PeekFrameSize(host, Some(d)) == PeekHeader(ReadHeader(d[..HEADER_LEN]))
  {
    ReadIsHostIndependent(host, d[..HEADER_LEN]);
  }

  lemma PeekOwnHeader(m: Message)
    requires Sendable(m)
    ensures PeekHeader(ToWireHeader(m)) == PeekOk(|Frame(m)|)
  {
  }

  /** The header of a sendable message announces the length of its frame. */
  lemma PeekAnnouncesFrame(host: Host, m: Message)
    requires Sendable(m)
    ensures PeekFrameSize(host, Some(HeaderBytes(m))) == PeekOk(|Frame(m)|)
  {
    var d := HeaderBytes(m);
    PeekReads(host, d);
    assert d[..HEADER_LEN] == d;
    ReadBackHeader(d, m);
    PeekOwnHeader(m);
  }

  /** The message a header announces, given the payload that follows it. */
  function Announced(h: WireHeader, payload: seq<byte>): Message {
    Message(h.version, h.src, h.dst, h.flags, h.cmd, h.seqNo, payload)
  }

  lemma AnnouncedIsSendable(h: WireHeader, payload: seq<byte>)
    requires PeekHeader(h) == PeekOk(HEADER_LEN + |payload|)
    ensures Sendable(Announced(h, payload)) && ToWireHeader(Announced(h, payload)) == h
  {
  }

  /** Conversely an accepted header starts a valid frame, whatever payload of the announced length follows. */
  lemma PeekedHeaderStartsAFrame(host: Host, d: seq<byte>, payload: seq<byte>)
    requires |d| == HEADER_LEN && PeekFrameSize(host, Some(d)) == PeekOk(HEADER_LEN + |payload|)
    ensures var m := Announced(ReadHeader(d), payload);
      Sendable(m) && Frame(m) == d + payload
  {
    assert d[..HEADER_LEN] == d;
    PeekReads(host, d);
    AnnouncedIsSendable(ReadHeader(d), payload);
    ReadBackHeader(d, Announced(ReadHeader(d), payload));
  }
}
