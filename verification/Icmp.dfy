/** ICMP echo frames and their checksum (probed/icmp/IcmpCodec.cpp; RFC 791, RFC 792, RFC 1071 section 1). */
module Icmp {
  import opened Bytes

  const HEADER_LEN: nat := 8
  const IPV4_MIN_HEADER_LEN: nat := 20
  const TWO_32: nat := 0x1_0000_0000
  const ONES: nat := 0xFFFF

  /** `IcmpPacket`; the type and code enumerations have byte as underlying type. */
  datatype Packet = Packet(kind: byte, code: byte, checksum: u16, identifier: u16, sequence: u16, payload: seq<byte>)

  // ---- One's-complement arithmetic ----

  /** The sum of the big-endian 16-bit words, a last odd byte being the high half of a word. */
  function WordSum(data: seq<byte>): nat {
    if |data| == 0 then 0
    else if |data| == 1 then data[0] * 0x100
    else Join16(data[0], data[1]) + WordSum(data[2..])
  }

  /** The value of an integer in 16-bit one's-complement arithmetic, where only zero itself gives zero. */
  function OnesSum(x: nat): (r: nat)
    ensures r <= ONES && (r == 0 <==> x == 0)
  {
    if x == 0 then 0 else (x - 1) % ONES + 1
  }

  /** What `calculateChecksum` computes: the accumulator is 32 bits wide. */
  function Checksum(data: seq<byte>): u16 {
    ONES - OnesSum(WordSum(data) % TWO_32)
  }

  /** The Internet checksum as RFC 1071 defines it, with no bound on the sum. */
  function Rfc1071(data: seq<byte>): u16 {
    ONES - OnesSum(WordSum(data))
  }

  lemma SameResidue(a: nat, k: nat)
    ensures (a + k * ONES) % ONES == a % ONES
  {
    if k > 0 {
      SameResidue(a, k - 1);
      assert (a + k * ONES) % ONES == (a + (k - 1) * ONES) % ONES;
    }
  }

  /** Folding the carry back keeps the one's-complement value. */
  lemma FoldKeepsOnesSum(x: nat)
    requires x >= 0x1_0000
    ensures OnesSum(x % 0x1_0000 + x / 0x1_0000) == OnesSum(x)
  {
    var q, r := x / 0x1_0000, x % 0x1_0000;
    assert x - 1 == (q + r - 1) + q * ONES;
    SameResidue(q + r - 1, q);
  }

  /** A sum of which `rest` is still to be added is the total, but for lost carries. */
  ghost predicate Ahead(sum: u32, rest: nat, total: nat) {
    (sum + rest) % TWO_32 == total % TWO_32
  }

  lemma AllAdded(sum: u32, total: nat)
    requires Ahead(sum, 0, total)
    ensures sum == total % TWO_32
  {
  }

  /** The accumulation loop: 16-bit words, then a last odd byte as the high half of one. */
  method Accumulate(host: Host, data: seq<byte>) returns (sum: u32)
    ensures sum == WordSum(data) % TWO_32
  {
    sum := 0;
    var i: nat := 0;
    assert data[0..] == data;
    ghost var total := WordSum(data);
    while |data| - i > 1
      invariant i <= |data|
      invariant Ahead(sum, WordSum(data[i..]), total)
    {
      sum := AddWord(host, data, i, sum, total);
      i := i + 2;
    }
    if |data| - i == 1 {
      sum := AddLast(data, i, sum, total);
    }
    AllAdded(sum, total);
  }

  /** One word more: what is still to come makes up the rest of the sum. */
  function AddWord(host: Host, data: seq<byte>, i: nat, sum: u32, ghost total: nat): (next: u32)
    requires i + 1 < |data| && Ahead(sum, WordSum(data[i..]), total)
    ensures Ahead(next, WordSum(data[i + 2..]), total)
  {
    NextWord(host, data, i);
    AddWrapped(sum, ReadU16Be(host, data[i..i + 2]), WordSum(data[i + 2..]));
    (sum + ReadU16Be(host, data[i..i + 2])) % TWO_32
  }

  /** A last odd byte. */
  function AddLast(data: seq<byte>, i: nat, sum: u32, ghost total: nat): (next: u32)
    requires i + 1 == |data| && Ahead(sum, WordSum(data[i..]), total)
    ensures Ahead(next, 0, total)
  {
    var last: int := data[i];
    AddWrapped(sum, last * 0x100, 0);
    (sum + last * 0x100) % TWO_32
  }

  lemma NextWord(host: Host, data: seq<byte>, i: nat)
    requires i + 1 < |data|
    ensures WordSum(data[i..]) == ReadU16Be(host, data[i..i + 2]) + WordSum(data[i + 2..])
  {
    LoadNetwork16(host, data[i..i + 2]);
    assert data[i..][2..] == data[i + 2..];
  }

  /** The checksum: the accumulated sum, folded at most twice, complemented. */
  method CalculateChecksum(host: Host, data: seq<byte>) returns (checksum: u16, ghost folds: nat)
    ensures checksum == Checksum(data)
    ensures folds <= 2
  {
    var sum: u32 := Accumulate(host, data);
    folds := 0;
    ghost var total := sum;
    while sum / 0x1_0000 != 0
      invariant OnesSum(sum) == OnesSum(total)
      invariant folds <= 2
      invariant folds == 1 ==> sum <= 2 * ONES
      invariant folds == 2 ==> sum <= ONES
      decreases sum
    {
      FoldKeepsOnesSum(sum);
      sum := sum % 0x1_0000 + sum / 0x1_0000;
      folds := folds + 1;
    }
    assert OnesSum(sum) == sum;
    checksum := ONES - sum;
  }

  function ReadU16Be(host: Host, data: seq<byte>): u16
    requires |data| == 2
  {
    Htons(host, Load16(host, data))
  }

  lemma AddWrapped(sum: nat, word: nat, rest: nat)
    ensures ((sum + word) % TWO_32 + rest) % TWO_32 == (sum + (word + rest)) % TWO_32
  {
    var s := sum + word;
    assert s == s / TWO_32 * TWO_32 + s % TWO_32;
  }

  // ---- Frames ----

  /** The frame of a packet with `checksum` in its checksum field. */
  function Frame(p: Packet, checksum: u16): (f: seq<byte>)
    ensures |f| == HEADER_LEN + |p.payload|
  {
    [p.kind, p.code] + Be16(checksum) + Be16(p.identifier) + Be16(p.sequence) + p.payload
  }

  /** Where each field lies in a frame. */
  lemma FrameLayout(p: Packet, checksum: u16)
    ensures var f := Frame(p, checksum);
      && f[0] == p.kind && f[1] == p.code && Number(f[2..4]) == checksum
      && Number(f[4..6]) == p.identifier && Number(f[6..8]) == p.sequence && f[8..] == p.payload
  {
    FieldsAt(p.kind, p.code, Be16(checksum), Be16(p.identifier), Be16(p.sequence), p.payload, Frame(p, checksum));
    NetworkOrderSpells(checksum, 0);
    NetworkOrderSpells(p.identifier, 0);
    NetworkOrderSpells(p.sequence, 0);
  }

  lemma FieldsAt(k: byte, c: byte, x: seq<byte>, y: seq<byte>, z: seq<byte>, rest: seq<byte>, f: seq<byte>)
    requires |x| == |y| == |z| == 2 && f == [k, c] + x + y + z + rest
    ensures f[0] == k && f[1] == c && f[2..4] == x && f[4..6] == y && f[6..8] == z && f[8..] == rest
  {
  }

  /** `s` with two bytes overwritten. */
  function Patch(s: seq<byte>, at: nat, two: seq<byte>): (t: seq<byte>)
    requires at + 2 <= |s| && |two| == 2
    ensures |t| == |s|
  {
    s[..at] + two + s[at + 2..]
  }

  method WriteU16Be(host: Host, buf: array<byte>, offset: nat, value: u16)
    requires offset + 2 <= buf.Length
    modifies buf
    ensures buf[..] == Patch(old(buf[..]), offset, Be16(value))
  {
    StoreNetwork16(host, value);
    Memcpy(buf, offset, Store16(host, Htons(host, value)));
  }

  method WriteHeader(host: Host, frame: array<byte>, p: Packet)
    requires frame.Length >= HEADER_LEN
    modifies frame
    ensures frame[..] == [p.kind, p.code] + Be16(0) + Be16(p.identifier) + Be16(p.sequence) + old(frame[HEADER_LEN..])
  {
    frame[0] := p.kind;
    frame[1] := p.code;
    assert frame[..] == old(frame[..])[0 := p.kind][1 := p.code];
    WriteU16Be(host, frame, 2, 0);
    WriteU16Be(host, frame, 4, p.identifier);
    WriteU16Be(host, frame, 6, p.sequence);
    HeaderWritten(p.kind, p.code, Be16(0), Be16(p.identifier), Be16(p.sequence), old(frame[..]));
  }

  lemma HeaderWritten(k: byte, c: byte, x: seq<byte>, y: seq<byte>, z: seq<byte>, was: seq<byte>)
    requires |was| >= HEADER_LEN && |x| == |y| == |z| == 2
    ensures Patch(Patch(Patch(was[0 := k][1 := c], 2, x), 4, y), 6, z) == [k, c] + x + y + z + was[HEADER_LEN..]
  {
  }

  /** `encode`: the checksum is taken over the frame with a zero checksum field, then written into it. */
  method Encode(host: Host, packet: Option<Packet>) returns (frame: array<byte>)
    ensures fresh(frame)
    ensures frame[..] == if packet.None? then [] else Frame(packet.value, Checksum(Frame(packet.value, 0)))
  {
    if packet.None? {
      return new byte[0](_ => 0);
    }
    var p := packet.value;
    frame := new byte[HEADER_LEN + |p.payload|](_ => 0);
    WriteHeader(host, frame, p);
    if p.payload != [] {
      Memcpy(frame, HEADER_LEN, p.payload);
    }
    assert frame[..] == Frame(p, 0);
    var checksum, folds := CalculateChecksum(host, frame[..]);
    WriteU16Be(host, frame, 2, checksum);
    ChecksumWritten([p.kind, p.code], Be16(0), Be16(checksum), Be16(p.identifier), Be16(p.sequence), p.payload);
  }

  lemma ChecksumWritten(k: seq<byte>, was: seq<byte>, x: seq<byte>, y: seq<byte>, z: seq<byte>, rest: seq<byte>)
    requires |k| == |was| == |x| == 2
    ensures Patch(k + was + y + z + rest, 2, x) == k + x + y + z + rest
  {
  }

  // ---- The checksum does its work ----

  lemma FrameSum(p: Packet, checksum: u16)
    ensures WordSum(Frame(p, checksum)) == WordSum(Frame(p, 0)) + checksum
  {
    HeaderSum(p, checksum);
    HeaderSum(p, 0);
  }

  lemma HeaderSum(p: Packet, checksum: u16)
    ensures WordSum(Frame(p, checksum))
         == Join16(p.kind, p.code) + checksum + p.identifier + p.sequence + WordSum(p.payload)
  {
    var f3 := Be16(p.sequence) + p.payload;
    var f2 := Be16(p.identifier) + f3;
    var f1 := Be16(checksum) + f2;
    WordFirst(p.kind, p.code, f1);
    WordFirst(checksum / 0x100, checksum % 0x100, f2);
    WordFirst(p.identifier / 0x100, p.identifier % 0x100, f3);
    WordFirst(p.sequence / 0x100, p.sequence % 0x100, p.payload);
    HeaderFirst([p.kind, p.code], Be16(checksum), Be16(p.identifier), Be16(p.sequence), p.payload);
  }

  lemma WordFirst(high: byte, low: byte, rest: seq<byte>)
    ensures WordSum([high, low] + rest) == Join16(high, low) + WordSum(rest)
  {
    assert ([high, low] + rest)[2..] == rest;
  }

  lemma HeaderFirst(a: seq<byte>, b: seq<byte>, c: seq<byte>, d: seq<byte>, e: seq<byte>)
    ensures a + b + c + d + e == a + (b + (c + (d + e)))
  {
  }

  /** Adding the complement completes a multiple of 65535 that still fits in 32 bits: no carry is ever lost here. */
  lemma ComplementCompletes(r: nat)
    requires r < TWO_32
    ensures var total := r + (ONES - OnesSum(r));
      total < TWO_32 && OnesSum(total) == ONES
  {
    if r > 0 {
      var k := (r - 1) / ONES;
      assert r - 1 == k * ONES + (r - 1) % ONES;
      assert r + (ONES - OnesSum(r)) == (k + 1) * ONES;
      assert k <= 65536;
      SameResidue(ONES - 1, k);
      assert (k + 1) * ONES - 1 == (ONES - 1) + k * ONES;
    }
  }

  /** Every encoded frame, of any length, sums to zero when checked the way it was made, wrapped accumulator or not. */
  lemma EncodedFrameChecks(p: Packet)
    ensures Checksum(Frame(p, Checksum(Frame(p, 0)))) == 0
  {
    var s := WordSum(Frame(p, 0));
    var c := Checksum(Frame(p, 0));
    FrameSum(p, c);
    Completed(s, c);
  }

  lemma Completed(s: nat, c: u16)
    requires c == ONES - OnesSum(s % TWO_32)
    ensures OnesSum((s + c) % TWO_32) == ONES
  {
    ComplementCompletes(s % TWO_32);
    AddWrapped(s, 0, c);
  }

  lemma {:induction false} WordSumBound(data: seq<byte>)
    ensures WordSum(data) <= (|data| + 1) / 2 * ONES
    decreases |data|
  {
    if |data| > 1 {
      WordSumBound(data[2..]);
      assert (|data| + 1) / 2 == (|data[2..]| + 1) / 2 + 1;
    }
  }

  /** Up to 131074 bytes the accumulator cannot wrap, and the checksum is the Internet checksum. */
  lemma ShortFramesFollowRfc1071(data: seq<byte>)
    requires |data| <= 131074
    ensures WordSum(data) < TWO_32 && Checksum(data) == Rfc1071(data)
  {
    WordSumBound(data);
    assert (|data| + 1) / 2 <= 65537;
  }

  /** Beyond that it is so exactly when the carries lost are a multiple of 65535 and do not turn the sum into zero. */
  lemma WrappedSumFollowsRfc1071Iff(data: seq<byte>)
    ensures Checksum(data) == Rfc1071(data) <==>
      WordSum(data) < TWO_32 || (WordSum(data) / TWO_32 % ONES == 0 && WordSum(data) % TWO_32 != 0)
  {
    var s := WordSum(data);
    var q, r := s / TWO_32, s % TWO_32;
    if q > 0 && r > 0 {
      assert TWO_32 == 65537 * ONES + 1;
      assert s - 1 == (q + (r - 1)) + q * 65537 * ONES;
      SameResidue(q + (r - 1), q * 65537);
      ResidueShift(q, r - 1);
    }
  }

  lemma ResidueShift(q: nat, a: nat)
    ensures (q + a) % ONES == a % ONES <==> q % ONES == 0
  {
    assert q == q / ONES * ONES + q % ONES && a == a / ONES * ONES + a % ONES;
    var t := q % ONES + a % ONES;
    assert q + a == t + (q / ONES + a / ONES) * ONES;
    SameResidue(t, q / ONES + a / ONES);
  }

  /** The bound is tight: one byte more, all ones, and the wrapped sum loses a carry. */
  lemma BoundIsTight()
    ensures Checksum(seq(131075, _ => 0xFF)) != Rfc1071(seq(131075, _ => 0xFF))
  {
    OneByteMore(65537);
    WrappedSumFollowsRfc1071Iff(seq(131075, _ => 0xFF));
  }

  lemma {:induction false} OneByteMore(n: nat)
    ensures WordSum(seq(2 * n + 1, _ => 0xFF)) == n * ONES + 0xFF00
  {
    var data := seq(2 * n + 1, _ => 0xFF);
    if n > 0 {
      OneByteMore(n - 1);
      assert data[2..] == seq(2 * (n - 1) + 1, _ => 0xFF);
    }
  }

  /** Changing one byte moves the sum by the difference, in the low or the high half of its word. */
  lemma {:induction false} SumAfterChange(data: seq<byte>, i: nat, b: byte)
    requires i < |data|
    ensures WordSum(data[i := b]) == WordSum(data) + (b - data[i]) * (if i % 2 == 0 then 0x100 else 1)
    decreases |data|
  {
    if i >= 2 {
      SumAfterChange(data[2..], i - 2, b);
      assert data[i := b][2..] == data[2..][i - 2 := b];
    } else if |data| > 1 {
      assert data[i := b][2..] == data[2..];
    }
  }

  /** Any one corrupted byte of a frame that checks is noticed, as long as the accumulator wraps as often as before. */
  lemma CorruptionDetected(frame: seq<byte>, i: nat, b: byte)
    requires i < |frame| && b != frame[i]
    requires WordSum(frame[i := b]) / TWO_32 == WordSum(frame) / TWO_32
    requires Checksum(frame) == 0
    ensures Checksum(frame[i := b]) != 0
  {
    SumAfterChange(frame, i, b);
    var s, s' := WordSum(frame), WordSum(frame[i := b]);
    var r, r' := s % TWO_32, s' % TWO_32;
    assert s' - s == r' - r;
    MultipleOfOnes(r);
    if OnesSum(r') == ONES {
      MultipleOfOnes(r');
      ResidueOfDifference(r, r');
    }
  }

  /** Up to 131074 bytes it never wraps, so no single corrupted byte goes unnoticed. */
  lemma SingleByteCorruptionDetected(frame: seq<byte>, i: nat, b: byte)
    requires |frame| <= 131074 && i < |frame| && b != frame[i]
    requires Checksum(frame) == 0
    ensures Checksum(frame[i := b]) != 0
  {
    ShortFramesFollowRfc1071(frame);
    ShortFramesFollowRfc1071(frame[i := b]);
    CorruptionDetected(frame, i, b);
  }

  lemma MultipleOfOnes(x: nat)
    requires x > 0
    ensures OnesSum(x) == ONES <==> x % ONES == 0
  {
    ResidueShift(1, x - 1);
  }

  lemma ResidueOfDifference(s: nat, s': nat)
    requires s % ONES == 0 && s' % ONES == 0 && s != s'
    ensures s' - s >= ONES || s - s' >= ONES
  {
    assert s == s / ONES * ONES && s' == s' / ONES * ONES;
  }

  // ---- Decoding ----

  datatype DecodeResult = DecodeOk(packet: Packet) | Empty | InvalidFrame

  /** Where the ICMP header starts: after an IPv4 header if the first nibble says 4, otherwise at once. */
  function IcmpOffset(frame: seq<byte>): Option<nat> {
    if |frame| == 0 then None
    else if |frame| < HEADER_LEN then None
    else if frame[0] / 0x10 == 4 then
      if |frame| < IPV4_MIN_HEADER_LEN then None
      else
        var ipHeaderLen := frame[0] % 0x10 * 4;
        if ipHeaderLen < IPV4_MIN_HEADER_LEN then None
        else if ipHeaderLen > |frame| then None
        else if |frame| - ipHeaderLen < HEADER_LEN then None
        else Some(ipHeaderLen)
    else Some(0)
  }

  function Decode(host: Host, view: Option<seq<byte>>): DecodeResult {
    if view.None? || view.value == [] then Empty
    else
      var frame := view.value;
      match IcmpOffset(frame)
      case None => InvalidFrame
      case Some(offset) =>
        if |frame| - offset < HEADER_LEN then InvalidFrame
        else
          var icmp := frame[offset..];
          DecodeOk(Packet(icmp[0], icmp[1], ReadU16Be(host, icmp[2..4]), ReadU16Be(host, icmp[4..6]),
                          ReadU16Be(host, icmp[6..8]), icmp[HEADER_LEN..]))
  }

  /** The fields of a frame are the fields it was made of. */
  lemma FieldsOf(host: Host, icmp: seq<byte>, p: Packet)
    requires HEADER_LEN <= |icmp|
    ensures icmp == Frame(p, p.checksum) <==>
      p == Packet(icmp[0], icmp[1], ReadU16Be(host, icmp[2..4]), ReadU16Be(host, icmp[4..6]),
                  ReadU16Be(host, icmp[6..8]), icmp[HEADER_LEN..])
  {
    ReadBack16(host, icmp[2..4], p.checksum);
    ReadBack16(host, icmp[4..6], p.identifier);
    ReadBack16(host, icmp[6..8], p.sequence);
    assert icmp == [icmp[0], icmp[1]] + icmp[2..4] + icmp[4..6] + icmp[6..8] + icmp[HEADER_LEN..];
    if icmp == Frame(p, p.checksum) {
      assert icmp[2..4] == Be16(p.checksum) && icmp[4..6] == Be16(p.identifier) && icmp[6..8] == Be16(p.sequence);
      assert icmp[HEADER_LEN..] == p.payload;
    }
  }

  /** Whatever bytes arrive, decoding gives a packet exactly when they end, from the ICMP offset on, in its frame. */
  lemma DecodeIsExact(host: Host, frame: seq<byte>, p: Packet)
    ensures Decode(host, Some(frame)) == DecodeOk(p) <==>
      IcmpOffset(frame).Some? && frame[IcmpOffset(frame).value..] == Frame(p, p.checksum)
  {
    if IcmpOffset(frame).Some? {
      FieldsOf(host, frame[IcmpOffset(frame).value..], p);
    }
  }

  /**
   * Which bytes decode: at least eight from where the header starts, which is at once, or if the first half byte is 4
   * after the IPv4 header that the second one gives in words, and then of at least twenty bytes.
   */
  lemma DecodesWhenThereIsAHeader(host: Host, frame: seq<byte>)
    ensures frame == [] ==> Decode(host, Some(frame)) == Empty
    ensures frame != [] ==>
      var at := if frame[0] / 16 == 4 then frame[0] % 16 * 4 else 0;
      if (frame[0] / 16 == 4 ==> at >= 20) && at + 8 <= |frame|
      then Decode(host, Some(frame)).DecodeOk? && IcmpOffset(frame) == Some(at)
      else Decode(host, Some(frame)) == InvalidFrame
  {
  }

  /** A bare frame decodes to its packet exactly when its type does not look like the first byte of an IPv4 header. */
  lemma BareRoundTrip(host: Host, p: Packet)
    ensures Decode(host, Some(Frame(p, p.checksum))) == DecodeOk(p) <==> p.kind / 0x10 != 4
  {
    var f := Frame(p, p.checksum);
    assert f[0] == p.kind && f[0..] == f;
    DecodeIsExact(host, f, p);
  }

  /** The five types the program names are all safe; 0x45 is not. */
  lemma NamedTypesRoundTrip(host: Host, p: Packet)
    ensures p.kind in {0, 3, 5, 8, 11} ==> Decode(host, Some(Frame(p, p.checksum))) == DecodeOk(p)
    ensures p.kind == 0x45 ==> Decode(host, Some(Frame(p, p.checksum))) != DecodeOk(p)
  {
    BareRoundTrip(host, p);
  }

  /** Behind any IPv4 header, options included, every packet decodes. */
  lemma RoundTripBehindIpv4(host: Host, header: seq<byte>, p: Packet)
    requires IPV4_MIN_HEADER_LEN <= |header| <= 60 && |header| % 4 == 0
    requires header[0] == 0x40 + |header| / 4
    ensures Decode(host, Some(header + Frame(p, p.checksum))) == DecodeOk(p)
  {
    var f := header + Frame(p, p.checksum);
    assert f[0] % 0x10 * 4 == |header|;
    assert f[|header|..] == Frame(p, p.checksum);
    DecodeIsExact(host, f, p);
  }
}
