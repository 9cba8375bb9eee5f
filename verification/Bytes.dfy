/** Machine integers as bounded mathematical ones, and the byte order of a host. */
module Bytes {
  type byte = x: int | 0 <= x < 0x100
  type u16 = x: int | 0 <= x < 0x1_0000
  type u32 = x: int | 0 <= x < 0x1_0000_0000

  datatype Option<+T> = None | Some(value: T)

  /** How the running machine lays an integer out in memory. */
  datatype Host = LittleEndian | BigEndian

  function Swap16(x: u16): u16 {
    Join16(x % 0x100, x / 0x100)
  }

  function Swap32(x: u32): u32 {
    Join32(Swap16(x % 0x1_0000), Swap16(x / 0x1_0000))
  }

  /** `htons`, which is also `ntohs`. */
  function Htons(host: Host, x: u16): u16 {
    if host.LittleEndian? then Swap16(x) else x
  }

  /** `htonl`, which is also `ntohl`. */
  function Htonl(host: Host, x: u32): u32 {
    if host.LittleEndian? then Swap32(x) else x
  }

  /** The bytes a 16-bit integer occupies in memory. */
  function Store16(host: Host, x: u16): seq<byte> {
    if host.LittleEndian? then [x % 0x100, x / 0x100] else [x / 0x100, x % 0x100]
  }

  function Store32(host: Host, x: u32): seq<byte> {
    if host.LittleEndian? then Store16(host, x % 0x1_0000) + Store16(host, x / 0x1_0000)
    else Store16(host, x / 0x1_0000) + Store16(host, x % 0x1_0000)
  }

  function Load16(host: Host, s: seq<byte>): u16
    requires |s| == 2
  {
    if host.LittleEndian? then Join16(s[1], s[0]) else Join16(s[0], s[1])
  }

  function Load32(host: Host, s: seq<byte>): u32
    requires |s| == 4
  {
    if host.LittleEndian? then Join32(Load16(host, s[2..]), Load16(host, s[..2]))
    else Join32(Load16(host, s[..2]), Load16(host, s[2..]))
  }

  function Join16(hi: byte, lo: byte): u16 {
    var h: int := hi;
    h * 0x100 + lo
  }

  function Join32(hi: u16, lo: u16): u32 {
    var h: int := hi;
    h * 0x1_0000 + lo
  }

  /** Network byte order, written without reference to any host. */
  function Be16(x: u16): seq<byte> {
    [x / 0x100, x % 0x100]
  }

  function Be32(x: u32): seq<byte> {
    Be16(x / 0x1_0000) + Be16(x % 0x1_0000)
  }

  /** The number that bytes spell, the most significant first. */
  function Number(s: seq<byte>): nat {
    if s == [] then 0 else Number(s[..|s| - 1]) * 0x100 + s[|s| - 1]
  }

  lemma NumberOfTwo(s: seq<byte>)
    requires |s| == 2
    ensures Number(s) == Join16(s[0], s[1])
  {
    assert s[..1][..0] == [];
    assert Number(s[..1]) == s[0];
  }

  lemma NumberOfFour(s: seq<byte>)
    requires |s| == 4
    ensures Number(s) == Join32(Join16(s[0], s[1]), Join16(s[2], s[3]))
  {
    NumberOfTwo(s[..2]);
    assert s[..3][..2] == s[..2];
    assert Number(s[..3]) == Number(s[..2]) * 0x100 + s[2];
  }

  /** Network byte order spells the number. */
  lemma NetworkOrderSpells(x: u16, y: u32)
    ensures Number(Be16(x)) == x && Number(Be32(y)) == y
  {
    NumberOfTwo(Be16(x));
    NumberOfFour(Be32(y));
  }

  lemma Split16(hi: byte, lo: byte)
    ensures Join16(hi, lo) / 0x100 == hi && Join16(hi, lo) % 0x100 == lo
  {
  }

  lemma Split32(hi: u16, lo: u16)
    ensures Join32(hi, lo) / 0x1_0000 == hi && Join32(hi, lo) % 0x1_0000 == lo
  {
  }

  lemma StoreNetwork16(host: Host, x: u16)
    ensures Store16(host, Htons(host, x)) == Be16(x)
  {
    Split16(x % 0x100, x / 0x100);
  }

  /** Swapping to network order and storing gives the big-endian bytes on either kind of host. */
  lemma StoreNetwork32(host: Host, x: u32)
    ensures Store32(host, Htonl(host, x)) == Be32(x)
  {
    StoreNetwork16(host, x / 0x1_0000);
    StoreNetwork16(host, x % 0x1_0000);
    Split32(Swap16(x % 0x1_0000), Swap16(x / 0x1_0000));
  }

  /** Loading two bytes and swapping from network order reads them big-endian. */
  lemma LoadNetwork16(host: Host, s: seq<byte>)
    requires |s| == 2
    ensures Htons(host, Load16(host, s)) == Join16(s[0], s[1])
  {
    Split16(s[1], s[0]);
  }

  lemma LoadNetwork32(host: Host, s: seq<byte>)
    requires |s| == 4
    ensures Htonl(host, Load32(host, s)) == Join32(Join16(s[0], s[1]), Join16(s[2], s[3]))
  {
    LoadNetwork16(host, s[..2]);
    LoadNetwork16(host, s[2..]);
    Split32(Load16(host, s[2..]), Load16(host, s[..2]));
  }

  lemma ReadBack16(host: Host, s: seq<byte>, x: u16)
    requires |s| == 2
    ensures Htons(host, Load16(host, s)) == x <==> s == Be16(x)
  {
    LoadNetwork16(host, s);
    Split16(s[0], s[1]);
  }

  lemma ReadBack32(host: Host, s: seq<byte>, x: u32)
    requires |s| == 4
    ensures Htonl(host, Load32(host, s)) == x <==> s == Be32(x)
  {
    LoadNetwork32(host, s);
    var hi, lo := Join16(s[0], s[1]), Join16(s[2], s[3]);
    Split32(hi, lo);
    Split16(s[0], s[1]);
    Split16(s[2], s[3]);
    if s == Be32(x) {
      assert s[..2] == Be16(x / 0x1_0000) && s[2..] == Be16(x % 0x1_0000);
    }
  }

  /** `memcpy(dst + at, src, |src|)`. */
  method Memcpy(dst: array<byte>, at: nat, src: seq<byte>)
    requires at + |src| <= dst.Length
    modifies dst
    ensures dst[..] == old(dst[..at]) + src + old(dst[at + |src|..])
  {
    for i := 0 to |src|
      invariant dst[..] == old(dst[..at]) + src[..i] + old(dst[at + i..])
    {
      dst[at + i] := src[i];
    }
  }
}
