/**
 * The base64 encoders and decoders (shared/util/Secret.cpp, collectord/service/api/ApiUtil.cpp,
 * authd/service/auth/OktaClient.cpp, authd/service/auth/SamlClient.cpp; RFC 4648 sections 4 and 5).
 */
module Base64 {
  import opened Bytes
  import opened SixBits

  datatype Alphabet = Standard | Url

  /** The table entry at position `v`: A-Z, a-z, 0-9, then the two characters in which the alphabets differ. */
  function CharOf(a: Alphabet, v: digit): char {
    if v < 26 then ('A' as int + v) as char
    else if v < 52 then ('a' as int + (v - 26)) as char
    else if v < 62 then ('0' as int + (v - 52)) as char
    else if v == 62 then (if a.Standard? then '+' else '-')
    else (if a.Standard? then '/' else '_')
  }

  /** The decoders' `val`: -1 for a character outside the alphabet. */
  function ValueOf(a: Alphabet, c: char): int {
    if 'A' <= c <= 'Z' then c as int - 'A' as int
    else if 'a' <= c <= 'z' then c as int - 'a' as int + 26
    else if '0' <= c <= '9' then c as int - '0' as int + 52
    else if c == (if a.Standard? then '+' else '-') then 62
    else if c == (if a.Standard? then '/' else '_') then 63
    else -1
  }

  lemma TableIsInverted(a: Alphabet, v: digit)
    ensures ValueOf(a, CharOf(a, v)) == v
    ensures CharOf(a, v) !in {'=', '\n', '\r', ' ', '\t'}
  {
  }

  const UPPER := "ABCDEFGHIJKLMNOPQRSTUVWXYZ"
  const LOWER := "abcdefghijklmnopqrstuvwxyz"
  const DECIMAL := "0123456789"

  /** The encoders' tables. */
  function Table(a: Alphabet): string {
    UPPER + LOWER + DECIMAL + if a.Standard? then "+/" else "-_"
  }

  predicate InTable(a: Alphabet, c: char) {
    c in Table(a)
  }

  /** `s` is a run of `n` characters from `first` on. */
  ghost predicate Ascending(s: string, first: char, n: nat) {
    |s| == n && forall i :: 0 <= i < n ==> s[i] as int == first as int + i
  }

  lemma PartsAscend()
    ensures Ascending(UPPER, 'A', 26) && Ascending(LOWER, 'a', 26) && Ascending(DECIMAL, '0', 10)
  {
  }

  lemma EntryOf(a: Alphabet, upper: string, lower: string, decimal: string, two: string, v: digit)
    requires Ascending(upper, 'A', 26) && Ascending(lower, 'a', 26) && Ascending(decimal, '0', 10)
    requires two == if a.Standard? then "+/" else "-_"
    ensures |upper + lower + decimal + two| == 64 && (upper + lower + decimal + two)[v] == CharOf(a, v)
  {
    if v < 26 {
      assert upper[v] as int == 'A' as int + v;
    } else if v < 52 {
      assert lower[v - 26] as int == 'a' as int + (v - 26);
    } else if v < 62 {
      assert decimal[v - 52] as int == '0' as int + (v - 52);
    }
  }

  /** A digit is written as the character at its position. */
  lemma CharIsTableEntry(a: Alphabet, v: digit)
    ensures |Table(a)| == 64 && Table(a)[v] == CharOf(a, v)
  {
    PartsAscend();
    EntryOf(a, UPPER, LOWER, DECIMAL, if a.Standard? then "+/" else "-_", v);
  }

  /** A character has a value exactly if it stands in the table, and then it is its position there. */
  lemma ValueIsPosition(a: Alphabet, c: char)
    ensures ValueOf(a, c) == -1 || 0 <= ValueOf(a, c) < 64
    ensures ValueOf(a, c) >= 0 <==> InTable(a, c)
    ensures ValueOf(a, c) >= 0 ==> Table(a)[ValueOf(a, c)] == c
  {
    if ValueOf(a, c) >= 0 {
      CharIsTableEntry(a, ValueOf(a, c));
    }
    if c in Table(a) {
      var v: nat :| v < |Table(a)| && Table(a)[v] == c;
      CharIsTableEntry(a, v);
      TableIsInverted(a, v);
    }
  }

  // ---- What an encoding is ----

  /** The position of byte `n` in its triple. */
  function Phase3(n: nat): (k: nat)
    ensures k < 3
  {
    if n < 3 then n else Phase3(n - 3)
  }

  lemma {:induction false} Phase3Next(n: nat)
    ensures Phase3(n + 1) == if Phase3(n) == 2 then 0 else Phase3(n) + 1
  {
    if n >= 3 {
      Phase3Next(n - 3);
    }
  }

  /** The position of digit `n` in its group of four. */
  function Phase4(n: nat): (k: nat)
    ensures k < 4
  {
    if n < 4 then n else Phase4(n - 4)
  }

  lemma {:induction false} Phase4Next(n: nat)
    ensures Phase4(n + 1) == if Phase4(n) == 3 then 0 else Phase4(n) + 1
  {
    if n >= 4 {
      Phase4Next(n - 4);
    }
  }

  lemma {:induction false} Phase3IsRemainder(n: nat)
    ensures Phase3(n) == n % 3
  {
    if n >= 3 {
      Phase3IsRemainder(n - 3);
    }
  }

  lemma {:induction false} Phase4IsRemainder(n: nat)
    ensures Phase4(n) == n % 4
  {
    if n >= 4 {
      Phase4IsRemainder(n - 4);
    }
  }

  /** The six-bit groups that the bytes of `s` complete. */
  function Whole(s: seq<byte>): seq<digit> {
    if s == [] then []
    else Whole(s[..|s| - 1]) + Completed(if |s| == 1 then 0 else s[|s| - 2], Phase3(|s| - 1), s[|s| - 1])
  }

  /** The groups that byte `c` completes, when `last` is the byte before and `phase` its position in a triple. */
  function Completed(last: byte, phase: nat, c: byte): seq<digit> {
    if phase == 0 then [D1(c)] else if phase == 1 then [D2(last, c)] else [D3(last, c), D4(c)]
  }

  /** The bits left over, with zeros added on the right. */
  function Rest(s: seq<byte>): seq<digit> {
    if Phase3(|s|) == 0 then [] else if Phase3(|s|) == 1 then [D2(s[|s| - 1], 0)] else [D3(s[|s| - 1], 0)]
  }

  function Digits(s: seq<byte>): seq<digit> {
    Whole(s) + Rest(s)
  }

  function Text(a: Alphabet, ds: seq<digit>): (t: string)
    ensures |t| == |ds|
  {
    seq(|ds|, i requires 0 <= i < |ds| => CharOf(a, ds[i]))
  }

  function Padding(n: nat): string {
    if Phase4(n) == 2 then "==" else if Phase4(n) == 3 then "=" else ""
  }

  /** What an encoder owes: the text of the digits, padded to a multiple of four characters if asked. */
  function Encoded(a: Alphabet, padded: bool, s: seq<byte>): string {
    Text(a, Digits(s)) + if padded then Padding(|Digits(s)|) else ""
  }

  lemma WholeAppend(s: seq<byte>, c: byte)
    ensures Whole(s + [c]) == Whole(s) + Completed(if s == [] then 0 else s[|s| - 1], Phase3(|s|), c)
  {
    assert (s + [c])[..|s|] == s;
    Phase3Next(|s|);
  }

  lemma TextAppend(a: Alphabet, ds: seq<digit>, es: seq<digit>)
    ensures Text(a, ds + es) == Text(a, ds) + Text(a, es)
  {
  }

  /** How many digits `n` bytes complete: four for each three, one or two more. */
  function WholeCount(n: nat): nat {
    if n < 3 then n else 4 + WholeCount(n - 3)
  }

  lemma {:induction false} WholeLength(s: seq<byte>)
    ensures |Whole(s)| == WholeCount(|s|)
  {
    if s != [] {
      WholeLength(s[..|s| - 1]);
      OneMoreByte(|s| - 1);
    }
  }

  lemma {:induction false} OneMoreByte(n: nat)
    ensures WholeCount(n + 1) == WholeCount(n) + if Phase3(n) == 2 then 2 else 1
  {
    if n >= 3 {
      OneMoreByte(n - 3);
    }
  }

  lemma DigitsLength(s: seq<byte>)
    ensures |Digits(s)| == WholeCount(|s|) + (if Phase3(|s|) == 0 then 0 else 1)
    ensures Phase4(|Digits(s)|) == if Phase3(|s|) == 0 then 0 else Phase3(|s|) + 1
  {
    WholeLength(s);
    CountPhase(|s|);
    Phase4Next(WholeCount(|s|));
  }

  /** A padded text comes in whole groups of four characters, as many as the input has groups of three bytes. */
  lemma PaddedLength(a: Alphabet, s: seq<byte>)
    ensures |Encoded(a, true, s)| == (|s| + 2) / 3 * 4
  {
    DigitsLength(s);
    StartOf(|s|);
    Phase3IsRemainder(|s|);
  }

  lemma {:induction false} CountPhase(n: nat)
    ensures Phase4(WholeCount(n)) == Phase3(n)
  {
    if n >= 3 {
      CountPhase(n - 3);
    }
  }

  // ---- It is the bit stream of RFC 4648 ----

  /** Bit `k` of the input taken as one stream, zero after its end. */
  function BitOfStream(s: seq<byte>, k: nat): nat {
    if k / 8 < |s| then BitOfByte(s[k / 8], k % 8) else 0
  }

  lemma StreamAt(s: seq<byte>, m: nat, i: nat)
    requires i < 8
    ensures BitOfStream(s, 8 * m + i) == if m < |s| then BitOfByte(s[m], i) else 0
  {
    assert (8 * m + i) / 8 == m && (8 * m + i) % 8 == i;
  }

  /** Where the digits completed by byte `n` start, in bits. */
  lemma {:induction false} StartOf(n: nat)
    ensures 6 * WholeCount(n) == 8 * n - 2 * Phase3(n)
  {
    if n >= 3 {
      StartOf(n - 3);
    }
  }

  lemma {:induction false} WholeIsTheBitStream(s: seq<byte>, j: nat, i: nat)
    requires j < |Whole(s)| && i < 6
    ensures BitOfDigit(Whole(s)[j], i) == BitOfStream(s, 6 * j + i)
  {
    var n := |s| - 1;
    var front := s[..n];
    WholeLength(s);
    WholeLength(front);
    StartOf(n);
    if j < |Whole(front)| {
      WholeIsTheBitStream(front, j, i);
      EarlierBits(s, n, j, i);
    } else {
      LatestBits(s, n, j - |Whole(front)|, i);
    }
  }

  /** The bits of a digit completed earlier lie in earlier bytes. */
  lemma EarlierBits(s: seq<byte>, n: nat, j: nat, i: nat)
    requires n < |s| && j < WholeCount(n) && i < 6
    ensures BitOfStream(s[..n], 6 * j + i) == BitOfStream(s, 6 * j + i)
  {
    StartOf(n);
    assert 6 * j + i < 8 * n;
    assert (6 * j + i) / 8 < n;
  }

  /** The bits of the digits that byte `n` completes lie in it and in the byte before. */
  lemma LatestBits(s: seq<byte>, n: nat, k: nat, i: nat)
    requires n + 1 == |s| && i < 6
    requires k < |Completed(if n == 0 then 0 else s[n - 1], Phase3(n), s[n])|
    ensures BitOfDigit(Completed(if n == 0 then 0 else s[n - 1], Phase3(n), s[n])[k], i)
         == BitOfStream(s, 6 * (WholeCount(n) + k) + i)
  {
    StartOf(n);
    var c := s[n];
    if Phase3(n) == 0 {
      BitsOfD1(c, i);
      StreamAt(s, n, i);
    } else if Phase3(n) == 1 {
      BitsOfD2(s[n - 1], c, i);
      if i < 2 { StreamAt(s, n - 1, 6 + i); } else { StreamAt(s, n, i - 2); }
    } else if k == 0 {
      BitsOfD3(s[n - 1], c, i);
      if i < 4 { StreamAt(s, n - 1, 4 + i); } else { StreamAt(s, n, i - 4); }
    } else {
      BitsOfD4(c, i);
      StreamAt(s, n, 2 + i);
    }
  }

  lemma {:induction false} NoBits(i: nat)
    requires i < 8
    ensures Shr(0, i) == 0
  {
    if i > 0 {
      NoBits(i - 1);
    }
  }

  /** Every digit is six consecutive bits of the input, with zeros after its end, and there are just enough of them. */
  lemma DigitsAreTheBitStream(s: seq<byte>, j: nat, i: nat)
    requires j < |Digits(s)| && i < 6
    ensures |Digits(s)| == (8 * |s| + 5) / 6
    ensures BitOfDigit(Digits(s)[j], i) == BitOfStream(s, 6 * j + i)
  {
    DigitsLength(s);
    WholeLength(s);
    var n := |s|;
    StartOf(n);
    if j < |Whole(s)| {
      WholeIsTheBitStream(s, j, i);
    } else {
      RestIsTheBitStream(s, Rest(s)[0], 6 * WholeCount(n), i);
    }
  }

  /** The left-over digit holds the last bits, then zeros. */
  lemma RestIsTheBitStream(s: seq<byte>, d: digit, start: nat, i: nat)
    requires Rest(s) == [d] && i < 6 && start == 8 * |s| - 2 * Phase3(|s|)
    ensures BitOfDigit(d, i) == BitOfStream(s, start + i)
  {
    if Phase3(|s|) == 1 {
      LastTwoBits(s, start, i);
    } else {
      LastFourBits(s, start, i);
    }
  }

  lemma LastTwoBits(s: seq<byte>, start: nat, i: nat)
    requires s != [] && start == 8 * |s| - 2 && i < 6
    ensures BitOfDigit(D2(s[|s| - 1], 0), i) == BitOfStream(s, start + i)
  {
    BitsOfD2(s[|s| - 1], 0, i);
    if i < 2 { StreamAt(s, |s| - 1, 6 + i); } else { NoBits(7 - (i - 2)); StreamAt(s, |s|, i - 2); }
  }

  lemma LastFourBits(s: seq<byte>, start: nat, i: nat)
    requires s != [] && start == 8 * |s| - 4 && i < 6
    ensures BitOfDigit(D3(s[|s| - 1], 0), i) == BitOfStream(s, start + i)
  {
    BitsOfD3(s[|s| - 1], 0, i);
    if i < 4 { StreamAt(s, |s| - 1, 4 + i); } else { NoBits(7 - (i - 4)); StreamAt(s, |s|, i - 4); }
  }

  // ---- The encoders ----

  lemma AppendFirst(s: seq<byte>, c: byte)
    requires Phase3(|s|) == 0
    ensures Whole(s + [c]) == Whole(s) + [D1(c)] && Phase3(|s| + 1) == 1
  {
    WholeAppend(s, c);
    Phase3Next(|s|);
  }

  lemma AppendSecond(s: seq<byte>, last: byte, c: byte)
    requires Phase3(|s|) == 1 && s[|s| - 1] == last
    ensures Whole(s + [c]) == Whole(s) + [D2(last, c)] && Phase3(|s| + 1) == 2
  {
    WholeAppend(s, c);
    Phase3Next(|s|);
  }

  lemma AppendThird(s: seq<byte>, last: byte, c: byte)
    requires Phase3(|s|) == 2 && s[|s| - 1] == last
    ensures Whole(s + [c]) == Whole(s) + [D3(last, c), D4(c)] && Phase3(|s| + 1) == 0
  {
    WholeAppend(s, c);
    Phase3Next(|s|);
  }

  lemma TwoDigits(ds: seq<digit>, d: digit, e: digit)
    ensures ds + [d] + [e] == ds + [d, e]
  {
  }

  lemma FourDigits(ds: seq<digit>, d: digit, e: digit, f: digit, g: digit)
    ensures ds + [d, e] + [f, g] == ds + [d, e, f, g]
  {
  }

  /** Two bytes become two digits, and three become four. */
  lemma WholePair(s: seq<byte>, x: byte, y: byte, t: seq<byte>, u: seq<byte>)
    requires Phase3(|s|) == 0 && t == s + [x] && u == t + [y]
    ensures Whole(u) == Whole(s) + [D1(x), D2(x, y)]
  {
    AppendFirst(s, x);
    assert t[|s|] == x;
    AppendSecond(t, x, y);
    TwoDigits(Whole(s), D1(x), D2(x, y));
  }

  lemma WholeTriple(s: seq<byte>, x: byte, y: byte, z: byte, u: seq<byte>, v: seq<byte>)
    requires Phase3(|s|) == 0 && u == s + [x] + [y] && v == u + [z]
    ensures Whole(v) == Whole(s) + [D1(x), D2(x, y), D3(y, z), D4(z)]
  {
    WholePair(s, x, y, s + [x], u);
    Phase3Next(|s|);
    Phase3Next(|s| + 1);
    AppendThird(u, y, z);
    FourDigits(Whole(s), D1(x), D2(x, y), D3(y, z), D4(z));
  }

  /** The characters of the top, second, third and last digit of 24 bits. */
  function Field(a: Alphabet, n: u32, k: nat): char
    requires k < 4
  {
    CharOf(a, Shr(n, 18 - 6 * k) % 64)
  }

  /** The last one or two bytes become two or three digits. */
  function LastDigits(data: seq<byte>, i: nat): seq<digit>
    requires i < |data| <= i + 2
  {
    if i + 1 < |data| then [D1(data[i]), D2(data[i], data[i + 1]), D3(data[i + 1], 0)]
    else [D1(data[i]), D2(data[i], 0)]
  }

  lemma ShortDigits(data: seq<byte>, i: nat)
    requires i < |data| <= i + 2 && Phase3(i) == 0
    ensures Digits(data) == Whole(data[..i]) + LastDigits(data, i)
    ensures Phase4(|Digits(data)|) == |LastDigits(data, i)|
  {
    DigitsLength(data);
    if i + 1 == |data| {
      ShortOne(data[..i], data[i], data);
    } else {
      ShortTwo(data[..i], data[i], data[i + 1], data[..i + 1], data);
    }
    Phase3Next(i);
    Phase3Next(i + 1);
  }

  lemma ShortOne(s: seq<byte>, x: byte, data: seq<byte>)
    requires Phase3(|s|) == 0 && data == s + [x]
    ensures Digits(data) == Whole(s) + [D1(x), D2(x, 0)]
  {
    AppendFirst(s, x);
  }

  lemma ShortTwo(s: seq<byte>, x: byte, y: byte, t: seq<byte>, data: seq<byte>)
    requires Phase3(|s|) == 0 && t == s + [x] && data == t + [y]
    ensures Digits(data) == Whole(s) + [D1(x), D2(x, y), D3(y, 0)]
  {
    WholePair(s, x, y, t, data);
    Phase3Next(|s|);
    Phase3Next(|s| + 1);
  }

  lemma FieldsAre(a: Alphabet, x: byte, y: byte, z: byte)
    ensures var n := Join24(x, y, z);
      && Field(a, n, 0) == CharOf(a, D1(x)) && Field(a, n, 1) == CharOf(a, D2(x, y))
      && Field(a, n, 2) == CharOf(a, D3(y, z)) && Field(a, n, 3) == CharOf(a, D4(z))
  {
    Fields24(x, y, z);
  }

  lemma BlockText(a: Alphabet, x: byte, y: byte, z: byte)
    ensures var n := Join24(x, y, z);
      Text(a, [D1(x), D2(x, y), D3(y, z), D4(z)]) == [Field(a, n, 0), Field(a, n, 1), Field(a, n, 2), Field(a, n, 3)]
  {
    FieldsAre(a, x, y, z);
  }

  lemma LastText(a: Alphabet, data: seq<byte>, i: nat)
    requires i < |data| <= i + 2
    ensures var n := Join24(data[i], if i + 1 < |data| then data[i + 1] else 0, 0);
      Text(a, LastDigits(data, i)) ==
        [Field(a, n, 0), Field(a, n, 1)] + if i + 1 < |data| then [Field(a, n, 2)] else []
  {
    FieldsAre(a, data[i], if i + 1 < |data| then data[i + 1] else 0, 0);
  }

  /** One turn of the block loop. */
  lemma BlockTurn(a: Alphabet, data: seq<byte>, i: nat)
    requires i + 2 < |data| && Phase3(i) == 0
    ensures var n := Join24(data[i], data[i + 1], data[i + 2]);
      Text(a, Whole(data[..i + 3])) ==
        Text(a, Whole(data[..i])) + [Field(a, n, 0), Field(a, n, 1), Field(a, n, 2), Field(a, n, 3)]
  {
    var x, y, z := data[i], data[i + 1], data[i + 2];
    WholeTriple(data[..i], x, y, z, data[..i + 2], data[..i + 3]);
    BlockText(a, x, y, z);
    TextAppend(a, Whole(data[..i]), [D1(x), D2(x, y), D3(y, z), D4(z)]);
  }

  /** The block encoder of Secret and SamlClient (standard, padded) and of OktaClient (URL alphabet, unpadded). */
  method BlockEncode(a: Alphabet, padded: bool, data: seq<byte>) returns (out: string)
    ensures out == Encoded(a, padded, data)
  {
    out := "";
    var i: nat := 0;
    while i + 2 < |data|
      invariant i <= |data| && Phase3(i) == 0
      invariant out == Text(a, Whole(data[..i]))
    {
      var n := Join24(data[i], data[i + 1], data[i + 2]);
      BlockTurn(a, data, i);
      out := out + [Field(a, n, 0), Field(a, n, 1), Field(a, n, 2), Field(a, n, 3)];
      i := i + 3;
    }
    if i < |data| {
      var last := LastBlock(a, padded, data, i);
      BlocksAreEncoded(a, padded, data, i, out, last);
      out := out + last;
    } else {
      assert data[..i] == data;
      DigitsLength(data);
    }
  }

  lemma BlocksAreEncoded(a: Alphabet, padded: bool, data: seq<byte>, i: nat, out: string, last: string)
    requires i < |data| <= i + 2 && Phase3(i) == 0 && out == Text(a, Whole(data[..i]))
    requires last == Text(a, LastDigits(data, i)) + if padded then Padding(|LastDigits(data, i)|) else ""
    ensures out + last == Encoded(a, padded, data)
  {
    ShortDigits(data, i);
    TextAppend(a, Whole(data[..i]), LastDigits(data, i));
  }

  /** The branch for one or two bytes left over. */
  method LastBlock(a: Alphabet, padded: bool, data: seq<byte>, i: nat) returns (out: string)
    requires i < |data| <= i + 2
    ensures out == Text(a, LastDigits(data, i)) + if padded then Padding(|LastDigits(data, i)|) else ""
  {
    var second := i + 1 < |data|;
    var n := Join24(data[i], if second then data[i + 1] else 0, 0);
    LastText(a, data, i);
    out := [Field(a, n, 0), Field(a, n, 1)];
    if second {
      out := out + [Field(a, n, 2)];
    } else if padded {
      out := out + "=";
    }
    if padded {
      out := out + "=";
    }
  }

  /** The inner loop of the streaming encoder: digits come out while there are six bits or more. */
  method EmitDigits(val: int, start: nat) returns (ds: seq<digit>, bits: int)
    requires start in {2, 4, 6}
    ensures bits == (if start == 6 then -6 else start - 6)
    ensures ds == if start == 6 then [Shr(val, 6) % 64, val % 64] else [Shr(val, start) % 64]
  {
    ds, bits := [], start;
    while bits >= 0
      invariant bits in {start, start - 6, -6}
      invariant bits == start ==> ds == []
      invariant bits == start - 6 ==> ds == [Shr(val, start) % 64]
      invariant bits != start && bits != start - 6 ==> start == 6 && ds == [Shr(val, 6) % 64, val % 64]
      decreases bits + 6
    {
      ds := ds + [Shr(val, bits) % 64];
      bits := bits - 6;
    }
  }

  /** What the streaming encoder emits for byte `i` is what that byte completes. */
  lemma StreamTurn(data: seq<byte>, i: nat, before: int, val: int)
    requires i < |data| && (0 < i ==> before % 256 == data[i - 1])
    requires val == Wrap32(before * 256 + data[i])
    ensures val % 256 == data[i]
    ensures Whole(data[..i + 1]) == Whole(data[..i]) +
      if Phase3(i) == 2 then [Shr(val, 6) % 64, val % 64] else [Shr(val, 2 * (Phase3(i)) + 2) % 64]
  {
    var c := data[i];
    assert data[..i] + [c] == data[..i + 1];
    if Phase3(i) == 0 {
      AppendFirst(data[..i], c);
      PushFirstByte(before, c, val);
    } else if Phase3(i) == 1 {
      AppendSecond(data[..i], data[i - 1], c);
      PushByte(before, data[i - 1], c, val);
    } else {
      AppendThird(data[..i], data[i - 1], c);
      PushByte(before, data[i - 1], c, val);
    }
  }

  /** The digit that flushes the left-over bits. */
  lemma StreamEnd(data: seq<byte>, val: int)
    requires Phase3(|data|) != 0 && val % 256 == data[|data| - 1]
    ensures Rest(data) == [Shr(Wrap32(val * 256), 2 * (Phase3(|data|)) + 2) % 64]
  {
    PushNothing(val, data[|data| - 1], Wrap32(val * 256));
  }

  /** The streaming encoder of ApiUtil, whose accumulator overflows on all but the shortest inputs. */
  method StreamEncode(data: seq<byte>) returns (out: string)
    ensures out == Encoded(Standard, true, data)
  {
    out := "";
    var val, bits := 0, -6;
    for i := 0 to |data|
      invariant bits == 2 * Phase3(i) - 6
      invariant 0 < i ==> val % 256 == data[i - 1]
      invariant out == Text(Standard, Whole(data[..i]))
    {
      ghost var before := val;
      val := Wrap32(val * 256 + data[i]);
      StreamTurn(data, i, before, val);
      Phase3Next(i);
      var ds;
      ds, bits := EmitDigits(val, bits + 8);
      TextAppend(Standard, Whole(data[..i]), ds);
      out := out + Text(Standard, ds);
    }
    assert data[..|data|] == data;
    var last := FlushDigit(data, val, bits);
    TextAppend(Standard, Whole(data), Rest(data));
    DigitsLength(data);
    Phase4IsRemainder(|out + last|);
    out := Pad(out + last);
  }

  /** The digit that flushes the left-over bits, if there are any. */
  method FlushDigit(data: seq<byte>, val: int, bits: int) returns (out: string)
    requires bits == 2 * Phase3(|data|) - 6 && (data != [] ==> val % 256 == data[|data| - 1])
    ensures out == Text(Standard, Rest(data))
  {
    out := "";
    if bits > -6 {
      StreamEnd(data, val);
      out := [CharOf(Standard, Shr(Wrap32(val * 256), bits + 8) % 64)];
    }
  }

  method Pad(text: string) returns (out: string)
    requires |text| % 4 != 1
    ensures out == text + Padding(|text|) && |out| % 4 == 0
  {
    out := text;
    Phase4IsRemainder(|text|);
    Phase4Next(|text|);
    Phase4Next(|text| + 1);
    while |out| % 4 != 0
      invariant out in {text, text + "=", text + "=="}
      invariant |out| == |text| + 1 ==> Phase4(|text|) >= 2
      invariant |out| == |text| + 2 ==> Phase4(|text|) == 2
      decreases |text| + 2 - |out|
    {
      if |out| == |text| + 1 {
        assert text + "=" + "=" == text + "==";
      }
      out := out + "=";
    }
  }

  // ---- The decoders ----

  /** How a decoder treats a character that is not of its alphabet. */
  datatype Policy =
    | SkipAll       // Secret: ignored
    | SkipSpace     // SamlClient: white space ignored, anything else rejected
    | Reject        // OktaClient: rejected

  predicate Skipped(policy: Policy, a: Alphabet, c: char) {
    && ValueOf(a, c) < 0 && c != '='
    && (policy.SkipAll? || (policy.SkipSpace? && c in {'\n', '\r', ' ', '\t'}))
  }

  /** The digits up to the first '=', unless a rejected character comes before it. */
  function Cleaned(policy: Policy, a: Alphabet, text: string): Option<seq<digit>> {
    if text == "" || text[0] == '=' then Some([])
    else if Skipped(policy, a, text[0]) then Cleaned(policy, a, text[1..])
    else
      var v := ValueOf(a, text[0]);
      if v < 0 then None
      else
        match Cleaned(policy, a, text[1..])
        case None => None
        case Some(ds) => Some([v] + ds)
  }

  /** The part of a text that a decoder looks at: what comes before the first '='. */
  function BeforePadding(text: string): (t: string)
    ensures t <= text && '=' !in t && (|t| < |text| ==> text[|t|] == '=')
  {
    if text == "" || text[0] == '=' then "" else [text[0]] + BeforePadding(text[1..])
  }

  /** A character outside the table that the decoder passes over. */
  predicate PassedOver(policy: Policy, c: char) {
    match policy
    case SkipAll => true
    case SkipSpace => c == '\n' || c == '\r' || c == ' ' || c == '\t'
    case Reject => false
  }

  /** The characters of the table, in order. */
  function OfTable(a: Alphabet, t: string): string {
    if t == "" then "" else (if InTable(a, t[0]) then [t[0]] else "") + OfTable(a, t[1..])
  }

  /** The text has a character that is neither in the table nor passed over. */
  ghost predicate Foreign(policy: Policy, a: Alphabet, t: string) {
    exists c :: c in t && !InTable(a, c) && !PassedOver(policy, c)
  }

  /**
   * Decoding fails if and only if a character before the first '=' is neither in the table nor passed over; otherwise
   * the digits spell the table characters before it, in order, and no other digits do.
   */
  lemma CleanedExactly(policy: Policy, a: Alphabet, text: string)
    ensures Cleaned(policy, a, text).None? <==> Foreign(policy, a, BeforePadding(text))
    ensures Cleaned(policy, a, text).Some? ==>
      forall ds :: Text(a, ds) == OfTable(a, BeforePadding(text)) <==> ds == Cleaned(policy, a, text).value
  {
    CleanedSpells(policy, a, text);
    if Cleaned(policy, a, text).Some? {
      forall ds ensures Text(a, ds) == OfTable(a, BeforePadding(text)) <==> ds == Cleaned(policy, a, text).value {
        if Text(a, ds) == OfTable(a, BeforePadding(text)) {
          TextIsInjective(a, ds, Cleaned(policy, a, text).value);
        }
      }
    }
  }

  lemma {:induction false} CleanedSpells(policy: Policy, a: Alphabet, text: string)
    ensures Spells(policy, a, Cleaned(policy, a, text), BeforePadding(text))
    decreases |text|
  {
    if text == "" || text[0] == '=' {
      assert Text(a, []) == "";
    } else {
      CleanedSpells(policy, a, text[1..]);
      OneMoreSpelt(policy, a, text, text[0], text[1..]);
    }
  }

  ghost predicate Spells(policy: Policy, a: Alphabet, ds: Option<seq<digit>>, t: string) {
    (ds.None? <==> Foreign(policy, a, t)) && (ds.Some? ==> Text(a, ds.value) == OfTable(a, t))
  }

  lemma OneMoreSpelt(policy: Policy, a: Alphabet, text: string, c: char, rest: string)
    requires text != "" && c == text[0] && c != '=' && rest == text[1..]
    requires Spells(policy, a, Cleaned(policy, a, rest), BeforePadding(rest))
    ensures Spells(policy, a, Cleaned(policy, a, text), BeforePadding(text))
  {
    var t := BeforePadding(rest);
    assert BeforePadding(text) == [c] + t && ([c] + t)[1..] == t;
    ForeignFirst(policy, a, c, t);
    ValueIsPosition(a, c);
    if ValueOf(a, c) >= 0 {
      CharIsTableEntry(a, ValueOf(a, c));
      if Cleaned(policy, a, rest).Some? {
        TextAppend(a, [ValueOf(a, c)], Cleaned(policy, a, rest).value);
        assert Text(a, [ValueOf(a, c)]) == [c];
      }
    }
  }

  lemma ForeignFirst(policy: Policy, a: Alphabet, c: char, t: string)
    ensures Foreign(policy, a, [c] + t) <==> (!InTable(a, c) && !PassedOver(policy, c)) || Foreign(policy, a, t)
  {
    assert forall x :: x in [c] + t <==> x == c || x in t;
  }

  /** Different digits spell different texts. */
  lemma TextIsInjective(a: Alphabet, ds: seq<digit>, es: seq<digit>)
    requires Text(a, ds) == Text(a, es)
    ensures ds == es
  {
    forall i | 0 <= i < |ds| ensures ds[i] == es[i] {
      assert Text(a, ds)[i] == Text(a, es)[i];
      TableIsInverted(a, ds[i]);
      TableIsInverted(a, es[i]);
    }
  }

  /** The bytes that the digits complete. */
  function Undigits(ds: seq<digit>): seq<byte> {
    if |ds| < 2 then []
    else Undigits(ds[..|ds| - 1]) + Filled(ds[|ds| - 2], Phase4(|ds| - 1), ds[|ds| - 1])
  }

  /** The byte that digit `v` completes, when `last` is the digit before and `phase` its position in four. */
  function Filled(last: digit, phase: nat, v: digit): seq<byte> {
    if phase == 0 then [] else if phase == 1 then [B1(last, v)] else if phase == 2 then [B2(last, v)] else [B3(last, v)]
  }

  lemma UndigitsAppend(ds: seq<digit>, v: digit)
    ensures Undigits(ds + [v]) == Undigits(ds) + if ds == [] then [] else Filled(ds[|ds| - 1], Phase4(|ds|), v)
  {
    assert (ds + [v])[..|ds|] == ds;
  }

  /** The bits waiting after `n` digits. */
  function Waiting(n: nat): nat {
    if Phase4(n) == 0 then 0 else if Phase4(n) == 1 then 6 else if Phase4(n) == 2 then 4 else 2
  }

  /** What the decoder pushes for the next digit is the byte that digit completes. */
  lemma DecodeTurn(ds: seq<digit>, v: digit, before: int, buf: int)
    requires ds != [] ==> before % 64 == ds[|ds| - 1]
    requires buf == Wrap32(before * 64 + v)
    ensures buf % 64 == v
    ensures var bits := Waiting(|ds|) + 6;
      && Waiting(|ds| + 1) == (if bits >= 8 then bits - 8 else bits)
      && Undigits(ds + [v]) == Undigits(ds) + if bits >= 8 then [Shr(buf, bits - 8) % 256] else []
  {
    UndigitsAppend(ds, v);
    PushDigit(before, before % 64, v, buf);
    Phase4Next(|ds|);
  }

  lemma NextDigit(policy: Policy, a: Alphabet, rest: string, next: string)
    requires rest != "" && next == rest[1..] && rest[0] != '=' && ValueOf(a, rest[0]) >= 0
    ensures Continues(Cleaned(policy, a, rest), [ValueOf(a, rest[0])], Cleaned(policy, a, next))
  {
  }

  lemma ContinuesOn(x: Option<seq<digit>>, ds: seq<digit>, y: Option<seq<digit>>, v: digit, z: Option<seq<digit>>)
    requires Continues(x, ds, y) && Continues(y, [v], z)
    ensures Continues(x, ds + [v], z)
  {
    if z.Some? {
      assert ds + ([v] + z.value) == ds + [v] + z.value;
    }
  }

  method Decode(policy: Policy, a: Alphabet, text: string) returns (ok: bool, out: seq<byte>)
    ensures ok <==> !Foreign(policy, a, BeforePadding(text))
    ensures ok ==> Cleaned(policy, a, text).Some? && out == Undigits(Cleaned(policy, a, text).value)
  {
    ok, out := DecodeDigits(policy, a, text);
    CleanedExactly(policy, a, text);
  }

  /** The decoding loop. */
  method DecodeDigits(policy: Policy, a: Alphabet, text: string) returns (ok: bool, out: seq<byte>)
    ensures ok <==> Cleaned(policy, a, text).Some?
    ensures ok ==> out == Undigits(Cleaned(policy, a, text).value)
  {
    out := [];
    assert text[0..] == text && text[|text|..] == "";
    var buf, bits := 0, 0;
    ghost var ds: seq<digit> := [];
    for i := 0 to |text|
      invariant bits == Waiting(|ds|)
      invariant ds != [] ==> buf % 64 == ds[|ds| - 1]
      invariant out == Undigits(ds)
      invariant Continues(Cleaned(policy, a, text), ds, Cleaned(policy, a, text[i..]))
    {
      var c := text[i];
      assert text[i..][1..] == text[i + 1..];
      if c == '=' {
        assert Cleaned(policy, a, text[i..]) == Some([]);
        assert ds + [] == ds;
        return true, out;
      }
      var v := ValueOf(a, c);
      if v < 0 {
        if policy.SkipAll? || (policy.SkipSpace? && c in {'\n', '\r', ' ', '\t'}) {
          continue;
        }
        return false, out;
      }
      ghost var before := buf;
      buf := Wrap32(buf * 64 + v);
      DecodeTurn(ds, v, before, buf);
      NextDigit(policy, a, text[i..], text[i + 1..]);
      ContinuesOn(Cleaned(policy, a, text), ds, Cleaned(policy, a, text[i..]), v, Cleaned(policy, a, text[i + 1..]));
      bits := bits + 6;
      if bits >= 8 {
        bits := bits - 8;
        out := out + [Shr(buf, bits) % 256];
      }
      ds := ds + [v];
    }
    assert Cleaned(policy, a, text[|text|..]) == Some([]);
    assert ds + [] == ds;
    ok := true;
  }

  /** The digits of the whole text are those already seen, then those of the rest of it. */
  ghost predicate Continues(all: Option<seq<digit>>, seen: seq<digit>, rest: Option<seq<digit>>) {
    (all.Some? <==> rest.Some?) && (rest.Some? ==> all.value == seen + rest.value)
  }

  // ---- Decoding inverts encoding ----

  /** The first digit of a group completes no byte, each later one the byte it ends in. */
  lemma UndigitsFirst(w: seq<digit>, d: digit)
    requires Phase4(|w|) == 0
    ensures Undigits(w + [d]) == Undigits(w)
  {
    UndigitsAppend(w, d);
  }

  lemma UndigitsSecond(w: seq<digit>, x: byte, y: byte)
    requires Phase4(|w|) == 1 && w[|w| - 1] == D1(x)
    ensures Undigits(w + [D2(x, y)]) == Undigits(w) + [x]
  {
    UndigitsAppend(w, D2(x, y));
    JoinedAgain(x, y, 0);
  }

  lemma UndigitsThird(w: seq<digit>, x: byte, y: byte, z: byte)
    requires Phase4(|w|) == 2 && w[|w| - 1] == D2(x, y)
    ensures Undigits(w + [D3(y, z)]) == Undigits(w) + [y]
  {
    UndigitsAppend(w, D3(y, z));
    JoinedAgain(x, y, z);
  }

  lemma UndigitsFourth(w: seq<digit>, y: byte, z: byte)
    requires Phase4(|w|) == 3 && w[|w| - 1] == D3(y, z)
    ensures Undigits(w + [D4(z)]) == Undigits(w) + [z]
  {
    UndigitsAppend(w, D4(z));
    JoinedAgain(0, y, z);
  }

  lemma UndigitsLastTwo(w: seq<digit>, x: byte, y: byte, z: byte)
    requires Phase4(|w|) == 2 && w[|w| - 1] == D2(x, y)
    ensures Undigits(w + [D3(y, z), D4(z)]) == Undigits(w) + [y] + [z]
  {
    var u := w + [D3(y, z)];
    UndigitsThird(w, x, y, z);
    Phase4Next(|w|);
    UndigitsFourth(u, y, z);
    TwoDigits(w, D3(y, z), D4(z));
  }

  /** Where the digits completed so far end: after `s` they decode to all bytes but one whose last bits are missing. */
  ghost predicate HalfDecoded(s: seq<byte>, w: seq<digit>) {
    var n := |s|;
    && Phase4(|w|) == Phase3(n)
    && Undigits(w) == (if Phase3(n) == 0 then s else s[..n - 1])
    && (Phase3(n) == 1 ==> w[|w| - 1] == D1(s[n - 1]))
    && (Phase3(n) == 2 ==> w[|w| - 1] == D2(s[n - 2], s[n - 1]))
  }

  lemma HalfDecodedNext(front: seq<byte>, w: seq<digit>, c: byte, s: seq<byte>)
    requires HalfDecoded(front, w) && s == front + [c]
    ensures HalfDecoded(s, w + Completed(if front == [] then 0 else front[|front| - 1], Phase3(|front|), c))
  {
    var n := |front|;
    if Phase3(n) == 0 {
      HalfDecodedFirst(front, w, c, s, D1(c), w + [D1(c)]);
    } else if Phase3(n) == 1 {
      HalfDecodedSecond(front, w, front[n - 1], c, s, w + [D2(front[n - 1], c)]);
    } else {
      HalfDecodedThird(front, w, front[n - 1], c, s, w + [D3(front[n - 1], c), D4(c)]);
    }
  }

  lemma HalfDecodedFirst(front: seq<byte>, w: seq<digit>, c: byte, s: seq<byte>, d: digit, w': seq<digit>)
    requires HalfDecoded(front, w) && s == front + [c] && Phase3(|front|) == 0 && d == D1(c) && w' == w + [d]
    ensures HalfDecoded(s, w')
  {
    Phase3Next(|front|);
    Phase4Next(|w|);
    UndigitsFirst(w, d);
  }

  lemma HalfDecodedSecond(front: seq<byte>, w: seq<digit>, last: byte, c: byte, s: seq<byte>, w': seq<digit>)
    requires HalfDecoded(front, w) && s == front + [c] && Phase3(|front|) == 1
    requires last == front[|front| - 1] && w' == w + [D2(last, c)]
    ensures HalfDecoded(s, w')
  {
    Phase3Next(|front|);
    Phase4Next(|w|);
    UndigitsSecond(w, last, c);
    LastOne(front, last, c, s);
  }

  lemma HalfDecodedThird(front: seq<byte>, w: seq<digit>, last: byte, c: byte, s: seq<byte>, w': seq<digit>)
    requires HalfDecoded(front, w) && s == front + [c] && Phase3(|front|) == 2
    requires last == front[|front| - 1] && w' == w + [D3(last, c), D4(c)]
    ensures HalfDecoded(s, w')
  {
    Phase3Next(|front|);
    Phase4Next(|w|);
    Phase4Next(|w| + 1);
    UndigitsLastTwo(w, front[|front| - 2], last, c);
    LastOne(front, last, c, s);
  }

  lemma LastOne(front: seq<byte>, last: byte, c: byte, s: seq<byte>)
    requires front != [] && last == front[|front| - 1] && s == front + [c]
    ensures front[..|front| - 1] + [last] == front == s[..|front|]
    ensures front[..|front| - 1] + [last] + [c] == s
  {
  }

  lemma {:induction false} UndigitsWhole(s: seq<byte>)
    ensures HalfDecoded(s, Whole(s))
  {
    if s != [] {
      var n := |s| - 1;
      UndigitsWhole(s[..n]);
      HalfDecodedNext(s[..n], Whole(s[..n]), s[n], s);
    }
  }

  /** The rest, filled with zero bits, gives the missing byte. */
  lemma UndigitsRest(s: seq<byte>, w: seq<digit>)
    requires HalfDecoded(s, w)
    ensures Undigits(w + Rest(s)) == s
  {
    var n := |s|;
    if Phase3(n) == 0 {
      assert w + Rest(s) == w;
    } else {
      assert s[..n - 1] + [s[n - 1]] == s;
      if Phase3(n) == 1 {
        UndigitsSecond(w, s[n - 1], 0);
      } else {
        UndigitsThird(w, s[n - 2], s[n - 1], 0);
      }
    }
  }

  lemma UndigitsInvertsDigits(s: seq<byte>)
    ensures Undigits(Digits(s)) == s
  {
    UndigitsWhole(s);
    UndigitsRest(s, Whole(s));
  }

  /** What decoding and encoding again keeps: all digits of whole groups, and all but the last of an unfinished one. */
  ghost predicate Recoded(ds: seq<digit>, u: seq<byte>) {
    var n, p := |ds|, Phase4(|ds|);
    && Phase3(|u|) == (if p == 0 then 0 else p - 1)
    && Whole(u) == (if p == 0 then ds else ds[..n - 1])
    && (p >= 2 ==> u != [])
    && (p == 2 ==> u[|u| - 1] % 4 == ds[n - 1] / 16)
    && (p == 3 ==> u[|u| - 1] % 16 == ds[n - 1] / 4)
  }

  lemma RecodedFirst(ds: seq<digit>, u: seq<byte>, v: digit, ds': seq<digit>)
    requires Recoded(ds, u) && ds' == ds + [v] && Phase4(|ds|) == 0 && Phase4(|ds'|) == 1
    ensures Recoded(ds', u)
  {
    assert ds'[..|ds|] == ds;
  }

  lemma RecodedSecond(ds: seq<digit>, u: seq<byte>, last: digit, v: digit, ds': seq<digit>, u': seq<byte>)
    requires ds != [] && last == ds[|ds| - 1] && Recoded(ds, u) && ds' == ds + [v] && u' == u + [B1(last, v)]
    requires Phase4(|ds|) == 1 && Phase4(|ds'|) == 2 && Phase3(|u'|) == 1
    ensures Recoded(ds', u')
  {
    SplitAgain(last, v);
    WholeAppend(u, B1(last, v));
    AllButLast(ds, last, v);
  }

  lemma RecodedThird(ds: seq<digit>, u: seq<byte>, last: digit, v: digit, ds': seq<digit>, u': seq<byte>)
    requires ds != [] && last == ds[|ds| - 1] && Recoded(ds, u) && ds' == ds + [v] && u' == u + [B2(last, v)]
    requires Phase4(|ds|) == 2 && Phase4(|ds'|) == 3 && Phase3(|u'|) == 2
    ensures Recoded(ds', u')
  {
    SplitAgain(last, v);
    WholeAppend(u, B2(last, v));
    DigitAgain(u[|u| - 1], last, v);
    AllButLast(ds, last, v);
  }

  lemma RecodedFourth(ds: seq<digit>, u: seq<byte>, last: digit, v: digit, ds': seq<digit>, u': seq<byte>)
    requires ds != [] && last == ds[|ds| - 1] && Recoded(ds, u) && ds' == ds + [v] && u' == u + [B3(last, v)]
    requires Phase4(|ds|) == 3 && Phase4(|ds'|) == 0 && Phase3(|u'|) == 0
    ensures Recoded(ds', u')
  {
    SplitAgain(last, v);
    WholeAppend(u, B3(last, v));
    DigitAgain(u[|u| - 1], last, v);
    AllButLast(ds, last, v);
    assert ds[..|ds| - 1] + [last, v] == ds';
  }

  lemma AllButLast(ds: seq<digit>, last: digit, v: digit)
    requires ds != [] && last == ds[|ds| - 1]
    ensures ds[..|ds| - 1] + [last] == ds == (ds + [v])[..|ds|]
  {
  }

  lemma RecodedNext(ds: seq<digit>, u: seq<byte>, last: digit, v: digit, ds': seq<digit>, u': seq<byte>)
    requires Recoded(ds, u) && ds' == ds + [v] && (ds != [] ==> last == ds[|ds| - 1])
    requires u' == u + if ds == [] then [] else Filled(last, Phase4(|ds|), v)
    ensures Recoded(ds', u')
  {
    Phase4Next(|ds|);
    Phase3Next(|u|);
    if Phase4(|ds|) == 0 {
      assert u' == u;
      RecodedFirst(ds, u, v, ds');
    } else if Phase4(|ds|) == 1 {
      RecodedSecond(ds, u, last, v, ds', u');
    } else if Phase4(|ds|) == 2 {
      RecodedThird(ds, u, last, v, ds', u');
    } else {
      RecodedFourth(ds, u, last, v, ds', u');
    }
  }

  lemma {:induction false} AllRecoded(ds: seq<digit>)
    ensures Recoded(ds, Undigits(ds))
  {
    if ds != [] {
      var front, v := ds[..|ds| - 1], ds[|ds| - 1];
      AllRecoded(front);
      UndigitsAppend(front, v);
      assert ds == front + [v];
      RecodedNext(front, Undigits(front), if front == [] then 0 else front[|front| - 1], v, ds, Undigits(ds));
    }
  }

  /** Whatever the digits, encoding what they decode to gives them back, but for the last of an unfinished group. */
  lemma DecodedReencodes(ds: seq<digit>)
    ensures Whole(Undigits(ds)) == if Phase4(|ds|) == 0 then ds else ds[..|ds| - 1]
  {
    AllRecoded(ds);
  }

  /** Reading back the text of digits, up to the end or the padding. */
  lemma {:induction false} CleanedText(policy: Policy, a: Alphabet, ds: seq<digit>, tail: string)
    requires tail == "" || tail[0] == '='
    ensures Cleaned(policy, a, Text(a, ds) + tail) == Some(ds)
    decreases |ds|
  {
    var text := Text(a, ds) + tail;
    if ds == [] {
      assert text == tail;
    } else {
      TableIsInverted(a, ds[0]);
      assert text[1..] == Text(a, ds[1..]) + tail;
      CleanedText(policy, a, ds[1..], tail);
      assert ds == [ds[0]] + ds[1..];
      assert text[0] == CharOf(a, ds[0]);
    }
  }

  /** Every decoder inverts every encoder of its alphabet, padded or not, on every byte sequence. */
  lemma RoundTrip(policy: Policy, a: Alphabet, padded: bool, s: seq<byte>)
    ensures Cleaned(policy, a, Encoded(a, padded, s)) == Some(Digits(s))
    ensures Undigits(Digits(s)) == s
  {
    var tail := if padded then Padding(|Digits(s)|) else "";
    CleanedText(policy, a, Digits(s), tail);
    UndigitsInvertsDigits(s);
  }

  /** The text without the characters that the decoder skips. */
  function Stripped(policy: Policy, a: Alphabet, text: string): string {
    if text == "" then ""
    else if Skipped(policy, a, text[0]) then Stripped(policy, a, text[1..])
    else [text[0]] + Stripped(policy, a, text[1..])
  }

  lemma {:induction false} StrippingIsInvisible(policy: Policy, a: Alphabet, text: string)
    ensures Cleaned(policy, a, text) == Cleaned(policy, a, Stripped(policy, a, text))
    decreases |text|
  {
    if text != "" {
      StrippingIsInvisible(policy, a, text[1..]);
      if !Skipped(policy, a, text[0]) {
        assert Stripped(policy, a, text)[1..] == Stripped(policy, a, text[1..]);
      }
    }
  }

  /** Line breaks and spaces anywhere in an encoded text, or for the skipping decoder anything, change nothing. */
  lemma RoundTripThroughNoise(policy: Policy, a: Alphabet, padded: bool, s: seq<byte>, text: string)
    requires Stripped(policy, a, text) == Encoded(a, padded, s)
    ensures Cleaned(policy, a, text) == Some(Digits(s)) && Undigits(Digits(s)) == s
  {
    StrippingIsInvisible(policy, a, text);
    RoundTrip(policy, a, padded, s);
  }
}
