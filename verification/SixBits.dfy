/** The arithmetic under base64: bytes cut into six-bit digits, digits joined into bytes, and 32-bit accumulators. */
module SixBits {
  import opened Bytes

  type digit = x: int | 0 <= x < 64

  // ---- Digits of three bytes, bytes of four digits ----

  function D1(a: byte): digit { a / 4 }
  function D2(a: byte, b: byte): digit { a % 4 * 16 + b / 16 }
  function D3(b: byte, c: byte): digit { b % 16 * 4 + c / 64 }
  function D4(c: byte): digit { c % 64 }

  function B1(d: digit, e: digit): byte { var x: int := d; x * 4 + e / 16 }
  function B2(e: digit, f: digit): byte { var x: int := e; x % 16 * 16 + f / 4 }
  function B3(f: digit, g: digit): byte { var x: int := f; x % 4 * 64 + g }

  lemma SplitAgain(e: digit, f: digit)
    ensures D1(B1(e, f)) == e && B1(e, f) % 4 == f / 16
    ensures B2(e, f) / 16 == e % 16 && B2(e, f) % 16 == f / 4
    ensures B3(e, f) / 64 == e % 4 && D4(B3(e, f)) == f
  {
  }

  lemma DigitAgain(a: byte, e: digit, f: digit)
    ensures a % 4 == e / 16 ==> D2(a, B2(e, f)) == e
    ensures a % 16 == e / 4 ==> D3(a, B3(e, f)) == e
  {
    SplitAgain(e, f);
  }

  lemma JoinedAgain(a: byte, b: byte, c: byte)
    ensures B1(D1(a), D2(a, b)) == a
    ensures B2(D2(a, b), D3(b, c)) == b
    ensures B3(D3(b, c), D4(c)) == c
  {
  }

  // ---- Shifts ----

  /** `x >> n` on a two's-complement integer: each place halves, rounding down. */
  function Shr(x: int, n: nat): int
    decreases n
  {
    if n == 0 then x else Shr(x / 2, n - 1)
  }

  lemma Shr2(x: int)
    ensures Shr(x, 2) == x / 4
  {
    assert Shr(x, 2) == Shr(x / 2 / 2, 0);
  }

  lemma Shr4(x: int)
    ensures Shr(x, 4) == x / 16
  {
    Shr2(x / 2 / 2);
    assert Shr(x, 4) == Shr(x / 2, 3) == Shr(x / 2 / 2, 2);
  }

  lemma Shr6(x: int)
    ensures Shr(x, 6) == x / 64
  {
    Shr4(x / 2 / 2);
    assert Shr(x, 6) == Shr(x / 2, 5) == Shr(x / 2 / 2, 4);
  }

  lemma Shr12(x: int)
    ensures Shr(x, 12) == x / 64 / 64
  {
    ShrTwice(x, 6, 6);
    Shr6(x);
    Shr6(x / 64);
  }

  lemma Shr18(x: int)
    ensures Shr(x, 18) == x / 64 / 64 / 64
  {
    ShrTwice(x, 6, 12);
    Shr6(x);
    Shr12(x / 64);
  }

  lemma {:induction false} ShrTwice(x: int, m: nat, n: nat)
    ensures Shr(x, m + n) == Shr(Shr(x, m), n)
    decreases m
  {
    if m > 0 {
      ShrTwice(x / 2, m - 1, n);
    }
  }

  // ---- The block encoder's 24 bits ----

  function Join24(a: byte, b: byte, c: byte): u32 {
    var x: int, y: int := a, b;
    x * 0x1_0000 + y * 0x100 + c
  }

  lemma LowDigit(q: int, r: int)
    requires 0 <= r < 64
    ensures (q * 64 + r) / 64 == q && (q * 64 + r) % 64 == r
  {
  }

  lemma FourDigits(d: digit, e: digit, f: digit, g: digit, n: int)
    requires n == ((d * 64 + e) * 64 + f) * 64 + g
    ensures n % 64 == g && Shr(n, 6) % 64 == f && Shr(n, 12) % 64 == e && Shr(n, 18) % 64 == d
  {
    LowDigit((d * 64 + e) * 64 + f, g);
    LowDigit(d * 64 + e, f);
    LowDigit(d, e);
    Shr6(n);
    Shr12(n);
    Shr18(n);
  }

  lemma JoinIsDigits(a: byte, b: byte, c: byte)
    ensures Join24(a, b, c) == ((D1(a) * 64 + D2(a, b)) * 64 + D3(b, c)) * 64 + D4(c)
  {
    assert a == a / 4 * 4 + a % 4 && b == b / 16 * 16 + b % 16 && c == c / 64 * 64 + c % 64;
  }

  /** The four six-bit fields of the 24 bits are the four digits. */
  lemma Fields24(a: byte, b: byte, c: byte)
    ensures var n := Join24(a, b, c);
      && Shr(n, 18) % 64 == D1(a) && Shr(n, 12) % 64 == D2(a, b) && Shr(n, 6) % 64 == D3(b, c) && n % 64 == D4(c)
  {
    JoinIsDigits(a, b, c);
    FourDigits(D1(a), D2(a, b), D3(b, c), D4(c), Join24(a, b, c));
  }

  // ---- Accumulators that overflow ----

  /** A 32-bit two's-complement `int` after its high bits are shifted out. */
  function Wrap32(x: int): int {
    (x + 0x8000_0000) % 0x1_0000_0000 - 0x8000_0000
  }

  lemma AddPages(x: int, m: int)
    ensures (x + m * 0x1000) % 0x1000 == x % 0x1000
  {
  }

  lemma WrapKeepsLowBits(x: int)
    ensures Wrap32(x) % 0x1000 == x % 0x1000
  {
    var q := (x + 0x8000_0000) / 0x1_0000_0000;
    assert x + 0x8000_0000 == q * 0x1_0000_0000 + (x + 0x8000_0000) % 0x1_0000_0000;
    assert Wrap32(x) == x + (-q * 0x10_0000) * 0x1000;
    AddPages(x, -q * 0x10_0000);
  }

  /** Two integers with the same low twelve bits have the same bits in any field among them. */
  lemma SameLow(x: int, y: int)
    requires x % 0x1000 == y % 0x1000
    ensures x % 64 == y % 64 && x % 256 == y % 256
    ensures Shr(x, 2) % 64 == Shr(y, 2) % 64 && Shr(x, 4) % 64 == Shr(y, 4) % 64 && Shr(x, 6) % 64 == Shr(y, 6) % 64
    ensures Shr(x, 2) % 256 == Shr(y, 2) % 256 && Shr(x, 4) % 256 == Shr(y, 4) % 256
  {
    Shr2(x); Shr2(y);
    Shr4(x); Shr4(y);
    Shr6(x); Shr6(y);
    var k := x / 0x1000 - y / 0x1000;
    assert x == y + k * 0x1000;
    LowFields(y, k);
  }

  lemma Add64(x: int, m: int)
    ensures (x + m * 64) % 64 == x % 64
  {
  }

  lemma Add256(x: int, m: int)
    ensures (x + m * 256) % 256 == x % 256
  {
  }

  lemma LowFields(y: int, k: int)
    ensures var x := y + k * 0x1000;
      && x % 64 == y % 64 && x % 256 == y % 256
      && x / 4 % 64 == y / 4 % 64 && x / 16 % 64 == y / 16 % 64 && x / 64 % 64 == y / 64 % 64
      && x / 4 % 256 == y / 4 % 256 && x / 16 % 256 == y / 16 % 256
  {
    Add64(y, k * 64);
    Add256(y, k * 16);
    Quarter(y, k * 0x400);
    Add64(y / 4, k * 16);
    Add256(y / 4, k * 4);
    Quarter(y / 4, k * 0x100);
    Quarters(y);
    Quarters(y + k * 0x1000);
    Add64(y / 16, k * 4);
    Add256(y / 16, k);
    Quarter(y / 16, k * 0x40);
    Add64(y / 64, k);
  }

  lemma Quarter(y: int, m: int)
    ensures (y + m * 4) / 4 == y / 4 + m
  {
  }

  lemma Quarters(y: int)
    ensures y / 16 == y / 4 / 4 && y / 64 == y / 16 / 4
  {
  }

  lemma Div4(q: int, r: int)
    requires 0 <= r < 4
    ensures (q * 4 + r) / 4 == q && (q * 4 + r) % 4 == r
  {
  }

  lemma Div16(q: int, r: int)
    requires 0 <= r < 16
    ensures (q * 16 + r) / 16 == q && (q * 16 + r) % 16 == r
  {
  }

  lemma FieldsOfTwoBytes(last: byte, c: byte)
    ensures var low: int := last;
      var w := low * 256 + c;
      w % 256 == c && Shr(w, 4) % 64 == D2(last, c) && Shr(w, 6) % 64 == D3(last, c) && w % 64 == D4(c)
  {
    Add256(c, last);
    FieldOfD2(last, c);
    FieldOfD3(last, c);
  }

  lemma FieldOfD2(last: byte, c: byte)
    ensures var low: int := last;
      Shr(low * 256 + c, 4) % 64 == D2(last, c)
  {
    var low: int, y: int := last, c;
    Shr4(low * 256 + y);
    Sixteenth(low, y);
    Low64Of(low, y / 16);
  }

  lemma Sixteenth(low: nat, y: nat)
    requires y < 256
    ensures (low * 256 + y) / 16 == low * 16 + y / 16
  {
    Div16(low * 16 + y / 16, y % 16);
  }

  lemma Low64Of(low: nat, s: nat)
    requires s < 16
    ensures (low * 16 + s) % 64 == low % 4 * 16 + s
  {
    Add64(low % 4 * 16 + s, low / 4);
  }

  lemma FieldOfD3(last: byte, c: byte)
    ensures var low: int := last;
      Shr(low * 256 + c, 6) % 64 == D3(last, c) && (low * 256 + c) % 64 == D4(c)
  {
    var low: int, y: int := last, c;
    Shr6(low * 256 + y);
    SixtyFourth(low, y);
    Low64Of2(low, y / 64);
  }

  lemma SixtyFourth(low: nat, y: nat)
    requires y < 256
    ensures (low * 256 + y) / 64 == low * 4 + y / 64 && (low * 256 + y) % 64 == y % 64
  {
    LowDigit(low * 4 + y / 64, y % 64);
  }

  lemma Low64Of2(low: nat, s: nat)
    requires s < 4
    ensures (low * 4 + s) % 64 == low % 16 * 4 + s
  {
    Add64(low % 16 * 4 + s, low / 16);
  }

  /** A byte is pushed, whatever the accumulator has lost: the digits completed depend on the byte before only. */
  lemma PushByte(before: int, last: byte, c: byte, after: int)
    requires before % 256 == last && after == Wrap32(before * 256 + c)
    ensures after % 256 == c
    ensures Shr(after, 4) % 64 == D2(last, c) && Shr(after, 6) % 64 == D3(last, c) && after % 64 == D4(c)
  {
    var q, low: int := before / 256, last;
    assert before * 256 + c == (low * 256 + c) + (q * 16) * 0x1000;
    WrapKeepsLowBits(before * 256 + c);
    AddPages(low * 256 + c, q * 16);
    SameLow(after, low * 256 + c);
    FieldsOfTwoBytes(last, c);
  }

  lemma PushFirstByte(before: int, c: byte, after: int)
    requires after == Wrap32(before * 256 + c)
    ensures after % 256 == c && Shr(after, 2) % 64 == D1(c)
  {
    PushByte(before, before % 256, c, after);
    Shr2(after);
    HighSix(after / 256, c);
  }

  lemma HighSix(q: int, y: nat)
    requires y < 256
    ensures (q * 256 + y) / 4 % 64 == y / 4
  {
    Div4(q * 64 + y / 4, y % 4);
    Add64(y / 4, q);
  }

  /** The encoder's last digit: the accumulator shifted up once more. */
  lemma PushNothing(before: int, last: byte, after: int)
    requires before % 256 == last && after == Wrap32(before * 256)
    ensures Shr(after, 4) % 64 == D2(last, 0) && Shr(after, 6) % 64 == D3(last, 0)
  {
    PushByte(before, last, 0, after);
  }

  lemma FieldsOfTwoDigits(last: digit, v: digit)
    ensures var low: int := last;
      var w := low * 64 + v;
      w % 64 == v && Shr(w, 4) % 256 == B1(last, v) && Shr(w, 2) % 256 == B2(last, v) && w % 256 == B3(last, v)
  {
    LowDigit(last, v);
    FieldOfB1(last, v);
    FieldOfB2(last, v);
    FieldOfB3(last, v);
  }

  lemma FieldOfB1(last: digit, v: digit)
    ensures var low: int := last;
      Shr(low * 64 + v, 4) % 256 == B1(last, v)
  {
    var low: int, y: int := last, v;
    Div16(low * 4 + y / 16, y % 16);
    Shr4(low * 64 + y);
  }

  lemma FieldOfB3(last: digit, v: digit)
    ensures var low: int := last;
      (low * 64 + v) % 256 == B3(last, v)
  {
    var low: int, y: int := last, v;
    Add256(low % 4 * 64 + y, low / 4);
  }

  lemma FieldOfB2(last: digit, v: digit)
    ensures var low: int := last;
      Shr(low * 64 + v, 2) % 256 == B2(last, v)
  {
    var low: int, y: int := last, v;
    Div4(low * 16 + y / 4, y % 4);
    Shr2(low * 64 + y);
    Add256(low % 16 * 16 + y / 4, low / 16);
  }

  /** Pushing a digit into a decoder's accumulator: the byte it completes depends on the digit before only. */
  lemma PushDigit(before: int, last: digit, v: digit, after: int)
    requires before % 64 == last && after == Wrap32(before * 64 + v)
    ensures after % 64 == v
    ensures Shr(after, 4) % 256 == B1(last, v) && Shr(after, 2) % 256 == B2(last, v) && after % 256 == B3(last, v)
  {
    var q, low: int := before / 64, last;
    assert before * 64 + v == (low * 64 + v) + q * 0x1000;
    WrapKeepsLowBits(before * 64 + v);
    AddPages(low * 64 + v, q);
    SameLow(after, low * 64 + v);
    FieldsOfTwoDigits(last, v);
  }

  // ---- Single bits ----

  /** Bit `i` of a byte, counted from the most significant. */
  function BitOfByte(b: byte, i: nat): nat
    requires i < 8
  {
    Shr(b, 7 - i) % 2
  }

  function BitOfDigit(d: digit, i: nat): nat
    requires i < 6
  {
    Shr(d, 5 - i) % 2
  }

  lemma ShrDown(x: int, n: nat)
    ensures Shr(x, n + 2) == Shr(x / 4, n)
    ensures Shr(x, n + 4) == Shr(x / 16, n)
    ensures Shr(x, n + 6) == Shr(x / 64, n)
  {
    ShrTwice(x, 2, n);
    ShrTwice(x, 4, n);
    ShrTwice(x, 6, n);
    Shr2(x);
    Shr4(x);
    Shr6(x);
  }

  lemma {:induction false} ShrOfSum(x: int, k: int, m: nat, n: nat)
    requires n < m
    ensures Shr(x + k * Pow2(m), n) % 2 == Shr(x, n) % 2
    decreases n
  {
    if n == 0 {
      assert k * Pow2(m) == 2 * (k * Pow2(m - 1));
    } else {
      assert k * Pow2(m) == 2 * (k * Pow2(m - 1));
      assert (x + k * Pow2(m)) / 2 == x / 2 + k * Pow2(m - 1);
      ShrOfSum(x / 2, k, m - 1, n - 1);
    }
  }

  function Pow2(n: nat): nat {
    if n == 0 then 1 else 2 * Pow2(n - 1)
  }

  lemma PowersOfTwo()
    ensures Pow2(2) == 4 && Pow2(4) == 16 && Pow2(6) == 64
  {
    assert Pow2(2) == 2 * (2 * Pow2(0));
    assert Pow2(4) == 2 * (2 * Pow2(2));
    assert Pow2(6) == 2 * (2 * Pow2(4));
  }

  lemma BitsOfD1(a: byte, i: nat)
    requires i < 6
    ensures BitOfDigit(D1(a), i) == BitOfByte(a, i)
  {
    ShrDown(a, 5 - i);
  }

  lemma BitsOfD2(a: byte, b: byte, i: nat)
    requires i < 6
    ensures BitOfDigit(D2(a, b), i) == if i < 2 then BitOfByte(a, 6 + i) else BitOfByte(b, i - 2)
  {
    PowersOfTwo();
    var x: int, y: int := a, b;
    if i < 2 {
      ShrDown(D2(a, b), 1 - i);
      assert D2(a, b) / 16 == a % 4;
      ShrOfSum(x % 4, x / 4, 2, 1 - i);
      assert x == x % 4 + x / 4 * Pow2(2);
    } else {
      ShrOfSum(y / 16, x % 4, 4, 5 - i);
      assert D2(a, b) == y / 16 + x % 4 * Pow2(4);
      ShrDown(b, 5 - i);
    }
  }

  lemma BitsOfD3(b: byte, c: byte, i: nat)
    requires i < 6
    ensures BitOfDigit(D3(b, c), i) == if i < 4 then BitOfByte(b, 4 + i) else BitOfByte(c, i - 4)
  {
    PowersOfTwo();
    var x: int, y: int := b, c;
    if i < 4 {
      ShrDown(D3(b, c), 3 - i);
      assert D3(b, c) / 4 == b % 16;
      ShrOfSum(x % 16, x / 16, 4, 3 - i);
      assert x == x % 16 + x / 16 * Pow2(4);
    } else {
      ShrOfSum(y / 64, x % 16, 2, 5 - i);
      assert D3(b, c) == y / 64 + x % 16 * Pow2(2);
      ShrDown(c, 5 - i);
    }
  }

  lemma BitsOfD4(c: byte, i: nat)
    requires i < 6
    ensures BitOfDigit(D4(c), i) == BitOfByte(c, 2 + i)
  {
    PowersOfTwo();
    var y: int := c;
    ShrOfSum(y % 64, y / 64, 6, 5 - i);
    assert y == y % 64 + y / 64 * Pow2(6);
  }
}
