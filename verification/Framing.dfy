/** What it means to cut a byte stream into messages, stated on sequences without a parser. */
module Framing {
  import opened Bytes
  import opened Codec

  /** Whether the receiving daemon takes a message, given those it has already taken. */
  type Admission = (seq<Message>, Message) -> bool

  /** The bytes of a sequence of messages. */
  function Wire(ms: seq<Message>): seq<byte> {
    if ms == [] then [] else Wire(ms[..|ms| - 1]) + Frame(ms[|ms| - 1])
  }

  lemma Assoc(a: seq<byte>, b: seq<byte>, c: seq<byte>)
    ensures (a + b) + c == a + (b + c)
  {
  }

  lemma {:induction false} WireConcat(a: seq<Message>, b: seq<Message>)
    ensures Wire(a + b) == Wire(a) + Wire(b)
  {
    if b == [] {
      assert a + b == a;
    } else {
      WireConcat(a, b[..|b| - 1]);
      WireConcatOne(a, b[..|b| - 1], b[|b| - 1], b);
    }
  }

  lemma WireConcatOne(a: seq<Message>, front: seq<Message>, last: Message, b: seq<Message>)
    requires b == front + [last] && Wire(a + front) == Wire(a) + Wire(front)
    ensures Wire(a + b) == Wire(a) + Wire(b)
  {
    assert a + b == (a + front) + [last];
    WireSnoc(a + b, a + front, last);
    WireSnoc(b, front, last);
    Assoc(Wire(a), Wire(front), Frame(last));
  }

  lemma WireSnoc(ms: seq<Message>, front: seq<Message>, last: Message)
    requires ms == front + [last]
    ensures Wire(ms) == Wire(front) + Frame(last)
  {
    assert ms[..|ms| - 1] == front;
  }

  lemma WireAppend(a: seq<Message>, m: Message)
    ensures Wire(a + [m]) == Wire(a) + Frame(m)
  {
    assert (a + [m])[..|a|] == a;
  }

  lemma WireCons(m: Message, b: seq<Message>)
    ensures Wire([m] + b) == Frame(m) + Wire(b)
  {
    WireConcat([m], b);
    WireAppend([], m);
  }

  lemma SplitFirst(ms: seq<Message>, rest: seq<byte>)
    requires ms != []
    ensures Wire(ms) + rest == Frame(ms[0]) + (Wire(ms[1..]) + rest)
  {
    assert ms == [ms[0]] + ms[1..];
    WireCons(ms[0], ms[1..]);
    Assoc(Frame(ms[0]), Wire(ms[1..]), rest);
  }

  ghost predicate AllFit(ms: seq<Message>) {
    forall i :: 0 <= i < |ms| ==> Fits(ms[i])
  }

  ghost predicate AllSendable(ms: seq<Message>) {
    forall i :: 0 <= i < |ms| ==> Sendable(ms[i])
  }

  /** Frames can be told apart: a stream made of the frames of `b` that starts with those of `a` starts with `a`. */
  lemma {:induction false} UniquelyDecodable(a: seq<Message>, rest: seq<byte>, b: seq<Message>)
    requires AllFit(a) && AllFit(b)
    requires Wire(a) + rest == Wire(b)
    ensures a <= b && rest == Wire(b[|a|..])
  {
    if a == [] {
      assert b[0..] == b;
    } else {
      SameStart(a, rest, b);
      UniquelyDecodable(a[1..], rest, b[1..]);
      assert b[|a|..] == b[1..][|a| - 1..] && a == [a[0]] + a[1..];
    }
  }

  lemma SameStart(a: seq<Message>, rest: seq<byte>, b: seq<Message>)
    requires AllFit(a) && AllFit(b) && a != []
    requires Wire(a) + rest == Wire(b)
    ensures b != [] && a[0] == b[0] && Wire(a[1..]) + rest == Wire(b[1..])
  {
    SplitFirst(a, rest);
    if b == [] {
      assert false;
    } else {
      SplitFirst(b, []);
      assert Wire(b) + [] == Wire(b) && Wire(b[1..]) + [] == Wire(b[1..]);
      PrefixFree(a[0], b[0], Wire(a[1..]) + rest, Wire(b[1..]));
    }
  }

  /** `rest` could still become a frame: less than a header, or the header of a frame not all there. */
  ghost predicate Incomplete(rest: seq<byte>) {
    |rest| < HEADER_LEN || exists m :: Sendable(m) && HeaderBytes(m) <= rest && |rest| < |Frame(m)|
  }

  /** `rest` cannot: its first sixteen bytes are the header of no message. */
  ghost predicate Hopeless(rest: seq<byte>) {
    HEADER_LEN <= |rest| && forall m :: Sendable(m) ==> !(HeaderBytes(m) <= rest)
  }

  ghost predicate Taken(accept: Admission, log: seq<Message>, ms: seq<Message>) {
    forall i :: 0 <= i < |ms| ==> accept(log + ms[..i], ms[i])
  }

  /** `rest` starts with the frame of a message that the daemon turns down. */
  ghost predicate Refused(accept: Admission, log: seq<Message>, rest: seq<byte>) {
    exists m :: Sendable(m) && Frame(m) <= rest && !accept(log, m)
  }

  /** `bytes` so far: the frames of the messages delivered, each of them admitted in its turn, then the rest. */
  ghost predicate Cut(bytes: seq<byte>, accept: Admission, log: seq<Message>, delivered: seq<Message>,
                      rest: seq<byte>) {
    AllSendable(delivered) && bytes == Wire(delivered) + rest && Taken(accept, log, delivered)
  }

  /** The outcome of draining `bytes`: every leading frame delivered, until one is incomplete, hopeless or refused. */
  ghost predicate Drained(bytes: seq<byte>, accept: Admission, log: seq<Message>,
                          delivered: seq<Message>, rest: seq<byte>, ok: bool) {
    && Cut(bytes, accept, log, delivered, rest)
    && (ok ==> Incomplete(rest))
    && (!ok ==> Hopeless(rest) || Refused(accept, log + delivered, rest))
  }

  /** A complete frame in front excludes the two states in which draining stops for want of one. */
  lemma FrameInFront(m: Message, tail: seq<byte>)
    requires Sendable(m)
    ensures !Incomplete(Frame(m) + tail) && !Hopeless(Frame(m) + tail)
  {
    HeaderInFront(Frame(m) + tail, m);
    if Incomplete(Frame(m) + tail) {
      var m' :| Sendable(m') && HeaderBytes(m') <= Frame(m) + tail && |Frame(m) + tail| < |Frame(m')|;
      SameHeader(Frame(m) + tail, m, m');
    }
  }

  lemma HeaderInFront(bytes: seq<byte>, m: Message)
    requires Sendable(m) && Frame(m) <= bytes
    ensures HeaderBytes(m) <= bytes && |bytes| >= |Frame(m)|
  {
  }

  lemma SameHeader(bytes: seq<byte>, m: Message, m': Message)
    requires Sendable(m) && Sendable(m') && HeaderBytes(m) <= bytes && HeaderBytes(m') <= bytes
    ensures |Frame(m)| == |Frame(m')|
  {
    assert HeaderBytes(m') == bytes[..HEADER_LEN] == HeaderBytes(m);
    HeaderIsInjective(m, m');
  }

  lemma FrameBoundary(m: Message, tail: seq<byte>, m': Message, bytes: seq<byte>)
    requires Sendable(m) && Sendable(m')
    requires bytes == Frame(m) + tail && Frame(m') <= bytes
    ensures m == m'
  {
    var tail' := bytes[|Frame(m')|..];
    assert bytes == Frame(m') + tail';
    PrefixFree(m, m', tail, tail');
  }

  /** Nothing to deliver from here, whichever of the reasons it is. */
  lemma StoppedMeansEmpty(accept: Admission, log: seq<Message>, rest: seq<byte>, ok: bool, ms: seq<Message>,
                          rest': seq<byte>)
    requires ok ==> Incomplete(rest)
    requires !ok ==> Hopeless(rest) || Refused(accept, log, rest)
    requires rest == Wire(ms) + rest' && AllSendable(ms) && Taken(accept, log, ms)
    ensures ms == []
  {
    if ms != [] {
      SplitFirst(ms, rest');
      var m, tail := ms[0], Wire(ms[1..]) + rest';
      FrameInFront(m, tail);
      assert log + ms[..0] == log;
      var m' :| Sendable(m') && Frame(m') <= rest && !accept(log, m');
      FrameBoundary(m, tail, m', rest);
      assert false;
    }
  }

  /** Draining has one outcome only: what is delivered, left over and reported are all determined by the bytes. */
  lemma {:induction false} DrainedIsUnique(bytes: seq<byte>, accept: Admission, log: seq<Message>,
                        d1: seq<Message>, r1: seq<byte>, ok1: bool, d2: seq<Message>, r2: seq<byte>, ok2: bool)
    requires Drained(bytes, accept, log, d1, r1, ok1) && Drained(bytes, accept, log, d2, r2, ok2)
    ensures d1 == d2 && r1 == r2 && ok1 == ok2
    decreases |d1|
  {
    if d1 == [] {
      assert log + d1 == log;
      assert bytes == r1;
      StoppedMeansEmpty(accept, log, r1, ok1, d2, r2);
      if ok1 != ok2 {
        OutcomesExclude(accept, log, r1);
      }
    } else if d2 == [] {
      assert log + d2 == log;
      assert bytes == r2;
      StoppedMeansEmpty(accept, log, r2, ok2, d1, r1);
    } else {
      SameFirst(bytes, d1, r1, d2, r2);
      DrainedTail(bytes, accept, log, d1, r1, ok1);
      DrainedTail(bytes, accept, log, d2, r2, ok2);
      DrainedIsUnique(Wire(d1[1..]) + r1, accept, log + [d1[0]], d1[1..], r1, ok1, d2[1..], r2, ok2);
      FirstAndRest(d1);
      FirstAndRest(d2);
    }
  }

  lemma FirstAndRest(ms: seq<Message>)
    requires ms != []
    ensures ms == [ms[0]] + ms[1..]
  {
  }

  lemma SameFirst(bytes: seq<byte>, d1: seq<Message>, r1: seq<byte>, d2: seq<Message>, r2: seq<byte>)
    requires AllSendable(d1) && AllSendable(d2) && d1 != [] && d2 != []
    requires bytes == Wire(d1) + r1 == Wire(d2) + r2
    ensures d1[0] == d2[0] && Wire(d1[1..]) + r1 == Wire(d2[1..]) + r2
  {
    SplitFirst(d1, r1);
    SplitFirst(d2, r2);
    PrefixFree(d1[0], d2[0], Wire(d1[1..]) + r1, Wire(d2[1..]) + r2);
  }

  lemma OutcomesExclude(accept: Admission, log: seq<Message>, rest: seq<byte>)
    requires Incomplete(rest)
    ensures !Hopeless(rest) && !Refused(accept, log, rest)
  {
    if Refused(accept, log, rest) {
      var m :| Sendable(m) && Frame(m) <= rest && !accept(log, m);
      assert rest == Frame(m) + rest[|Frame(m)|..];
      FrameInFront(m, rest[|Frame(m)|..]);
    }
  }

  /** After the first message, what remains is drained in the same way. */
  lemma DrainedTail(bytes: seq<byte>, accept: Admission, log: seq<Message>, d: seq<Message>, rest: seq<byte>, ok: bool)
    requires Drained(bytes, accept, log, d, rest, ok) && d != []
    ensures Drained(Wire(d[1..]) + rest, accept, log + [d[0]], d[1..], rest, ok)
  {
    assert log + [d[0]] + d[1..] == log + d;
    TakenTail(accept, log, d);
  }

  lemma TakenTail(accept: Admission, log: seq<Message>, d: seq<Message>)
    requires Taken(accept, log, d) && d != []
    ensures Taken(accept, log + [d[0]], d[1..])
  {
    forall i | 0 <= i < |d[1..]|
      ensures accept(log + [d[0]] + d[1..][..i], d[1..][i])
    {
      assert accept(log + d[..i + 1], d[i + 1]);
      assert log + [d[0]] + d[1..][..i] == log + d[..i + 1];
    }
  }

  /** Completeness: whole frames that the daemon takes are all delivered, and an unfinished one is kept. */
  lemma DrainDeliversEverything(ms: seq<Message>, partial: seq<byte>, accept: Admission, log: seq<Message>,
                                delivered: seq<Message>, rest: seq<byte>, ok: bool)
    requires AllSendable(ms) && Incomplete(partial) && Taken(accept, log, ms)
    requires Drained(Wire(ms) + partial, accept, log, delivered, rest, ok)
    ensures delivered == ms && rest == partial && ok
  {
    DrainedIsUnique(Wire(ms) + partial, accept, log, ms, partial, true, delivered, rest, ok);
  }

  /** What a successful drain leaves is less than one frame, so a ring with the capacity floor has room again. */
  lemma LeftoverIsShort(rest: seq<byte>)
    requires Incomplete(rest)
    ensures |rest| < MAX_FRAME_SIZE
  {
  }
}
