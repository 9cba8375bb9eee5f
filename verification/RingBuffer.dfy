/** The circular byte buffer under every IPC connection (shared/algorithm/ByteRingBuffer.cpp). */
module RingBuffer {
  import opened Bytes

  function Min(a: nat, b: nat): nat {
    if a <= b then a else b
  }

  /** Where an index that may have run one lap past the end really is. */
  function Wrap(i: nat, capacity: nat): nat {
    if i < capacity then i else i - capacity
  }

  lemma WrapIsModulo(i: nat, capacity: nat)
    requires i < 2 * capacity
    ensures Wrap(i, capacity) == i % capacity
  {
    if capacity <= i {
      assert i % capacity == (i - capacity) % capacity;
    }
  }

  lemma WrapTwice(head: nat, size: nat, n: nat, capacity: nat)
    requires head < capacity && size + n <= capacity
    ensures Wrap(Wrap(head + size, capacity) + n, capacity) == Wrap(head + (size + n), capacity)
  {
  }

  /** The `size` bytes of `data` from index `head` on, wrapping at the end. */
  function View(data: seq<byte>, head: nat, size: nat): (s: seq<byte>)
    requires size <= |data| && head <= |data| && (head == |data| ==> size == 0)
    ensures |s| == size
  {
    seq(size, i requires 0 <= i < size => data[Wrap(head + i, |data|)])
  }

  lemma ViewAt(data: seq<byte>, head: nat, size: nat, k: nat)
    requires size <= |data| && head <= |data| && k < size && (head == |data| ==> size == 0)
    ensures View(data, head, size)[k] == data[Wrap(head + k, |data|)]
  {
  }

  /** Bytes stored at the tail, without wrapping, extend the view. */
  lemma ViewExtends(before: seq<byte>, after: seq<byte>, head: nat, size: nat, chunk: seq<byte>)
    requires head < |before| && size + |chunk| <= |before|
    requires var tail := Wrap(head + size, |before|);
      && tail + |chunk| <= |before|
      && after == before[..tail] + chunk + before[tail + |chunk|..]
    ensures View(after, head, size + |chunk|) == View(before, head, size) + chunk
  {
    var tail := Wrap(head + size, |before|);
    forall k | 0 <= k < size + |chunk|
      ensures View(after, head, size + |chunk|)[k] == (View(before, head, size) + chunk)[k]
    {
      ViewAt(after, head, size + |chunk|, k);
      if k < size {
        ViewAt(before, head, size, k);
      } else {
        assert Wrap(head + k, |before|) == tail + (k - size);
      }
    }
  }

  /** Moving the head forward drops the oldest bytes. */
  lemma ViewDrops(data: seq<byte>, head: nat, size: nat, n: nat)
    requires head < |data| && size <= |data| && n <= size
    ensures View(data, Wrap(head + n, |data|), size - n) == View(data, head, size)[n..]
  {
    forall k | 0 <= k < size - n
      ensures View(data, Wrap(head + n, |data|), size - n)[k] == View(data, head, size)[n..][k]
    {
      ViewAt(data, Wrap(head + n, |data|), size - n, k);
      ViewAt(data, head, size, n + k);
    }
  }

  /** A prefix of the view is the run up to the end of the array and what wrapped round to its start. */
  lemma ViewInTwo(data: seq<byte>, head: nat, size: nat, n: nat)
    requires head <= |data| && n <= size <= |data| && (head == |data| ==> size == 0)
    ensures var first := Min(n, |data| - head);
      View(data, head, size)[..n] == data[head..head + first] + data[0..n - first]
  {
    var first := Min(n, |data| - head);
    forall k | 0 <= k < n
      ensures View(data, head, size)[..n][k] == (data[head..head + first] + data[0..n - first])[k]
    {
      ViewAt(data, head, size, k);
    }
  }

  /** Copying the next `n` bytes of `from` into a target that already holds the first `moved`. */
  lemma Spliced(from: seq<byte>, target: seq<byte>, was: seq<byte>, now: seq<byte>, moved: nat, n: nat)
    requires moved + n <= |from| && moved + n <= |target|
    requires was == from[..moved] + target[moved..]
    requires now == was[..moved] + from[moved..][..n] + was[moved + n..]
    ensures now == from[..moved + n] + target[moved + n..]
  {
  }

  /** The two copies of `peek`, the second only when the bytes wrap, leave the view in the target. */
  lemma Peeked(data: seq<byte>, head: nat, size: nat, n: nat, target: seq<byte>, half: seq<byte>, full: seq<byte>,
               stored: seq<byte>)
    requires head <= |data| && n <= size <= |data| && (head == |data| ==> size == 0) && n <= |target|
    requires stored == View(data, head, size)
    requires var first := Min(n, |data| - head);
      && half == target[..0] + data[head..head + first] + target[0 + first..]
      && full == if n > first then half[..first] + data[0..n - first] + half[first + (n - first)..] else half
    ensures full == stored[..n] + target[n..]
  {
    var first := Min(n, |data| - head);
    ViewInTwo(data, head, size, n);
    TwoCopies(data[head..head + first], data[0..n - first], target, half, full);
  }

  lemma TwoCopies(a: seq<byte>, b: seq<byte>, target: seq<byte>, half: seq<byte>, full: seq<byte>)
    requires |a| + |b| <= |target| && half == target[..0] + a + target[0 + |a|..]
    requires full == if b != [] then half[..|a|] + b + half[|a| + |b|..] else half
    ensures full == a + b + target[|a| + |b|..]
  {
    AfterFirst(a, target, half);
    if b == [] {
      assert a + b == a;
    } else {
      assert half[|a| + |b|..] == target[|a| + |b|..];
    }
  }

  lemma AfterFirst(a: seq<byte>, target: seq<byte>, half: seq<byte>)
    requires |a| <= |target| && half == target[..0] + a + target[0 + |a|..]
    ensures |half| == |target| && half[..|a|] == a
    ensures forall k :: |a| <= k <= |target| ==> half[k..] == target[k..]
  {
    assert half == a + target[|a|..];
  }

  /** The first `moved` bytes that were stored are in the target, the others are still stored. */
  ghost predicate Moved(stored: seq<byte>, target: seq<byte>, moved: nat, out: seq<byte>, rest: seq<byte>) {
    && moved <= |stored| && moved <= |target|
    && out == stored[..moved] + target[moved..] && rest == stored[moved..]
  }

  lemma NothingMoved(stored: seq<byte>, target: seq<byte>)
    ensures Moved(stored, target, 0, target, stored)
  {
  }

  /** An index moved on by `n`, as the source computes it. */
  method Advance(i: nat, n: nat, capacity: nat) returns (j: nat)
    requires i < capacity && n <= capacity
    ensures j == Wrap(i + n, capacity)
  {
    WrapIsModulo(i + n, capacity);
    j := (i + n) % capacity;
  }

  class ByteRingBuffer {
    const buffer: array<byte>
    var head: nat
    var tail: nat
    var size: nat

    ghost predicate Valid()
      reads this
    {
      && size <= buffer.Length
      && (buffer.Length == 0 ==> head == tail == 0)
      && (0 < buffer.Length ==> head < buffer.Length && tail == Wrap(head + size, buffer.Length))
    }

    /** The bytes in the buffer, oldest first. */
    ghost function Contents(): (s: seq<byte>)
      requires Valid()
      reads this, buffer
      ensures |s| == size
    {
      View(buffer[..], head, size)
    }

    constructor (capacity: nat)
      ensures Valid() && fresh(buffer)
      ensures buffer.Length == capacity && Contents() == []
    {
      buffer := new byte[capacity](_ => 0);
      head, tail, size := 0, 0, 0;
    }

    function Capacity(): nat {
      buffer.Length
    }

    function Readable(): nat
      reads this
    {
      size
    }

    function Writable(): nat
      requires Valid()
      reads this
    {
      Capacity() - size
    }

    /** The free bytes that can be filled without wrapping; they start at `tail`. */
    function WriteLen(): (n: nat)
      requires Valid()
      reads this
      ensures n <= Writable() && tail + n <= buffer.Length
      ensures n == 0 <==> Writable() == 0
    {
      if Writable() == 0 then 0 else Min(buffer.Length - tail, Writable())
    }

    /** The stored bytes that can be read without wrapping; they start at `head`. */
    function ReadLen(): (n: nat)
      requires Valid()
      reads this, buffer
      ensures n <= size && head + n <= buffer.Length
      ensures n == 0 <==> size == 0
    {
      if size == 0 then 0 else Min(buffer.Length - head, size)
    }

    /** What lies at the read pointer is the oldest of the stored bytes. */
    lemma FirstRun(n: nat)
      requires Valid() && n <= ReadLen()
      ensures buffer[head..head + n] == Contents()[..n]
    {
      ViewInTwo(buffer[..], head, size, n);
      assert Min(n, buffer.Length - head) == n;
    }

    /** `memcpy` to the write pointer, then `produce`: how every byte enters the buffer. */
    method Produce(chunk: seq<byte>)
      requires Valid() && |chunk| <= WriteLen() && 0 < buffer.Length
      modifies this`tail, this`size, buffer
      ensures Valid()
      ensures Contents() == old(Contents()) + chunk
      ensures tail == if |chunk| == old(buffer.Length - tail) then 0 else old(tail) + |chunk|
    {
      Memcpy(buffer, tail, chunk);
      ghost var now := buffer[..];
      ViewExtends(old(buffer[..]), now, head, size, chunk);
      WrapTwice(head, size, |chunk|, buffer.Length);
      tail := Advance(tail, |chunk|, buffer.Length);
      size := size + |chunk|;
      assert buffer[..] == now;
    }

    /** Drops the oldest `n` bytes. */
    method Consume(n: nat)
      requires Valid() && n <= size && 0 < buffer.Length
      modifies this`head, this`size
      ensures Valid()
      ensures Contents() == old(Contents())[n..]
      ensures n <= old(buffer.Length - head) ==>
        head == if n == old(buffer.Length - head) then 0 else old(head) + n
    {
      ViewDrops(buffer[..], head, size, n);
      head := Advance(head, n, buffer.Length);
      size := size - n;
    }

    method WriteChunk(data: seq<byte>, written: nat, n: nat, ghost stored: seq<byte>)
      requires Valid() && 0 < n <= WriteLen() && written + n <= |data|
      requires Contents() == stored + data[..written]
      modifies this`tail, this`size, buffer
      ensures Valid() && size == old(size) + n
      ensures Contents() == stored + data[..written + n]
      ensures n == old(buffer.Length - tail) ==> tail == 0
    {
      Produce(data[written..written + n]);
      assert data[..written] + data[written..written + n] == data[..written + n];
    }

    /** Appends the longest prefix of `data` that fits, in at most two copies. */
    method Write(data: seq<byte>) returns (written: nat, ghost copies: nat)
      requires Valid()
      modifies this`tail, this`size, buffer
      ensures Valid()
      ensures written == Min(|data|, old(Writable()))
      ensures Contents() == old(Contents()) + data[..written]
      ensures copies <= 2
    {
      written, copies := 0, 0;
      ghost var stored := Contents();
      while written < |data| && Writable() > 0
        invariant Valid() && written <= |data| && size == |stored| + written
        invariant Contents() == stored + data[..written]
        invariant copies <= 2 && (copies == 1 && written < |data| && 0 < Writable() ==> tail == 0)
        invariant copies == 2 ==> written == |data| || Writable() == 0
        decreases |data| - written
      {
        var n := Min(WriteLen(), |data| - written);
        WriteChunk(data, written, n, stored);
        written := written + n;
        copies := copies + 1;
      }
    }

    /** `memcpy` from the read pointer, then `consume`. */
    method ReadChunk(out: array<byte>, moved: nat, n: nat, ghost stored: seq<byte>, ghost target: seq<byte>)
      requires Valid() && 0 < n <= ReadLen() && moved + n <= out.Length && out != buffer
      requires moved + size == |stored| && |target| == out.Length
      requires Moved(stored, target, moved, out[..], Contents())
      modifies this`head, this`size, out
      ensures Valid() && size == old(size) - n
      ensures Moved(stored, target, moved + n, out[..], Contents())
      ensures n == old(buffer.Length - head) ==> head == 0
    {
      ghost var was := out[..];
      var chunk := buffer[head..head + n];
      FirstRun(n);
      Memcpy(out, moved, chunk);
      Spliced(stored, target, was, out[..], moved, n);
      Consume(n);
    }

    /** Moves the longest available prefix, up to `len` bytes, into `out`, in at most two copies. */
    method Read(out: array<byte>, len: nat) returns (moved: nat, ghost copies: nat)
      requires Valid() && len <= out.Length && out != buffer
      modifies this`head, this`size, out
      ensures Valid()
      ensures moved == Min(len, old(size))
      ensures out[..] == old(Contents())[..moved] + old(out[..])[moved..]
      ensures Contents() == old(Contents())[moved..]
      ensures copies <= 2
    {
      ghost var stored, target := Contents(), out[..];
      NothingMoved(stored, target);
      moved, copies := MoveOut(out, len, stored, target);
    }

    /** A second copy starts at the beginning of the buffer and is the last one. */
    ghost predicate AtMostTwo(copies: nat, done: bool)
      reads this
    {
      copies == 0 || done || (copies == 1 && head == 0)
    }

    method MoveOut(out: array<byte>, len: nat, ghost stored: seq<byte>, ghost target: seq<byte>)
      returns (moved: nat, ghost copies: nat)
      requires Valid() && len <= out.Length && out != buffer
      requires size == |stored| && |target| == out.Length && Moved(stored, target, 0, out[..], Contents())
      modifies this`head, this`size, out
      ensures Valid() && moved == Min(len, |stored|) && Moved(stored, target, moved, out[..], Contents())
      ensures copies <= 2
    {
      moved, copies := 0, 0;
      while moved < len && Readable() > 0
        invariant Valid() && moved <= len && moved + size == |stored|
        invariant Moved(stored, target, moved, out[..], Contents())
        invariant copies <= 2 && AtMostTwo(copies, moved == len || size == 0)
        decreases len - moved
      {
        var n := OneCopy(out, len, moved, copies, stored, target);
        moved := moved + n;
        copies := copies + 1;
      }
    }

    method OneCopy(out: array<byte>, len: nat, moved: nat, ghost copies: nat, ghost stored: seq<byte>,
                   ghost target: seq<byte>) returns (n: nat)
      requires Valid() && moved < len <= out.Length && 0 < size && out != buffer && moved + size == |stored|
      requires |target| == out.Length && Moved(stored, target, moved, out[..], Contents())
      requires AtMostTwo(copies, false)
      modifies this`head, this`size, out
      ensures Valid() && 0 < n <= len - moved && moved + n + size == |stored|
      ensures Moved(stored, target, moved + n, out[..], Contents())
      ensures copies < 2 && AtMostTwo(copies + 1, moved + n == len || size == 0)
    {
      n := Min(ReadLen(), len - moved);
      ReadChunk(out, moved, n, stored, target);
    }

    /** Copies what `Read` would return, leaving the buffer as it is. */
    method Peek(out: array<byte>, len: nat) returns (toRead: nat)
      requires Valid() && len <= out.Length && out != buffer
      modifies out
      ensures toRead == Min(len, size)
      ensures out[..] == Contents()[..toRead] + old(out[..])[toRead..]
    {
      ghost var data, target := buffer[..], out[..];
      toRead := Min(len, size);
      var first := Min(toRead, buffer.Length - head);
      CopyRun(out, 0, head, first, data);
      ghost var half := out[..];
      if toRead > first {
        CopyRun(out, first, 0, toRead - first, data);
      }
      Peeked(data, head, size, toRead, target, half, out[..], Contents());
    }

    /** `memcpy` of a run of the buffer. */
    method CopyRun(out: array<byte>, at: nat, start: nat, n: nat, ghost data: seq<byte>)
      requires start + n <= buffer.Length && at + n <= out.Length && out != buffer && buffer[..] == data
      modifies out
      ensures buffer[..] == data && out[..] == old(out[..])[..at] + data[start..start + n] + old(out[..])[at + n..]
    {
      Memcpy(out, at, buffer[start..start + n]);
    }

    method Clear()
      modifies this
      ensures Valid() && Contents() == []
    {
      head, tail, size := 0, 0, 0;
    }
  }
}
