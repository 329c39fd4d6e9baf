/** How the three indices of src/net/Buffer.cc move, without the bytes. */
module BufferShapes {

  const INITIAL_SIZE: nat := 1024
  const INIT_PREPEND_SIZE: nat := 8
  const EXTRA_SIZE: nat := 65536    // the stack buffer of ReadFd

  datatype Shape = Shape(size: nat, read: nat, write: nat) {
    predicate Valid() { read <= write <= size && INIT_PREPEND_SIZE <= size }

    function Readable(): nat
      requires Valid()
    {
      write - read
    }

    function Writable(): nat
      requires Valid()
    {
      size - write
    }
  }

  datatype Op =
    | Retrieve(n: nat)
    | HasWritten(n: nat)
    | Unwrite(n: nat)
    | Prepend(n: nat)
    | Append(n: nat)
    | ReadFd(n: nat)

  function Init(initialSize: nat): Shape {
    Shape(INIT_PREPEND_SIZE + initialSize, INIT_PREPEND_SIZE, INIT_PREPEND_SIZE)
  }

  /** CheckAndMakePlace: enough room already, compaction, or growth. */
  function MakePlace(s: Shape, n: nat): (r: Shape)
    requires s.Valid()
    ensures r.Valid() && r.Readable() == s.Readable() && r.Writable() >= n
  {
    if s.Writable() >= n then s
    else if s.Writable() + s.read >= n + INIT_PREPEND_SIZE then
      Shape(s.size, INIT_PREPEND_SIZE, INIT_PREPEND_SIZE + s.Readable())
    else Shape(s.write + n, s.read, s.write)
  }

  /** What the asserts of the source and the capacity of readv allow. */
  predicate Enabled(s: Shape, op: Op)
    requires s.Valid()
  {
    match op
    case Retrieve(n) => n <= s.Readable()
    case HasWritten(n) => n <= s.Writable()
    case Unwrite(n) => n <= s.Readable()
    case Prepend(n) => n <= s.read
    case Append(_) => true
    case ReadFd(n) => n <= s.Writable() + if s.Writable() < EXTRA_SIZE then EXTRA_SIZE else 0
  }

  function Apply(s: Shape, op: Op): (r: Shape)
    requires s.Valid() && Enabled(s, op)
    ensures r.Valid()
  {
    match op
    case Retrieve(n) =>
      if n < s.Readable() then s.(read := s.read + n)
      else s.(read := INIT_PREPEND_SIZE, write := INIT_PREPEND_SIZE)
    case HasWritten(n) => s.(write := s.write + n)
    case Unwrite(n) => s.(write := s.write - n)
    case Prepend(n) => s.(read := s.read - n)
    case Append(n) => var p := MakePlace(s, n); p.(write := p.write + n)
    case ReadFd(n) =>
      if n <= s.Writable() then s.(write := s.write + n)
      else
        var full := s.(write := s.size);
        var p := MakePlace(full, n - s.Writable());
        p.(write := p.write + (n - s.Writable()))
  }

  /** `peak` is the largest readable count met on the way from s to s'. */
  ghost predicate Reaches(s: Shape, ops: seq<Op>, s': Shape, peak: nat)
    requires s.Valid()
    decreases |ops|
  {
    s.Readable() <= peak &&
    if ops == [] then s == s'
    else Enabled(s, ops[0]) && Reaches(Apply(s, ops[0]), ops[1..], s', peak)
  }

  ghost predicate Bounded(s: Shape, initialSize: nat, peak: nat) {
    s.size <= INIT_PREPEND_SIZE + initialSize || s.size <= 2 * peak + 7
  }

  lemma StepKeepsBound(s: Shape, op: Op, initialSize: nat, peak: nat)
    requires s.Valid() && Enabled(s, op) && Bounded(s, initialSize, peak)
    requires Apply(s, op).Readable() <= peak
    ensures Bounded(Apply(s, op), initialSize, peak)
  {
    if op.ReadFd? && op.n > s.Writable() {
      var full := s.(write := s.size);
      assert MakePlace(full, op.n - s.Writable()).size <= s.size
        || full.read <= full.Readable() + (op.n - s.Writable()) + 7;
    }
  }

  /** Over any run of one buffer the storage stays within 8 plus the initial size, or within
      twice the peak readable byte count plus 7. */
  lemma {:induction false} StorageIsBounded(s: Shape, ops: seq<Op>, s': Shape, initialSize: nat, peak: nat)
    requires s.Valid() && Bounded(s, initialSize, peak) && Reaches(s, ops, s', peak)
    ensures s'.Valid() && Bounded(s', initialSize, peak)
    decreases |ops|
  {
    if ops != [] {
      StepKeepsBound(s, ops[0], initialSize, peak);
      StorageIsBounded(Apply(s, ops[0]), ops[1..], s', initialSize, peak);
    }
  }

  lemma StorageIsBoundedFromStart(initialSize: nat, ops: seq<Op>, s: Shape, peak: nat)
    requires Reaches(Init(initialSize), ops, s, peak)
    ensures s.size <= INIT_PREPEND_SIZE + initialSize || s.size <= 2 * peak + 7
  {
    StorageIsBounded(Init(initialSize), ops, s, initialSize, peak);
  }
}

/** The growable byte buffer of src/net/Buffer.cc on a real array. */
module Buffers {
  import opened Options
  import opened Text
  import opened BufferShapes

  class Buffer {
    var buffer: array<char>
    var readIndex: nat
    var writeIndex: nat

    ghost predicate Valid()
      reads this
    {
      Shape().Valid()
    }

    ghost function Shape(): Shape
      reads this
    {
      BufferShapes.Shape(buffer.Length, readIndex, writeIndex)
    }

    /** The abstract value: the bytes between the two indices. */
    ghost function Readable(): string
      requires Valid()
      reads this, buffer
    {
      buffer[readIndex..writeIndex]
    }

    constructor (initialSize: nat)
      ensures Valid() && fresh(buffer) && Readable() == [] && Shape() == Init(initialSize)
    {
      buffer := new char[INIT_PREPEND_SIZE + initialSize];
      readIndex, writeIndex := INIT_PREPEND_SIZE, INIT_PREPEND_SIZE;
    }

    function ReadableBytes(): (n: nat)
      requires Valid()
      reads this, buffer
      ensures n == |Readable()|
    {
      writeIndex - readIndex
    }

    function WritableBytes(): nat
      requires Valid()
      reads this
    {
      buffer.Length - writeIndex
    }

    function PrependableBytes(): nat
      reads this
    {
      readIndex
    }

    method Swap(rhs: Buffer)
      requires Valid() && rhs.Valid()
      modifies this, rhs
      ensures Valid() && rhs.Valid()
      ensures Readable() == old(rhs.Readable()) && rhs.Readable() == old(Readable())
      ensures Shape() == old(rhs.Shape()) && rhs.Shape() == old(Shape())
    {
      buffer, rhs.buffer := rhs.buffer, buffer;
      readIndex, rhs.readIndex := rhs.readIndex, readIndex;
      writeIndex, rhs.writeIndex := rhs.writeIndex, writeIndex;
    }

    method Retrieve(len: nat)
      requires Valid() && len <= ReadableBytes()
      modifies this`readIndex, this`writeIndex
      ensures Valid() && Readable() == old(Readable())[len..]
      ensures Shape() == Apply(old(Shape()), BufferShapes.Retrieve(len))
    {
      if len < ReadableBytes() {
        readIndex := readIndex + len;
      } else {
        RetrieveAll();
      }
    }

    method RetrieveAll()
      requires Valid()
      modifies this`readIndex, this`writeIndex
      ensures Valid() && Readable() == []
      ensures readIndex == writeIndex == INIT_PREPEND_SIZE
    {
      readIndex, writeIndex := INIT_PREPEND_SIZE, INIT_PREPEND_SIZE;
    }

    /** `end` is the distance of the end pointer from Peek(). */
    method RetrieveUntil(end: nat)
      requires Valid() && end <= ReadableBytes()
      modifies this`readIndex, this`writeIndex
      ensures Valid() && Readable() == old(Readable())[end..]
      ensures Shape() == Apply(old(Shape()), BufferShapes.Retrieve(end))
    {
      Retrieve(end);
    }

    /** The first `len` bytes from Peek() on. */
    method Peek(len: nat) returns (bytes: string)
      requires Valid() && len <= ReadableBytes()
      ensures bytes == Readable()[..len]
    {
      bytes := buffer[readIndex..readIndex + len];
    }

    method RetrieveAsString(len: nat) returns (result: string)
      requires Valid() && len <= ReadableBytes()
      modifies this`readIndex, this`writeIndex
      ensures Valid() && result + Readable() == old(Readable()) && |result| == len
      ensures Shape() == Apply(old(Shape()), BufferShapes.Retrieve(len))
    {
      result := Peek(len);
      Retrieve(len);
    }

    method RetrieveAllAsString() returns (result: string)
      requires Valid()
      modifies this`readIndex, this`writeIndex
      ensures Valid() && result == old(Readable()) && Readable() == []
    {
      result := RetrieveAsString(ReadableBytes());
      assert result + Readable() == result;
    }

    /** The caller has put `len` bytes at BeginWrite(). */
    method HasWritten(len: nat)
      requires Valid() && len <= WritableBytes()
      modifies this`writeIndex
      ensures Valid()
      ensures Readable() == old(Readable()) + old(buffer[writeIndex..writeIndex + len])
      ensures Shape() == Apply(old(Shape()), BufferShapes.HasWritten(len))
    {
      writeIndex := writeIndex + len;
    }

    method Unwrite(len: nat)
      requires Valid() && len <= ReadableBytes()
      modifies this`writeIndex
      ensures Valid() && Readable() == old(Readable())[..old(ReadableBytes()) - len]
      ensures Shape() == Apply(old(Shape()), BufferShapes.Unwrite(len))
    {
      writeIndex := writeIndex - len;
    }

    method Prepend(data: string)
      requires Valid() && |data| <= PrependableBytes()
      modifies this`readIndex, buffer
      ensures Valid() && Readable() == data + old(Readable())
      ensures Shape() == Apply(old(Shape()), BufferShapes.Prepend(|data|))
    {
      readIndex := readIndex - |data|;
      Store(readIndex, data);
      assert buffer[readIndex + |data|..writeIndex] == old(buffer[readIndex..writeIndex]);
      assert buffer[readIndex..writeIndex]
          == buffer[readIndex..readIndex + |data|] + buffer[readIndex + |data|..writeIndex];
    }

    method Append(data: string)
      requires Valid()
      modifies this, buffer
      ensures Valid() && Readable() == old(Readable()) + data
      ensures Shape() == Apply(old(Shape()), BufferShapes.Append(|data|))
      ensures buffer == old(buffer) || fresh(buffer)
    {
      CheckAndMakePlace(|data|);
      Fill(data);
    }

    /** ReadFd, given what readv delivers: nothing for an error, else the bytes it scatters over
        the writable tail and the stack buffer. Returns n as the system call does. */
    method ReadFd(incoming: Option<string>) returns (n: int)
      requires Valid()
      requires incoming.Some? ==> Enabled(Shape(), BufferShapes.ReadFd(|incoming.value|))
      modifies this, buffer
      ensures Valid()
      ensures incoming.None? ==> n == -1 && Readable() == old(Readable()) && Shape() == old(Shape())
      ensures incoming.Some? ==>
                && n == |incoming.value|
                && Readable() == old(Readable()) + incoming.value
                && Shape() == Apply(old(Shape()), BufferShapes.ReadFd(|incoming.value|))
      ensures buffer == old(buffer) || fresh(buffer)
    {
      if incoming.None? {
        return -1;
      }
      var data := incoming.value;
      var writable := WritableBytes();
      if |data| <= writable {
        Fill(data);
      } else {
        Rejoin(Readable(), data, writable);
        Fill(data[..writable]);
        Append(data[writable..]);
      }
      return |data|;
    }

    lemma Rejoin(a: string, data: string, k: nat)
      requires k <= |data|
      ensures (a + data[..k]) + data[k..] == a + data
    {
    }

    /** The offset of the first CRLF among the readable bytes; None for the null pointer. */
    method FindCRLF() returns (crlf: Option<nat>)
      requires Valid()
      ensures crlf == FirstCRLF(Readable())
    {
      var i := readIndex;
      ghost var text := Readable();
      while i + 1 < writeIndex
        invariant readIndex <= i <= writeIndex
        invariant forall j :: 0 <= j < i - readIndex ==> !CRLFAt(text, j)
      {
        assert text[i - readIndex] == buffer[i] && text[i - readIndex + 1] == buffer[i + 1];
        if buffer[i] == '\r' && buffer[i + 1] == '\n' {
          FirstCRLFIs(text, i - readIndex);
          return Some(i - readIndex);
        }
        i := i + 1;
      }
      return None;
    }

    /** memcpy of `data` to position `at`. */
    method Store(at: nat, data: string)
      requires at + |data| <= buffer.Length
      modifies buffer
      ensures buffer[at..at + |data|] == data
      ensures forall k :: 0 <= k < at || at + |data| <= k < buffer.Length ==> buffer[k] == old(buffer[k])
    {
      forall i | 0 <= i < |data| {
        buffer[at + i] := data[i];
      }
    }

    /** Bytes arriving at BeginWrite(), from memcpy or from the system call. */
    method Fill(data: string)
      requires Valid() && |data| <= WritableBytes()
      modifies this`writeIndex, buffer
      ensures Valid() && Readable() == old(Readable()) + data
      ensures writeIndex == old(writeIndex) + |data|
    {
      ghost var before, end := Readable(), writeIndex;
      Store(writeIndex, data);
      assert buffer[readIndex..end] == before;
      writeIndex := writeIndex + |data|;
      assert Readable() == buffer[readIndex..end] + buffer[end..writeIndex];
    }

    method CheckAndMakePlace(len: nat)
      requires Valid()
      modifies this, buffer
      ensures Valid() && Readable() == old(Readable()) && WritableBytes() >= len
      ensures Shape() == MakePlace(old(Shape()), len)
      ensures buffer == old(buffer) || fresh(buffer)
    {
      if WritableBytes() >= len { return; }
      if WritableBytes() + PrependableBytes() >= len + INIT_PREPEND_SIZE {
        assert INIT_PREPEND_SIZE < readIndex;
        var readable := ReadableBytes();
        CopyDown(readIndex, INIT_PREPEND_SIZE, readable);
        readIndex := INIT_PREPEND_SIZE;
        writeIndex := readIndex + readable;
        assert readable == ReadableBytes();
      } else {
        Resize(writeIndex + len);
        assert buffer[readIndex..writeIndex] == old(buffer[readIndex..writeIndex]);
      }
    }

    /** The overlapping copy of a compaction, lowest byte first. */
    method CopyDown(src: nat, dst: nat, count: nat)
      requires dst <= src && src + count <= buffer.Length
      modifies buffer
      ensures buffer[dst..dst + count] == old(buffer[src..src + count])
    {
      ghost var was := buffer[..];
      for i := 0 to count
        invariant buffer[dst..dst + i] == was[src..src + i]
        invariant buffer[src + i..] == was[src + i..]
      {
        buffer[dst + i] := buffer[src + i];
      }
    }

    /** std::vector::resize to a larger size. */
    method Resize(size: nat)
      requires buffer.Length <= size
      modifies this`buffer
      ensures fresh(buffer) && buffer.Length == size
      ensures forall k :: 0 <= k < old(buffer.Length) ==> buffer[k] == old(buffer[k])
    {
      var bigger := new char[size];
      forall i | 0 <= i < buffer.Length {
        bigger[i] := buffer[i];
      }
      buffer := bigger;
    }
  }
}
