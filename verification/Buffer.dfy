/** The byte buffer of a connection: a movable window of readable bytes over a growing array. */
module ByteQueue {

  type Bytes = seq<bv8>

  /** What a buffer is asked to do: put bytes in (append, or a read from a socket), or take up to n out. */
  datatype Op = Put(bytes: Bytes) | Take(n: nat)

  function Least(a: nat, b: nat): nat {
    if a < b then a else b
  }

  /** The queue and the bytes taken. */
  function Step(q: Bytes, op: Op): (Bytes, Bytes) {
    match op
    case Put(bytes) => (q + bytes, [])
    case Take(n) => (q[Least(n, |q|)..], q[..Least(n, |q|)])
  }

  function Run(q: Bytes, ops: seq<Op>): (Bytes, Bytes) {
    if ops == [] then (q, [])
    else
      var (q1, taken) := Run(q, ops[..|ops| - 1]);
      var (q2, more) := Step(q1, ops[|ops| - 1]);
      (q2, taken + more)
  }

  function PutIn(ops: seq<Op>): Bytes {
    if ops == [] then []
    else PutIn(ops[..|ops| - 1]) + (match ops[|ops| - 1] case Put(bytes) => bytes case Take(_) => [])
  }

  /** Whatever the sequence of operations, bytes come out in the order they went in, none lost or doubled. */
  lemma {:induction false} NothingLostOrReordered(q: Bytes, ops: seq<Op>)
    ensures var (rest, taken) := Run(q, ops);
            taken + rest == q + PutIn(ops)
  {
    if ops != [] {
      var init := ops[..|ops| - 1];
      NothingLostOrReordered(q, init);
      var (q1, taken) := Run(q, init);
      match ops[|ops| - 1]
      case Put(bytes) =>
        assert taken + [] + (q1 + bytes) == (taken + q1) + bytes;
        assert q + (PutIn(init) + bytes) == (q + PutIn(init)) + bytes;
      case Take(n) =>
        var k := Least(n, |q1|);
        assert taken + q1[..k] + q1[k..] == taken + q1;
        assert PutIn(init) + [] == PutIn(init);
    }
  }

  /** The reference for how much is left: what is put in adds, and taking stops at what there is. */
  function LengthAfter(n: nat, ops: seq<Op>): nat {
    if ops == [] then n
    else
      var m := LengthAfter(n, ops[..|ops| - 1]);
      match ops[|ops| - 1]
      case Put(bytes) => m + |bytes|
      case Take(k) => if k < m then m - k else 0
  }

  lemma {:induction false} LengthsFollow(q: Bytes, ops: seq<Op>)
    ensures |Run(q, ops).0| == LengthAfter(|q|, ops)
  {
    if ops != [] {
      LengthsFollow(q, ops[..|ops| - 1]);
    }
  }
}

module Buffers {
  import opened ByteQueue

  const CHEAP_PREPEND: nat := 8
  const INITIAL_SIZE: nat := 1024
  const EXTRA_SIZE: nat := 65536

  /** What readv returned: an errno, or the bytes it scattered (none at end of stream). */
  datatype ReadResult = ReadFailed(errno: int) | ReadBytes(bytes: Bytes)

  /** What write returned: an errno, or how many bytes it took. */
  datatype WriteResult = WriteFailed(errno: int) | Written(n: nat)

  /** One call on a buffer. A Receive reads from a socket on which these bytes stand ready. */
  datatype Call =
    | Append(bytes: Bytes)
    | Receive(ready: Bytes)
    | ReceiveFails(errno: int)
    | EnsureWritable(len: nat)
    | PeekAndRetrieve(len: nat)
    | RetrieveString(len: nat)
    | RetrieveAllString

  /** What the call does to the queue: a read takes what stands ready, or as much as a scatter read can deliver. */
  ghost predicate Does(call: Call, op: Op, q: Bytes) {
    match call
    case Append(bytes) => op == Put(bytes)
    case Receive(ready) => op.Put? && op.bytes <= ready && (op.bytes == ready || |op.bytes| >= EXTRA_SIZE)
    case ReceiveFails(_) => op == Put([])
    case EnsureWritable(_) => op == Put([])
    case PeekAndRetrieve(len) => op == Take(len)
    case RetrieveString(len) => op == Take(Least(len, |q|))
    case RetrieveAllString => op == Take(|q|)
  }

  /** Each call does its operation to the queue that the ones before it left. */
  ghost predicate DoAll(calls: seq<Call>, ops: seq<Op>, q: Bytes) {
    |ops| == |calls| && forall i :: 0 <= i < |ops| ==> Does(calls[i], ops[i], Run(q, ops[..i]).0)
  }

  lemma OneMoreCall(calls: seq<Call>, ops: seq<Op>, q: Bytes, call: Call, op: Op)
    requires DoAll(calls, ops, q) && Does(call, op, Run(q, ops).0)
    ensures DoAll(calls + [call], ops + [op], q)
    ensures var q1 := Run(q, ops);
            Run(q, ops + [op]) == (Step(q1.0, op).0, q1.1 + Step(q1.0, op).1)
  {
    hide Does;
    var calls', ops' := calls + [call], ops + [op];
    assert ops'[..|ops|] == ops;
    forall i | 0 <= i < |ops'| ensures Does(calls'[i], ops'[i], Run(q, ops'[..i]).0) {
      if i < |ops| {
        assert ops'[..i] == ops[..i];
      }
    }
  }

  /** std::copy of n bytes to a place strictly before them; the ranges may overlap. */
  method CopyDown(a: array<bv8>, to: nat, from: nat, n: nat)
    requires to < from && from + n <= a.Length
    modifies a
    ensures a[to..to + n] == old(a[from..from + n])
  {
    ghost var was := a[..];
    for i := 0 to n
      invariant forall j :: to <= j < to + i ==> a[j] == was[j + (from - to)]
      invariant forall j :: from + i <= j < a.Length ==> a[j] == was[j]
    {
      a[to + i] := a[from + i];
    }
    ghost var copied, source := a[to..to + n], was[from..from + n];
    forall k | 0 <= k < n ensures copied[k] == source[k] {
      assert a[to + k] == was[to + k + (from - to)];
    }
    assert copied == source;
  }

  class Buffer {
    var buffer: array<bv8>
    var reader: nat
    var writer: nat

    ghost predicate Valid()
      reads this
    {
      CHEAP_PREPEND <= reader <= writer <= buffer.Length
    }

    ghost function Readable(): Bytes
      requires Valid()
      reads this, buffer
    {
      buffer[reader..writer]
    }

    constructor (initialSize: nat)
      ensures Valid() && Readable() == [] && fresh(buffer)
      ensures WritableBytes() == initialSize
    {
      buffer := new bv8[CHEAP_PREPEND + initialSize](_ => 0);
      reader, writer := CHEAP_PREPEND, CHEAP_PREPEND;
    }

    function ReadableBytes(): (n: nat)
      requires Valid()
      reads this, buffer
      ensures n == |Readable()|
    {
      writer - reader
    }

    function WritableBytes(): nat
      requires Valid()
      reads this
    {
      buffer.Length - writer
    }

    function PrependableBytes(): nat
      reads this
    {
      reader
    }

    method RetrieveAll()
      requires Valid()
      modifies this`reader, this`writer
      ensures Valid() && Readable() == []
    {
      reader, writer := CHEAP_PREPEND, CHEAP_PREPEND;
    }

    method Retrieve(len: nat)
      requires Valid()
      modifies this`reader, this`writer
      ensures Valid() && Readable() == Step(old(Readable()), Take(len)).0
    {
      if len < ReadableBytes() {
        reader := reader + len;
      } else {
        RetrieveAll();
      }
    }

    /** The code copies len bytes from the reader index on, so they must lie inside the array. */
    method RetrieveAsString(len: nat) returns (result: Bytes)
      requires Valid() && reader + len <= buffer.Length
      modifies this`reader, this`writer
      ensures Valid() && Readable() == Step(old(Readable()), Take(len)).0
      ensures result == old(buffer[reader..reader + len])
      ensures len <= |old(Readable())| ==> result == Step(old(Readable()), Take(len)).1
    {
      result := buffer[reader..reader + len];
      ghost var q := Readable();
      assert len > |q| ==> result[..|q|] == q;
      assert len <= |q| ==> result == q[..len];
      Retrieve(len);
    }

    method RetrieveAllAsString() returns (result: Bytes)
      requires Valid()
      modifies this`reader, this`writer
      ensures Valid() && Readable() == [] && result == old(Readable())
    {
      result := RetrieveAsString(ReadableBytes());
    }

    method EnsureWritableBytes(len: nat)
      requires Valid()
      modifies this, buffer
      ensures Valid() && WritableBytes() >= len && Readable() == old(Readable())
      ensures buffer == old(buffer) || fresh(buffer)
    {
      if WritableBytes() < len {
        MakeSpace(len);
      }
    }

    /** Grows the array, or moves the readable bytes to the front; called only when room is short. */
    method MakeSpace(len: nat)
      requires Valid() && WritableBytes() < len
      modifies this, buffer
      ensures Valid() && WritableBytes() >= len && Readable() == old(Readable())
      ensures buffer == old(buffer) || fresh(buffer)
    {
      if WritableBytes() + PrependableBytes() < len + CHEAP_PREPEND {
        Resize(writer + len);
      } else {
        ShiftToFront();
      }
    }

    method Resize(size: nat)
      requires Valid() && buffer.Length <= size
      modifies this`buffer
      ensures Valid() && fresh(buffer) && buffer.Length == size
      ensures buffer[..old(buffer.Length)] == old(buffer[..]) && reader == old(reader) && writer == old(writer)
      ensures Readable() == old(Readable())
    {
      var bigger := new bv8[size](_ => 0);
      for i := 0 to buffer.Length
        modifies bigger
        invariant bigger[..i] == buffer[..i]
      {
        bigger[i] := buffer[i];
      }
      forall k | 0 <= k < buffer.Length ensures bigger[k] == buffer[k] {
        assert bigger[..buffer.Length][k] == buffer[..buffer.Length][k];
      }
      assert bigger[reader..writer] == buffer[reader..writer];
      buffer := bigger;
    }

    /** Moves the readable bytes to the front; the copy is sound because the target lies strictly before them. */
    method ShiftToFront()
      requires Valid() && CHEAP_PREPEND < reader
      modifies this`reader, this`writer, buffer
      ensures Valid() && reader == CHEAP_PREPEND && Readable() == old(Readable())
      ensures WritableBytes() == old(WritableBytes()) + old(reader) - CHEAP_PREPEND
    {
      var readable := ReadableBytes();
      CopyDown(buffer, CHEAP_PREPEND, reader, readable);
      reader := CHEAP_PREPEND;
      writer := reader + readable;
    }

    method Append(data: Bytes)
      requires Valid()
      modifies this, buffer
      ensures Valid() && Readable() == Step(old(Readable()), Put(data)).0
      ensures buffer == old(buffer) || fresh(buffer)
    {
      EnsureWritableBytes(|data|);
      Fill(data);
    }

    /** Copies bytes into the writable part and moves the writer past them. */
    method Fill(data: Bytes)
      requires Valid() && |data| <= WritableBytes()
      modifies this`writer, buffer
      ensures Valid() && Readable() == old(Readable()) + data
      ensures writer == old(writer) + |data| && reader == old(reader)
    {
      for i := 0 to |data|
        modifies buffer
        invariant buffer[reader..writer] == old(buffer[reader..writer])
        invariant buffer[writer..writer + i] == data[..i]
      {
        buffer[writer + i] := data[i];
      }
      writer := writer + |data|;
      assert data[..|data|] == data;
      assert buffer[reader..writer] == buffer[reader..old(writer)] + buffer[old(writer)..writer];
    }

    /** How much one scatter read may deliver: the writable part, and the extra area when that is small. */
    ghost function ReadCapacity(): nat
      requires Valid()
      reads this
    {
      WritableBytes() + if WritableBytes() < EXTRA_SIZE then EXTRA_SIZE else 0
    }

    method ReadFd(result: ReadResult) returns (n: int, savedErrno: int)
      requires Valid()
      requires result.ReadBytes? ==> |result.bytes| <= ReadCapacity()
      modifies this, buffer
      ensures Valid() && (buffer == old(buffer) || fresh(buffer))
      ensures match result
              case ReadFailed(errno) => n == -1 && savedErrno == errno && Readable() == old(Readable())
              case ReadBytes(bytes) =>
                n == |bytes| && savedErrno == 0 && Readable() == Step(old(Readable()), Put(bytes)).0
    {
      var writable := WritableBytes();
      match result {
        case ReadFailed(errno) =>
          return -1, errno;
        case ReadBytes(bytes) =>
          n, savedErrno := |bytes|, 0;
          if |bytes| <= writable {
            Fill(bytes);
          } else {
            // The kernel fills the writable part first and puts the rest into the extra area.
            var extrabuf := bytes[writable..];
            Fill(bytes[..writable]);
            Append(extrabuf);
            assert bytes[..writable] + bytes[writable..] == bytes;
          }
      }
    }

    /** One write of the readable bytes, of which the kernel takes the first; all of them stay readable. */
    method WriteFd(result: WriteResult) returns (n: int, savedErrno: int, written: Bytes)
      requires Valid() && (result.Written? ==> result.n <= |Readable()|)
      ensures match result
              case WriteFailed(errno) => n == -1 && savedErrno == errno && written == []
              case Written(taken) => n == taken && savedErrno == 0 && written == Readable()[..taken]
    {
      match result {
        case WriteFailed(errno) =>
          return -1, errno, [];
        case Written(taken) =>
          written := buffer[reader..reader + taken];
          assert written == Readable()[..taken];
          return taken, 0, written;
      }
    }

    // ---------- sequences of calls ----------

    /** One call, and the operation it turns out to be. */
    method PerformOne(call: Call) returns (taken: Bytes, ghost op: Op)
      requires Valid()
      modifies this, buffer
      ensures Valid() && (buffer == old(buffer) || fresh(buffer))
      ensures Does(call, op, old(Readable())) && (Readable(), taken) == Step(old(Readable()), op)
    {
      taken := [];
      ghost var q := Readable();
      assert q + [] == q && q[..|q|] == q && q[|q|..] == [];
      match call {
        case Append(bytes) =>
          op := Put(bytes);
          Append(bytes);
        case Receive(ready) =>
          var capacity := WritableBytes() + if WritableBytes() < EXTRA_SIZE then EXTRA_SIZE else 0;
          var bytes := ready[..Least(|ready|, capacity)];
          op := Put(bytes);
          var n, savedErrno := ReadFd(ReadBytes(bytes));
        case ReceiveFails(errno) =>
          op := Put([]);
          var n, savedErrno := ReadFd(ReadFailed(errno));
        case EnsureWritable(len) =>
          op := Put([]);
          EnsureWritableBytes(len);
        case PeekAndRetrieve(len) =>
          op := Take(len);
          taken := buffer[reader..reader + Least(len, ReadableBytes())];
          assert taken == q[..Least(len, |q|)];
          Retrieve(len);
        case RetrieveString(len) =>
          var count := Least(len, ReadableBytes());
          op := Take(count);
          taken := RetrieveAsString(count);
        case RetrieveAllString =>
          op := Take(|q|);
          taken := RetrieveAllAsString();
      }
    }

    /** Any calls one after the other: the bytes taken and those still readable are the old ones and those put in. */
    method Perform(calls: seq<Call>) returns (taken: Bytes, ghost ops: seq<Op>)
      requires Valid()
      modifies this, buffer
      ensures Valid() && (buffer == old(buffer) || fresh(buffer))
      ensures DoAll(calls, ops, old(Readable())) && (Readable(), taken) == Run(old(Readable()), ops)
      ensures taken + Readable() == old(Readable()) + PutIn(ops)
      ensures |Readable()| == LengthAfter(|old(Readable())|, ops)
    {
      taken, ops := [], [];
      ghost var q := Readable();
      for i := 0 to |calls|
        invariant Valid() && (buffer == old(buffer) || fresh(buffer))
        invariant DoAll(calls[..i], ops, q) && (Readable(), taken) == Run(q, ops)
      {
        var more;
        ghost var op;
        more, op := PerformOne(calls[i]);
        OneMoreCall(calls[..i], ops, q, calls[i], op);
        taken, ops := taken + more, ops + [op];
        assert calls[..i + 1] == calls[..i] + [calls[i]];
      }
      assert calls[..|calls|] == calls;
      NothingLostOrReordered(q, ops);
      LengthsFollow(q, ops);
    }
  }
}
