/**
  The byte buffer of src/Buffer.h and src/Buffer.cc as values and functions.

  A buffer is a vector with two indices; its readable part is data[reader..writer].
  The compaction branch of makeSpace is kept as it is written (AsWritten) next to the
  form it was evidently meant to have (AsMeant); every function below takes the choice
  as a parameter, and the two differ in one assignment only.
*/
module ByteBuffers {
  import opened Options

  newtype Byte = x: int | 0 <= x < 256

  const CHEAP_PREPEND: nat := 8
  const EXTRA_BUFFER: nat := 65536

  datatype Compaction = AsWritten | AsMeant

  datatype Buf = Buf(data: seq<Byte>, reader: nat, writer: nat) {
    predicate Valid() {
      CHEAP_PREPEND <= reader <= writer <= |data|
    }

    function Readable(): nat
      requires Valid()
    {
      writer - reader
    }

    function Writable(): nat
      requires Valid()
    {
      |data| - writer
    }

    function Contents(): seq<Byte>
      requires Valid()
    {
      data[reader..writer]
    }

    /** The else branch of makeSpace is taken by an append of len bytes. */
    predicate Compacts(len: nat)
      requires Valid()
    {
      Writable() < len && len + CHEAP_PREPEND <= Writable() + reader
    }
  }

  /** Buffers as every operation finds and leaves them. */
  type ValidBuf = b: Buf | b.Valid() witness Buf([0, 0, 0, 0, 0, 0, 0, 0], 8, 8)

  function NewBuf(initialSize: nat): (b: Buf)
    ensures b.Valid() && b.Contents() == [] && b.Writable() == initialSize
  {
    Buf(seq(CHEAP_PREPEND + initialSize, _ => 0), CHEAP_PREPEND, CHEAP_PREPEND)
  }

  /** std::copy of bytes into a vector at a given offset. */
  function Put(data: seq<Byte>, at: nat, bytes: seq<Byte>): (r: seq<Byte>)
    requires at + |bytes| <= |data|
    ensures |r| == |data| && r[at..at + |bytes|] == bytes && r[..at] == data[..at]
    ensures forall i | at + |bytes| <= i < |data| :: r[i] == data[i]
  {
    data[..at] + bytes + data[at + |bytes|..]
  }

  function RetrieveAll(b: Buf): Buf {
    b.(reader := CHEAP_PREPEND, writer := CHEAP_PREPEND)
  }

  function Retrieve(b: Buf, n: nat): (r: Buf)
    requires b.Valid()
    ensures r.Valid()
  {
    if n < b.Readable() then b.(reader := b.reader + n) else RetrieveAll(b)
  }

  /** makeSpace; as written, the result may have its writer index past the end of the vector. */
  function MakeSpace(v: Compaction, b: Buf, len: nat): Buf
    requires b.Valid()
  {
    if b.Writable() + b.reader < len + CHEAP_PREPEND then
      Buf(b.data + seq(len - b.Writable(), _ => 0), b.reader, b.writer)
    else
      Buf(Put(b.data, CHEAP_PREPEND, b.Contents()), CHEAP_PREPEND,
          match v
          case AsWritten => b.writer + len - b.Readable()
          case AsMeant => CHEAP_PREPEND + b.Readable())
  }

  function EnsureWritable(v: Compaction, b: Buf, len: nat): Buf
    requires b.Valid()
  {
    if b.Writable() < len then MakeSpace(v, b, len) else b
  }

  /** append; None when the copy would run past the end of the vector. */
  function Append(v: Compaction, b: Buf, bytes: seq<Byte>): (r: Option<Buf>)
    requires b.Valid()
    ensures r.Some? ==> r.value.Valid()
  {
    var e := EnsureWritable(v, b, |bytes|);
    if e.writer + |bytes| <= |e.data| then
      Some(Buf(Put(e.data, e.writer, bytes), e.reader, e.writer + |bytes|))
    else
      None
  }

  /** What readv reports: the bytes it delivered, in order, or an errno. */
  datatype ReadResult = Got(bytes: seq<Byte>) | Failed(errno: int)

  /** readv(2) fills the buffer tail first and then, when it was offered, the extra area. */
  predicate LegalRead(b: Buf, res: ReadResult)
    requires b.Valid()
  {
    res.Got? ==> |res.bytes| <= b.Writable() + (if b.Writable() < EXTRA_BUFFER then EXTRA_BUFFER else 0)
  }

  function ReadFd(v: Compaction, b: Buf, res: ReadResult): (r: Option<Buf>)
    requires b.Valid() && LegalRead(b, res)
    ensures r.Some? ==> r.value.Valid()
  {
    match res
    case Failed(_) => Some(b)
    case Got(bytes) =>
      var writable := b.Writable();
      if |bytes| <= writable then
        Some(Buf(Put(b.data, b.writer, bytes), b.reader, b.writer + |bytes|))
      else
        Append(v, Buf(Put(b.data, b.writer, bytes[..writable]), b.reader, |b.data|), bytes[writable..])
  }

  // ---------------------------------------------------------------- one operation

  /** retrieve drops n readable bytes from the front, or all of them when there are no more than n. */
  lemma RetrieveDrops(b: Buf, n: nat)
    requires b.Valid()
    ensures Retrieve(b, n).Contents() == b.Contents()[if n < b.Readable() then n else b.Readable()..]
  {}

  /** makeSpace as meant keeps the contents and leaves room for len more bytes. */
  lemma MakeSpaceAsMeant(b: Buf, len: nat)
    requires b.Valid()
    ensures var m := MakeSpace(AsMeant, b, len);
            m.Valid() && m.Contents() == b.Contents() && m.Writable() >= len
  {}

  /**
    makeSpace as written, in the compaction branch: how many bytes become readable, and
    exactly when they are the bytes that were readable before.
  */
  lemma CompactionAsWritten(b: Buf, len: nat)
    requires b.Valid() && b.Compacts(len)
    ensures var m := MakeSpace(AsWritten, b, len);
            && m.writer - m.reader == b.reader + len - CHEAP_PREPEND
            && (m.Valid() && m.Contents() == b.Contents()
                <==> len == b.Readable() - b.reader + CHEAP_PREPEND)
  {}

  /** append as meant is the queue operation, and always stays inside the vector. */
  lemma AppendAsMeant(b: Buf, bytes: seq<Byte>)
    requires b.Valid()
    ensures var r := Append(AsMeant, b, bytes);
            r.Some? && r.value.Contents() == b.Contents() + bytes
  {}

  /** Whatever the form, an append leaves at least its own bytes readable. */
  lemma AppendLeavesReadable(v: Compaction, b: Buf, bytes: seq<Byte>)
    requires b.Valid() && Append(v, b, bytes).Some?
    ensures Append(v, b, bytes).value.Readable() >= |bytes|
  {}

  /** Without compaction the two forms are one and the same function. */
  lemma AppendAgrees(b: Buf, bytes: seq<Byte>)
    requires b.Valid() && !b.Compacts(|bytes|)
    ensures Append(AsWritten, b, bytes) == Append(AsMeant, b, bytes)
  {}

  /** Exactly when the append of src/Buffer.h adds its bytes to the readable contents. */
  lemma AppendAsWritten(b: Buf, bytes: seq<Byte>)
    requires b.Valid()
    ensures var r := Append(AsWritten, b, bytes);
            && (r.Some? && r.value.Contents() == b.Contents() + bytes
                <==> (b.Compacts(|bytes|) ==> |bytes| == b.Readable() - b.reader + CHEAP_PREPEND))
            && (r.None? <==> b.Compacts(|bytes|) && |b.data| < b.reader + 2 * |bytes|)
  {}

  // ---------------------------------------------------------------- runs

  datatype Op = OpAppend(bytes: seq<Byte>) | OpRetrieve(n: nat) | OpRetrieveAll | OpReadFd(res: ReadResult)

  predicate LegalOp(b: Buf, op: Op)
    requires b.Valid()
  {
    op.OpReadFd? ==> LegalRead(b, op.res)
  }

  function Step(v: Compaction, b: Buf, op: Op): (r: Option<Buf>)
    requires b.Valid() && LegalOp(b, op)
    ensures r.Some? ==> r.value.Valid()
  {
    match op
    case OpAppend(bytes) => Append(v, b, bytes)
    case OpRetrieve(n) => Some(Retrieve(b, n))
    case OpRetrieveAll => Some(RetrieveAll(b))
    case OpReadFd(res) => ReadFd(v, b, res)
  }

  /** The byte queue that a buffer should be. */
  function QueueStep(q: seq<Byte>, op: Op): seq<Byte> {
    match op
    case OpAppend(bytes) => q + bytes
    case OpRetrieve(n) => if n < |q| then q[n..] else []
    case OpRetrieveAll => []
    case OpReadFd(Got(bytes)) => q + bytes
    case OpReadFd(Failed(_)) => q
  }

  function QueueRun(q: seq<Byte>, ops: seq<Op>): seq<Byte>
    decreases |ops|
  {
    if ops == [] then q else QueueRun(QueueStep(q, ops[0]), ops[1..])
  }

  /** A run in which every read delivers no more than it was offered. */
  predicate LegalRun(v: Compaction, b: Buf, ops: seq<Op>)
    requires b.Valid()
    decreases |ops|
  {
    ops == [] ||
    (LegalOp(b, ops[0]) &&
     var next := Step(v, b, ops[0]);
     (next.Some? ==> LegalRun(v, next.value, ops[1..])))
  }

  /** The buffer after a run; None once a copy has left the vector. */
  function Run(v: Compaction, b: Buf, ops: seq<Op>): (r: Option<Buf>)
    requires b.Valid() && LegalRun(v, b, ops)
    ensures r.Some? ==> r.value.Valid()
    decreases |ops|
  {
    if ops == [] then Some(b)
    else
      var next := Step(v, b, ops[0]);
      if next.Some? then Run(v, next.value, ops[1..]) else None
  }

  /** The readFd buffer at the moment of its inner append. */
  function FilledTail(b: Buf, bytes: seq<Byte>): (r: Buf)
    requires b.Valid() && b.Writable() < |bytes|
    ensures r.Valid() && r.Writable() == 0 && r.Contents() == b.Contents() + bytes[..b.Writable()]
  {
    var r := Buf(Put(b.data, b.writer, bytes[..b.Writable()]), b.reader, |b.data|);
    assert r.data[b.reader..b.writer] == r.data[..b.writer][b.reader..] == b.Contents();
    assert r.Contents() == r.data[b.reader..b.writer] + r.data[b.writer..];
    r
  }

  /** readFd as meant appends exactly the bytes received, whichever side of the split they fell on. */
  lemma ReadFdAsMeant(b: Buf, res: ReadResult)
    requires b.Valid() && LegalRead(b, res)
    ensures var r := ReadFd(AsMeant, b, res);
            r.Some? && r.value.Contents() == QueueStep(b.Contents(), OpReadFd(res))
  {
    hide Append, FilledTail, Put;
    if res.Got? {
      if |res.bytes| <= b.Writable() {
        PutAtWriter(b, res.bytes);
      } else {
        var k := b.Writable();
        var f := FilledTail(b, res.bytes);
        assert f == Buf(Put(b.data, b.writer, res.bytes[..k]), b.reader, |b.data|) by {
          FilledTailIs(b, res.bytes);
        }
        AppendAsMeant(f, res.bytes[k..]);
        assert res.bytes == res.bytes[..k] + res.bytes[k..];
      }
    }
  }

  lemma FilledTailIs(b: Buf, bytes: seq<Byte>)
    requires b.Valid() && b.Writable() < |bytes|
    ensures FilledTail(b, bytes) == Buf(Put(b.data, b.writer, bytes[..b.Writable()]), b.reader, |b.data|)
  {
    hide Put;
  }

  /** Bytes copied to the writer index and counted in are appended. */
  lemma PutAtWriter(b: Buf, bytes: seq<Byte>)
    requires b.Valid() && |bytes| <= b.Writable()
    ensures Buf(Put(b.data, b.writer, bytes), b.reader, b.writer + |bytes|).Contents() == b.Contents() + bytes
  {
    hide Put;
    var r := Buf(Put(b.data, b.writer, bytes), b.reader, b.writer + |bytes|);
    assert r.data[b.reader..b.writer] == r.data[..b.writer][b.reader..] == b.Contents();
    assert r.Contents() == r.data[b.reader..b.writer] + r.data[b.writer..r.writer];
  }

  /**
    What one read can deliver: always 64 KB and the free tail besides as long as the tail is
    shorter than that, so a new buffer can take 66560 bytes at once; otherwise what the tail holds.
  */
  lemma ReadLimits(b: Buf, bytes: seq<Byte>)
    requires b.Valid()
    ensures |bytes| <= 65536 ==> LegalRead(b, Got(bytes))
    ensures LegalRead(b, Got(bytes)) ==> |bytes| < b.Writable() + 65537
    ensures b.Writable() >= 65536 ==> (LegalRead(b, Got(bytes)) <==> b.writer + |bytes| <= |b.data|)
    ensures b == NewBuf(1024) ==> (LegalRead(b, Got(bytes)) <==> |bytes| <= 66560)
  {}

  lemma StepAsMeant(b: Buf, op: Op)
    requires b.Valid() && LegalOp(b, op)
    ensures var r := Step(AsMeant, b, op);
            r.Some? && r.value.Contents() == QueueStep(b.Contents(), op)
  {
    match op
    case OpAppend(bytes) => AppendAsMeant(b, bytes);
    case OpRetrieve(n) =>
    case OpRetrieveAll =>
    case OpReadFd(res) => ReadFdAsMeant(b, res);
  }

  /** Refinement: with compaction as meant, every run of the buffer is a run of a byte queue. */
  lemma {:induction false} BufferRefinesQueue(b: Buf, ops: seq<Op>)
    requires b.Valid() && LegalRun(AsMeant, b, ops)
    ensures var r := Run(AsMeant, b, ops);
            r.Some? && r.value.Contents() == QueueRun(b.Contents(), ops)
    decreases |ops|
  {
    if ops != [] {
      StepAsMeant(b, ops[0]);
      BufferRefinesQueue(Step(AsMeant, b, ops[0]).value, ops[1..]);
    }
  }

  /** The operation takes the compaction branch, directly or in the append inside readFd. */
  predicate OpCompacts(b: Buf, op: Op)
    requires b.Valid()
  {
    match op
    case OpAppend(bytes) => b.Compacts(|bytes|)
    case OpReadFd(Got(bytes)) =>
      b.Writable() < |bytes| && FilledTail(b, bytes).Compacts(|bytes| - b.Writable())
    case _ => false
  }

  lemma StepAgrees(b: Buf, op: Op)
    requires b.Valid() && LegalOp(b, op) && !OpCompacts(b, op)
    ensures Step(AsWritten, b, op) == Step(AsMeant, b, op)
  {
    match op
    case OpAppend(bytes) => AppendAgrees(b, bytes);
    case OpReadFd(Got(bytes)) =>
      if b.Writable() < |bytes| {
        AppendAgrees(FilledTail(b, bytes), bytes[b.Writable()..]);
      }
    case _ =>
  }

  /** The operation does not compact, or appends the one length for which compaction is right. */
  predicate Harmless(b: Buf, op: Op)
    requires b.Valid()
  {
    OpCompacts(b, op) ==>
      match op
      case OpAppend(bytes) => |bytes| == b.Readable() - b.reader + CHEAP_PREPEND
      case OpReadFd(Got(bytes)) => |bytes| == b.Readable() + 2 * b.Writable() - b.reader + CHEAP_PREPEND
      case _ => true
  }

  /** The operation, as written, does to the readable bytes what the queue operation does. */
  predicate ExactStep(b: Buf, op: Op)
    requires b.Valid() && LegalOp(b, op)
  {
    var r := Step(AsWritten, b, op);
    r.Some? && r.value.Contents() == QueueStep(b.Contents(), op)
  }

  lemma ExactStepIffHarmless(b: Buf, op: Op)
    requires b.Valid() && LegalOp(b, op)
    ensures ExactStep(b, op) <==> Harmless(b, op)
  {
    if !OpCompacts(b, op) {
      StepAgrees(b, op);
      StepAsMeant(b, op);
    } else {
      match op
      case OpAppend(bytes) => AppendAsWritten(b, bytes);
      case OpReadFd(Got(bytes)) =>
        var k := b.Writable();
        AppendAsWritten(FilledTail(b, bytes), bytes[k..]);
        assert bytes == bytes[..k] + bytes[k..];
        assert b.Contents() + bytes == FilledTail(b, bytes).Contents() + bytes[k..];
    }
  }

  /** Every operation of the run, as written, is exact. */
  predicate ExactRun(b: Buf, ops: seq<Op>)
    requires b.Valid() && LegalRun(AsWritten, b, ops)
    decreases |ops|
  {
    ops == [] || (ExactStep(b, ops[0]) && ExactRun(Step(AsWritten, b, ops[0]).value, ops[1..]))
  }

  /** Every operation of the run is harmless in the state it is called in. */
  predicate HarmlessRun(b: Buf, ops: seq<Op>)
    requires b.Valid() && LegalRun(AsWritten, b, ops)
    decreases |ops|
  {
    ops == [] ||
    (Harmless(b, ops[0]) &&
     var next := Step(AsWritten, b, ops[0]);
     (next.Some? ==> HarmlessRun(next.value, ops[1..])))
  }

  /**
    As written: a run follows the byte queue at every step if and only if no append in it
    compacts with a length other than the one compaction is right for.
  */
  lemma {:induction false} WrittenIsExactIff(b: Buf, ops: seq<Op>)
    requires b.Valid() && LegalRun(AsWritten, b, ops)
    ensures ExactRun(b, ops) <==> HarmlessRun(b, ops)
    ensures HarmlessRun(b, ops) ==>
              var r := Run(AsWritten, b, ops);
              r.Some? && r.value.Contents() == QueueRun(b.Contents(), ops)
    decreases |ops|
  {
    if ops != [] {
      ExactStepIffHarmless(b, ops[0]);
      if Harmless(b, ops[0]) {
        WrittenIsExactIff(Step(AsWritten, b, ops[0]).value, ops[1..]);
      }
    }
  }

  /** A new buffer of the initial size: 1000 bytes in, 500 out, 100 more in, and the contents are lost. */
  lemma CompactionLosesBytes()
    ensures var ops := [OpAppend(seq(1000, _ => 0)), OpRetrieve(500), OpAppend(seq(100, _ => 1))];
            && LegalRun(AsWritten, NewBuf(1024), ops)
            && Run(AsWritten, NewBuf(1024), ops).Some?
            && Run(AsWritten, NewBuf(1024), ops).value.Contents() != QueueRun([], ops)
  {
    var first, last := seq<Byte>(1000, _ => 0), seq<Byte>(100, _ => 1);
    var ops := [OpAppend(first), OpRetrieve(500), OpAppend(last)];
    var b0 := NewBuf(1024);
    AppendAgrees(b0, first);
    AppendAsMeant(b0, first);
    var b1 := Append(AsWritten, b0, first).value;
    var b2 := Retrieve(b1, 500);
    AppendAsWritten(b2, last);
    RunCons(AsWritten, b2, ops[2], []);
    RunCons(AsWritten, b1, ops[1], [ops[2]]);
    RunCons(AsWritten, b0, ops[0], [ops[1]] + [ops[2]]);
    assert ops == [ops[0]] + ([ops[1]] + [ops[2]]);
    assert Run(AsWritten, b0, ops) == Append(AsWritten, b2, last);
    assert ops[1..] == [ops[1], ops[2]] && ops[1..][1..] == [ops[2]] && ops[1..][1..][1..] == [];
    assert [] + first == first;
    assert QueueRun([], ops) == QueueRun(first, ops[1..]) == QueueRun(first[500..], ops[1..][1..]);
    assert QueueRun(first[500..], [ops[2]]) == QueueRun(first[500..] + last, []) by {
      assert [ops[2]][1..] == [];
    }
  }

  lemma RunCons(v: Compaction, b: Buf, op: Op, rest: seq<Op>)
    requires b.Valid() && LegalOp(b, op)
    requires Step(v, b, op).Some? ==> LegalRun(v, Step(v, b, op).value, rest)
    ensures LegalRun(v, b, [op] + rest)
    ensures Step(v, b, op).Some? ==> Run(v, b, [op] + rest) == Run(v, Step(v, b, op).value, rest)
    ensures Step(v, b, op).Some? && rest == [] ==> Run(v, b, [op]) == Step(v, b, op) && LegalRun(v, b, [op])
  {
    hide Step;
    assert ([op] + rest)[1..] == rest;
    assert rest == [] ==> [op] + rest == [op];
  }

  /** Every retrieval of the run empties the buffer. */
  predicate DrainOnly(q: seq<Byte>, ops: seq<Op>)
    decreases |ops|
  {
    ops == [] ||
    ((ops[0].OpRetrieve? ==> |q| <= ops[0].n) && DrainOnly(QueueStep(q, ops[0]), ops[1..]))
  }

  /** No operation of the run, as written, takes the compaction branch. */
  predicate NeverCompacts(b: Buf, ops: seq<Op>)
    requires b.Valid() && LegalRun(AsWritten, b, ops)
    decreases |ops|
  {
    ops == [] ||
    (!OpCompacts(b, ops[0]) &&
     var next := Step(AsWritten, b, ops[0]);
     (next.Some? ==> NeverCompacts(next.value, ops[1..])))
  }

  /**
    Drain-only use, as written: the reader index never leaves 8, so the compaction branch
    is never taken, and the run is a run of a byte queue. The condition DrainOnly speaks of
    the queue and the operations alone.
  */
  lemma {:induction false} DrainOnlyIsExact(b: Buf, ops: seq<Op>)
    requires b.Valid() && b.reader == CHEAP_PREPEND
    requires LegalRun(AsWritten, b, ops) && DrainOnly(b.Contents(), ops)
    ensures NeverCompacts(b, ops) && HarmlessRun(b, ops)
    ensures var r := Run(AsWritten, b, ops);
            r.Some? && r.value.reader == CHEAP_PREPEND
            && r.value.Contents() == QueueRun(b.Contents(), ops)
    decreases |ops|
  {
    if ops != [] {
      assert !OpCompacts(b, ops[0]);
      StepAgrees(b, ops[0]);
      StepAsMeant(b, ops[0]);
      DrainOnlyIsExact(Step(AsWritten, b, ops[0]).value, ops[1..]);
    }
  }

  // ---------------------------------------------------------------- capacity

  function Max(a: int, b: int): int {
    if a < b then b else a
  }

  /** Every append of the run starts with at most p readable bytes and adds at most l. */
  predicate AppendsWithin(b: Buf, ops: seq<Op>, p: nat, l: nat)
    requires b.Valid() && LegalRun(AsMeant, b, ops)
    decreases |ops|
  {
    ops == [] ||
    (&& (match ops[0]
         case OpAppend(bytes) => b.Readable() <= p && |bytes| <= l
         case OpReadFd(Got(bytes)) =>
           b.Writable() < |bytes| ==> b.Readable() + b.Writable() <= p && |bytes| - b.Writable() <= l
         case _ => true)
     && var next := Step(AsMeant, b, ops[0]);
        (next.Some? ==> AppendsWithin(next.value, ops[1..], p, l)))
  }

  /** Capacity: the vector never outgrows its first size or p + 2 * l + 7. */
  lemma {:induction false} CapacityBound(b: Buf, ops: seq<Op>, p: nat, l: nat)
    requires b.Valid() && LegalRun(AsMeant, b, ops) && AppendsWithin(b, ops, p, l)
    ensures var r := Run(AsMeant, b, ops);
            r.Some? && |r.value.data| <= Max(|b.data|, p + 2 * l + 7)
    decreases |ops|
  {
    if ops != [] {
      StepAsMeant(b, ops[0]);
      CapacityBound(Step(AsMeant, b, ops[0]).value, ops[1..], p, l);
    }
  }

  lemma AppendsWithinCons(b: Buf, op: Op, rest: seq<Op>, p: nat, l: nat)
    requires b.Valid() && LegalRun(AsMeant, b, [op] + rest) && Step(AsMeant, b, op).Some?
    requires LegalRun(AsMeant, Step(AsMeant, b, op).value, rest)
    requires AppendsWithin(Step(AsMeant, b, op).value, rest, p, l)
    requires op.OpAppend? ==> b.Readable() <= p && |op.bytes| <= l
    requires !op.OpReadFd?
    ensures AppendsWithin(b, [op] + rest, p, l)
  {
    hide Step, LegalOp;
    assert ([op] + rest)[1..] == rest;
  }

  /** One more operation in front of a run that reaches a size. */
  lemma ReachesCons(b: Buf, op: Op, rest: seq<Op>, p: nat, l: nat, size: nat)
    requires b.Valid() && !op.OpReadFd? && Step(AsMeant, b, op).Some?
    requires Reaches(Step(AsMeant, b, op).value, rest, p, l, size)
    requires op.OpAppend? ==> b.Readable() <= p && |op.bytes| <= l
    ensures Reaches(b, [op] + rest, p, l, size)
  {
    hide Step, AppendsWithin, LegalRun, Run;
    RunCons(AsMeant, b, op, rest);
    AppendsWithinCons(b, op, rest, p, l);
  }

  /** A run whose appends start with at most p readable bytes, add at most l, and end at a vector of the size. */
  predicate Reaches(b: Buf, ops: seq<Op>, p: nat, l: nat, size: nat)
    requires b.Valid()
  {
    && LegalRun(AsMeant, b, ops) && AppendsWithin(b, ops, p, l)
    && Run(AsMeant, b, ops).Some? && |Run(AsMeant, b, ops).value.data| == size
  }

  /** The last append, on a full vector whose front is one byte too short to compact. */
  lemma LastAppend(b: Buf, p: nat, l: nat) returns (ops: seq<Op>)
    requires b.Valid() && 0 < l && b.Readable() == p && b.writer == |b.data| == p + l + 7
    ensures Reaches(b, ops, p, l, p + 2 * l + 7)
  {
    var bytes := seq<Byte>(l, _ => 0);
    AppendAsMeant(b, bytes);
    var r := Append(AsMeant, b, bytes).value;
    assert |r.data| == p + 2 * l + 7;
    ops := [OpAppend(bytes)];
    assert Reaches(r, [], p, l, p + 2 * l + 7);
    ReachesCons(b, OpAppend(bytes), [], p, l, p + 2 * l + 7);
    assert [OpAppend(bytes)] + [] == ops;
  }

  /** Single bytes are appended, and one retrieved for each once p are readable, until the vector is full. */
  lemma {:induction false} FillUp(b: Buf, p: nat, l: nat) returns (ops: seq<Op>)
    requires b.Valid() && 0 < p && 0 < l && |b.data| == p + l + 7
    requires b.Readable() <= p && (b.reader == CHEAP_PREPEND || b.Readable() == p)
    ensures Reaches(b, ops, p, l, p + 2 * l + 7)
    decreases |b.data| - b.writer
  {
    hide Reaches;
    if b.writer == |b.data| {
      ops := LastAppend(b, p, l);
    } else {
      var one := OpAppend([0]);
      var b1 := Step(AsMeant, b, one).value;
      AppendAsMeant(b, [0]);
      if b.Readable() < p {
        var rest := FillUp(b1, p, l);
        ReachesCons(b, one, rest, p, l, p + 2 * l + 7);
        ops := [one] + rest;
      } else {
        var b2 := Step(AsMeant, b1, OpRetrieve(1)).value;
        var rest := FillUp(b2, p, l);
        ReachesCons(b1, OpRetrieve(1), rest, p, l, p + 2 * l + 7);
        ReachesCons(b, one, [OpRetrieve(1)] + rest, p, l, p + 2 * l + 7);
        ops := [one] + ([OpRetrieve(1)] + rest);
      }
    }
  }

  /** For positive p and l the bound is met with equality, by a run from a new, smaller buffer. */
  lemma CapacityBoundIsTight(p: nat, l: nat) returns (ops: seq<Op>)
    requires 0 < p && 0 < l
    ensures |NewBuf(p + l - 1).data| < p + 2 * l + 7
    ensures Reaches(NewBuf(p + l - 1), ops, p, l, p + 2 * l + 7)
  {
    ops := FillUp(NewBuf(p + l - 1), p, l);
  }

  /** An empty buffer has its indices at 8: so it is made, and so every operation leaves it. */
  predicate Settled(b: Buf) {
    b.reader == b.writer ==> b.reader == CHEAP_PREPEND
  }

  lemma StepKeepsSettled(b: Buf, op: Op)
    requires b.Valid() && Settled(b) && LegalOp(b, op)
    ensures Step(AsMeant, b, op).Some? && Settled(Step(AsMeant, b, op).value)
  {
    StepAsMeant(b, op);
  }

  /**
    When every append finds the buffer empty, the bound is 8 + l: an empty buffer has all its
    room behind the writer index.
  */
  lemma {:induction false} CapacityBoundOfEmpty(b: Buf, ops: seq<Op>, l: nat)
    requires b.Valid() && Settled(b) && LegalRun(AsMeant, b, ops) && AppendsWithin(b, ops, 0, l)
    ensures var r := Run(AsMeant, b, ops);
            r.Some? && |r.value.data| <= Max(|b.data|, CHEAP_PREPEND + l)
    decreases |ops|
  {
    if ops != [] {
      StepKeepsSettled(b, ops[0]);
      StepSizeOfEmpty(b, ops[0], l);
      CapacityBoundOfEmpty(Step(AsMeant, b, ops[0]).value, ops[1..], l);
    }
  }

  lemma StepSizeOfEmpty(b: Buf, op: Op, l: nat)
    requires b.Valid() && Settled(b) && LegalOp(b, op)
    requires op.OpAppend? ==> b.Readable() == 0 && |op.bytes| <= l
    requires op.OpReadFd? && op.res.Got? && b.Writable() < |op.res.bytes| ==>
               b.Readable() + b.Writable() == 0 && |op.res.bytes| <= l
    ensures Step(AsMeant, b, op).Some? && |Step(AsMeant, b, op).value.data| <= Max(|b.data|, CHEAP_PREPEND + l)
  {
    StepAsMeant(b, op);
  }

  /** That bound is met too, by the first append to a buffer made without room. */
  lemma CapacityBoundOfEmptyIsTight(l: nat)
    requires 0 < l
    ensures Reaches(NewBuf(0), [OpAppend(seq(l, _ => 0))], 0, l, CHEAP_PREPEND + l)
  {
    var b, op := NewBuf(0), OpAppend(seq(l, _ => 0));
    AppendAsMeant(b, op.bytes);
    assert Reaches(Step(AsMeant, b, op).value, [], 0, l, CHEAP_PREPEND + l);
    ReachesCons(b, op, [], 0, l, CHEAP_PREPEND + l);
    assert [op] + [] == [op];
  }
}
