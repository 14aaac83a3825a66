/**
  The Buffer class of src/Buffer.h and src/Buffer.cc: an array and two indices changed in
  place. Every method is proved to do what its namesake in ByteBuffers does to the value View().
*/
module BufferObjects {
  import opened Options
  import BB = ByteBuffers
  import opened ByteBuffers

  /** std::copy inside one vector, towards the front, with overlapping ranges. */
  method CopyDown(a: array<Byte>, first: nat, last: nat, dest: nat)
    requires dest <= first <= last <= a.Length
    modifies a
    ensures a[..] == Put(old(a[..]), dest, old(a[first..last]))
  {
    ghost var was := a[..];
    for i := 0 to last - first
      invariant a[..dest] == was[..dest]
      invariant a[dest..dest + i] == was[first..first + i]
      invariant a[dest + i..] == was[dest + i..]
    {
      assert a[first + i] == a[dest + i..][first - dest] == was[first + i];
      a[dest + i] := a[first + i];
    }
    assert a[..] == a[..dest] + a[dest..dest + (last - first)] + a[dest + (last - first)..];
  }

  /** std::copy of outside bytes into a vector. */
  method CopyIn(a: array<Byte>, at: nat, bytes: seq<Byte>)
    requires at + |bytes| <= a.Length
    modifies a
    ensures a[..] == Put(old(a[..]), at, bytes)
  {
    ghost var was := a[..];
    for i := 0 to |bytes|
      invariant a[..at] == was[..at]
      invariant a[at..at + i] == bytes[..i]
      invariant a[at + i..] == was[at + i..]
    {
      a[at + i] := bytes[i];
    }
    assert a[..] == a[..at] + a[at..at + |bytes|] + a[at + |bytes|..];
  }

  lemma ReadOverflows(v: Compaction, b: Buf, bytes: seq<Byte>)
    requires b.Valid() && LegalRead(b, Got(bytes)) && b.Writable() < |bytes|
    ensures BB.ReadFd(v, b, Got(bytes)) == BB.Append(v, FilledTail(b, bytes), bytes[b.Writable()..])
  {
    hide BB.Append;
  }

  class Buffer {
    const compaction: Compaction
    var buffer: array<Byte>
    var readerIndex: nat
    var writerIndex: nat

    ghost function View(): Buf
      reads this, buffer
    {
      Buf(buffer[..], readerIndex, writerIndex)
    }

    ghost predicate Valid()
      reads this, buffer
    {
      View().Valid()
    }

    constructor (compaction: Compaction, initialSize: nat)
      ensures Valid() && fresh(buffer) && this.compaction == compaction
      ensures View() == NewBuf(initialSize) && buffer.Length == 8 + initialSize
    {
      this.compaction := compaction;
      buffer := new Byte[CHEAP_PREPEND + initialSize](_ => 0);
      readerIndex, writerIndex := CHEAP_PREPEND, CHEAP_PREPEND;
    }

    method ReadableBytes() returns (n: nat)
      requires Valid()
      ensures n == View().Readable() == |View().Contents()|
    {
      n := writerIndex - readerIndex;
    }

    method RetrieveAll()
      modifies this
      ensures View() == BB.RetrieveAll(old(View())) && buffer == old(buffer)
    {
      readerIndex, writerIndex := CHEAP_PREPEND, CHEAP_PREPEND;
    }

    method Retrieve(len: nat)
      requires Valid()
      modifies this
      ensures Valid() && View() == BB.Retrieve(old(View()), len) && buffer == old(buffer)
    {
      if len < writerIndex - readerIndex {
        readerIndex := readerIndex + len;
      } else {
        RetrieveAll();
      }
    }

    method RetrieveAllAsString() returns (result: seq<Byte>)
      requires Valid()
      modifies this
      ensures Valid() && result == old(View().Contents()) && View().Contents() == []
    {
      result := buffer[readerIndex..writerIndex];
      Retrieve(writerIndex - readerIndex);
    }

    /** As written, the writer index may end up past the end of the array. */
    method MakeSpace(len: nat)
      requires Valid()
      modifies this, buffer
      ensures View() == BB.MakeSpace(compaction, old(View()), len)
      ensures buffer == old(buffer) || fresh(buffer)
    {
      if buffer.Length - writerIndex + readerIndex < len + CHEAP_PREPEND {
        var previous := buffer;
        var grown := new Byte[writerIndex + len](i => 0);
        CopyIn(grown, 0, previous[..]);
        buffer := grown;
      } else {
        var readable := writerIndex - readerIndex;
        CopyDown(buffer, readerIndex, writerIndex, CHEAP_PREPEND);
        readerIndex := CHEAP_PREPEND;
        match compaction
        case AsWritten => writerIndex := writerIndex + len - readable;
        case AsMeant => writerIndex := CHEAP_PREPEND + readable;
      }
    }

    method EnsureWritableBytes(len: nat)
      requires Valid()
      modifies this, buffer
      ensures View() == EnsureWritable(compaction, old(View()), len)
      ensures buffer == old(buffer) || fresh(buffer)
    {
      if buffer.Length - writerIndex < len {
        MakeSpace(len);
      }
    }

    /** Fails, before the copy, where the copy of the source would run past the end of its vector. */
    method Append(bytes: seq<Byte>) returns (ok: bool)
      requires Valid()
      modifies this, buffer
      ensures ok <==> BB.Append(compaction, old(View()), bytes).Some?
      ensures ok ==> Valid() && BB.Append(compaction, old(View()), bytes) == Some(View())
      ensures !ok ==> View() == EnsureWritable(compaction, old(View()), |bytes|)
      ensures compaction == AsMeant ==> ok && View().Contents() == old(View().Contents()) + bytes
      ensures buffer == old(buffer) || fresh(buffer)
    {
      hide EnsureWritable, BB.MakeSpace;
      ghost var before := View();
      AppendAsMeant(before, bytes);
      EnsureWritableBytes(|bytes|);
      ok := writerIndex + |bytes| <= buffer.Length;
      if ok {
        CopyIn(buffer, writerIndex, bytes);
        writerIndex := writerIndex + |bytes|;
        assert BB.Append(compaction, before, bytes) == Some(View());
      }
    }

    /** The part of a read that fills the array up to its end. */
    method FillTail(bytes: seq<Byte>)
      requires Valid() && View().Writable() < |bytes|
      modifies this`writerIndex, buffer
      ensures View() == FilledTail(old(View()), bytes)
    {
      var writable := buffer.Length - writerIndex;
      CopyIn(buffer, writerIndex, bytes[..writable]);
      writerIndex := buffer.Length;
    }

    /** readv into the array tail and a stack area, then an append of what overflowed. */
    method ReadFd(res: ReadResult) returns (n: int, ok: bool)
      requires Valid() && LegalRead(View(), res)
      modifies this, buffer
      ensures n == if res.Got? then |res.bytes| else -1
      ensures ok <==> BB.ReadFd(compaction, old(View()), res).Some?
      ensures ok ==> Valid() && BB.ReadFd(compaction, old(View()), res) == Some(View())
      ensures compaction == AsMeant ==>
                ok && View().Contents() == old(View().Contents()) + (if res.Got? then res.bytes else [])
      ensures buffer == old(buffer) || fresh(buffer)
    {
      hide BB.Append, EnsureWritable, FilledTail;
      ghost var before := View();
      ReadFdAsMeant(before, res);
      var writable := buffer.Length - writerIndex;
      ok := true;
      match res
      case Failed(_) => n := -1;
      case Got(bytes) =>
        n := |bytes|;
        if |bytes| <= writable {
          CopyIn(buffer, writerIndex, bytes);
          writerIndex := writerIndex + n;
        } else {
          FillTail(bytes);
          ReadOverflows(compaction, before, bytes);
          ok := Append(bytes[writable..]);
        }
    }

    /** writeFd, when the socket takes n bytes: the first n readable ones, and no field changes. */
    method WriteFd(n: nat) returns (bytes: seq<Byte>)
      requires Valid() && n <= |View().Contents()|
      ensures bytes == View().Contents()[..n]
    {
      bytes := buffer[readerIndex..readerIndex + n];
      assert buffer[..][readerIndex..writerIndex][..n] == buffer[..][readerIndex..readerIndex + n];
    }
  }
}
