/** The byte queue of a connection: two indices into a vector, with compaction tried before growth. */
module Buffers {

  type Byte = b: int | 0 <= b < 256

  const CHEAP_PREPEND: nat := 8
  const INITIAL_SIZE: nat := 1024
  const EXTRA: nat := 65536

  function Max(a: nat, b: nat): nat {
    if a < b then b else a
  }

  /** What readv can deliver at most: the free tail, and the overflow area if the tail is smaller than it. */
  function Capacity(writable: nat): nat {
    if writable < EXTRA then writable + EXTRA else writable
  }

  /** How large the vector may be, given the most that was ever readable at once. */
  function SpaceBound(initial: nat, peak: nat): nat {
    Max(CHEAP_PREPEND + initial, 2 * peak + 7)
  }

  datatype Received = Bytes(data: seq<Byte>) | Error(errno: nat)

  lemma SplitAt(queue: seq<Byte>, bytes: seq<Byte>, i: nat)
    requires i <= |bytes|
    ensures queue + bytes[..i] + bytes[i..] == queue + bytes && |bytes[i..]| == |bytes| - i
  {
  }

  class Buffer {
    var data: array<Byte>
    var reader: nat
    var writer: nat
    ghost const initial: nat
    ghost var peak: nat              // the most that was ever readable

    ghost predicate Valid()
      reads this
    {
      && CHEAP_PREPEND <= reader <= writer <= data.Length
      && writer - reader <= peak
      && data.Length <= SpaceBound(initial, peak)
    }

    /** The queue: what is readable. */
    ghost function Contents(): (c: seq<Byte>)
      requires Valid()
      reads this, data
    {
      data[reader..writer]
    }

    constructor (initialSize: nat)
      ensures Valid() && fresh(data) && Contents() == [] && initial == initialSize && peak == 0
      ensures data.Length == CHEAP_PREPEND + initialSize
    {
      data := new Byte[CHEAP_PREPEND + initialSize](_ => 0);
      reader, writer := CHEAP_PREPEND, CHEAP_PREPEND;
      initial, peak := initialSize, 0;
    }

    function ReadableBytes(): nat
      requires reader <= writer
      reads this
    {
      writer - reader
    }

    function WritableBytes(): nat
      requires writer <= data.Length
      reads this
    {
      data.Length - writer
    }

    method RetrieveAll()
      requires Valid()
      modifies this`reader, this`writer
      ensures Valid() && Contents() == [] && reader == writer == CHEAP_PREPEND
    {
      reader, writer := CHEAP_PREPEND, CHEAP_PREPEND;
    }

    /** Drops the first `len` bytes, or all if there are fewer. */
    method Retrieve(len: nat)
      requires Valid()
      modifies this`reader, this`writer
      ensures Valid()
      ensures Contents() == old(if len < |Contents()| then Contents()[len..] else [])
      ensures if len < old(ReadableBytes()) then reader == old(reader) + len && writer == old(writer)
              else reader == writer == CHEAP_PREPEND
    {
      if len < ReadableBytes() {
        reader := reader + len;
      } else {
        RetrieveAll();
      }
    }

    /** Takes the first `len` bytes out of the queue. */
    method RetrieveAsString(len: nat) returns (s: seq<Byte>)
      requires Valid() && len <= ReadableBytes()
      modifies this`reader, this`writer
      ensures Valid() && s + Contents() == old(Contents()) && |s| == len
    {
      s := data[reader..reader + len];
      Retrieve(len);
    }

    /** Lines 90-95: the readable bytes move down to the front; source and target may overlap. */
    method Compact()
      requires Valid()
      modifies this`reader, this`writer, data
      ensures Valid() && reader == CHEAP_PREPEND && Contents() == old(Contents())
    {
      ghost var was := data[..];
      var readable := writer - reader;
      var i := 0;
      while i < readable
        invariant 0 <= i <= readable
        invariant forall k | CHEAP_PREPEND <= k < CHEAP_PREPEND + i :: data[k] == was[k - CHEAP_PREPEND + reader]
        invariant forall k | CHEAP_PREPEND + i <= k < data.Length :: data[k] == was[k]
        modifies data
      {
        data[CHEAP_PREPEND + i] := data[reader + i];
        i := i + 1;
      }
      assert data[CHEAP_PREPEND..CHEAP_PREPEND + readable] == was[reader..writer];
      reader := CHEAP_PREPEND;
      writer := CHEAP_PREPEND + readable;
    }

    /** Line 98: the vector is resized to hold `len` bytes past the writer index. */
    method Grow(len: nat)
      requires CHEAP_PREPEND <= reader <= writer <= data.Length <= writer + len
      modifies this`data
      ensures fresh(data) && data.Length == writer + len && data[reader..writer] == old(data[reader..writer])
    {
      var was := data;
      data := new Byte[writer + len](i => 0);
      var i := 0;
      while i < was.Length
        invariant 0 <= i <= was.Length <= data.Length && fresh(data) && data != was
        invariant data.Length == writer + len
        invariant data[..i] == was[..i]
        modifies data
      {
        data[i] := was[i];
        i := i + 1;
      }
      assert data[reader..writer] == data[..i][reader..writer];
    }

    /** Room for `len` more bytes; the vector grows if and only if compaction would not make enough. */
    method MakeSpace(len: nat)
      requires CHEAP_PREPEND <= reader <= writer <= data.Length && WritableBytes() < len
      requires data.Length <= SpaceBound(initial, Max(peak, ReadableBytes()))
      modifies this, data
      ensures CHEAP_PREPEND <= reader <= writer <= data.Length && len <= WritableBytes()
      ensures if old(reader) - CHEAP_PREPEND + old(WritableBytes()) >= len then data == old(data) && reader == CHEAP_PREPEND
              else fresh(data) && data.Length == old(writer) + len && reader == old(reader)
      ensures data[reader..writer] == old(data[reader..writer]) && peak == old(peak)
      ensures data.Length <= SpaceBound(initial, Max(peak, ReadableBytes() + len))
    {
      if reader - CHEAP_PREPEND + WritableBytes() >= len {
        ghost var p := peak;
        peak := Max(peak, ReadableBytes());
        Compact();
        peak := p;
      } else {
        Grow(len);
      }
    }

    /** Puts `src` at the end of the queue. */
    method Append(src: seq<Byte>)
      requires CHEAP_PREPEND <= reader <= writer <= data.Length
      requires data.Length <= SpaceBound(initial, Max(peak, ReadableBytes()))
      modifies this, data
      ensures Valid() && (data == old(data) || fresh(data))
      ensures Contents() == old(data[reader..writer]) + src
      ensures data == old(data) <==> old(reader) - CHEAP_PREPEND + old(WritableBytes()) >= |src|
      ensures peak == Max(old(peak), |Contents()|)
    {
      if WritableBytes() < |src| {
        MakeSpace(|src|);
      }
      Fill(src);
      peak := Max(peak, ReadableBytes());
    }

    /** Copies `src` behind the readable bytes. */
    method Fill(src: seq<Byte>)
      requires reader <= writer && writer + |src| <= data.Length
      modifies this`writer, data
      ensures writer == old(writer) + |src| && data[reader..writer] == old(data[reader..writer]) + src
    {
      ghost var was := data[reader..writer];
      var i := 0;
      while i < |src|
        invariant 0 <= i <= |src|
        invariant data[reader..writer] == was && data[writer..writer + i] == src[..i]
        modifies data
      {
        data[writer + i] := src[i];
        i := i + 1;
      }
      assert data[writer..writer + |src|] == src;
      assert data[reader..writer + |src|] == was + src;
      writer := writer + |src|;
    }

    /** One scatter read: what fits goes to the free tail, the rest through the overflow area. */
    method ReadFd(received: Received) returns (n: int, errno: nat)
      requires Valid() && (received.Bytes? ==> |received.data| <= Capacity(WritableBytes()))
      modifies this, data
      ensures Valid() && (data == old(data) || fresh(data))
      ensures received.Bytes? ==> n == |received.data| && Contents() == old(Contents()) + received.data
                                  && peak == Max(old(peak), |Contents()|)
      ensures received.Bytes? ==>
                (data == old(data) <==> old(reader) - CHEAP_PREPEND + old(WritableBytes()) >= |received.data|)
      ensures received.Error? ==> n == -1 && errno == received.errno && Contents() == old(Contents()) && peak == old(peak)
    {
      errno := 0;
      var writable := WritableBytes();
      match received
      case Error(e) =>
        n, errno := -1, e;
      case Bytes(bytes) =>
        n := |bytes|;
        if n <= writable {
          Fill(bytes);
          peak := Max(peak, ReadableBytes());
        } else {
          Fill(bytes[..writable]);
          SplitAt(old(Contents()), bytes, writable);
          Append(bytes[writable..]);
        }
    }
  }
}
