/**
 The circular buffers of the queues, as arrays.
 */
module Rings {
  import opened KernelState
  import opened KernelInv
  import opened KernelSwitches
  import opened KernelTheorems

  lemma InRange(r: Ring)
    requires RingOk(r)
    ensures |r.buf| == BUF_SIZE && r.head < BUF_SIZE && r.tail < BUF_SIZE
  {
  }

  /** The circular buffer of an ioqueue, with the history of its bytes. */
  class Buffer {
    const buf: array<char>
    var head: nat
    var tail: nat
    ghost var put: seq<char>
    ghost var got: seq<char>

    ghost function Abs(): Ring
      reads this, buf
    {
      Ring(buf[..], head, tail, put, got)
    }

    ghost predicate Valid()
      reads this, buf
    {
      buf.Length == BUF_SIZE && RingOk(Abs())
    }

    /** The bytes put and not yet taken, oldest first. */
    ghost function Bytes(): seq<char>
      requires Valid()
      reads this, buf
    {
      Contents(Abs())
    }

    constructor ()
      ensures Valid() && Bytes() == [] && fresh(buf) && Abs() == QueueInit().ring
    {
      buf := new char[BUF_SIZE](_ => '\0');
      head, tail, put, got := 0, 0, [], [];
    }

    predicate Full()
      requires Valid()
      reads this, buf
      ensures Full() <==> |Bytes()| == BUF_SIZE - 1
      ensures Full() <==> IsFull(Abs())
    {
      RingFacts(Abs());
      NextPos(head) == tail
    }

    predicate Empty()
      requires Valid()
      reads this, buf
      ensures Empty() <==> Bytes() == []
      ensures Empty() <==> KernelState.IsEmpty(Abs())
    {
      RingFacts(Abs());
      head == tail
    }

    /** The storing part of ioq_putchar, behind its loop. */
    method Put(byte: char)
      requires Valid() && !Full()
      modifies this, buf
      ensures Valid() && Abs() == RingPut(old(Abs()), byte) && Bytes() == old(Bytes()) + [byte]
    {
      hide RingOk, Contents;
      InRange(Abs());
      RingPutKeeps(Abs(), byte);
      buf[head] := byte;
      head := NextPos(head);
      put := put + [byte];
      assert Abs() == RingPut(old(Abs()), byte);
    }

    /** The fetching part of ioq_getchar, behind its loop. */
    method Get() returns (byte: char)
      requires Valid() && !Empty()
      modifies this
      ensures Valid() && Abs() == RingGet(old(Abs())) && [byte] + Bytes() == old(Bytes())
      ensures byte == RingFront(old(Abs()))
    {
      hide RingOk, Contents;
      InRange(Abs());
      RingGetKeeps(Abs());
      byte := buf[tail];
      got := got + [byte];
      tail := NextPos(tail);
      assert Abs() == RingGet(old(Abs()));
    }
  }

  /** All queues' buffers; no two share an array. */
  class Store {
    var bufs: map<QueueId, Buffer>
    ghost var arrays: set<array<char>>

    ghost predicate Valid()
      reads this, bufs.Values, arrays
    {
      && (forall q | q in bufs :: bufs[q].buf in arrays && bufs[q].Valid())
      && (forall p, q | p in bufs && q in bufs && p != q :: bufs[p] != bufs[q] && bufs[p].buf != bufs[q].buf)
    }

    ghost function Contents(): map<QueueId, Ring>
      requires Valid()
      reads this, bufs.Values, arrays
    {
      map q | q in bufs :: bufs[q].Abs()
    }

    lemma ContentsKeys()
      requires Valid()
      ensures Contents().Keys == bufs.Keys
    {
    }

    constructor ()
      ensures Valid() && bufs == map[] && arrays == {} && Contents() == map[]
    {
      bufs, arrays := map[], {};
    }

    /** ioqueue_init. */
    method Add(q: QueueId)
      requires Valid() && q !in bufs
      modifies this
      ensures Valid() && Contents() == old(Contents())[q := QueueInit().ring]
      ensures bufs.Keys == old(bufs.Keys) + {q} && fresh(bufs.Values - old(bufs.Values)) && fresh(arrays - old(arrays))
    {
      hide RingOk, QueueInit, KernelInv.Contents, Buffer.Valid, Buffer.Abs, Buffer.Bytes;
      var b := new Buffer();
      ghost var had := Contents();
      bufs, arrays := bufs[q := b], arrays + {b.buf};
      assert Contents() == had[q := QueueInit().ring];
    }

    method Put(q: QueueId, byte: char)
      requires Valid() && q in bufs && !IsFull(Contents()[q])
      modifies bufs.Values, arrays
      ensures Valid() && Contents() == old(Contents())[q := RingPut(old(Contents())[q], byte)]
    {
      hide RingOk, RingPut, KernelInv.Contents;
      bufs[q].Put(byte);
    }

    method Get(q: QueueId) returns (byte: char)
      requires Valid() && q in bufs && !KernelState.IsEmpty(Contents()[q])
      modifies bufs.Values
      ensures Valid() && Contents() == old(Contents())[q := RingGet(old(Contents())[q])]
      ensures byte == RingFront(old(Contents())[q])
    {
      hide RingOk, RingGet, KernelInv.Contents;
      byte := bufs[q].Get();
    }

    method Full(q: QueueId) returns (full: bool)
      requires Valid() && q in bufs
      ensures full == IsFull(Contents()[q])
    {
      full := bufs[q].Full();
    }

    method Empty(q: QueueId) returns (empty: bool)
      requires Valid() && q in bufs
      ensures empty == KernelState.IsEmpty(Contents()[q])
    {
      empty := bufs[q].Empty();
    }
  }
}
