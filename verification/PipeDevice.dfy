/** struct scull_pipe and its calls, each as one uninterrupted, non-blocking execution
    (higher_scull/high_scull/pipe.c). What concurrent callers add is in PipeProtocol. */
module PipeDevice {
  import opened Common
  import opened PipeRing

  class ScullPipe {
    const capacity: nat              // the parameter scull_p_buffer
    var buffer: array?<Byte>
    var buffersize: nat
    var rp: nat
    var wp: nat
    var nreaders: nat
    var nwriters: nat

    /** An open device has its buffer and both pointers inside it; a device nobody has
        open holds no memory. */
    ghost predicate Valid()
      reads this, buffer
    {
      && 2 <= capacity
      && (buffer != null ==>
            buffer.Length == buffersize == capacity && rp < capacity && wp < capacity)
      && (nreaders + nwriters > 0 ==> buffer != null)
    }

    ghost function RingState(): Ring
      reads this, buffer
      requires buffer != null
    {
      Ring(buffer[..], rp, wp)
    }

    /** The bytes accepted and not yet read. */
    ghost function Contents(): seq<Byte>
      reads this, buffer
      requires Valid()
    {
      if buffer == null then [] else Queue(RingState())
    }

    constructor (capacity: nat)
      requires 2 <= capacity
      ensures Valid() && Contents() == []
      ensures this.capacity == capacity && nreaders == nwriters == 0
    {
      this.capacity := capacity;
      buffer := null;
      buffersize, rp, wp, nreaders, nwriters := 0, 0, 0, 0, 0;
    }

    /** scull_p_open: every successful open, whoever else has the device open, empties the
        ring; a failed allocation changes nothing. */
    method Open(read: bool, write: bool, allocates: bool) returns (r: Result)
      requires Valid()
      modifies this
      ensures Valid()
      ensures r == if old(buffer) == null && !allocates then NoMemory else Done(0)
      ensures r.Done? ==> buffer != null && Contents() == []
      ensures r.Done? ==> nreaders == old(nreaders) + (if read then 1 else 0)
      ensures r.Done? ==> nwriters == old(nwriters) + (if write then 1 else 0)
      ensures old(buffer) != null ==> buffer == old(buffer)
      ensures old(buffer) == null && r.Done? ==> fresh(buffer)
      ensures !r.Done? ==> unchanged(this)
    {
      if buffer == null {
        if !allocates {
          return NoMemory;
        }
        buffer := new Byte[capacity];
      }
      buffersize := capacity;
      wp := 0;
      rp := wp;
      if read {
        nreaders := nreaders + 1;
      }
      if write {
        nwriters := nwriters + 1;
      }
      return Done(0);
    }

    /** scull_p_release: the last handle to go takes the buffer with it; otherwise the
        bytes stay. */
    method Release(read: bool, write: bool)
      requires Valid()
      requires (read ==> nreaders > 0) && (write ==> nwriters > 0)
      modifies this
      ensures Valid()
      ensures nreaders == old(nreaders) - (if read then 1 else 0)
      ensures nwriters == old(nwriters) - (if write then 1 else 0)
      ensures buffer == if nreaders + nwriters == 0 then null else old(buffer)
      ensures Contents() == if nreaders + nwriters == 0 then [] else old(Contents())
    {
      if read {
        nreaders := nreaders - 1;
      }
      if write {
        nwriters := nwriters - 1;
      }
      if nreaders + nwriters == 0 {
        buffer := null;
      }
    }

    /** scull_p_read with O_NONBLOCK. `faults` says whether copy_to_user fails. A call that
        fails leaves the queue as it was; one that succeeds returns its front, and returns
        something whenever it was asked for something. */
    method Read(count: nat, faults: bool) returns (r: Result, out: seq<Byte>)
      requires Valid() && buffer != null
      modifies this`rp
      ensures Valid() && unchanged(buffer)
      ensures old(Contents()) == [] <==> r == TryAgain
      ensures r == if old(Contents()) == [] then TryAgain else if faults then BadAddress else Done(|out|)
      ensures out + Contents() == old(Contents())
      ensures r.Done? ==> |out| <= count && (|out| == count || rp == wp || rp == 0)
      ensures r.Done? && count > 0 ==> out != []
    {
      hide Queue;
      SpaceIsComplement(RingState());
      if rp == wp {
        return TryAgain, [];
      }
      var n: int := count;
      if wp > rp {
        n := Min(n, wp - rp);
      } else {
        n := Min(n, buffersize - rp);
      }
      if faults {
        return BadAddress, [];
      }
      out := buffer[rp..rp + n];
      ReadTakesFront(RingState(), n);
      rp := rp + n;
      if rp == buffersize {
        rp := 0;
      }
      SpaceIsComplement(RingState());
      return Done(n), out;
    }

    /** scull_p_write with O_NONBLOCK. On a failed copy_from_user the part of the target
        region it had reached, here `junk`, is overwritten, yet the queue is unharmed. A
        call that succeeds appends a prefix of the data, and something of any data. */
    method Write(data: seq<Byte>, faults: bool, junk: seq<Byte>) returns (r: Result)
      requires Valid() && buffer != null
      requires |junk| <= |data|
      modifies this`wp, buffer
      ensures Valid()
      ensures |old(Contents())| == capacity - 1 <==> r == TryAgain
      ensures faults ==> r == TryAgain || r == BadAddress
      ensures r.Done? || r == BadAddress || r == TryAgain
      ensures !faults ==> r.Done? || r == TryAgain
      ensures !r.Done? ==> Contents() == old(Contents())
      ensures r == TryAgain ==> unchanged(buffer)
      ensures r.Done? ==> r.count <= |data| && Contents() == old(Contents()) + data[..r.count]
      ensures r.Done? ==> r.count == |data| || |Contents()| == capacity - 1 || wp == 0
      ensures r.Done? && data != [] ==> r.count > 0
    {
      hide Queue, SpaceFree, Overlay;
      ghost var was := RingState();
      SpaceIsComplement(was);
      if SpaceFree(rp, wp, buffersize) == 0 {
        return TryAgain;
      }
      WriteProgress(was, |data|);
      var n := Min(|data|, SpaceFree(rp, wp, buffersize));
      if wp >= rp {
        n := Min(n, buffersize - wp);
      } else {
        n := Min(n, rp - wp - 1);
      }
      assert n == WriteCount(was, |data|);
      if faults {
        var reached := junk[..Min(n, |junk|)];
        FreeRegionIsDisjoint(was, reached);
        CopyFromUser(buffer, wp, reached);
        return BadAddress;
      }
      WriteAppends(was, data[..n]);
      CopyFromUser(buffer, wp, data[..n]);
      wp := wp + n;
      if wp == buffersize {
        wp := 0;
      }
      assert RingState() == AfterWrite(was.(buf := Overlay(was.buf, was.wp, data[..n])), n);
      return Done(n);
    }
  }
}
