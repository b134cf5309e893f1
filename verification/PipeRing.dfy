/** The circular buffer of scullpipe as plain arithmetic on a byte array and two indices
    (higher_scull/high_scull/pipe.c). Pointers are offsets from `dev->buffer`. */
module PipeRing {
  import opened Common

  datatype Ring = Ring(buf: seq<Byte>, rp: nat, wp: nat)

  ghost predicate Valid(r: Ring) {
    2 <= |r.buf| && r.rp < |r.buf| && r.wp < |r.buf|
  }

  /** The bytes waiting to be read, oldest first. */
  ghost function Queue(r: Ring): seq<Byte>
    requires r.rp <= |r.buf| && r.wp <= |r.buf|
  {
    if r.rp <= r.wp then r.buf[r.rp..r.wp] else r.buf[r.rp..] + r.buf[..r.wp]
  }

  /** spacefree, with C's remainder: its left operand is never negative here. */
  function SpaceFree(rp: nat, wp: nat, size: nat): int
    requires 0 < size && wp <= rp + size
  {
    if rp == wp then size - 1 else (rp + size - wp) % size - 1
  }

  /** How much one read may take: up to `wp`, or up to the end of the array. */
  function ReadCount(r: Ring, count: nat): nat
    requires Valid(r)
  {
    if r.wp > r.rp then Min(count, r.wp - r.rp) else Min(count, |r.buf| - r.rp)
  }

  /** How much one write may put: at most the free space, and only up to the end of the
      array or to one byte before `rp`. */
  function WriteCount(r: Ring, count: nat): int
    requires Valid(r)
  {
    var c := Min(count, SpaceFree(r.rp, r.wp, |r.buf|));
    if r.wp >= r.rp then Min(c, |r.buf| - r.wp) else Min(c, r.rp - r.wp - 1)
  }

  /** A pointer that has reached the end of the array goes back to its start. */
  function Wrap(p: nat, size: nat): nat {
    if p == size then 0 else p
  }

  function AfterRead(r: Ring, n: nat): Ring {
    r.(rp := Wrap(r.rp + n, |r.buf|))
  }

  function AfterWrite(r: Ring, n: nat): Ring {
    r.(wp := Wrap(r.wp + n, |r.buf|))
  }

  // ---------------------------------------------------------------- arithmetic

  /** Occupied and free space share the array, less the one reserved slot. */
  lemma SpaceIsComplement(r: Ring)
    requires Valid(r)
    ensures |Queue(r)| + SpaceFree(r.rp, r.wp, |r.buf|) == |r.buf| - 1
    ensures Queue(r) == [] <==> r.rp == r.wp
    ensures SpaceFree(r.rp, r.wp, |r.buf|) == if r.rp > r.wp then r.rp - r.wp - 1
                                              else |r.buf| - 1 - (r.wp - r.rp)
  {
    var n := |r.buf|;
    if r.rp > r.wp {
      assert (r.rp + n - r.wp) % n == r.rp - r.wp by { ModPlus(r.rp - r.wp, n); }
    } else if r.rp < r.wp {
      assert (r.rp + n - r.wp) % n == r.rp + n - r.wp by { ModSmall(r.rp + n - r.wp, n); }
    }
  }

  lemma ModSmall(x: nat, n: nat)
    requires x < n
    ensures x % n == x
  {
  }

  lemma ModPlus(x: nat, n: nat)
    requires x < n
    ensures (x + n) % n == x
  {
    assert (x + n) / n == 1;
  }

  /** A read of a non-empty ring takes the front of the queue and leaves the rest. */
  lemma ReadTakesFront(r: Ring, n: nat)
    requires Valid(r) && r.rp != r.wp
    requires n <= ReadCount(r, n)
    ensures r.rp + n <= |r.buf|
    ensures Valid(AfterRead(r, n))
    ensures Queue(r) == r.buf[r.rp..r.rp + n] + Queue(AfterRead(r, n))
  {
    var r' := AfterRead(r, n);
    var front := r.buf[r.rp..r.rp + n];
    if r.rp < r.wp {
      assert Queue(r) == front + Queue(r');
    } else if r.rp + n == |r.buf| {
      assert Queue(r') == r.buf[..r.wp];
      assert Queue(r) == front + Queue(r');
    } else {
      assert Queue(r) == front + (r.buf[r.rp + n..] + r.buf[..r.wp]);
    }
  }

  /** Bytes laid down in the free region do not disturb the queue: this is what a failed
      copy leaves behind. */
  lemma FreeRegionIsDisjoint(r: Ring, data: seq<Byte>)
    requires Valid(r) && |data| <= WriteCount(r, |data|)
    ensures r.wp + |data| <= |r.buf|
    ensures Queue(r.(buf := Overlay(r.buf, r.wp, data))) == Queue(r)
  {
    SpaceIsComplement(r);
    var r' := r.(buf := Overlay(r.buf, r.wp, data));
    if r.rp > r.wp {
      assert r'.buf[r.rp..] == r.buf[r.rp..];
      assert r'.buf[..r.wp] == r.buf[..r.wp];
    }
  }

  /** A write appends to the queue, and a non-empty write never makes the ring look empty. */
  lemma WriteAppends(r: Ring, data: seq<Byte>)
    requires Valid(r) && |data| <= WriteCount(r, |data|)
    ensures r.wp + |data| <= |r.buf|
    ensures var r' := AfterWrite(r.(buf := Overlay(r.buf, r.wp, data)), |data|);
            && Valid(r')
            && Queue(r') == Queue(r) + data
            && (Queue(r) + data != [] ==> r'.rp != r'.wp)
  {
    SpaceIsComplement(r);
    FreeRegionIsDisjoint(r, data);
    var over := r.(buf := Overlay(r.buf, r.wp, data));
    var r' := AfterWrite(over, |data|);
    assert over.buf[r.wp..r.wp + |data|] == data;
    if r.rp > r.wp {
      assert over.buf[..r.wp + |data|] == over.buf[..r.wp] + data;
      assert Queue(r') == over.buf[r.rp..] + (over.buf[..r.wp] + data);
    } else if r.wp + |data| == |r.buf| {
      assert Queue(r') == over.buf[r.rp..] == over.buf[r.rp..r.wp] + data;
    } else {
      assert Queue(r') == over.buf[r.rp..r.wp] + data;
    }
    SpaceIsComplement(r');
  }

  /** What a write accepts: nothing more than the free space, all that was offered unless
      it meets the end of the array or fills the ring, and something of any offer. */
  lemma WriteProgress(r: Ring, count: nat)
    requires Valid(r) && SpaceFree(r.rp, r.wp, |r.buf|) != 0
    ensures 0 <= WriteCount(r, count) <= count && r.wp + WriteCount(r, count) <= |r.buf|
    ensures var n := WriteCount(r, count);
            && n <= WriteCount(r, n)
            && (count > 0 ==> n > 0)
            && (n == count || |Queue(r)| + n == |r.buf| - 1 || r.wp + n == |r.buf|)
  {
    SpaceIsComplement(r);
  }

  /** Advancing `wp` over bytes already laid down appends them. */
  lemma CommitAppends(r: Ring, data: seq<Byte>)
    requires Valid(r) && |data| <= WriteCount(r, |data|)
    requires r.wp + |data| <= |r.buf| && r.buf[r.wp..r.wp + |data|] == data
    ensures Valid(AfterWrite(r, |data|))
    ensures Queue(AfterWrite(r, |data|)) == Queue(r) + data
  {
    WriteAppends(r, data);
    assert Overlay(r.buf, r.wp, data) == r.buf by {
      forall k | r.wp <= k < r.wp + |data|
        ensures r.buf[k] == data[k - r.wp]
      {
        assert r.buf[k] == r.buf[r.wp..r.wp + |data|][k - r.wp];
      }
    }
  }

  /** A read that drains as much as one call can, of a ring that may be empty. */
  function Gulp(r: Ring, count: nat): (seq<Byte>, Ring)
    requires Valid(r)
  {
    if r.rp == r.wp then ([], r)
    else
      var n := ReadCount(r, count);
      (r.buf[r.rp..r.rp + n], AfterRead(r, n))
  }

  /** Two reads that each ask for at least the array's size drain any ring, in order: one
      reaches `wp` or the end of the array, the second takes what had wrapped. */
  lemma TwoReadsDrain(r: Ring, count: nat)
    requires Valid(r) && |r.buf| <= count
    ensures Valid(Gulp(r, count).1)
    ensures var (first, r1) := Gulp(r, count);
            var (second, r2) := Gulp(r1, count);
            first + second == Queue(r) && r2.rp == r2.wp
  {
    if r.rp != r.wp {
      ReadTakesFront(r, ReadCount(r, count));
      var r1 := Gulp(r, count).1;
      if r1.rp != r1.wp {
        ReadTakesFront(r1, ReadCount(r1, count));
      }
    }
  }

  /** Two writes that each offer at least the array's size fill any ring. */
  lemma TwoWritesFill(r: Ring, first: seq<Byte>, second: seq<Byte>)
    requires Valid(r) && |r.buf| <= |first| && |r.buf| <= |second|
    ensures 0 <= WriteCount(r, |first|) && r.wp + WriteCount(r, |first|) <= |r.buf|
    ensures var a := first[..WriteCount(r, |first|)];
            var r1 := AfterWrite(r.(buf := Overlay(r.buf, r.wp, a)), |a|);
            Valid(r1) && 0 <= WriteCount(r1, |second|) && r1.wp + WriteCount(r1, |second|) <= |r1.buf| &&
            var b := second[..WriteCount(r1, |second|)];
            var r2 := AfterWrite(r1.(buf := Overlay(r1.buf, r1.wp, b)), |b|);
            Valid(r2) && |Queue(r2)| == |r.buf| - 1 && Queue(r2) == Queue(r) + a + b
  {
    SpaceIsComplement(r);
    var a := first[..WriteCount(r, |first|)];
    WriteAppends(r, a);
    var r1 := AfterWrite(r.(buf := Overlay(r.buf, r.wp, a)), |a|);
    SpaceIsComplement(r1);
    var b := second[..WriteCount(r1, |second|)];
    WriteAppends(r1, b);
  }
}
