/** The scull calls, each proved to compute the function of the same name in Store, in place
    (higher_scull/high_scull/main.c). */
module ScullDevice {
  import opened Common
  import opened StoreAddress
  import opened Store
  import opened ScullMemory
  import opened SparseDevice

  /** scull_follow. `budget` allocations succeed; `left` of them are not needed. */
  method FollowList(dev: SparseDev, n: nat, budget: nat) returns (qs: QsetItem?, left: nat)
    requires dev.Valid()
    modifies dev, dev.items
    ensures dev.Valid()
    ensures |old(dev.items)| <= |dev.items| && dev.items[..|old(dev.items)|] == old(dev.items)
    ensures forall i :: |old(dev.items)| <= i < |dev.items| ==> fresh(dev.items[i])
    ensures dev.picture.arrays == old(dev.picture.arrays) && dev.picture.quanta == old(dev.picture.quanta)
    ensures dev.live == old(dev.live).(items := dev.live.items)
    ensures dev.live.items >= old(dev.live.items) && fresh(dev.live.items - old(dev.live.items))
    ensures var f := Follow(old(dev.store.items), n, budget);
            dev.store == old(dev.store).(items := f.items) && left == f.budget && (qs != null <==> f.found)
    ensures qs != null ==> n < |dev.items| && qs == dev.items[n]
  {
    hide Linked, Shows, Pictures, Reachable;
    left := budget;
    qs := dev.data;
    dev.PictureLength();
    if qs == null {
      if left == 0 {
        return null, 0;
      }
      qs := new QsetItem();
      left := left - 1;
      dev.Link(null, qs);
    }
    var k := n;
    while k != 0
      invariant dev.Valid() && 0 <= k <= n && n - k < |dev.items| && qs == dev.items[n - k]
      invariant |old(dev.items)| <= |dev.items| && dev.items[..|old(dev.items)|] == old(dev.items)
      invariant forall i :: |old(dev.items)| <= i < |dev.items| ==> fresh(dev.items[i])
      invariant dev.picture.arrays == old(dev.picture.arrays) && dev.picture.quanta == old(dev.picture.quanta)
      invariant dev.store == old(dev.store).(items := dev.store.items)
      invariant dev.live == old(dev.live).(items := dev.live.items)
      invariant dev.live.items >= old(dev.live.items) && fresh(dev.live.items - old(dev.live.items))
      invariant |dev.store.items| == |dev.items|
      invariant Follow(dev.store.items, n, left) == Follow(old(dev.store.items), n, budget)
      decreases k
    {
      dev.PictureLength();
      NextItem(dev.items, n - k);
      if qs.next == null {
        if left == 0 {
          return null, 0;
        }
        var more := new QsetItem();
        left := left - 1;
        dev.Link(qs, more);
        NextItem(dev.items, n - k);
      }
      qs := qs.next;
      k := k - 1;
    }
    dev.PictureLength();
  }

  method Write(dev: SparseDev, pos: nat, buf: seq<Byte>, env: Env) returns (r: Result)
    requires dev.Valid() && EnvOk(dev.shape, env)
    modifies dev, dev.items, dev.picture.arrays.Keys, dev.picture.quanta.Keys
    ensures dev.Valid()
    ensures ItemsOk(dev.shape, old(dev.store.items))
    ensures (dev.store, r) == ScullWrite(dev.shape, old(dev.store), pos, buf, env)
    ensures dev.live.items >= old(dev.live.items) && fresh(dev.live.items - old(dev.live.items))
    ensures dev.live.arrays >= old(dev.live.arrays) && fresh(dev.live.arrays - old(dev.live.arrays))
    ensures dev.live.quanta >= old(dev.live.quanta) && fresh(dev.live.quanta - old(dev.live.quanta))
  {
    hide Linked, Shows, Pictures, Reachable, Locate, WriteFound, Follow, ItemsOk;
    dev.ItemsAreOk();
    if env.signal {
      return Interrupted;
    }
    var itemsize := dev.quantum * dev.qset;
    var item, rest := pos / itemsize, pos % itemsize;
    Located(dev.shape, pos);
    var dptr, left := FollowList(dev, item, env.budget);
    if dptr == null {
      return NoMemory;
    }
    r := dev.WriteItem(pos, Place(item, rest / dev.quantum, rest % dev.quantum), dptr, buf, left, env);
  }

  method Read(dev: SparseDev, pos: nat, count: nat, env: Env) returns (r: Result, out: seq<Byte>)
    requires dev.Valid()
    modifies dev, dev.items
    ensures dev.Valid()
    ensures ItemsOk(dev.shape, old(dev.store.items))
    ensures (dev.store, r, out) == ScullRead(dev.shape, old(dev.store), pos, count, env)
    ensures dev.live == old(dev.live).(items := dev.live.items)
    ensures dev.live.items >= old(dev.live.items) && fresh(dev.live.items - old(dev.live.items))
  {
    hide Linked, Shows, Pictures, Reachable, Locate, Follow, ItemsOk;
    dev.ItemsAreOk();
    if env.signal {
      return Interrupted, [];
    }
    if pos >= dev.size {
      return Done(0), [];
    }
    var n := Min(count, dev.size - pos);
    var itemsize := dev.quantum * dev.qset;
    var item, rest := pos / itemsize, pos % itemsize;
    var s, q := rest / dev.quantum, rest % dev.quantum;
    Located(dev.shape, pos);
    var dptr, _ := FollowList(dev, item, env.budget);
    if dptr == null {
      return Done(0), [];
    }
    dev.Pointers(item, s);
    if dptr.data == null || dptr.data[s] == null {
      return Done(0), [];
    }
    n := Min(n, dev.quantum - q);
    if env.fault.Some? {
      return BadAddress, [];
    }
    r, out := Done(n), dptr.data[s][q..q + n];
  }

  method Trim(dev: SparseDev)
    requires dev.Valid()
    modifies dev, dev.items
    ensures dev.Valid() && dev.store == ScullTrim() && dev.live == NOTHING && dev.items == []
  {
    hide Linked, Shows, ShowsFrom, Pictures, Reachable, ArraysFrom, QuantaFrom, ItemsFrom;
    var next: QsetItem?;
    var dptr := dev.data;
    var slots := dev.qset;
    ghost var k := 0;
    ghost var was, m, vs := dev.items, dev.picture, dev.store.items;
    dev.PictureLength();
    EverythingIsLeft(m);
    dev.EverythingIsLive();
    while dptr != null
      invariant k <= |was| == |m.data| && slots == dev.shape.qset
      invariant dptr == if k < |was| then was[k] else null
      invariant Linked(was) && Pictures(dev.shape, m, vs) && ShowsFrom(m, was, k)
      invariant dev.live == Heap(ItemsFrom(was, k), ArraysFrom(m, k), QuantaFrom(m, k, 0))
      invariant dev.items == was
      decreases |was| - k
    {
      NextItem(was, k);
      FromItem(m, was, k);
      dev.FreeData(dptr, slots, was, m, vs, k);
      next := dev.NextOf(dptr);
      dev.FreeItem(dptr);
      RestOfList(was, k);
      dptr := next;
      k := k + 1;
    }
    NothingIsLeft(dev.shape, m, vs);
    assert ItemsFrom(was, |was|) == {} by {
      NoItemIsLeft(was);
    }
    dev.size, dev.quantum, dev.qset, dev.data := 0, dev.shape.quantum, dev.shape.qset, null;
    dev.items, dev.picture, dev.store := [], BLANK, ScullTrim();
    dev.BlankIsEmpty();
  }

  /** scull_open: a write-only open empties the device. */
  method Open(dev: SparseDev, writeOnly: bool, signal: bool) returns (r: Result)
    requires dev.Valid()
    modifies dev, dev.items
    ensures dev.Valid()
    ensures r == (if writeOnly && signal then Interrupted else Done(0))
    ensures if writeOnly && !signal then dev.store == ScullTrim() && dev.live == NOTHING
            else
              && dev.store == old(dev.store) && dev.live == old(dev.live)
              && dev.items == old(dev.items) && dev.picture == old(dev.picture)
  {
    if writeOnly {
      if signal {
        return Interrupted;
      }
      Trim(dev);
    }
    r := Done(0);
  }
}
