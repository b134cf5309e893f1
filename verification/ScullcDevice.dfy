/** The scullc calls, each proved to compute the function of the same name in Store, in
    place (alloc_mem/code/scullslab/main.c). The device's first item is the device itself:
    it is never allocated and never freed. */
module ScullcDevice {
  import opened Common
  import opened StoreAddress
  import opened Store
  import opened ScullMemory
  import opened SparseDevice

  ghost predicate Valid(dev: SparseDev)
    reads dev, dev.items, dev.picture.arrays.Keys, dev.picture.quanta.Keys
  {
    dev.Valid() && dev.items != []
  }

  /** scullc_follow, which does not check its allocations: they are taken to succeed. */
  method FollowList(dev: SparseDev, n: nat) returns (qs: QsetItem)
    requires Valid(dev)
    modifies dev, dev.items
    ensures Valid(dev)
    ensures |old(dev.items)| <= |dev.items| && dev.items[..|old(dev.items)|] == old(dev.items)
    ensures forall i :: |old(dev.items)| <= i < |dev.items| ==> fresh(dev.items[i])
    ensures dev.picture.arrays == old(dev.picture.arrays) && dev.picture.quanta == old(dev.picture.quanta)
    ensures dev.live == old(dev.live).(items := dev.live.items)
    ensures dev.live.items >= old(dev.live.items) && fresh(dev.live.items - old(dev.live.items))
    ensures dev.store == old(dev.store).(items := Follow(old(dev.store.items), n, n + 1).items)
    ensures n < |dev.items| && qs == dev.items[n]
  {
    hide Linked, Shows, Pictures, Reachable;
    qs := dev.data;
    dev.PictureLength();
    ghost var left := n + 1;
    var k := n;
    while k != 0
      invariant Valid(dev) && 0 <= k <= n && n - k < |dev.items| && qs == dev.items[n - k]
      invariant |old(dev.items)| <= |dev.items| && dev.items[..|old(dev.items)|] == old(dev.items)
      invariant forall i :: |old(dev.items)| <= i < |dev.items| ==> fresh(dev.items[i])
      invariant dev.picture.arrays == old(dev.picture.arrays) && dev.picture.quanta == old(dev.picture.quanta)
      invariant dev.store == old(dev.store).(items := dev.store.items)
      invariant dev.live == old(dev.live).(items := dev.live.items)
      invariant dev.live.items >= old(dev.live.items) && fresh(dev.live.items - old(dev.live.items))
      invariant |dev.store.items| == |dev.items| && k < left
      invariant Follow(dev.store.items, n, left) == Follow(old(dev.store.items), n, n + 1)
      decreases k
    {
      dev.PictureLength();
      NextItem(dev.items, n - k);
      if qs.next == null {
        var more := new QsetItem();
        left := left - 1;
        dev.Link(qs, more);
        NextItem(dev.items, n - k);
      }
      qs := qs.next;
      k := k - 1;
    }
    dev.PictureLength();
  }

  method Write(dev: SparseDev, pos: nat, buf: seq<Byte>, env: Env) returns (r: Result)
    requires Valid(dev)
    modifies dev, dev.items, dev.picture.arrays.Keys, dev.picture.quanta.Keys
    ensures Valid(dev)
    ensures ItemsOk(dev.shape, old(dev.store.items))
    ensures (dev.store, r) == ScullcWrite(dev.shape, old(dev.store), pos, buf, env)
    ensures dev.live.items >= old(dev.live.items) && fresh(dev.live.items - old(dev.live.items))
    ensures dev.live.arrays >= old(dev.live.arrays) && fresh(dev.live.arrays - old(dev.live.arrays))
    ensures dev.live.quanta >= old(dev.live.quanta) && fresh(dev.live.quanta - old(dev.live.quanta))
  {
    hide Linked, Shows, Pictures, Reachable, Locate, WriteFound, Follow, ItemsOk;
    dev.ItemsAreOk();
    if env.signal {
      return Interrupted;
    }
    var itemsize := dev.quantum * dev.qset;
    var item, rest := pos / itemsize, pos % itemsize;
    Located(dev.shape, pos);
    var dptr := FollowList(dev, item);
    var cleared := env.(memory := Zeros(dev.shape));
    r := dev.WriteItem(pos, Place(item, rest / dev.quantum, rest % dev.quantum), dptr, buf, env.budget, cleared);
  }

  method Read(dev: SparseDev, pos: nat, count: nat, env: Env) returns (r: Result, out: seq<Byte>)
    requires Valid(dev)
    modifies dev, dev.items
    ensures Valid(dev)
    ensures ItemsOk(dev.shape, old(dev.store.items))
    ensures (dev.store, r, out) == ScullcRead(dev.shape, old(dev.store), pos, count, env)
    ensures dev.live == old(dev.live).(items := dev.live.items)
    ensures dev.live.items >= old(dev.live.items) && fresh(dev.live.items - old(dev.live.items))
  {
    hide Linked, Shows, Pictures, Reachable, Locate, Follow, ItemsOk;
    dev.ItemsAreOk();
    if env.signal {
      return Interrupted, [];
    }
    if pos > dev.size {
      return Done(0), [];
    }
    var n := Min(count, dev.size - pos);
    var itemsize := dev.quantum * dev.qset;
    var item, rest := pos / itemsize, pos % itemsize;
    var s, q := rest / dev.quantum, rest % dev.quantum;
    Located(dev.shape, pos);
    var dptr := FollowList(dev, item);
    dev.Pointers(item, s);
    if dptr.data == null {
      return Done(0), [];
    }
    if dptr.data[s] == null {
      return Done(0), [];
    }
    n := Min(n, dev.quantum - q);
    if env.fault.Some? {
      return BadAddress, [];
    }
    r, out := Done(n), dptr.data[s][q..q + n];
  }

  /** Every block is freed once, but for the first item. */
  method Trim(dev: SparseDev)
    requires Valid(dev)
    modifies dev, dev.items
    ensures Valid(dev) && dev.store == ScullcTrim()
    ensures dev.items == [old(dev.items)[0]] && dev.live == Heap({dev.items[0]}, {}, {})
  {
    hide Linked, Shows, ShowsFrom, Pictures, Reachable, ArraysFrom, QuantaFrom, ItemsFrom;
    var next: QsetItem?;
    var first: QsetItem := dev.data;
    var dptr: QsetItem? := first;
    var slots := dev.qset;
    ghost var k := 0;
    ghost var was, m, vs := dev.items, dev.picture, dev.store.items;
    dev.PictureLength();
    EverythingIsLeft(m);
    dev.EverythingIsLive();
    FirstIsLive(was);
    while dptr != null
      invariant k <= |was| == |m.data| && slots == dev.shape.qset && was != [] && first == was[0]
      invariant dptr == if k < |was| then was[k] else null
      invariant Linked(was) && Pictures(dev.shape, m, vs) && ShowsFrom(m, was, k)
      invariant dev.live == Heap({first} + ItemsFrom(was, k), ArraysFrom(m, k), QuantaFrom(m, k, 0))
      invariant dev.data == first && dev.items == was && (k > 0 ==> first.data == null)
      decreases |was| - k
    {
      NextItem(was, k);
      FromItem(m, was, k);
      dev.FreeData(dptr, slots, was, m, vs, k);
      next := dev.NextOf(dptr);
      RestOfList(was, k);
      if dptr != first {
        dev.FreeItem(dptr);
      }
      dptr := next;
      k := k + 1;
    }
    NothingIsLeft(dev.shape, m, vs);
    assert ItemsFrom(was, |was|) == {} by {
      NoItemIsLeft(was);
    }
    assert {first} + {} == {first};
    dev.size, dev.quantum, dev.qset, first.next := 0, dev.shape.quantum, dev.shape.qset, null;
    dev.items, dev.picture, dev.store := [first], WithItem(BLANK), ScullcTrim();
    dev.OneItemIsEmpty(first);
  }

  /** scullc_open: a write-only open empties the device. */
  method Open(dev: SparseDev, writeOnly: bool, signal: bool) returns (r: Result)
    requires Valid(dev)
    modifies dev, dev.items
    ensures Valid(dev)
    ensures r == (if writeOnly && signal then Interrupted else Done(0))
    ensures if writeOnly && !signal then dev.store == ScullcTrim() && dev.live == Heap({old(dev.items)[0]}, {}, {})
            else
              && dev.store == old(dev.store) && dev.live == old(dev.live)
              && dev.items == old(dev.items) && dev.picture == old(dev.picture)
  {
    if writeOnly {
      if signal {
        return Interrupted;
      }
      Trim(dev);
    }
    r := Done(0);
  }

  lemma FirstIsLive(items: seq<QsetItem>)
    requires items != []
    ensures {items[0]} + ItemsFrom(items, 0) == ItemsFrom(items, 0)
  {
    assert items[0..] == items;
  }
}
