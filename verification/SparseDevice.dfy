/** Either driver's device in memory: a linked list of items, each pointing at an array of
    pointers to quanta, all allocated on demand and freed by trim. What the two drivers'
    calls have in common is here; the calls themselves are in ScullDevice and ScullcDevice. */
module SparseDevice {
  import opened Common
  import opened StoreAddress
  import opened Store
  import opened ScullMemory

  /** struct scull_qset, zeroed when allocated. */
  class QsetItem {
    var data: array?<array?<Byte>>
    var next: QsetItem?

    constructor ()
      ensures data == null && next == null
    {
      data, next := null, null;
    }
  }

  /** The list in order, without a repetition, hence without a cycle. */
  ghost predicate Linked(items: seq<QsetItem>)
    reads items`next
  {
    && (forall i {:trigger items[i].next} :: 0 <= i < |items| ==>
          items[i].next == if i + 1 < |items| then items[i + 1] else null)
    && (forall i, j :: 0 <= i < j < |items| ==> items[i] != items[j])
  }

  /** The picture is of this memory. */
  ghost predicate Shows(m: Picture, items: seq<QsetItem>)
    reads items`data, m.arrays.Keys, m.quanta.Keys
  {
    && |items| == |m.data|
    && (forall i :: 0 <= i < |items| ==> items[i].data == m.data[i])
    && (forall a :: a in m.arrays ==> a[..] == m.arrays[a].slots)
    && (forall q :: q in m.quanta ==> q[..] == m.quanta[q].bytes)
  }

  /** The blocks allocated and not yet freed, by kind. */
  datatype Heap = Heap(items: set<QsetItem>, arrays: set<Slots>, quanta: set<array<Byte>>)

  const NOTHING := Heap({}, {}, {})

  /** They are the blocks in the list and in the picture. */
  ghost predicate Reachable(live: Heap, items: seq<QsetItem>, m: Picture) {
    && (forall x :: x in live.items ==> x in items)
    && (forall x :: x in items ==> x in live.items)
    && live.arrays == m.arrays.Keys
    && live.quanta == m.quanta.Keys
  }

  lemma NextItem(items: seq<QsetItem>, i: nat)
    requires Linked(items) && i < |items|
    ensures items[i].next == if i + 1 < |items| then items[i + 1] else null
    ensures forall k :: 0 <= k < |items| && k != i ==> items[k] != items[i]
  {
  }

  lemma LinkedMore(items: seq<QsetItem>, item: QsetItem)
    requires item !in items && item.next == null
    requires forall i {:trigger items[i].next} :: 0 <= i < |items| ==>
               items[i].next == if i + 1 < |items| then items[i + 1] else item
    requires forall i, j :: 0 <= i < j < |items| ==> items[i] != items[j]
    ensures Linked(items + [item])
  {
    var items' := items + [item];
    forall i | 0 <= i < |items'|
      ensures items'[i].next == if i + 1 < |items'| then items'[i + 1] else null
    {
      if i < |items| {
        assert items'[i] == items[i] && items[i].next == if i + 1 < |items| then items[i + 1] else item;
      }
    }
  }

  lemma ShowsMore(m: Picture, items: seq<QsetItem>, item: QsetItem)
    requires Shows(m, items) && item.data == null
    ensures Shows(WithItem(m), items + [item])
  {
  }

  lemma ReachableIsLive(live: Heap, items: seq<QsetItem>, m: Picture)
    requires Reachable(live, items, m)
    ensures forall x :: x in items ==> x in live.items
    ensures live.arrays == m.arrays.Keys && live.quanta == m.quanta.Keys
  {
  }

  lemma ReachableMore(live: Heap, items: seq<QsetItem>, m: Picture, item: QsetItem)
    requires Reachable(live, items, m)
    ensures Reachable(live.(items := live.items + {item}), items + [item], WithItem(m))
  {
  }

  /** The picture is of this memory, leaving out what one item points at. */
  ghost predicate ShowsRest(m: Picture, items: seq<QsetItem>, i: nat)
    requires i < |items|
    reads (set x | x in items && x != items[i])`data, m.arrays.Keys, m.quanta.Keys
  {
    && |items| == |m.data|
    && (forall k :: 0 <= k < |items| && items[k] != items[i] ==> items[k].data == m.data[k])
    && (forall a :: a in m.arrays ==> a[..] == m.arrays[a].slots)
    && (forall q :: q in m.quanta ==> q[..] == m.quanta[q].bytes)
  }

  lemma LeaveOutItem(m: Picture, items: seq<QsetItem>, i: nat)
    requires Shows(m, items) && i < |items|
    ensures |items| == |m.data| && items[i].data == m.data[i] && ShowsRest(m, items, i)
  {
  }

  lemma ShowsArray(g: Shape, m: Picture, items: seq<QsetItem>, i: nat, a: Slots)
    requires i < |items| == |m.data| && ShowsRest(m, items, i) && items[i].data == a && a !in m.arrays
    requires forall k :: 0 <= k < |items| && k != i ==> items[k] != items[i]
    requires a[..] == seq(g.qset, _ => null)
    ensures Shows(WithArray(g, m, i, a), items)
  {
  }

  lemma ReachableArray(g: Shape, live: Heap, items: seq<QsetItem>, m: Picture, i: nat, a: Slots)
    requires Reachable(live, items, m) && i < |m.data|
    ensures Reachable(live.(arrays := live.arrays + {a}), items, WithArray(g, m, i, a))
  {
  }

  lemma ReachableQuantum(live: Heap, items: seq<QsetItem>, m: Picture, i: nat, j: nat, q: array<Byte>, bytes: seq<Byte>)
    requires Reachable(live, items, m)
    requires i < |m.data| && m.data[i] in m.arrays.Keys && j < |m.arrays[m.data[i]].slots|
    ensures var m' := WithQuantum(m, i, j, q, bytes);
            && Reachable(live.(quanta := live.quanta + {q}), items, m')
            && m'.arrays.Keys == m.arrays.Keys && m'.quanta.Keys == m.quanta.Keys + {q}
  {
    var a := m.data[i];
    assert m.arrays.Keys + {a} == m.arrays.Keys;
  }

  /** The picture is of this memory, leaving out one array and one quantum. */
  ghost predicate ShowsBut(m: Picture, items: seq<QsetItem>, a: Slots, q: array<Byte>)
    reads items`data, m.arrays.Keys - {a}, m.quanta.Keys - {q}
  {
    && |items| == |m.data|
    && (forall i :: 0 <= i < |items| ==> items[i].data == m.data[i])
    && (forall b :: b in m.arrays && b != a ==> b[..] == m.arrays[b].slots)
    && (forall p :: p in m.quanta && p != q ==> p[..] == m.quanta[p].bytes)
  }

  lemma LeaveOut(m: Picture, items: seq<QsetItem>, a: Slots, q: array<Byte>)
    requires Shows(m, items)
    ensures ShowsBut(m, items, a, q)
    ensures a in m.arrays ==> a[..] == m.arrays[a].slots
    ensures q in m.quanta ==> q[..] == m.quanta[q].bytes
    ensures |items| == |m.data| && forall i :: 0 <= i < |items| ==> items[i].data == m.data[i]
  {
  }

  lemma ShowsQuantum(m: Picture, items: seq<QsetItem>, i: nat, j: nat, q: array<Byte>, bytes: seq<Byte>)
    requires i < |m.data| && m.data[i] in m.arrays.Keys && j < |m.arrays[m.data[i]].slots|
    requires ShowsBut(m, items, m.data[i], q)
    requires m.data[i][..] == m.arrays[m.data[i]].slots[j := q]
    requires q[..] == bytes
    ensures Shows(WithQuantum(m, i, j, q, bytes), items)
  {
  }

  /** All that follows from one block of bytes having been put into its slot in memory. */
  lemma QuantumPut(g: Shape, live: Heap, items: seq<QsetItem>, m: Picture, vs: seq<Array>, i: nat, j: nat,
                   q: array<Byte>, bytes: seq<Byte>)
    requires Pictures(g, m, vs) && Reachable(live, items, m) && |bytes| == g.quantum
    requires i < |m.data| && m.data[i] in m.arrays.Keys && j < |m.arrays[m.data[i]].slots|
    requires m.arrays[m.data[i]].slots[j] == if q in m.quanta then q else null
    requires ShowsBut(m, items, m.data[i], q)
    requires m.data[i][..] == m.arrays[m.data[i]].slots[j := q] && q[..] == bytes
    ensures i < |vs| && vs[i].Some? && j < |vs[i].value|
    ensures var m' := WithQuantum(m, i, j, q, bytes);
            && Shows(m', items) && Pictures(g, m', SetQuantum(vs, i, j, Some(bytes)))
            && Reachable(live.(quanta := live.quanta + {q}), items, m')
            && m'.arrays.Keys == m.arrays.Keys && m'.quanta.Keys == m.quanta.Keys + {q}
  {
    hide ShowsBut, Shows, Pictures, Reachable, WithQuantum, SetQuantum;
    ShowsQuantum(m, items, i, j, q, bytes);
    QuantumSet(g, m, vs, i, j, q, bytes);
    ReachableQuantum(live, items, m, i, j, q, bytes);
  }

  class SparseDev {
    const shape: Shape               // the parameters scull_quantum and scull_qset
    var data: QsetItem?              // scull: the list; scullc: the device itself, as its first item
    var quantum: nat
    var qset: nat
    var size: nat

    ghost var store: Store           // what the memory stands for
    ghost var items: seq<QsetItem>   // the list
    ghost var picture: Picture       // and what hangs off it
    ghost var live: Heap

    /** The list is acyclic, no block is shared, memory says what `store` says, and the live
        blocks are exactly the reachable ones. */
    ghost predicate Valid()
      reads this, items, picture.arrays.Keys, picture.quanta.Keys
    {
      && quantum == shape.quantum && qset == shape.qset && size == store.size
      && (data == if items == [] then null else items[0])
      && Linked(items)
      && Shows(picture, items)
      && Pictures(shape, picture, store.items)
      && Reachable(live, items, picture)
    }

    constructor (shape: Shape)
      ensures Valid() && this.shape == shape && store == ScullTrim() && live == NOTHING
    {
      this.shape := shape;
      data := null;
      quantum, qset, size := shape.quantum, shape.qset, 0;
      store := ScullTrim();
      items, picture, live := [], BLANK, NOTHING;
    }

    /** A scullc device, whose first item is part of it. */
    constructor Embedding(shape: Shape)
      ensures Valid() && this.shape == shape && store == ScullcTrim()
      ensures |items| == 1 && fresh(items[0]) && live == Heap({items[0]}, {}, {})
    {
      this.shape := shape;
      quantum, qset, size := shape.quantum, shape.qset, 0;
      var first := new QsetItem();
      data := first;
      store := ScullcTrim();
      items, picture, live := [first], WithItem(BLANK), Heap({first}, {}, {});
      new;
      OneItemIsEmpty(first);
    }

    // ---------------------------------------------------------------- the list grows

    /** A new item at the end of the list, which is after `tail`. */
    method Link(tail: QsetItem?, item: QsetItem)
      requires Valid()
      requires item !in live.items && item.data == null && item.next == null
      requires if items == [] then tail == null else tail == items[|items| - 1]
      modifies this, tail
      ensures Valid() && items == old(items) + [item]
      ensures store == old(store).(items := old(store.items) + [None])
      ensures live == old(live).(items := old(live.items) + {item})
      ensures picture == WithItem(old(picture))
    {
      hide Shows, Pictures, Reachable;
      ReachableIsLive(live, items, picture);
      if tail == null {
        data := item;
      } else {
        tail.next := item;
      }
      LinkedMore(items, item);
      ShowsMore(picture, items, item);
      ItemAdded(shape, picture, store.items);
      ReachableMore(live, items, picture, item);
      items, picture, store, live :=
        items + [item],
        WithItem(picture),
        store.(items := store.items + [None]),
        live.(items := live.items + {item});
    }

    // ---------------------------------------------------------------- allocation

    method NewArray(qs: QsetItem, ghost i: nat)
      requires Valid() && i < |items| && qs == items[i] && qs.data == null
      modifies this, qs`data
      ensures Valid() && items == old(items) && qs.data != null && fresh(qs.data)
      ensures i < |old(picture.data)| && picture == WithArray(shape, old(picture), i, qs.data)
      ensures i < |old(store.items)| && store == old(store).(items := old(store.items)[i := EmptyArray(shape)])
      ensures live == old(live).(arrays := old(live.arrays) + {qs.data})
    {
      hide Linked, Pictures, Reachable, Shows, ShowsRest, WithArray, EmptyArray;
      PictureLength();
      NextItem(items, i);
      ReachableIsLive(live, items, picture);
      LeaveOutItem(picture, items, i);
      var a := AllocateCleared(qset);
      qs.data := a;
      ShowsArray(shape, picture, items, i, a);
      ArrayAdded(shape, picture, store.items, i, a);
      ReachableArray(shape, live, items, picture, i, a);
      picture, store, live :=
        WithArray(shape, picture, i, a),
        store.(items := store.items[i := EmptyArray(shape)]),
        live.(arrays := live.arrays + {a});
    }

    method NewQuantum(a: Slots, ghost i: nat, j: nat, memory: seq<Byte>)
      requires Valid() && i < |items| && a == items[i].data && j < qset == a.Length && a[j] == null
      requires |memory| == quantum
      modifies this, a
      ensures Valid() && items == old(items) && picture.arrays.Keys == old(picture.arrays.Keys)
      ensures a[j] != null && fresh(a[j]) && picture.quanta.Keys == old(picture.quanta.Keys) + {a[j]}
      ensures i < |old(store.items)| && old(store.items)[i].Some? && j < |old(store.items)[i].value|
      ensures store == old(store).(items := SetQuantum(old(store.items), i, j, Some(memory)))
      ensures live == old(live).(quanta := old(live.quanta) + {a[j]})
    {
      hide Linked, Pictures, Reachable, Shows, ShowsBut, WithQuantum, SetQuantum;
      PictureLength();
      ReachableIsLive(live, items, picture);
      Lookup(shape, picture, store.items, i);
      var q := Allocate(memory);
      LeaveOut(picture, items, a, q);
      a[j] := q;
      assert Linked(items);
      QuantumPut(shape, live, items, picture, store.items, i, j, q, memory);
      picture, store, live :=
        WithQuantum(picture, i, j, q, memory),
        store.(items := SetQuantum(store.items, i, j, Some(memory))),
        live.(quanta := live.quanta + {q});
    }

    /** copy_from_user into a quantum. */
    method CopyIn(a: Slots, ghost i: nat, j: nat, at: nat, bytes: seq<Byte>)
      requires Valid() && i < |items| && a == items[i].data && j < qset == a.Length && a[j] != null
      requires at + |bytes| <= quantum == a[j].Length
      modifies this, a[j]
      ensures Valid() && items == old(items)
      ensures picture.arrays.Keys == old(picture.arrays.Keys) && picture.quanta.Keys == old(picture.quanta.Keys)
      ensures i < |old(store.items)| && old(store.items)[i].Some? && j < |old(store.items)[i].value|
      ensures old(store.items)[i].value[j] == Some(old(a[j][..]))
      ensures var over := Overlay(old(a[j][..]), at, bytes);
              store == old(store).(items := SetQuantum(old(store.items), i, j, Some(over)))
      ensures live == old(live)
    {
      hide Linked, Pictures, Reachable, Shows, ShowsBut, WithQuantum, SetQuantum;
      PictureLength();
      ReachableIsLive(live, items, picture);
      var q: array<Byte> := a[j];
      ghost var over := Overlay(q[..], at, bytes);
      LeaveOut(picture, items, a, q);
      LookupSlot(shape, picture, store.items, i, j);
      assert a[..] == a[..][j := q];
      CopyFromUser(q, at, bytes);
      QuantumPut(shape, live, items, picture, store.items, i, j, q, over);
      picture := WithQuantum(picture, i, j, q, over);
      store := store.(items := SetQuantum(store.items, i, j, Some(over)));
      assert live == live.(quanta := live.quanta + {q});
    }

    lemma PictureLength()
      requires Valid()
      ensures |items| == |picture.data| == |store.items|
    {
    }

    /** What following the pointers to a slot finds. */
    lemma Pointers(i: nat, j: nat)
      requires Valid() && i < |items| && j < qset
      ensures quantum == shape.quantum && qset == shape.qset && ItemsOk(shape, store.items)
      ensures i < |store.items| && (items[i].data == null <==> store.items[i] == None)
      ensures items[i].data != null ==>
                && items[i].data in picture.arrays.Keys
                && items[i].data.Length == qset == |store.items[i].value|
                && (items[i].data[j] == null <==> store.items[i].value[j] == None)
                && (items[i].data[j] != null ==>
                      && items[i].data[j] in picture.quanta.Keys
                      && items[i].data[j].Length == quantum
                      && store.items[i].value[j] == Some(items[i].data[j][..]))
    {
      Lookup(shape, picture, store.items, i);
      if items[i].data != null {
        LookupSlot(shape, picture, store.items, i, j);
      }
    }

    // ---------------------------------------------------------------- scull_write

    /** The last part of a write: the copy, and the size. */
    method WriteBytes(pos: nat, at: Place, a: Slots, buf: seq<Byte>, ghost budget: nat, env: Env) returns (r: Result)
      requires Valid() && EnvOk(shape, env) && at == Locate(shape, pos)
      requires at.item < |items| && a == items[at.item].data
      requires at.slot < a.Length == qset && a[at.slot] != null
      modifies this, a[at.slot]
      ensures Valid() && items == old(items) && live == old(live)
      ensures ItemsOk(shape, old(store.items)) && at.item < |old(store.items)|
      ensures (store, r) == WriteFound(shape, old(store), pos, buf, budget, env.memory, env.fault)
    {
      hide Linked, Shows, Pictures, Reachable, Locate, SetQuantum, Overlay, WriteFound, ItemsOk;
      Located(shape, pos);
      Pointers(at.item, at.slot);
      WriteSteps(shape, store, pos, buf, budget, env.memory, env.fault);
      var n := Min(|buf|, quantum - at.offset);
      if env.fault.Some? {
        CopyIn(a, at.item, at.slot, at.offset, env.fault.value[..Min(|env.fault.value|, n)]);
        return BadAddress;
      }
      CopyIn(a, at.item, at.slot, at.offset, buf[..n]);
      if size < pos + n {
        size := pos + n;
        store := store.(size := pos + n);
      }
      r := Done(n);
    }

    /** From the array on: its quantum first. `budget` allocations are left. */
    method WriteSlot(pos: nat, at: Place, a: Slots, buf: seq<Byte>, budget: nat, env: Env) returns (r: Result)
      requires Valid() && EnvOk(shape, env) && at == Locate(shape, pos)
      requires at.item < |items| && a == items[at.item].data
      modifies this, a, picture.quanta.Keys
      ensures Valid() && items == old(items)
      ensures live == old(live).(quanta := live.quanta)
      ensures live.quanta >= old(live.quanta) && fresh(live.quanta - old(live.quanta))
      ensures ItemsOk(shape, old(store.items)) && at.item < |old(store.items)|
      ensures (store, r) == WriteFound(shape, old(store), pos, buf, budget, env.memory, env.fault)
    {
      hide Linked, Shows, Pictures, Reachable, Locate, SetQuantum, WriteFound, ItemsOk;
      Located(shape, pos);
      Pointers(at.item, at.slot);
      WriteSteps(shape, store, pos, buf, budget, env.memory, env.fault);
      var left := budget;
      if a[at.slot] == null {
        if budget == 0 {
          return NoMemory;
        }
        left := left - 1;
        NewQuantum(a, at.item, at.slot, env.memory);
      }
      r := WriteBytes(pos, at, a, buf, left, env);
    }

    /** From the item on: its array first. */
    method WriteItem(pos: nat, at: Place, dptr: QsetItem, buf: seq<Byte>, budget: nat, env: Env) returns (r: Result)
      requires Valid() && EnvOk(shape, env) && at == Locate(shape, pos)
      requires at.item < |items| && dptr == items[at.item]
      modifies this, dptr, picture.arrays.Keys, picture.quanta.Keys
      ensures Valid() && items == old(items)
      ensures live.items == old(live.items) && live.arrays >= old(live.arrays) && live.quanta >= old(live.quanta)
      ensures fresh(live.arrays - old(live.arrays)) && fresh(live.quanta - old(live.quanta))
      ensures ItemsOk(shape, old(store.items)) && at.item < |old(store.items)|
      ensures (store, r) == WriteFound(shape, old(store), pos, buf, budget, env.memory, env.fault)
    {
      hide Linked, Shows, Pictures, Reachable, Locate, WriteFound, ItemsOk, EmptyArray;
      Located(shape, pos);
      Pointers(at.item, at.slot);
      WriteSteps(shape, store, pos, buf, budget, env.memory, env.fault);
      var left := budget;
      if dptr.data == null {
        if budget == 0 {
          return NoMemory;
        }
        left := left - 1;
        NewArray(dptr, at.item);
      }
      r := WriteSlot(pos, at, dptr.data, buf, left, env);
    }

    // ---------------------------------------------------------------- scull_trim

    /** kfree, of each kind of block: a block is freed only while it is live, hence once. */
    method FreeItem(x: QsetItem)
      requires x in live.items
      modifies `live
      ensures live == old(live).(items := old(live.items) - {x})
    {
      live := live.(items := live.items - {x});
    }

    method FreeArray(a: Slots)
      requires a in live.arrays
      modifies `live
      ensures live == old(live).(arrays := old(live.arrays) - {a})
    {
      live := live.(arrays := live.arrays - {a});
    }

    method FreeQuantum(q: array?<Byte>)
      requires q != null ==> q in live.quanta
      modifies `live
      ensures live == if q == null then old(live) else old(live).(quanta := old(live.quanta) - {q})
    {
      live := if q == null then live else live.(quanta := live.quanta - {q});
    }

    /** Reads of a block by trim: only while it is live. */
    method DataOf(x: QsetItem) returns (a: array?<array?<Byte>>)
      requires x in live.items
      ensures a == x.data
    {
      a := x.data;
    }

    method NextOf(x: QsetItem) returns (y: QsetItem?)
      requires x in live.items
      ensures y == x.next
    {
      y := x.next;
    }

    method SlotOf(a: Slots, i: nat) returns (q: array?<Byte>)
      requires a in live.arrays && i < a.Length
      ensures q == a[i]
    {
      q := a[i];
    }

    /** The inner loop of scull_trim: an item's quanta, then its array. */
    method FreeSlots(a: Slots, slots: nat, ghost m: Picture, ghost vs: seq<Array>, ghost k: nat)
      requires Pictures(shape, m, vs) && k < |m.data| && m.data[k] == a && slots == shape.qset
      requires a in m.arrays.Keys && a[..] == m.arrays[a].slots
      requires live.arrays == ArraysFrom(m, k) && live.quanta == QuantaFrom(m, k, 0)
      modifies `live
      ensures live == Heap(old(live.items), ArraysFrom(m, k + 1), QuantaFrom(m, k + 1, 0))
    {
      hide Pictures, ArraysFrom, QuantaFrom;
      ItemFreed(shape, m, vs, k);
      var i := 0;
      while i < slots
        invariant 0 <= i <= slots
        invariant live == Heap(old(live.items), ArraysFrom(m, k), QuantaFrom(m, k, i))
      {
        SlotFreed(shape, m, vs, k, i);
        var q := SlotOf(a, i);
        FreeQuantum(q);
        i := i + 1;
      }
      FreeArray(a);
    }

    /** What either trim does to an item before leaving it. */
    method FreeData(dptr: QsetItem, slots: nat, ghost was: seq<QsetItem>, ghost m: Picture, ghost vs: seq<Array>,
                    ghost k: nat)
      requires Pictures(shape, m, vs) && slots == shape.qset
      requires Linked(was) && ShowsFrom(m, was, k) && k < |was| && dptr == was[k] && dptr in live.items
      requires live.arrays == ArraysFrom(m, k) && live.quanta == QuantaFrom(m, k, 0)
      modifies `live, dptr`data
      ensures dptr.data == null && ShowsFrom(m, was, k + 1)
      ensures live == Heap(old(live.items), ArraysFrom(m, k + 1), QuantaFrom(m, k + 1, 0))
    {
      hide Linked, Pictures, ArraysFrom, QuantaFrom, ItemsFrom;
      FromItem(m, was, k);
      ItemFreed(shape, m, vs, k);
      var a := DataOf(dptr);
      if a != null {
        FreeSlots(a, slots, m, vs, k);
        dptr.data := null;
      }
    }

    lemma OneItemIsEmpty(first: QsetItem)
      requires first.data == null && first.next == null
      ensures Linked([first]) && Shows(WithItem(BLANK), [first])
      ensures Pictures(shape, WithItem(BLANK), [None]) && Reachable(Heap({first}, {}, {}), [first], WithItem(BLANK))
    {
    }

    lemma ItemsAreOk()
      requires Valid()
      ensures ItemsOk(shape, store.items)
    {
    }

    lemma EverythingIsLive()
      requires Valid()
      ensures live == Heap(ItemsFrom(items, 0), picture.arrays.Keys, picture.quanta.Keys)
      ensures ShowsFrom(picture, items, 0)
    {
      assert items[0..] == items;
    }

    lemma BlankIsEmpty()
      ensures Linked([]) && Shows(BLANK, []) && Pictures(shape, BLANK, []) && Reachable(NOTHING, [], BLANK)
    {
    }
  }

  /** The items still to be freed when the first k are gone. */
  ghost function ItemsFrom(items: seq<QsetItem>, k: nat): set<QsetItem> {
    if k <= |items| then set x | x in items[k..] else {}
  }

  /** The part of memory that trim has not freed yet still looks as it did. */
  ghost predicate ShowsFrom(m: Picture, items: seq<QsetItem>, k: nat)
    reads ItemsFrom(items, k)`data, m.arrays.Keys
  {
    && |items| == |m.data|
    && (forall i :: k <= i < |items| ==> items[i].data == m.data[i])
    && (forall a :: a in m.arrays ==> a[..] == m.arrays[a].slots)
  }

  lemma FromItem(m: Picture, items: seq<QsetItem>, k: nat)
    requires Linked(items) && ShowsFrom(m, items, k) && k < |items|
    ensures |items| == |m.data| && items[k].data == m.data[k] && ShowsFrom(m, items, k + 1)
    ensures items[k] in ItemsFrom(items, k) && items[k] !in ItemsFrom(items, k + 1)
    ensures forall a :: a in m.arrays ==> a[..] == m.arrays[a].slots
  {
    assert items[k..][0] == items[k];
  }

  lemma NoItemIsLeft(items: seq<QsetItem>)
    ensures ItemsFrom(items, |items|) == {}
  {
  }

  lemma RestOfList(items: seq<QsetItem>, k: nat)
    requires Linked(items) && k < |items|
    ensures ItemsFrom(items, k) - {items[k]} == ItemsFrom(items, k + 1)
  {
    assert items[k..] == [items[k]] + items[k + 1..];
  }

  /** The address arithmetic as the calls write it. */
  lemma Located(g: Shape, pos: nat)
    ensures g.quantum * g.qset > 0
    ensures var rest := pos % (g.quantum * g.qset);
            && Locate(g, pos) == Place(pos / (g.quantum * g.qset), rest / g.quantum, rest % g.quantum)
            && rest / g.quantum < g.qset && rest % g.quantum < g.quantum
  {
    MulPositive(g.quantum, g.qset);
    PositionInvertsLocate(g, pos);
  }
}
