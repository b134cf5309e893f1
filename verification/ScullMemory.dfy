/** The memory behind a sparse store, as a value: which blocks there are, what each holds,
    and who points at it. Both device classes keep such a picture of their heap, so that
    what it means to change one block is argued here without the heap. */
module ScullMemory {
  import opened Common
  import opened StoreAddress
  import opened Store

  type Slots = array<array?<Byte>>

  /** A block of pointers, of the item numbered `item`. */
  datatype ArrayBlock = ArrayBlock(item: nat, slots: seq<array?<Byte>>)

  /** A block of bytes, in slot `slot` of that item's array. */
  datatype QuantumBlock = QuantumBlock(item: nat, slot: nat, bytes: seq<Byte>)

  /** `data` holds each item's pointer to its array. */
  datatype Picture = Picture(
    data: seq<array?<array?<Byte>>>,
    arrays: map<Slots, ArrayBlock>,
    quanta: map<array<Byte>, QuantumBlock>
  )

  const BLANK := Picture([], map[], map[])

  /** A pointer in an array stands for a quantum. */
  ghost predicate SlotStandsFor(m: Picture, q: array?<Byte>, v: Quantum, i: nat, j: nat) {
    if q == null then v == None
    else q in m.quanta && m.quanta[q].item == i && m.quanta[q].slot == j && v == Some(m.quanta[q].bytes)
  }

  /** An item's pointer stands for an array of quanta. */
  ghost predicate ArrayStandsFor(g: Shape, m: Picture, a: array?<array?<Byte>>, v: Array, i: nat) {
    if a == null then v == None
    else
      && a in m.arrays && m.arrays[a].item == i && |m.arrays[a].slots| == g.qset
      && v.Some? && |v.value| == g.qset
      && forall j :: 0 <= j < g.qset ==> SlotStandsFor(m, m.arrays[a].slots[j], v.value[j], i, j)
  }

  ghost predicate StandsFor(g: Shape, m: Picture, vs: seq<Array>) {
    && |m.data| == |vs|
    && forall i :: 0 <= i < |m.data| ==> ArrayStandsFor(g, m, m.data[i], vs[i], i)
  }

  /** Every block is pointed at from the one place recorded for it: none is shared, none has
      been lost. */
  ghost predicate Owned(m: Picture) {
    && (forall a :: a in m.arrays ==> m.arrays[a].item < |m.data| && m.data[m.arrays[a].item] == a)
    && (forall q :: q in m.quanta ==> QuantumOwned(m, q, m.quanta[q].item, m.quanta[q].slot))
  }

  ghost predicate QuantumOwned(m: Picture, q: array<Byte>, i: nat, j: nat) {
    && i < |m.data| && m.data[i] in m.arrays.Keys
    && j < |m.arrays[m.data[i]].slots| && m.arrays[m.data[i]].slots[j] == q
  }

  ghost predicate Pictures(g: Shape, m: Picture, vs: seq<Array>) {
    StandsFor(g, m, vs) && Owned(m) && ItemsOk(g, vs)
  }

  // ------------------------------------------------------------------ allocation

  /** kmalloc of a quantum, where the allocator finds `memory`. */
  method Allocate(memory: seq<Byte>) returns (q: array<Byte>)
    ensures fresh(q) && q[..] == memory
  {
    q := new Byte[|memory|](k requires 0 <= k < |memory| => memory[k]);
  }

  /** kmalloc and memset of an array of pointers. */
  method AllocateCleared(n: nat) returns (a: Slots)
    ensures fresh(a) && a[..] == seq(n, _ => null)
  {
    a := new array?<Byte>[n](_ => null);
  }

  // ------------------------------------------------------------------ changes

  ghost function WithItem(m: Picture): Picture {
    m.(data := m.data + [null])
  }

  ghost function WithArray(g: Shape, m: Picture, i: nat, a: Slots): Picture
    requires i < |m.data|
  {
    m.(data := m.data[i := a], arrays := m.arrays[a := ArrayBlock(i, seq(g.qset, _ => null))])
  }

  /** Slot j of item i now points at `q`, which holds `bytes`. */
  ghost function WithQuantum(m: Picture, i: nat, j: nat, q: array<Byte>, bytes: seq<Byte>): Picture
    requires i < |m.data| && m.data[i] in m.arrays.Keys && j < |m.arrays[m.data[i]].slots|
  {
    var a := m.data[i];
    m.(arrays := m.arrays[a := ArrayBlock(i, m.arrays[a].slots[j := q])],
       quanta := m.quanta[q := QuantumBlock(i, j, bytes)])
  }

  lemma ItemAdded(g: Shape, m: Picture, vs: seq<Array>)
    requires Pictures(g, m, vs)
    ensures Pictures(g, WithItem(m), vs + [None])
  {
    var m', vs' := WithItem(m), vs + [None];
    forall i | 0 <= i < |m'.data|
      ensures ArrayStandsFor(g, m', m'.data[i], vs'[i], i)
    {
      if i < |m.data| {
        assert ArrayStandsFor(g, m, m.data[i], vs[i], i);
        ArrayKept(g, m, m', m.data[i], vs[i], i);
      }
    }
    forall q | q in m'.quanta
      ensures QuantumOwned(m', q, m'.quanta[q].item, m'.quanta[q].slot)
    {
      assert QuantumOwned(m, q, m.quanta[q].item, m.quanta[q].slot);
    }
  }

  /** An array whose blocks are as they were stands for what it did. */
  lemma ArrayKept(g: Shape, m: Picture, m': Picture, a: array?<array?<Byte>>, v: Array, i: nat)
    requires ArrayStandsFor(g, m, a, v, i)
    requires a != null ==> a in m'.arrays && m'.arrays[a] == m.arrays[a]
    requires forall q :: q in m.quanta && m.quanta[q].item == i ==> q in m'.quanta && m'.quanta[q] == m.quanta[q]
    ensures ArrayStandsFor(g, m', a, v, i)
  {
    if a != null {
      forall j | 0 <= j < g.qset
        ensures SlotStandsFor(m', m'.arrays[a].slots[j], v.value[j], i, j)
      {
        assert SlotStandsFor(m, m.arrays[a].slots[j], v.value[j], i, j);
      }
    }
  }

  lemma ArrayAdded(g: Shape, m: Picture, vs: seq<Array>, i: nat, a: Slots)
    requires Pictures(g, m, vs) && i < |m.data| && m.data[i] == null && a !in m.arrays
    ensures |vs| == |m.data| && Pictures(g, WithArray(g, m, i, a), vs[i := EmptyArray(g)])
  {
    var m', vs' := WithArray(g, m, i, a), vs[i := EmptyArray(g)];
    forall k | 0 <= k < |m'.data|
      ensures ArrayStandsFor(g, m', m'.data[k], vs'[k], k)
    {
      if k != i {
        assert ArrayStandsFor(g, m, m.data[k], vs[k], k);
        ArrayKept(g, m, m', m.data[k], vs[k], k);
      }
    }
    forall q | q in m'.quanta
      ensures QuantumOwned(m', q, m'.quanta[q].item, m'.quanta[q].slot)
    {
      assert QuantumOwned(m, q, m.quanta[q].item, m.quanta[q].slot);
    }
  }

  /** The slot was empty and the quantum is new, or the slot's own quantum has new bytes. */
  lemma QuantumSet(g: Shape, m: Picture, vs: seq<Array>, i: nat, j: nat, q: array<Byte>, bytes: seq<Byte>)
    requires Pictures(g, m, vs) && |bytes| == g.quantum
    requires i < |m.data| && m.data[i] in m.arrays.Keys && j < |m.arrays[m.data[i]].slots|
    requires q in m.quanta ==> m.arrays[m.data[i]].slots[j] == q
    requires q !in m.quanta ==> m.arrays[m.data[i]].slots[j] == null
    ensures |vs| == |m.data| && vs[i].Some? && j < |vs[i].value| && j < g.qset
    ensures Pictures(g, WithQuantum(m, i, j, q, bytes), SetQuantum(vs, i, j, Some(bytes)))
  {
    var m', vs' := WithQuantum(m, i, j, q, bytes), SetQuantum(vs, i, j, Some(bytes));
    var a := m.data[i];
    assert ArrayStandsFor(g, m, a, vs[i], i);
    assert SlotStandsFor(m, m.arrays[a].slots[j], vs[i].value[j], i, j);
    forall k | 0 <= k < |m'.data|
      ensures ArrayStandsFor(g, m', m'.data[k], vs'[k], k)
    {
      assert ArrayStandsFor(g, m, m.data[k], vs[k], k);
      if k != i {
        ArrayKept(g, m, m', m.data[k], vs[k], k);
      } else {
        forall l | 0 <= l < g.qset
          ensures SlotStandsFor(m', m'.arrays[a].slots[l], vs'[i].value[l], i, l)
        {
          assert SlotStandsFor(m, m.arrays[a].slots[l], vs[i].value[l], i, l);
        }
      }
    }
    forall p | p in m'.quanta
      ensures QuantumOwned(m', p, m'.quanta[p].item, m'.quanta[p].slot)
    {
      if p != q {
        assert QuantumOwned(m, p, m.quanta[p].item, m.quanta[p].slot);
      }
    }
  }

  // ------------------------------------------------------------------ lookups

  /** What the pointers met on the way to a byte say about the store. */
  lemma Lookup(g: Shape, m: Picture, vs: seq<Array>, i: nat)
    requires Pictures(g, m, vs) && i < |m.data|
    ensures |vs| == |m.data| && (m.data[i] == null <==> vs[i] == None)
    ensures m.data[i] != null ==>
              && m.data[i] in m.arrays && m.arrays[m.data[i]].item == i
              && |m.arrays[m.data[i]].slots| == g.qset == |vs[i].value|
  {
    assert ArrayStandsFor(g, m, m.data[i], vs[i], i);
  }

  lemma LookupSlot(g: Shape, m: Picture, vs: seq<Array>, i: nat, j: nat)
    requires Pictures(g, m, vs) && i < |m.data| && m.data[i] != null && j < g.qset
    ensures |vs| == |m.data| && vs[i].Some? && m.data[i] in m.arrays
    ensures |m.arrays[m.data[i]].slots| == g.qset == |vs[i].value|
    ensures var q := m.arrays[m.data[i]].slots[j];
            && (q == null <==> vs[i].value[j] == None)
            && (q != null ==> q in m.quanta && m.quanta[q] == QuantumBlock(i, j, vs[i].value[j].value)
                              && |m.quanta[q].bytes| == g.quantum)
  {
    assert ArrayStandsFor(g, m, m.data[i], vs[i], i);
    assert SlotStandsFor(m, m.arrays[m.data[i]].slots[j], vs[i].value[j], i, j);
    assert ArrayOk(g, vs[i]) && QuantumOk(g, vs[i].value[j]);
  }

  // ------------------------------------------------------------------ freeing

  /** The arrays still to be freed when those of the first k items are gone. */
  ghost function ArraysFrom(m: Picture, k: nat): set<Slots> {
    set a | a in m.arrays && k <= m.arrays[a].item
  }

  /** The quanta still to be freed when those of the first k items, and those in the first
      j slots of the next one, are gone. */
  ghost function QuantaFrom(m: Picture, k: nat, j: nat): set<array<Byte>> {
    set q | q in m.quanta && (k < m.quanta[q].item || (k == m.quanta[q].item && j <= m.quanta[q].slot))
  }

  lemma EverythingIsLeft(m: Picture)
    ensures ArraysFrom(m, 0) == m.arrays.Keys && QuantaFrom(m, 0, 0) == m.quanta.Keys
  {
  }

  lemma NothingIsLeft(g: Shape, m: Picture, vs: seq<Array>)
    requires Pictures(g, m, vs)
    ensures ArraysFrom(m, |m.data|) == {} && QuantaFrom(m, |m.data|, 0) == {}
  {
    forall q | q in m.quanta
      ensures m.quanta[q].item < |m.data|
    {
      assert QuantumOwned(m, q, m.quanta[q].item, m.quanta[q].slot);
    }
  }

  /** A slot's quantum is still there, and is the only block that goes with the slot. */
  lemma SlotFreed(g: Shape, m: Picture, vs: seq<Array>, k: nat, j: nat)
    requires Pictures(g, m, vs) && k < |m.data| && m.data[k] != null && j < g.qset
    ensures m.data[k] in m.arrays.Keys && |m.arrays[m.data[k]].slots| == g.qset
    ensures var q := m.arrays[m.data[k]].slots[j];
            if q == null then QuantaFrom(m, k, j + 1) == QuantaFrom(m, k, j)
            else q in QuantaFrom(m, k, j) && QuantaFrom(m, k, j + 1) == QuantaFrom(m, k, j) - {q}
  {
    LookupSlot(g, m, vs, k, j);
    var q := m.arrays[m.data[k]].slots[j];
    forall p | p in m.quanta && m.quanta[p].item == k && m.quanta[p].slot == j
      ensures p == q
    {
      assert QuantumOwned(m, p, k, j);
    }
  }

  /** Once its slots are done, an item's array is the only block that goes with it. */
  lemma ItemFreed(g: Shape, m: Picture, vs: seq<Array>, k: nat)
    requires Pictures(g, m, vs) && k < |m.data|
    ensures if m.data[k] == null then
              ArraysFrom(m, k + 1) == ArraysFrom(m, k) && QuantaFrom(m, k + 1, 0) == QuantaFrom(m, k, 0)
            else
              && m.data[k] in m.arrays.Keys && m.data[k] in ArraysFrom(m, k)
              && ArraysFrom(m, k + 1) == ArraysFrom(m, k) - {m.data[k]}
              && QuantaFrom(m, k + 1, 0) == QuantaFrom(m, k, g.qset)
  {
    Lookup(g, m, vs, k);
    forall p | p in m.quanta && m.quanta[p].item == k
      ensures m.data[k] != null && m.quanta[p].slot < g.qset
    {
      assert QuantumOwned(m, p, k, m.quanta[p].slot);
    }
  }
}
