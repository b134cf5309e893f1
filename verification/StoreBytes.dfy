/** What the calls of Store do to a flat file: a size, and a byte or nothing at each
    position. */
module StoreBytes {
  import opened Common
  import opened StoreAddress
  import opened Store

  ghost function SlotAt(items: seq<Array>, item: nat, slot: nat): Quantum {
    if item < |items| && items[item].Some? && slot < |items[item].value| then items[item].value[slot] else None
  }

  /** The byte stored at a position; None in a hole. */
  ghost function ByteAt(g: Shape, st: Store, p: nat): Option<Byte> {
    var at := Locate(g, p);
    var q := SlotAt(st.items, at.item, at.slot);
    if q.Some? && at.offset < |q.value| then Some(q.value[at.offset]) else None
  }

  /** Well-formed, and with enough items to reach the last byte of the size. */
  ghost predicate Valid(g: Shape, st: Store) {
    && ItemsOk(g, st.items)
    && (st.size > 0 ==> Locate(g, st.size - 1).item < |st.items|)
  }

  ghost predicate SameBytes(g: Shape, st: Store, st': Store) {
    forall p: nat :: ByteAt(g, st', p) == ByteAt(g, st, p)
  }

  lemma AllocatedIsByte(g: Shape, st: Store, p: nat)
    requires ItemsOk(g, st.items)
    ensures var at := Locate(g, p);
            ByteAt(g, st, p).Some? <==> SlotAt(st.items, at.item, at.slot).Some?
  {
    PositionInvertsLocate(g, p);
  }

  /** Two positions in one quantum are both in a hole or both not. */
  lemma HolesAreWhole(g: Shape, st: Store, p: nat, q: nat)
    requires ItemsOk(g, st.items) && p / g.quantum == q / g.quantum
    ensures ByteAt(g, st, p).Some? <==> ByteAt(g, st, q).Some?
  {
    AllocatedIsByte(g, st, p);
    AllocatedIsByte(g, st, q);
    SameSlot(g, p, q);
  }

  lemma FollowKeepsBytes(g: Shape, st: Store, n: nat, budget: nat)
    ensures SameBytes(g, st, st.(items := Follow(st.items, n, budget).items))
  {
    FollowGrows(st.items, n, budget);
    var more := Follow(st.items, n, budget).items;
    forall i: nat, j: nat
      ensures SlotAt(more, i, j) == SlotAt(st.items, i, j)
    {
      if i < |st.items| {
        assert more[i] == more[..|st.items|][i];
      }
    }
  }

  // ------------------------------------------------------------------ reads

  /** The number of bytes a read returns, given what is known of the file. */
  function ReadLength(g: Shape, size: nat, hole: bool, pos: nat, count: nat): nat {
    if pos >= size || hole then 0 else Min(Min(count, size - pos), g.quantum - pos % g.quantum)
  }

  ghost predicate ReadsBytes(g: Shape, st: Store, pos: nat, out: seq<Byte>) {
    forall i :: 0 <= i < |out| ==> ByteAt(g, st, pos + i) == Some(out[i])
  }

  lemma FoundBytes(g: Shape, st: Store, pos: nat, n: nat)
    requires ItemsOk(g, st.items) && ByteAt(g, st, pos).Some?
    requires n <= g.quantum - Locate(g, pos).offset
    ensures var at := Locate(g, pos);
            && at.item < |st.items| && st.items[at.item].Some? && at.slot < |st.items[at.item].value|
            && st.items[at.item].value[at.slot].Some?
            && at.offset + n <= |st.items[at.item].value[at.slot].value|
            && ReadsBytes(g, st, pos, st.items[at.item].value[at.slot].value[at.offset..at.offset + n])
  {
    var at := Locate(g, pos);
    AllocatedIsByte(g, st, pos);
    PositionInvertsLocate(g, pos);
    LocateIsFlat(g, pos);
    var out := st.items[at.item].value[at.slot].value[at.offset..at.offset + n];
    forall i | 0 <= i < n
      ensures ByteAt(g, st, pos + i) == Some(out[i])
    {
      WithinQuantum(g, pos, pos + i);
      SameSlot(g, pos, pos + i);
      LocateIsFlat(g, pos + i);
    }
  }

  lemma ReadFoundBytes(g: Shape, st: Store, pos: nat, count: nat, env: Env)
    requires ItemsOk(g, st.items) && Locate(g, pos).item < |st.items| && InShape(g, Locate(g, pos))
    ensures var (r, out) := ReadFound(g, st.items, Locate(g, pos), count, env);
            && ReadsBytes(g, st, pos, out)
            && (ByteAt(g, st, pos) == None ==> r == Done(0) && out == [])
            && (ByteAt(g, st, pos).Some? && env.fault.Some? ==> r == BadAddress && out == [])
            && (ByteAt(g, st, pos).Some? && env.fault == None ==>
                  r == Done(|out|) && |out| == Min(count, g.quantum - pos % g.quantum))
  {
    AllocatedIsByte(g, st, pos);
    LocateIsFlat(g, pos);
    if ByteAt(g, st, pos).Some? {
      FoundBytes(g, st, pos, Min(count, g.quantum - Locate(g, pos).offset));
    }
  }

  /** scull_read: never more than the size, the quantum or a hole allow, exactly as many as
      they do, the stored bytes; and no allocation, so a failing allocator cannot matter. */
  lemma ScullReadReadsBytes(g: Shape, st: Store, pos: nat, count: nat, env: Env)
    requires Valid(g, st)
    ensures var (st', r, out) := ScullRead(g, st, pos, count, env);
            && st' == st
            && ReadsBytes(g, st, pos, out)
            && (env.signal ==> r == Interrupted && out == [])
            && (!env.signal && env.fault.Some? ==>
                  out == [] && r == if pos < st.size && ByteAt(g, st, pos).Some? then BadAddress else Done(0))
            && (!env.signal && env.fault == None ==>
                  r == Done(|out|) && |out| == ReadLength(g, st.size, ByteAt(g, st, pos) == None, pos, count))
  {
    PositionInvertsLocate(g, pos);
    if !env.signal && pos < st.size {
      ItemMonotone(g, pos, st.size - 1);
      FollowGrows(st.items, Locate(g, pos).item, env.budget);
      assert Follow(st.items, Locate(g, pos).item, env.budget).items == st.items;
      ReadFoundBytes(g, st, pos, Min(count, st.size - pos), env);
    }
  }

  ghost predicate GainsItem(g: Shape, st: Store, pos: nat, env: Env) {
    !env.signal && pos == st.size && Locate(g, pos).item >= |st.items|
  }

  /** The end of the file is at most one item beyond the list. */
  lemma NextItemIsEnough(g: Shape, st: Store)
    requires Valid(g, st)
    ensures Locate(g, st.size).item <= |st.items|
  {
    if st.size == 0 {
      DivModUnique(0, ItemSize(g), 0, 0);
    } else {
      NextPosition(g, st.size - 1);
    }
  }

  /** The next position is in the same item or the next. */
  lemma NextPosition(g: Shape, p: nat)
    ensures Locate(g, p + 1).item <= Locate(g, p).item + 1
  {
    var d := ItemSize(g);
    if p % d + 1 < d {
      DivModUnique(p + 1, d, p / d, p % d + 1);
    } else {
      assert p + 1 == (p / d + 1) * d;
      DivModUnique(p + 1, d, p / d + 1, 0);
    }
  }

  /** scullc_read reads alike, but appends one empty item exactly when it reads at the end of
      the file and the list does not reach that far. */
  lemma ScullcReadReadsBytes(g: Shape, st: Store, pos: nat, count: nat, env: Env)
    requires Valid(g, st)
    ensures var (st', r, out) := ScullcRead(g, st, pos, count, env);
            && Valid(g, st') && SameBytes(g, st, st') && st'.size == st.size
            && st' == (if GainsItem(g, st, pos, env) then st.(items := st.items + [None]) else st)
            && (st' != st <==> GainsItem(g, st, pos, env))
            && ReadsBytes(g, st, pos, out)
            && (env.signal ==> r == Interrupted && out == [])
            && (!env.signal && env.fault.Some? ==>
                  out == [] && r == if pos <= st.size && ByteAt(g, st, pos).Some? then BadAddress else Done(0))
            && (!env.signal && env.fault == None ==>
                  r == Done(|out|) && |out| == ReadLength(g, st.size, ByteAt(g, st, pos) == None, pos, count))
  {
    PositionInvertsLocate(g, pos);
    if GainsItem(g, st, pos, env) {
      NextItemIsEnough(g, st);
    }
    if !env.signal && pos <= st.size {
      var item := Locate(g, pos).item;
      FollowGrows(st.items, item, item + 1);
      FollowKeepsOk(g, st.items, item, item + 1);
      FollowKeepsBytes(g, st, item, item + 1);
      var st' := st.(items := Follow(st.items, item, item + 1).items);
      if pos < st.size {
        ItemMonotone(g, pos, st.size - 1);
        assert st'.items == st.items;
      }
      ReadFoundBytes(g, st', pos, Min(count, st.size - pos), env);
    }
  }

  // ------------------------------------------------------------------ writes

  /** The bytes of a quantum replaced, and nothing else. */
  lemma SetQuantumBytes(g: Shape, st: Store, pos: nat, q: seq<Byte>)
    requires ItemsOk(g, st.items) && |q| == g.quantum
    requires Locate(g, pos).item < |st.items| && st.items[Locate(g, pos).item].Some?
    ensures InShape(g, Locate(g, pos))
    ensures var items := SetQuantum(st.items, Locate(g, pos).item, Locate(g, pos).slot, Some(q));
            && ItemsOk(g, items)
            && forall p: nat :: ByteAt(g, st.(items := items), p)
                   == if p / g.quantum == pos / g.quantum then Some(q[p % g.quantum]) else ByteAt(g, st, p)
  {
    PositionInvertsLocate(g, pos);
    var at := Locate(g, pos);
    var items := SetQuantum(st.items, at.item, at.slot, Some(q));
    forall p: nat
      ensures ByteAt(g, st.(items := items), p)
           == if p / g.quantum == pos / g.quantum then Some(q[p % g.quantum]) else ByteAt(g, st, p)
    {
      SameSlot(g, p, pos);
      LocateIsFlat(g, p);
    }
  }

  /** What a write leaves at a position: inside the written span its data, elsewhere in a
      newly allocated quantum what the allocator handed out, otherwise what was there. */
  ghost function Written(g: Shape, st: Store, pos: nat, data: seq<Byte>, memory: seq<Byte>, p: nat): Option<Byte>
    requires |memory| == g.quantum
  {
    if pos <= p < pos + |data| then Some(data[p - pos])
    else if p / g.quantum == pos / g.quantum && ByteAt(g, st, p) == None then Some(memory[p % g.quantum])
    else ByteAt(g, st, p)
  }

  /** A store after a write that accepted `data`. */
  ghost predicate Becomes(g: Shape, st: Store, st': Store, pos: nat, data: seq<Byte>, memory: seq<Byte>)
    requires |memory| == g.quantum
  {
    forall p: nat :: ByteAt(g, st', p) == Written(g, st, pos, data, memory, p)
  }

  lemma OverlayBytes(g: Shape, st: Store, pos: nat, q: seq<Byte>, data: seq<Byte>, memory: seq<Byte>)
    requires ItemsOk(g, st.items) && |q| == |memory| == g.quantum
    requires Locate(g, pos).item < |st.items| && st.items[Locate(g, pos).item].Some?
    requires InShape(g, Locate(g, pos)) && Locate(g, pos).offset + |data| <= g.quantum
    requires SlotAt(st.items, Locate(g, pos).item, Locate(g, pos).slot) == None ==> q == memory
    requires SlotAt(st.items, Locate(g, pos).item, Locate(g, pos).slot).Some? ==>
               q == SlotAt(st.items, Locate(g, pos).item, Locate(g, pos).slot).value
    ensures var at := Locate(g, pos);
            var items := SetQuantum(st.items, at.item, at.slot, Some(Overlay(q, at.offset, data)));
            && ItemsOk(g, items)
            && |items| == |st.items|
            && forall size: nat :: Becomes(g, st, Store(size, items), pos, data, memory)
  {
    var at := Locate(g, pos);
    var over := Overlay(q, at.offset, data);
    SetQuantumBytes(g, st, pos, over);
    LocateIsFlat(g, pos);
    var st' := st.(items := SetQuantum(st.items, at.item, at.slot, Some(over)));
    forall size: nat, p: nat
      ensures ByteAt(g, Store(size, st'.items), p) == Written(g, st, pos, data, memory, p)
    {
      LocateIsFlat(g, p);
      SameSlot(g, p, pos);
      if p / g.quantum == pos / g.quantum {
        OffsetsDiffer(g, p, pos);
        assert over[p % g.quantum] == if pos <= p < pos + |data| then data[p - pos] else q[p % g.quantum];
      } else if pos <= p < pos + |data| {
        WithinQuantum(g, pos, p);
      }
    }
  }

  /** How many allocations a write needs once the list reaches its item. */
  ghost function BlocksNeeded(g: Shape, st: Store, pos: nat): nat {
    var at := Locate(g, pos);
    if at.item >= |st.items| || st.items[at.item] == None then 2
    else if SlotAt(st.items, at.item, at.slot) == None then 1
    else 0
  }

  ghost function ItemsNeeded(g: Shape, st: Store, pos: nat): nat {
    var at := Locate(g, pos);
    if at.item < |st.items| then 0 else at.item + 1 - |st.items|
  }

  /** What a write does to the file, by its result. */
  ghost predicate WriteEffect(g: Shape, st: Store, st': Store, r: Result, pos: nat, data: seq<Byte>,
                              memory: seq<Byte>, fault: Option<seq<Byte>>)
    requires |memory| == g.quantum
  {
    && Valid(g, st')
    && match r
       case NoMemory => SameBytes(g, st, st') && st'.size == st.size
       case BadAddress =>
         && fault.Some? && st'.size == st.size
         && var reached := fault.value[..Min(|fault.value|, Span(g.quantum, pos, |data|))];
         && Becomes(g, st, st', pos, reached, memory)
       case Done(n) =>
         && fault == None && n == Span(g.quantum, pos, |data|) && st'.size == Max(st.size, pos + n)
         && Becomes(g, st, st', pos, data[..n], memory)
       case _ => false
  }

  lemma NewArrayBytes(g: Shape, st: Store, item: nat)
    requires ItemsOk(g, st.items) && item < |st.items| && st.items[item] == None
    ensures ItemsOk(g, st.items[item := EmptyArray(g)])
    ensures SameBytes(g, st, st.(items := st.items[item := EmptyArray(g)]))
  {
    var items := st.items[item := EmptyArray(g)];
    forall i: nat, j: nat
      ensures SlotAt(items, i, j) == SlotAt(st.items, i, j)
    {
    }
  }

  lemma WrittenOfSame(g: Shape, st: Store, st1: Store, pos: nat, data: seq<Byte>, memory: seq<Byte>)
    requires SameBytes(g, st, st1) && |memory| == g.quantum
    ensures forall p: nat :: Written(g, st1, pos, data, memory, p) == Written(g, st, pos, data, memory, p)
  {
    forall p: nat
      ensures Written(g, st1, pos, data, memory, p) == Written(g, st, pos, data, memory, p)
    {
      assert ByteAt(g, st1, p) == ByteAt(g, st, p);
    }
  }

  /** A larger size still within the list. */
  lemma SizeReached(g: Shape, st: Store, pos: nat, n: nat)
    requires Valid(g, st) && Locate(g, pos).item < |st.items|
    requires n <= g.quantum - pos % g.quantum
    ensures var size := Max(st.size, pos + n); size > 0 ==> Locate(g, size - 1).item < |st.items|
  {
    if st.size < pos + n {
      if n == 0 {
        ItemMonotone(g, pos - 1, pos);
      } else {
        WithinQuantum(g, pos, pos + n - 1);
        SameSlot(g, pos, pos + n - 1);
      }
    }
  }

  lemma WriteFoundEffect(g: Shape, st: Store, pos: nat, data: seq<Byte>, budget: nat, memory: seq<Byte>,
                         fault: Option<seq<Byte>>)
    requires Valid(g, st) && Locate(g, pos).item < |st.items| && |memory| == g.quantum
    ensures var (st', r) := WriteFound(g, st, pos, data, budget, memory, fault);
            && WriteEffect(g, st, st', r, pos, data, memory, fault)
            && |st'.items| == |st.items|
            && (r == NoMemory <==> budget < BlocksNeeded(g, st, pos))
            && (r != NoMemory ==> (r == BadAddress <==> fault.Some?))
  {
    PositionInvertsLocate(g, pos);
    LocateIsFlat(g, pos);
    var at := Locate(g, pos);
    if st.items[at.item].Some? {
      SlotWriteEffect(g, st, pos, data, budget, memory, fault);
    } else if budget > 0 {
      NewArrayBytes(g, st, at.item);
      var st1 := st.(items := st.items[at.item := EmptyArray(g)]);
      SlotWriteEffect(g, st1, pos, data, budget - 1, memory, fault);
      var (st', r) := WriteFound(g, st1, pos, data, budget - 1, memory, fault);
      assert WriteFound(g, st, pos, data, budget, memory, fault) == (st', r);
      EffectOfSame(g, st, st1, st', r, pos, data, memory, fault);
    }
  }

  lemma EffectOfSame(g: Shape, st: Store, st1: Store, st': Store, r: Result, pos: nat, data: seq<Byte>,
                     memory: seq<Byte>, fault: Option<seq<Byte>>)
    requires SameBytes(g, st, st1) && st1.size == st.size && |memory| == g.quantum
    requires WriteEffect(g, st1, st', r, pos, data, memory, fault)
    ensures WriteEffect(g, st, st', r, pos, data, memory, fault)
  {
    if r.Done? {
      WrittenOfSame(g, st, st1, pos, data[..r.count], memory);
    } else if r.BadAddress? {
      WrittenOfSame(g, st, st1, pos, fault.value[..Min(|fault.value|, Span(g.quantum, pos, |data|))], memory);
    }
  }

  /** The case of an item that has its array: at the end the copy, ... */
  lemma WriteBytesEffect(g: Shape, st: Store, pos: nat, q: seq<Byte>, data: seq<Byte>, memory: seq<Byte>,
                         fault: Option<seq<Byte>>)
    requires Valid(g, st) && Locate(g, pos).item < |st.items| && |q| == |memory| == g.quantum
    requires InShape(g, Locate(g, pos)) && st.items[Locate(g, pos).item].Some?
    requires Locate(g, pos).slot < |st.items[Locate(g, pos).item].value|
    requires var v := SlotAt(st.items, Locate(g, pos).item, Locate(g, pos).slot);
             q == if v == None then memory else v.value
    ensures var (st', r) := WriteBytes(g, st, Locate(g, pos), q, pos, data, fault);
            && WriteEffect(g, st, st', r, pos, data, memory, fault)
            && |st'.items| == |st.items| && r != NoMemory && (r == BadAddress <==> fault.Some?)
  {
    LocateIsFlat(g, pos);
    hide Locate, InShape, Overlay, SetQuantum, Becomes, ItemsOk;
    var n := Span(g.quantum, pos, |data|);
    if fault.Some? {
      OverlayBytes(g, st, pos, q, fault.value[..Min(|fault.value|, n)], memory);
    } else {
      OverlayBytes(g, st, pos, q, data[..n], memory);
      SizeReached(g, st, pos, n);
    }
  }

  /** ... and before it the quantum. */
  lemma SlotWriteEffect(g: Shape, st: Store, pos: nat, data: seq<Byte>, budget: nat, memory: seq<Byte>,
                        fault: Option<seq<Byte>>)
    requires Valid(g, st) && Locate(g, pos).item < |st.items| && |memory| == g.quantum
    requires st.items[Locate(g, pos).item].Some?
    ensures var (st', r) := WriteFound(g, st, pos, data, budget, memory, fault);
            && WriteEffect(g, st, st', r, pos, data, memory, fault)
            && |st'.items| == |st.items|
            && (r == NoMemory <==> budget < BlocksNeeded(g, st, pos))
            && (r != NoMemory ==> (r == BadAddress <==> fault.Some?))
  {
    PositionInvertsLocate(g, pos);
    hide Locate, WriteBytes, ByteAt;
    var at := Locate(g, pos);
    assert ArrayOk(g, st.items[at.item]);
    var v := SlotAt(st.items, at.item, at.slot);
    WriteBytesEffect(g, st, pos, if v == None then memory else v.value, data, memory, fault);
  }

  /** scull_write, whatever fails: a signal leaves everything; -ENOMEM, which comes exactly
      when the allocator has fewer blocks than the write needs, leaves every byte and the
      size; -EFAULT touches only the span it was copying to; success changes exactly
      [pos, pos + n). A new quantum shows what the allocator handed out. */
  lemma ScullWriteEffect(g: Shape, st: Store, pos: nat, data: seq<Byte>, env: Env)
    requires Valid(g, st) && EnvOk(g, env)
    ensures var (st', r) := ScullWrite(g, st, pos, data, env);
            && (env.signal ==> r == Interrupted && st' == st)
            && (!env.signal ==> WriteEffect(g, st, st', r, pos, data, env.memory, env.fault))
            && (!env.signal ==> (r == NoMemory <==> env.budget < ItemsNeeded(g, st, pos) + BlocksNeeded(g, st, pos)))
            && (!env.signal && r != NoMemory ==> (r == BadAddress <==> env.fault.Some?))
  {
    if !env.signal {
      var item := Locate(g, pos).item;
      FollowGrows(st.items, item, env.budget);
      FollowKeepsOk(g, st.items, item, env.budget);
      FollowKeepsBytes(g, st, item, env.budget);
      var f := Follow(st.items, item, env.budget);
      var st1 := st.(items := f.items);
      if f.found {
        FoundNeeds(g, st, st1, pos, f.budget);
        WriteFoundEffect(g, st1, pos, data, f.budget, env.memory, env.fault);
        var (st', r) := WriteFound(g, st1, pos, data, f.budget, env.memory, env.fault);
        EffectOfSame(g, st, st1, st', r, pos, data, env.memory, env.fault);
      }
    }
  }

  lemma FoundNeeds(g: Shape, st: Store, st1: Store, pos: nat, budget: nat)
    requires |st.items| <= |st1.items| && st1.items[..|st.items|] == st.items
    requires forall i :: |st.items| <= i < |st1.items| ==> st1.items[i] == None
    requires Locate(g, pos).item < |st1.items|
    ensures BlocksNeeded(g, st1, pos) == BlocksNeeded(g, st, pos)
  {
    var item := Locate(g, pos).item;
    if item < |st.items| {
      assert st1.items[item] == st1.items[..|st.items|][item];
    }
  }

  /** scullc_write: the same, with every new quantum cleared. */
  lemma ScullcWriteEffect(g: Shape, st: Store, pos: nat, data: seq<Byte>, env: Env)
    requires Valid(g, st)
    ensures var (st', r) := ScullcWrite(g, st, pos, data, env);
            && (env.signal ==> r == Interrupted && st' == st)
            && (!env.signal ==> WriteEffect(g, st, st', r, pos, data, Zeros(g), env.fault))
            && (!env.signal ==> (r == NoMemory <==> env.budget < BlocksNeeded(g, st, pos)))
            && (!env.signal && r != NoMemory ==> (r == BadAddress <==> env.fault.Some?))
  {
    if !env.signal {
      var item := Locate(g, pos).item;
      FollowGrows(st.items, item, item + 1);
      FollowKeepsOk(g, st.items, item, item + 1);
      FollowKeepsBytes(g, st, item, item + 1);
      var st1 := st.(items := Follow(st.items, item, item + 1).items);
      FoundNeeds(g, st, st1, pos, env.budget);
      WriteFoundEffect(g, st1, pos, data, env.budget, Zeros(g), env.fault);
      var (st', r) := WriteFound(g, st1, pos, data, env.budget, Zeros(g), env.fault);
      EffectOfSame(g, st, st1, st', r, pos, data, Zeros(g), env.fault);
    }
  }
}
