/** The sparse store as a value, for both drivers: a list of items, each with no array yet
    or an array of slots, each with no quantum yet or a quantum of bytes
    (higher_scull/high_scull/main.c, alloc_mem/code/scullslab/main.c). The functions follow
    the calls branch by branch; the classes in ScullDevice and ScullcDevice are proved to
    compute them in place. */
module Store {
  import opened Common
  import opened StoreAddress

  type Quantum = Option<seq<Byte>>
  type Array = Option<seq<Quantum>>

  datatype Store = Store(size: nat, items: seq<Array>)

  /** What a call meets: a signal while it waits for the semaphore, how many allocations
      succeed before one fails, what memory the allocator hands out, and a user copy that
      fails after overwriting `fault.value`. */
  datatype Env = Env(signal: bool, budget: nat, memory: seq<Byte>, fault: Option<seq<Byte>>)

  /** kmalloc'd memory holds anything; only its length is known. */
  ghost predicate EnvOk(g: Shape, env: Env) {
    |env.memory| == g.quantum
  }

  ghost predicate ArrayOk(g: Shape, a: Array) {
    a.Some? ==> |a.value| == g.qset && forall j :: 0 <= j < g.qset ==> QuantumOk(g, a.value[j])
  }

  ghost predicate QuantumOk(g: Shape, q: Quantum) {
    q.Some? ==> |q.value| == g.quantum
  }

  ghost predicate ItemsOk(g: Shape, items: seq<Array>) {
    forall i :: 0 <= i < |items| ==> ArrayOk(g, items[i])
  }

  function EmptyArray(g: Shape): (a: Array)
    ensures a.Some? && |a.value| == g.qset && forall j :: 0 <= j < g.qset ==> a.value[j] == None
  {
    Some(seq(g.qset, _ => None))
  }

  // ------------------------------------------------------------------ scull_follow

  datatype Followed = Followed(items: seq<Array>, found: bool, budget: nat)

  /** The list grows until it has an item `n`, or an allocation fails. */
  function Follow(items: seq<Array>, n: nat, budget: nat): Followed
    decreases n + 1 - |items|
  {
    if n < |items| then Followed(items, true, budget)
    else if budget == 0 then Followed(items, false, 0)
    else Follow(items + [None], n, budget - 1)
  }

  // ------------------------------------------------------------------ reading

  /** The part of a read after the size checks, in either driver. */
  function ReadFound(g: Shape, items: seq<Array>, at: Place, count: nat, env: Env): (Result, seq<Byte>)
    requires ItemsOk(g, items) && InShape(g, at) && at.item < |items|
  {
    if items[at.item] == None || items[at.item].value[at.slot] == None then (Done(0), [])
    else
      var n := Min(count, g.quantum - at.offset);
      if env.fault.Some? then (BadAddress, [])
      else (Done(n), items[at.item].value[at.slot].value[at.offset..at.offset + n])
  }

  function ScullRead(g: Shape, st: Store, pos: nat, count: nat, env: Env): (Store, Result, seq<Byte>)
    requires ItemsOk(g, st.items)
  {
    if env.signal then (st, Interrupted, [])
    else if pos >= st.size then (st, Done(0), [])
    else
      var n := Min(count, st.size - pos);
      PositionInvertsLocate(g, pos);
      FollowKeepsOk(g, st.items, Locate(g, pos).item, env.budget);
      var f := Follow(st.items, Locate(g, pos).item, env.budget);
      if !f.found then (st.(items := f.items), Done(0), [])
      else
        var (r, out) := ReadFound(g, f.items, Locate(g, pos), n, env);
        (st.(items := f.items), r, out)
  }

  /** scullc_read lets a read at exactly `size` through, and its scullc_follow does not
      check its allocations; they are taken to succeed. */
  function ScullcRead(g: Shape, st: Store, pos: nat, count: nat, env: Env): (Store, Result, seq<Byte>)
    requires ItemsOk(g, st.items)
  {
    if env.signal then (st, Interrupted, [])
    else if pos > st.size then (st, Done(0), [])
    else
      var n := Min(count, st.size - pos);
      PositionInvertsLocate(g, pos);
      FollowKeepsOk(g, st.items, Locate(g, pos).item, Locate(g, pos).item + 1);
      var items := Follow(st.items, Locate(g, pos).item, Locate(g, pos).item + 1).items;
      var (r, out) := ReadFound(g, items, Locate(g, pos), n, env);
      (st.(items := items), r, out)
  }

  // ------------------------------------------------------------------ writing

  function SetQuantum(items: seq<Array>, i: nat, j: nat, q: Quantum): seq<Array>
    requires i < |items| && items[i].Some? && j < |items[i].value|
  {
    items[i := Some(items[i].value[j := q])]
  }

  /** The part of a write once the quantum is there, holding `q`: the copy and the size. */
  function WriteBytes(g: Shape, st: Store, at: Place, q: seq<Byte>, pos: nat, data: seq<Byte>,
                      fault: Option<seq<Byte>>): (Store, Result)
    requires at.item < |st.items| && st.items[at.item].Some? && at.slot < |st.items[at.item].value|
    requires |q| == g.quantum && at.offset < g.quantum
  {
    var n := Min(|data|, g.quantum - at.offset);
    if fault.Some? then
      var reached := fault.value[..Min(|fault.value|, n)];
      (st.(items := SetQuantum(st.items, at.item, at.slot, Some(Overlay(q, at.offset, reached)))), BadAddress)
    else
      var over := Overlay(q, at.offset, data[..n]);
      (Store(Max(st.size, pos + n), SetQuantum(st.items, at.item, at.slot, Some(over))), Done(n))
  }

  /** The part of a write after the list has been followed: the array, the quantum, the
      copy. `memory` is what a newly allocated quantum holds. */
  function WriteFound(g: Shape, st: Store, pos: nat, data: seq<Byte>, budget: nat, memory: seq<Byte>,
                      fault: Option<seq<Byte>>): (Store, Result)
    requires ItemsOk(g, st.items) && Locate(g, pos).item < |st.items| && |memory| == g.quantum
  {
    PositionInvertsLocate(g, pos);
    var at := Locate(g, pos);
    var needsArray := st.items[at.item] == None;
    if needsArray && budget == 0 then (st, NoMemory)
    else
      var left := if needsArray then budget - 1 else budget;
      var items := if needsArray then st.items[at.item := EmptyArray(g)] else st.items;
      var needsQuantum := items[at.item].value[at.slot] == None;
      if needsQuantum && left == 0 then (st.(items := items), NoMemory)
      else
        var q := if needsQuantum then memory else items[at.item].value[at.slot].value;
        WriteBytes(g, st.(items := items), at, q, pos, data, fault)
  }

  /** A write into a hole is the write that follows once the missing block is there. */
  lemma WriteSteps(g: Shape, st: Store, pos: nat, data: seq<Byte>, budget: nat, memory: seq<Byte>,
                   fault: Option<seq<Byte>>)
    requires ItemsOk(g, st.items) && Locate(g, pos).item < |st.items| && |memory| == g.quantum
    ensures var at := Locate(g, pos);
            var w := WriteFound(g, st, pos, data, budget, memory, fault);
            InShape(g, at) &&
            if st.items[at.item] == None then
              var more := st.(items := st.items[at.item := EmptyArray(g)]);
              if budget == 0 then w == (st, NoMemory)
              else ItemsOk(g, more.items) && w == WriteFound(g, more, pos, data, budget - 1, memory, fault)
            else if st.items[at.item].value[at.slot] == None then
              var more := st.(items := SetQuantum(st.items, at.item, at.slot, Some(memory)));
              if budget == 0 then w == (st, NoMemory)
              else ItemsOk(g, more.items) && w == WriteFound(g, more, pos, data, budget - 1, memory, fault)
            else
              w == WriteBytes(g, st, at, st.items[at.item].value[at.slot].value, pos, data, fault)
  {
    hide Locate;
    PositionInvertsLocate(g, pos);
    var at := Locate(g, pos);
    assert ArrayOk(g, st.items[at.item]);
    if st.items[at.item].Some? && st.items[at.item].value[at.slot] == None {
      var more := SetQuantum(st.items, at.item, at.slot, Some(memory));
      forall q: Quantum
        ensures SetQuantum(more, at.item, at.slot, q) == SetQuantum(st.items, at.item, at.slot, q)
      {
        assert more[at.item].value[at.slot := q] == st.items[at.item].value[at.slot := q];
        assert SetQuantum(more, at.item, at.slot, q) == SetQuantum(st.items, at.item, at.slot, q);
      }
    }
  }

  function ScullWrite(g: Shape, st: Store, pos: nat, data: seq<Byte>, env: Env): (Store, Result)
    requires ItemsOk(g, st.items) && |env.memory| == g.quantum
  {
    if env.signal then (st, Interrupted)
    else
      FollowKeepsOk(g, st.items, Locate(g, pos).item, env.budget);
      var f := Follow(st.items, Locate(g, pos).item, env.budget);
      if !f.found then (st.(items := f.items), NoMemory)
      else WriteFound(g, st.(items := f.items), pos, data, f.budget, env.memory, env.fault)
  }

  /** scullc_write clears a new quantum. */
  function ScullcWrite(g: Shape, st: Store, pos: nat, data: seq<Byte>, env: Env): (Store, Result)
    requires ItemsOk(g, st.items)
  {
    if env.signal then (st, Interrupted)
    else
      FollowKeepsOk(g, st.items, Locate(g, pos).item, Locate(g, pos).item + 1);
      var items := Follow(st.items, Locate(g, pos).item, Locate(g, pos).item + 1).items;
      WriteFound(g, st.(items := items), pos, data, env.budget, Zeros(g), env.fault)
  }

  function Zeros(g: Shape): seq<Byte> {
    seq(g.quantum, _ => 0)
  }

  /** scull_trim leaves no item; scullc_trim leaves the one embedded in the device. */
  function ScullTrim(): Store {
    Store(0, [])
  }

  function ScullcTrim(): Store {
    Store(0, [None])
  }

  // ------------------------------------------------------------------ the list only grows

  lemma {:induction false} FollowGrows(items: seq<Array>, n: nat, budget: nat)
    ensures var f := Follow(items, n, budget);
            && |items| <= |f.items|
            && f.items[..|items|] == items
            && (forall i :: |items| <= i < |f.items| ==> f.items[i] == None)
            && (f.found <==> n < |f.items|)
            && (f.found <==> n + 1 <= |items| + budget)
            && f.budget == budget - (|f.items| - |items|)
            && |f.items| <= Max(|items|, n + 1)
    decreases n + 1 - |items|
  {
    if n < |items| || budget == 0 {
    } else {
      FollowGrows(items + [None], n, budget - 1);
      var f := Follow(items, n, budget);
      assert f.items[..|items|] == f.items[..|items| + 1][..|items|];
      assert f.items[|items|] == f.items[..|items| + 1][|items|];
    }
  }

  lemma FollowKeepsOk(g: Shape, items: seq<Array>, n: nat, budget: nat)
    requires ItemsOk(g, items)
    ensures ItemsOk(g, Follow(items, n, budget).items)
    ensures n < |Follow(items, n, budget).items| <==> Follow(items, n, budget).found
    ensures n < budget ==> Follow(items, n, budget).found
  {
    FollowGrows(items, n, budget);
    var more := Follow(items, n, budget).items;
    forall i | 0 <= i < |more|
      ensures ArrayOk(g, more[i])
    {
      if i < |items| {
        assert more[i] == more[..|items|][i];
      }
    }
  }
}
