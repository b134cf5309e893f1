/** Both drivers serve a looping caller: what it writes it reads back, in exactly as many
    calls as the span has quanta. */
module StoreRoundTrip {
  import opened Common
  import opened StoreAddress
  import opened Store
  import opened StoreBytes
  import opened StoreHistory
  import opened LoopingCaller

  /** What call number k meets: no failure, memory for a list that reaches the item of
      position `end`, and whatever contents the allocator likes. */
  ghost predicate Smooth(g: Shape, envs: nat -> Env, end: nat) {
    forall k: nat ::
      EnvOk(g, envs(k)) && !envs(k).signal && envs(k).fault == None && envs(k).budget >= Locate(g, end).item + 3
  }

  /** A driver's device file, as the caller meets it with these environments. */
  ghost function FileOf(g: Shape, d: Driver, envs: nat -> Env, end: nat): File<Store> {
    File(g.quantum, end,
         st => Valid(g, st),
         (st: Store) => st.size,
         (st, p) => ByteAt(g, st, p),
         (st, pos, data, k) => WriteCall(g, d, st, pos, data, envs(k)),
         (st, pos, n, k) => ReadCall(g, d, st, pos, n, envs(k)))
  }

  ghost function WriteCall(g: Shape, d: Driver, st: Store, pos: nat, data: seq<Byte>, env: Env): (Store, nat) {
    if !Valid(g, st) || !EnvOk(g, env) then (st, 0)
    else
      var (st', reply) := AnswerWrite(g, d, st, pos, data, env);
      (st', if reply.result.Done? then reply.result.count else 0)
  }

  ghost function ReadCall(g: Shape, d: Driver, st: Store, pos: nat, n: nat, env: Env): (Store, seq<Byte>) {
    if !Valid(g, st) || !EnvOk(g, env) then (st, [])
    else
      var (st', reply) := AnswerRead(g, d, st, pos, n, env);
      (st', reply.out)
  }

  lemma OneWrite(g: Shape, d: Driver, envs: nat -> Env, end: nat, st: Store, pos: nat, data: seq<Byte>, k: nat)
    requires Smooth(g, envs, end) && Valid(g, st) && pos + |data| <= end
    ensures var f := FileOf(g, d, envs, end);
            Wrote(f, st, pos, data, f.write(st, pos, data, k).0, f.write(st, pos, data, k).1)
  {
    hide AnswerWrite, Locate;
    var env := envs(k);
    ItemMonotone(g, pos, end);
    WriteAnswered(g, d, st, pos, data, env);
    var st' := AnswerWrite(g, d, st, pos, data, env).0;
    var n := Span(g.quantum, pos, |data|);
    assert forall p: nat :: ByteAt(g, st', p) == Written(g, st, pos, data[..n], Memory(g, d, env), p);
  }

  lemma OneRead(g: Shape, d: Driver, envs: nat -> Env, end: nat, st: Store, pos: nat, data: seq<Byte>, k: nat)
    requires Smooth(g, envs, end) && Valid(g, st) && data != [] && pos + |data| <= st.size
    requires Holds(FileOf(g, d, envs, end), st, pos, data)
    ensures var f := FileOf(g, d, envs, end);
            Got(f, st, pos, data, f.read(st, pos, |data|, k).0, f.read(st, pos, |data|, k).1)
  {
    hide AnswerRead, Locate;
    var f := FileOf(g, d, envs, end);
    ReadAnswered(g, d, st, pos, |data|, envs(k));
    assert f.byteAt(st, pos) == Some(data[0]);
    var out := AnswerRead(g, d, st, pos, |data|, envs(k)).1.out;
    forall i | 0 <= i < |out|
      ensures out[i] == data[i]
    {
      assert f.byteAt(st, pos + i) == Some(data[i]);
    }
  }

  lemma DriversServe(g: Shape, d: Driver, envs: nat -> Env, end: nat)
    requires Smooth(g, envs, end)
    ensures Serves(FileOf(g, d, envs, end))
  {
    var f := FileOf(g, d, envs, end);
    forall st: Store, pos: nat, data: seq<Byte>, k: nat | f.ok(st) && pos + |data| <= end
      ensures Wrote(f, st, pos, data, f.write(st, pos, data, k).0, f.write(st, pos, data, k).1)
    {
      OneWrite(g, d, envs, end, st, pos, data, k);
    }
    forall st: Store, pos: nat, data: seq<Byte>, k: nat |
      f.ok(st) && data != [] && pos + |data| <= f.size(st) && Holds(f, st, pos, data)
      ensures Got(f, st, pos, data, f.read(st, pos, |data|, k).0, f.read(st, pos, |data|, k).1)
    {
      OneRead(g, d, envs, end, st, pos, data, k);
    }
  }

  /** The calls of a loop are as many as the quanta that its bytes lie in. */
  lemma {:induction false} CallsAreQuanta(quantum: Positive, pos: nat, n: nat)
    requires n > 0
    ensures Calls(quantum, pos, n) == (pos + n - 1) / quantum - pos / quantum + 1
    decreases n
  {
    var m := Span(quantum, pos, n);
    if m == n {
      WithinQuantum(Shape(quantum, 1), pos, pos + n - 1);
    } else {
      DivModUnique(pos + m, quantum, pos / quantum + 1, 0);
      CallsAreQuanta(quantum, pos + m, n - m);
    }
  }

  lemma LoopsRoundTrip(f: File<Store>, st: Store, pos: nat, data: seq<Byte>)
    requires Serves(f) && f.ok(st) && pos + |data| <= f.end && data != []
    ensures var (st', calls) := WriteAll(f, st, pos, data, 0);
            && calls == (pos + |data| - 1) / f.quantum - pos / f.quantum + 1
            && ReadAll(f, st', pos, |data|, calls) == (data, calls)
  {
    WriteAllWrites(f, st, pos, data, 0);
    var (st', calls) := WriteAll(f, st, pos, data, 0);
    ReadAllReads(f, st', pos, data, calls);
    CallsAreQuanta(f.quantum, pos, |data|);
  }

  lemma RoundTripFrom(g: Shape, d: Driver, st: Store, pos: nat, data: seq<Byte>, envs: nat -> Env)
    requires Valid(g, st) && data != [] && Smooth(g, envs, pos + |data|)
    ensures var f := FileOf(g, d, envs, pos + |data|);
            var (st', calls) := WriteAll(f, st, pos, data, 0);
            && calls == (pos + |data| - 1) / g.quantum - pos / g.quantum + 1
            && ReadAll(f, st', pos, |data|, calls) == (data, calls)
  {
    DriversServe(g, d, envs, pos + |data|);
    LoopsRoundTrip(FileOf(g, d, envs, pos + |data|), st, pos, data);
  }

  /** Round trip, on either driver, after any run of calls that may itself have met
      failures: n >= 1 bytes written at a position take
      (pos + n - 1) / quantum - pos / quantum + 1 calls to store, read back unchanged, and
      take that many calls to read. */
  lemma RoundTrip(g: Shape, d: Driver, before: seq<Call>, pos: nat, data: seq<Byte>, envs: nat -> Env)
    requires StoreHistory.CallsOk(g, before) && data != [] && Smooth(g, envs, pos + |data|)
    ensures var f := FileOf(g, d, envs, pos + |data|);
            var (st, calls) := WriteAll(f, Run(g, d, before).store, pos, data, 0);
            && calls == (pos + |data| - 1) / g.quantum - pos / g.quantum + 1
            && ReadAll(f, st, pos, |data|, calls) == (data, calls)
  {
    RoundTripFrom(g, d, Run(g, d, before).store, pos, data, envs);
  }
}
