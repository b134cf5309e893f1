/** A second account of the file, from the calls alone: what a caller who watched every
    call and its result knows about each position. Every run of either driver agrees with
    it, hence the two drivers agree with each other. */
module StoreHistory {
  import opened Common
  import opened StoreAddress
  import opened Store
  import opened StoreBytes

  /** Which driver runs. */
  datatype Driver = Scull | Scullc

  datatype Call =
    | Read(pos: nat, count: nat, env: Env)
    | Write(pos: nat, data: seq<Byte>, env: Env)
    | Open(writeOnly: bool, signal: bool)    // an open for writing only trims the device

  datatype Reply = Reply(result: Result, out: seq<Byte>)

  /** What a call did to the file, as its caller can tell. */
  datatype Event =
    | Stored(pos: nat, bytes: seq<Byte>)     // a write returned a count
    | Spoiled(pos: nat, count: nat)          // a write failed while copying
    | Trimmed

  type History = seq<Event>

  datatype State = State(store: Store, history: History, replies: seq<Reply>)

  ghost predicate CallOk(g: Shape, c: Call) {
    match c
    case Read(_, _, env) => EnvOk(g, env)
    case Write(_, _, env) => EnvOk(g, env)
    case Open(_, _) => true
  }

  ghost predicate CallsOk(g: Shape, calls: seq<Call>) {
    forall i :: 0 <= i < |calls| ==> CallOk(g, calls[i])
  }

  function Fresh(d: Driver): Store {
    if d == Scull then ScullTrim() else ScullcTrim()
  }

  function AnswerRead(g: Shape, d: Driver, st: Store, pos: nat, count: nat, env: Env): (Store, Reply)
    requires ItemsOk(g, st.items)
  {
    var (st', r, out) := if d == Scull then ScullRead(g, st, pos, count, env) else ScullcRead(g, st, pos, count, env);
    (st', Reply(r, out))
  }

  function AnswerWrite(g: Shape, d: Driver, st: Store, pos: nat, data: seq<Byte>, env: Env): (Store, Reply)
    requires ItemsOk(g, st.items) && |env.memory| == g.quantum
  {
    var (st', r) := if d == Scull then ScullWrite(g, st, pos, data, env) else ScullcWrite(g, st, pos, data, env);
    (st', Reply(r, []))
  }

  /** One call of either driver. */
  function Answer(g: Shape, d: Driver, st: Store, c: Call): (Store, Reply)
    requires ItemsOk(g, st.items) && CallOk(g, c)
  {
    match c
    case Read(pos, count, env) => AnswerRead(g, d, st, pos, count, env)
    case Write(pos, data, env) => AnswerWrite(g, d, st, pos, data, env)
    case Open(writeOnly, signal) =>
      if !writeOnly then (st, Reply(Done(0), []))
      else if signal then (st, Reply(Interrupted, []))
      else (Fresh(d), Reply(Done(0), []))
  }

  /** What a read does, on either driver. */
  ghost predicate ReadEffect(g: Shape, st: Store, st': Store, pos: nat, count: nat, env: Env, reply: Reply) {
    && Valid(g, st') && SameBytes(g, st, st') && st'.size == st.size
    && ReadsBytes(g, st, pos, reply.out)
    && (!env.signal && env.fault == None ==>
          && reply.result == Done(|reply.out|)
          && |reply.out| == ReadLength(g, st.size, ByteAt(g, st, pos) == None, pos, count))
  }

  lemma ReadAnswered(g: Shape, d: Driver, st: Store, pos: nat, count: nat, env: Env)
    requires Valid(g, st)
    ensures var (st', reply) := AnswerRead(g, d, st, pos, count, env); ReadEffect(g, st, st', pos, count, env, reply)
  {
    hide ScullRead, ScullcRead, Locate;
    ScullReadReadsBytes(g, st, pos, count, env);
    ScullcReadReadsBytes(g, st, pos, count, env);
  }

  /** What a new quantum holds. */
  function Memory(g: Shape, d: Driver, env: Env): seq<Byte> {
    if d == Scull then env.memory else Zeros(g)
  }

  lemma WriteAnswered(g: Shape, d: Driver, st: Store, pos: nat, data: seq<Byte>, env: Env)
    requires Valid(g, st) && EnvOk(g, env)
    ensures var (st', reply) := AnswerWrite(g, d, st, pos, data, env);
            && |Memory(g, d, env)| == g.quantum
            && (env.signal ==> reply.result == Interrupted && st' == st)
            && (!env.signal ==> WriteEffect(g, st, st', reply.result, pos, data, Memory(g, d, env), env.fault))
            && (!env.signal && env.fault == None && Locate(g, pos).item + 3 <= env.budget ==>
                  reply == Reply(Done(Span(g.quantum, pos, |data|)), []))
  {
    hide ScullWrite, ScullcWrite, Locate;
    ScullWriteEffect(g, st, pos, data, env);
    ScullcWriteEffect(g, st, pos, data, env);
  }

  function Observe(g: Shape, c: Call, reply: Reply): seq<Event> {
    match c
    case Read(_, _, _) => []
    case Write(pos, data, _) =>
      if reply.result.Done? && reply.result.count <= |data| then [Stored(pos, data[..reply.result.count])]
      else if reply.result == BadAddress then [Spoiled(pos, Span(g.quantum, pos, |data|))]
      else []
    case Open(writeOnly, _) => if writeOnly && reply.result.Done? then [Trimmed] else []
  }

  function Run(g: Shape, d: Driver, calls: seq<Call>): (s: State)
    requires CallsOk(g, calls)
    ensures Valid(g, s.store) && |s.replies| == |calls|
  {
    if calls == [] then State(Fresh(d), [], [])
    else
      var n := |calls| - 1;
      var s := Run(g, d, calls[..n]);
      var (st, reply) := Answer(g, d, s.store, calls[n]);
      AnswerKeepsValid(g, d, s.store, calls[n]);
      State(st, s.history + Observe(g, calls[n], reply), s.replies + [reply])
  }

  lemma AnswerKeepsValid(g: Shape, d: Driver, st: Store, c: Call)
    requires Valid(g, st) && CallOk(g, c)
    ensures Valid(g, Answer(g, d, st, c).0)
  {
    hide AnswerRead, AnswerWrite;
    match c
    case Read(pos, count, env) => ReadAnswered(g, d, st, pos, count, env);
    case Write(pos, data, env) => WriteAnswered(g, d, st, pos, data, env);
    case Open(_, _) =>
  }

  // ------------------------------------------------------------------ what the history says

  /** The size: the furthest end of a write since the last trim. */
  function SizeOf(h: History): nat {
    if h == [] then 0
    else
      var n := |h| - 1;
      match h[n]
      case Stored(pos, bytes) => Max(SizeOf(h[..n]), pos + |bytes|)
      case Spoiled(_, _) => SizeOf(h[..n])
      case Trimmed => 0
  }

  /** The byte last written at a position since the last trim, if a write has covered it and
      no failed copy has since. `blank` is what a position holds before any write. */
  function LastWritten(h: History, p: nat, blank: Option<Byte>): Option<Byte> {
    if h == [] then blank
    else
      var n := |h| - 1;
      match h[n]
      case Stored(pos, bytes) =>
        if pos <= p < pos + |bytes| then Some(bytes[p - pos]) else LastWritten(h[..n], p, blank)
      case Spoiled(pos, count) => if pos <= p < pos + count then None else LastWritten(h[..n], p, blank)
      case Trimmed => blank
  }

  /** Whether a write has reached a quantum since the last trim. */
  function Touched(g: Shape, h: History, quantum: nat): bool {
    if h == [] then false
    else
      var n := |h| - 1;
      match h[n]
      case Stored(pos, _) => pos / g.quantum == quantum || Touched(g, h[..n], quantum)
      case Spoiled(pos, _) => pos / g.quantum == quantum || Touched(g, h[..n], quantum)
      case Trimmed => false
  }

  /** What an unwritten byte of an allocated quantum is known to be: scullc clears its
      quanta, scull does not. */
  function Blank(d: Driver): Option<Byte> {
    if d == Scull then None else Some(0)
  }

  /** A store and a history tell the same story. */
  ghost predicate Agrees(g: Shape, d: Driver, st: Store, h: History) {
    && st.size == SizeOf(h)
    && forall p: nat :: AgreesAt(g, d, st, h, p)
  }

  ghost predicate AgreesAt(g: Shape, d: Driver, st: Store, h: History, p: nat) {
    && (ByteAt(g, st, p).Some? <==> Touched(g, h, p / g.quantum))
    && (Touched(g, h, p / g.quantum) && LastWritten(h, p, Blank(d)).Some? ==>
          ByteAt(g, st, p) == LastWritten(h, p, Blank(d)))
  }

  lemma FreshAgrees(g: Shape, d: Driver)
    ensures Agrees(g, d, Fresh(d), [])
    ensures forall h: History :: Agrees(g, d, Fresh(d), h + [Trimmed])
  {
    forall h: History
      ensures Agrees(g, d, Fresh(d), h + [Trimmed])
    {
    }
  }

  lemma UnchangedAgrees(g: Shape, d: Driver, st: Store, st': Store, h: History)
    requires Agrees(g, d, st, h) && SameBytes(g, st, st') && st'.size == st.size
    ensures Agrees(g, d, st', h)
  {
    forall p: nat
      ensures AgreesAt(g, d, st', h, p)
    {
      assert AgreesAt(g, d, st, h, p) && ByteAt(g, st', p) == ByteAt(g, st, p);
    }
  }

  lemma StoredAgrees(g: Shape, d: Driver, st: Store, st': Store, h: History, pos: nat, bytes: seq<Byte>,
                     memory: seq<Byte>)
    requires Agrees(g, d, st, h) && HistoryOk(g, h)
    requires |memory| == g.quantum && (d == Scullc ==> memory == Zeros(g))
    requires |bytes| <= g.quantum - pos % g.quantum
    requires st'.size == Max(st.size, pos + |bytes|)
    requires forall p: nat :: ByteAt(g, st', p) == Written(g, st, pos, bytes, memory, p)
    ensures Agrees(g, d, st', h + [Stored(pos, bytes)])
  {
    var h' := h + [Stored(pos, bytes)];
    assert h'[..|h|] == h;
    forall p: nat
      ensures AgreesAt(g, d, st', h', p)
    {
      assert AgreesAt(g, d, st, h, p) && ByteAt(g, st', p) == Written(g, st, pos, bytes, memory, p);
      if pos <= p < pos + |bytes| {
        WithinQuantum(g, pos, p);
      }
      UntouchedIsBlank(g, h, p, Blank(d));
    }
  }

  /** Nothing was written in a quantum no write has reached. */
  lemma {:induction false} UntouchedIsBlank(g: Shape, h: History, p: nat, blank: Option<Byte>)
    requires HistoryOk(g, h)
    ensures !Touched(g, h, p / g.quantum) ==> LastWritten(h, p, blank) == blank
  {
    if h != [] {
      var n := |h| - 1;
      UntouchedIsBlank(g, h[..n], p, blank);
      if h[n] != Trimmed {
        assert EventOk(g, h[n]);
        if h[n].pos <= p < h[n].pos + (g.quantum - h[n].pos % g.quantum) {
          WithinQuantum(g, h[n].pos, p);
        }
      }
    }
  }

  ghost predicate EventOk(g: Shape, e: Event) {
    match e
    case Stored(pos, bytes) => |bytes| <= g.quantum - pos % g.quantum
    case Spoiled(pos, count) => count <= g.quantum - pos % g.quantum
    case Trimmed => true
  }

  /** No write goes beyond its quantum. */
  ghost predicate HistoryOk(g: Shape, h: History) {
    forall i :: 0 <= i < |h| ==> EventOk(g, h[i])
  }

  lemma SpoiledAgrees(g: Shape, d: Driver, st: Store, st': Store, h: History, pos: nat, reached: seq<Byte>,
                      count: nat, memory: seq<Byte>)
    requires Agrees(g, d, st, h) && HistoryOk(g, h)
    requires |memory| == g.quantum && (d == Scullc ==> memory == Zeros(g))
    requires |reached| <= count <= g.quantum - pos % g.quantum
    requires st'.size == st.size
    requires forall p: nat :: ByteAt(g, st', p) == Written(g, st, pos, reached, memory, p)
    ensures Agrees(g, d, st', h + [Spoiled(pos, count)])
  {
    var h' := h + [Spoiled(pos, count)];
    assert h'[..|h|] == h;
    forall p: nat
      ensures AgreesAt(g, d, st', h', p)
    {
      assert AgreesAt(g, d, st, h, p) && ByteAt(g, st', p) == Written(g, st, pos, reached, memory, p);
      if pos <= p < pos + count {
        WithinQuantum(g, pos, p);
      }
      UntouchedIsBlank(g, h, p, Blank(d));
    }
  }

  lemma WriteAgrees(g: Shape, d: Driver, st: Store, st': Store, r: Result, h: History, pos: nat, data: seq<Byte>,
                    memory: seq<Byte>, fault: Option<seq<Byte>>)
    requires Agrees(g, d, st, h) && HistoryOk(g, h)
    requires |memory| == g.quantum && (d == Scullc ==> memory == Zeros(g))
    requires WriteEffect(g, st, st', r, pos, data, memory, fault)
    ensures var h' := h + (match r case Done(n) => [Stored(pos, data[..n])]
                                   case BadAddress => [Spoiled(pos, Span(g.quantum, pos, |data|))]
                                   case _ => []);
            Agrees(g, d, st', h') && HistoryOk(g, h')
  {
    match r
    case Done(n) => StoredAgrees(g, d, st, st', h, pos, data[..n], memory);
    case BadAddress =>
      SpoiledAgrees(g, d, st, st', h, pos, fault.value[..Min(|fault.value|, Span(g.quantum, pos, |data|))],
                    Span(g.quantum, pos, |data|), memory);
    case NoMemory =>
      UnchangedAgrees(g, d, st, st', h);
      assert h + [] == h;
    case _ =>
  }

  lemma AnswerAgrees(g: Shape, d: Driver, st: Store, h: History, c: Call)
    requires Valid(g, st) && CallOk(g, c) && Agrees(g, d, st, h) && HistoryOk(g, h)
    ensures var (st', reply) := Answer(g, d, st, c);
            Agrees(g, d, st', h + Observe(g, c, reply)) && HistoryOk(g, h + Observe(g, c, reply))
  {
    hide AnswerRead, AnswerWrite, Locate;
    var (st', reply) := Answer(g, d, st, c);
    match c
    case Read(pos, count, env) =>
      ReadAnswered(g, d, st, pos, count, env);
      UnchangedAgrees(g, d, st, st', h);
      assert h + Observe(g, c, reply) == h;
    case Write(pos, data, env) =>
      WriteAnswered(g, d, st, pos, data, env);
      if env.signal {
        assert h + Observe(g, c, reply) == h;
      } else {
        WriteAgrees(g, d, st, st', reply.result, h, pos, data, Memory(g, d, env), env.fault);
      }
    case Open(writeOnly, signal) =>
      FreshAgrees(g, d);
      assert h + [] == h;
  }

  /** Refinement: after any run, whatever allocations, copies and waits failed in it, the
      store holds what the calls and their results say it must. */
  lemma {:induction false} RunAgrees(g: Shape, d: Driver, calls: seq<Call>)
    requires CallsOk(g, calls)
    ensures var s := Run(g, d, calls); Agrees(g, d, s.store, s.history) && HistoryOk(g, s.history)
  {
    if calls == [] {
      FreshAgrees(g, d);
    } else {
      var n := |calls| - 1;
      RunAgrees(g, d, calls[..n]);
      AnswerAgrees(g, d, Run(g, d, calls[..n]).store, Run(g, d, calls[..n]).history, calls[n]);
    }
  }

  /** A reply to an untroubled read that a history accounts for: nothing at or past the size
      or in a quantum no write has reached, otherwise as much as was asked for up to the
      size and the end of the quantum, and at every written position the last byte written
      there. */
  ghost predicate ReadAccountedFor(g: Shape, d: Driver, h: History, pos: nat, count: nat, reply: Reply) {
    && reply.result == Done(|reply.out|)
    && |reply.out| == ReadLength(g, SizeOf(h), !Touched(g, h, pos / g.quantum), pos, count)
    && forall i :: 0 <= i < |reply.out| && LastWritten(h, pos + i, Blank(d)).Some? ==>
         LastWritten(h, pos + i, Blank(d)) == Some(reply.out[i])
  }

  lemma ReadAgrees(g: Shape, d: Driver, st: Store, h: History, pos: nat, count: nat, env: Env)
    requires Valid(g, st) && !env.signal && env.fault == None && Agrees(g, d, st, h)
    ensures ReadAccountedFor(g, d, h, pos, count, AnswerRead(g, d, st, pos, count, env).1)
  {
    hide AnswerRead, Locate;
    var reply := AnswerRead(g, d, st, pos, count, env).1;
    assert AgreesAt(g, d, st, h, pos);
    ReadAnswered(g, d, st, pos, count, env);
    BytesAgree(g, d, st, h, pos, reply.out);
  }

  lemma BytesAgree(g: Shape, d: Driver, st: Store, h: History, pos: nat, out: seq<Byte>)
    requires Agrees(g, d, st, h) && ReadsBytes(g, st, pos, out)
    ensures forall i :: 0 <= i < |out| && LastWritten(h, pos + i, Blank(d)).Some? ==>
              LastWritten(h, pos + i, Blank(d)) == Some(out[i])
  {
    forall i | 0 <= i < |out| && LastWritten(h, pos + i, Blank(d)).Some?
      ensures LastWritten(h, pos + i, Blank(d)) == Some(out[i])
    {
      assert AgreesAt(g, d, st, h, pos + i);
      assert ByteAt(g, st, pos + i) == Some(out[i]);
    }
  }

  /** After any run of calls, whatever failures they met, a read returns what the history
      promises. */
  lemma ReadReturnsLastWritten(g: Shape, d: Driver, calls: seq<Call>, pos: nat, count: nat, env: Env)
    requires CallsOk(g, calls) && !env.signal && env.fault == None
    ensures ReadAccountedFor(g, d, Run(g, d, calls).history, pos, count,
                             AnswerRead(g, d, Run(g, d, calls).store, pos, count, env).1)
  {
    RunAgrees(g, d, calls);
    ReadAgrees(g, d, Run(g, d, calls).store, Run(g, d, calls).history, pos, count, env);
  }

  // ------------------------------------------------------------------ the two drivers

  /** A call that meets no signal, no failed copy and enough memory. */
  ghost predicate Untroubled(g: Shape, c: Call) {
    match c
    case Read(_, _, env) => !env.signal && env.fault == None
    case Write(pos, _, env) => !env.signal && env.fault == None && env.budget >= Locate(g, pos).item + 3
    case Open(_, signal) => !signal
  }

  /** Two replies a caller could not tell apart, at the positions it has written. */
  ghost predicate Alike(h: History, c: Call, a: Reply, b: Reply) {
    && a.result == b.result && |a.out| == |b.out|
    && (c.Read? ==> forall i :: 0 <= i < |a.out| && LastWritten(h, c.pos + i, None).Some? ==> a.out[i] == b.out[i])
  }

  /** A byte the history knows without the zero fill, it knows with it. */
  lemma {:induction false} WrittenWithBlank(h: History, p: nat, blank: Option<Byte>)
    ensures LastWritten(h, p, None).Some? ==> LastWritten(h, p, blank) == LastWritten(h, p, None)
  {
    if h != [] {
      WrittenWithBlank(h[..|h| - 1], p, blank);
    }
  }

  lemma AnswersAlike(g: Shape, scull: Store, scullc: Store, h: History, c: Call)
    requires Valid(g, scull) && Valid(g, scullc) && CallOk(g, c) && Untroubled(g, c)
    requires Agrees(g, Scull, scull, h) && Agrees(g, Scullc, scullc, h)
    ensures Alike(h, c, Answer(g, Scull, scull, c).1, Answer(g, Scullc, scullc, c).1)
    ensures Observe(g, c, Answer(g, Scull, scull, c).1) == Observe(g, c, Answer(g, Scullc, scullc, c).1)
  {
    hide AnswerRead, AnswerWrite, Locate;
    match c
    case Read(pos, count, env) =>
      assert AgreesAt(g, Scull, scull, h, pos) && AgreesAt(g, Scullc, scullc, h, pos);
      ReadAnswered(g, Scull, scull, pos, count, env);
      ReadAnswered(g, Scullc, scullc, pos, count, env);
      SameBytesRead(g, scull, scullc, h, pos,
                    AnswerRead(g, Scull, scull, pos, count, env).1.out,
                    AnswerRead(g, Scullc, scullc, pos, count, env).1.out);
    case Write(pos, data, env) =>
      WriteAnswered(g, Scull, scull, pos, data, env);
      WriteAnswered(g, Scullc, scullc, pos, data, env);
    case Open(_, _) =>
  }

  lemma SameBytesRead(g: Shape, scull: Store, scullc: Store, h: History, pos: nat, a: seq<Byte>, b: seq<Byte>)
    requires Agrees(g, Scull, scull, h) && Agrees(g, Scullc, scullc, h)
    requires ReadsBytes(g, scull, pos, a) && ReadsBytes(g, scullc, pos, b) && |a| == |b|
    ensures forall i :: 0 <= i < |a| && LastWritten(h, pos + i, None).Some? ==> a[i] == b[i]
  {
    forall i | 0 <= i < |a| && LastWritten(h, pos + i, None).Some?
      ensures a[i] == b[i]
    {
      WrittenWithBlank(h, pos + i, Some(0));
      assert AgreesAt(g, Scull, scull, h, pos + i) && AgreesAt(g, Scullc, scullc, h, pos + i);
      assert ByteAt(g, scull, pos + i) == Some(a[i]) && ByteAt(g, scullc, pos + i) == Some(b[i]);
    }
  }

  ghost predicate AllUntroubled(g: Shape, calls: seq<Call>) {
    forall i :: 0 <= i < |calls| ==> Untroubled(g, calls[i])
  }

  lemma {:induction false} SameHistory(g: Shape, calls: seq<Call>)
    requires CallsOk(g, calls) && AllUntroubled(g, calls)
    ensures Run(g, Scull, calls).history == Run(g, Scullc, calls).history
  {
    if calls != [] {
      SameHistory(g, calls[..|calls| - 1]);
      LastAlike(g, calls);
    }
  }

  lemma LastAlike(g: Shape, calls: seq<Call>)
    requires CallsOk(g, calls) && AllUntroubled(g, calls) && calls != []
    requires Run(g, Scull, calls[..|calls| - 1]).history == Run(g, Scullc, calls[..|calls| - 1]).history
    ensures Run(g, Scull, calls).history == Run(g, Scullc, calls).history
    ensures var n := |calls| - 1;
            Alike(Run(g, Scull, calls[..n]).history, calls[n],
                  Run(g, Scull, calls).replies[n], Run(g, Scullc, calls).replies[n])
  {
    hide Answer, Observe, Alike;
    var front := calls[..|calls| - 1];
    RunAgrees(g, Scull, front);
    RunAgrees(g, Scullc, front);
    AnswersAlike(g, Run(g, Scull, front).store, Run(g, Scullc, front).store, Run(g, Scull, front).history,
                 calls[|calls| - 1]);
  }

  /** Later calls do not change earlier replies. */
  lemma {:induction false} RepliesStand(g: Shape, d: Driver, calls: seq<Call>, i: nat)
    requires CallsOk(g, calls) && i < |calls|
    ensures Run(g, d, calls).replies[i] == Run(g, d, calls[..i + 1]).replies[i]
  {
    hide Answer, Observe, Valid;
    if i < |calls| - 1 {
      RepliesStand(g, d, calls[..|calls| - 1], i);
      assert calls[..|calls| - 1][..i + 1] == calls[..i + 1];
    } else {
      assert calls[..i + 1] == calls;
    }
  }

  /** scull and scullc are observationally equivalent: given the same calls and no failures
      they give the same results, keep the same size, and return the same bytes at every
      written position - although one may keep an extra empty item and the other shows
      whatever its allocator left in unwritten bytes. */
  lemma DriversAreEquivalent(g: Shape, calls: seq<Call>)
    requires CallsOk(g, calls) && AllUntroubled(g, calls)
    ensures Run(g, Scull, calls).store.size == Run(g, Scullc, calls).store.size
    ensures forall i :: 0 <= i < |calls| ==>
              Alike(Run(g, Scull, calls[..i]).history, calls[i],
                    Run(g, Scull, calls).replies[i], Run(g, Scullc, calls).replies[i])
  {
    SameHistory(g, calls);
    RunAgrees(g, Scull, calls);
    RunAgrees(g, Scullc, calls);
    forall i | 0 <= i < |calls|
      ensures Alike(Run(g, Scull, calls[..i]).history, calls[i],
                    Run(g, Scull, calls).replies[i], Run(g, Scullc, calls).replies[i])
    {
      AlikeAt(g, calls, i);
    }
  }

  lemma AlikeAt(g: Shape, calls: seq<Call>, i: nat)
    requires CallsOk(g, calls) && AllUntroubled(g, calls) && i < |calls|
    ensures Alike(Run(g, Scull, calls[..i]).history, calls[i],
                  Run(g, Scull, calls).replies[i], Run(g, Scullc, calls).replies[i])
  {
    hide Answer, Observe, Valid, Alike;
    var upTo := calls[..i + 1];
    assert upTo[..i] == calls[..i] && upTo[i] == calls[i];
    SameHistory(g, calls[..i]);
    LastAlike(g, upTo);
    RepliesStand(g, Scull, calls, i);
    RepliesStand(g, Scullc, calls, i);
  }

  // ------------------------------------------------------------------ a read that allocates

  /** With one byte in an item, a byte written to scullc and then a read at the end of the
      file: the read returns nothing and the list has grown. scull's has not. */
  lemma AReadGainsAnItem(memory: seq<Byte>) returns (g: Shape, calls: seq<Call>)
    requires |memory| == 1
    ensures CallsOk(g, calls) && |calls| == 2 && calls[1].Read?
    ensures Run(g, Scullc, calls).replies[1] == Run(g, Scull, calls).replies[1] == Reply(Done(0), [])
    ensures |Run(g, Scullc, calls).store.items| == |Run(g, Scullc, calls[..1]).store.items| + 1
    ensures Run(g, Scull, calls).store == Run(g, Scull, calls[..1]).store
  {
    hide Run, Answer;
    g := Shape(1, 1);
    var env := Env(false, 3, memory, None);
    calls := [Write(0, [7], env), Read(1, 1, env)];
    assert calls == calls[..1] + [calls[1]] && calls[..1] == [] + [calls[0]];
    forall d: Driver
      ensures var st := Run(g, d, calls[..1]).store;
              Run(g, d, calls).replies[1] == AnswerRead(g, d, st, 1, 1, env).1
              && Run(g, d, calls).store == AnswerRead(g, d, st, 1, 1, env).0
              && |st.items| == 1 && st.size == 1
    {
      RunMore(g, d, [], calls[0]);
      RunMore(g, d, calls[..1], calls[1]);
      OneItem(g, d, env);
      AnswersTo(g, d, Run(g, d, []).store, calls[0]);
      AnswersTo(g, d, Run(g, d, calls[..1]).store, calls[1]);
    }
    ReadAtOne(g, Run(g, Scull, calls[..1]).store, Run(g, Scullc, calls[..1]).store, env);
  }

  /** Reads at the end of a file of one byte. */
  lemma ReadAtOne(g: Shape, a: Store, b: Store, env: Env)
    requires g == Shape(1, 1) && !env.signal && env.fault == None && Valid(g, a) && Valid(g, b)
    requires a.size == b.size == 1 && |b.items| == 1
    ensures AnswerRead(g, Scull, a, 1, 1, env) == (a, Reply(Done(0), []))
    ensures AnswerRead(g, Scullc, b, 1, 1, env) == (b.(items := b.items + [None]), Reply(Done(0), []))
  {
    hide ScullRead, ScullcRead, Locate;
    UnitShape(1);
    ScullReadReadsBytes(g, a, 1, 1, env);
    ScullcReadReadsBytes(g, b, 1, 1, env);
  }

  lemma AnswersTo(g: Shape, d: Driver, st: Store, c: Call)
    requires ItemsOk(g, st.items) && CallOk(g, c)
    ensures c.Read? ==> Answer(g, d, st, c) == AnswerRead(g, d, st, c.pos, c.count, c.env)
    ensures c.Write? ==> Answer(g, d, st, c) == AnswerWrite(g, d, st, c.pos, c.data, c.env)
  {
  }

  lemma RunMore(g: Shape, d: Driver, calls: seq<Call>, c: Call)
    requires CallsOk(g, calls) && CallOk(g, c)
    ensures CallsOk(g, calls + [c]) && (calls == [] ==> Run(g, d, calls).store == Fresh(d))
    ensures var s, s' := Run(g, d, calls), Run(g, d, calls + [c]);
            (s'.store, s'.replies) == (Answer(g, d, s.store, c).0, s.replies + [Answer(g, d, s.store, c).1])
  {
    hide Answer, Observe;
    assert (calls + [c])[..|calls|] == calls;
  }

  lemma UnitShape(p: nat)
    ensures Locate(Shape(1, 1), p) == Place(p, 0, 0)
  {
    LocateInvertsPosition(Shape(1, 1), Place(p, 0, 0));
  }

  lemma OneItem(g: Shape, d: Driver, env: Env)
    requires g == Shape(1, 1) && !env.signal && env.budget == 3 && env.fault == None && |env.memory| == 1
    ensures |AnswerWrite(g, d, Fresh(d), 0, [7], env).0.items| == 1
    ensures AnswerWrite(g, d, Fresh(d), 0, [7], env).0.size == 1
  {
    UnitShape(0);
    WriteAnswered(g, d, Fresh(d), 0, [7], env);
    FollowGrows(Fresh(d).items, 0, 3);
    FollowGrows(Fresh(d).items, 0, 1);
    hide Locate;
  }
}
