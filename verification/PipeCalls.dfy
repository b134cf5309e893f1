/** What the calls of PipeProtocol give back: when each of them returns and with what, that it
    does so once, and what a call does that nobody interferes with. */
module PipeCalls {
  import opened Common
  import opened PipeRing
  import opened PipeProtocol
  import opened PipeSafety
  import opened PipeWakeups

  // ------------------------------------------------------------- who is on a queue

  ghost predicate ReadWaits(pc: Pc) {
    pc.Reading? && (pc.r.RLoad? || pc.r.RCompare? || pc.r.REnqueue? || pc.r.RSleep?)
  }

  ghost predicate WriteWaits(pc: Pc) {
    pc.Writing? && (pc.w.WEnqueue? || pc.w.WLoad? || pc.w.WCompare? || pc.w.WSleep?)
  }

  /** A task is on a queue only while it waits, and waits only in a call that may block. */
  ghost predicate QueuedOk(s: Pipe, t: Task) {
    && (t in s.inq ==> ReadWaits(At(s, t)))
    && (t in s.outq ==> WriteWaits(At(s, t)))
    && (ReadWaits(At(s, t)) || WriteWaits(At(s, t)) ==> !At(s, t).nonblock)
  }

  ghost predicate AllQueuedOk(s: Pipe) {
    forall t: Task :: QueuedOk(s, t)
  }

  lemma QueuedOkStep(s: Pipe, t: Task, c: Choice)
    requires AllQueuedOk(s)
    ensures AllQueuedOk(Next(s, t, c))
  {
    hide Next;
    NextMoves(s, t, c);
    NextKeepsQueues(s, t, c);
    assert QueuedOk(s, t);
    OwnQueuedOk(s, t, c);
    forall u: Task
      ensures QueuedOk(Next(s, t, c), u)
    {
      assert QueuedOk(s, u);
    }
  }

  lemma OwnQueuedOk(s: Pipe, t: Task, c: Choice)
    requires QueuedOk(s, t)
    ensures QueuedOk(Next(s, t, c), t)
  {
    hide ReadStep, WriteStep, Contents, Unused, NotClosing, Discard;
    if At(s, t).Reading? {
      ReaderQueuedOk(s, t, c);
    } else if At(s, t).Writing? {
      WriterQueuedOk(s, t, c);
    }
  }

  lemma ReaderQueuedOk(s: Pipe, t: Task, c: Choice)
    requires QueuedOk(s, t) && At(s, t).Reading?
    ensures QueuedOk(ReadStep(s, t, c, At(s, t)), t)
  {
    hide CopyOut, Deliver, Wrap, Valid, QueuedOk, ReadWait, ReadTransfer;
    if Transferring(At(s, t)) {
      ReadTransferQueuedOk(s, t, c);
    } else {
      ReadWaitQueuedOk(s, t, c);
    }
  }

  lemma ReadTransferQueuedOk(s: Pipe, t: Task, c: Choice)
    requires QueuedOk(s, t) && At(s, t).Reading? && Transferring(At(s, t))
    ensures QueuedOk(ReadTransfer(s, t, c, At(s, t)), t)
  {
    hide CopyOut, Deliver, Wrap, Valid;
  }

  lemma ReadWaitQueuedOk(s: Pipe, t: Task, c: Choice)
    requires QueuedOk(s, t) && At(s, t).Reading? && !Transferring(At(s, t))
    ensures QueuedOk(ReadWait(s, t, c, At(s, t)), t)
  {
  }

  lemma WriterQueuedOk(s: Pipe, t: Task, c: Choice)
    requires QueuedOk(s, t) && At(s, t).Writing?
    ensures QueuedOk(WriteStep(s, t, c, At(s, t)), t)
  {
    hide QueuedOk, WriteWait, WriteTransfer;
    if Transferring(At(s, t)) {
      WriteTransferQueuedOk(s, t, c);
    } else {
      WriteWaitQueuedOk(s, t, c);
    }
  }

  lemma WriteTransferQueuedOk(s: Pipe, t: Task, c: Choice)
    requires QueuedOk(s, t) && At(s, t).Writing? && Transferring(At(s, t))
    ensures QueuedOk(WriteTransfer(s, t, c, At(s, t)), t)
  {
    hide WriteCount, Overlay, Wrap, Valid;
  }

  lemma WriteWaitQueuedOk(s: Pipe, t: Task, c: Choice)
    requires QueuedOk(s, t) && At(s, t).Writing? && !Transferring(At(s, t))
    ensures QueuedOk(WriteWait(s, t, c, At(s, t)), t)
  {
    hide SpaceFree;
  }

  ghost predicate Orderly(s: Pipe) {
    Safe(s) && AllQueuedOk(s)
  }

  lemma {:induction false} OrderlyRun(size: nat, schedule: Schedule)
    requires 2 <= size
    ensures Orderly(Run(size, schedule)) && Run(size, schedule).size == size
  {
    hide Next, Safe, QueuedOk;
    SafeRun(size, schedule);
    SizeIsFixed(Init(size), schedule);
    if schedule == [] {
      NobodyIsQueued(size);
    } else {
      var n := |schedule| - 1;
      OrderlyRun(size, schedule[..n]);
      QueuedOkStep(Run(size, schedule[..n]), schedule[n].0, schedule[n].1);
    }
  }

  lemma NobodyIsQueued(size: nat)
    ensures AllQueuedOk(Init(size))
  {
  }

  // ------------------------------------------------------------- when calls return

  /** What a step makes the task's call give back, if it ends the call. */
  ghost function Ending(s: Pipe, t: Task, c: Choice): Option<(Result, seq<Byte>)> {
    var pc := At(s, t);
    if c == Signal && Interruptible(pc) then Some((Interrupted, []))
    else if c == Go && Tests(pc) && pc.nonblock && !CanGoOn(s, pc) then Some((TryAgain, []))
    else if c.Fault? && Copies(pc) && (pc.Writing? ==> |c.junk| <= Offered(s, pc)) then Some((BadAddress, []))
    else if c == Go && pc.Reading? && pc.r.RWake? then Some((Done(|pc.r.got|), pc.r.got))
    else if c == Go && pc.Writing? && pc.w.WWake? then Some((Done(pc.w.count), []))
    else if c == AllocFails && pc.OpenAlloc? && s.buffer == None then Some((NoMemory, []))
    else if c.Handle? && pc.OpenCount? && c.file !in s.files then Some((Done(0), []))
    else if c == Go && pc.CloseCount? then Some((Done(0), []))
    else None
  }

  /** down_interruptible and the two sleeps */
  ghost predicate Interruptible(pc: Pc) {
    pc.OpenDown? || (pc.Reading? && (pc.r.RDown? || pc.r.RSleep?)) || (pc.Writing? && (pc.w.WDown? || pc.w.WSleep?))
  }

  ghost predicate Tests(pc: Pc) {
    (pc.Reading? && pc.r.RTest?) || (pc.Writing? && pc.w.WTest?)
  }

  ghost predicate Copies(pc: Pc) {
    (pc.Reading? && pc.r.RCopy?) || (pc.Writing? && pc.w.WCopy?)
  }

  /** There is something to read, or room to write. */
  ghost predicate CanGoOn(s: Pipe, pc: Pc) {
    if pc.Reading? then Contents(s) != [] else |Contents(s)| < s.size - 1
  }

  /** How much of its data a write will take. */
  ghost function Offered(s: Pipe, pc: Pc): int
    requires pc.Writing?
  {
    if s.buffer.Some? && Valid(RingOf(s)) then WriteCount(RingOf(s), |pc.data|) else 0
  }

  ghost predicate Waits(pc: Pc) {
    ReadWaits(pc) || WriteWaits(pc)
  }

  /** What a step of t, in some call, does to that call. */
  ghost predicate Answers(s: Pipe, t: Task, c: Choice, s': Pipe) {
    var pc, pc', e := At(s, t), At(s', t), Ending(s, t, c);
    && (pc' == Idle <==> e.Some?)
    && (e.None? ==> CallOf(pc') == CallOf(pc))
    && s'.returned == s.returned + (if e.None? then [] else [Return(t, CallOf(pc), e.value.0, e.value.1)])
    && (e.Some? && !e.value.0.Done? ==>
          (s'.accepted, s'.taken, s'.nreaders, s'.nwriters, s'.woken)
          == (s.accepted, s.taken, s.nreaders, s.nwriters, s.woken))
    && s'.files == (if e.None? then s.files
                    else if pc.OpenCount? then s.files[c.file := pc.mode]
                    else if pc.CloseCount? then s.files - {pc.file}
                    else s.files)
    && (Tests(pc) && c == Go ==>
          && (Copies(pc') <==> CanGoOn(s, pc))
          && (Waits(pc') <==> !CanGoOn(s, pc) && !pc.nonblock))
  }

  lemma AnswersStep(s: Pipe, t: Task, c: Choice)
    requires Orderly(s) && At(s, t) != Idle
    ensures Answers(s, t, c, Next(s, t, c))
  {
    hide Safe, QueuedOk, ReadStep, WriteStep, OpenStep, CloseStep, Answers;
    if At(s, t).Reading? {
      ReadAnswers(s, t, c);
    } else if At(s, t).Writing? {
      WriteAnswers(s, t, c);
    } else if Closing(At(s, t)) {
      CloseAnswers(s, t, c);
    } else {
      OpenAnswers(s, t, c);
    }
  }

  lemma OpenAnswers(s: Pipe, t: Task, c: Choice)
    requires At(s, t).OpenDown? || At(s, t).OpenAlloc? || At(s, t).OpenRp? || At(s, t).OpenCount?
    ensures Answers(s, t, c, OpenStep(s, t, c, At(s, t)))
  {
    hide Contents, Discard;
  }

  lemma CloseAnswers(s: Pipe, t: Task, c: Choice)
    requires Safe(s) && Closing(At(s, t))
    ensures Answers(s, t, c, CloseStep(s, t, c, At(s, t)))
  {
    assert CallOk(s, t);
    hide Contents, Discard, Safe, CallOk, CanGoOn, Offered;
  }

  lemma ReadAnswers(s: Pipe, t: Task, c: Choice)
    requires Safe(s) && At(s, t).Reading?
    ensures Answers(s, t, c, ReadStep(s, t, c, At(s, t)))
  {
    hide ReadWait, ReadTransfer, Answers;
    if Tests(At(s, t)) {
      TestMeansEmpty(s, t);
    }
    hide Safe;
    if Transferring(At(s, t)) {
      ReadTransferAnswers(s, t, c);
    } else {
      ReadWaitAnswers(s, t, c);
    }
  }

  /** Inside, before it has done anything, a task sees the ring as it is. */
  lemma InsideSees(s: Pipe, t: Task)
    requires Safe(s) && (Tests(At(s, t)) || Copies(At(s, t)))
    ensures s.sem == Some(t) && s.buffer.Some? && Valid(RingOf(s)) && |s.buffer.value| == s.size
    ensures Contents(s) == Queue(RingOf(s))
  {
    assert InCritical(At(s, t)) <==> s.sem == Some(t);
    hide Queue, CallOk, Counted, Conserved;
  }

  lemma TestMeansEmpty(s: Pipe, t: Task)
    requires Safe(s) && Tests(At(s, t))
    ensures s.rp == s.wp <==> Contents(s) == []
    ensures Measurable(s, s.rp) && (SpaceFree(s.rp, s.wp, s.size) == 0 <==> |Contents(s)| == s.size - 1)
    ensures |Contents(s)| <= s.size - 1
  {
    InsideSees(s, t);
    SpaceIsComplement(RingOf(s));
    hide Safe, Queue, SpaceFree;
  }

  lemma ReadWaitAnswers(s: Pipe, t: Task, c: Choice)
    requires At(s, t).Reading? && !Transferring(At(s, t))
    requires Tests(At(s, t)) ==> (s.rp == s.wp <==> Contents(s) == [])
    ensures Answers(s, t, c, ReadWait(s, t, c, At(s, t)))
  {
    hide Contents;
  }

  lemma ReadTransferAnswers(s: Pipe, t: Task, c: Choice)
    requires At(s, t).Reading? && Transferring(At(s, t))
    ensures Answers(s, t, c, ReadTransfer(s, t, c, At(s, t)))
  {
    hide Contents, CopyOut, Valid, Wrap, Deliver, CanGoOn, Offered, Waits;
  }

  lemma WriteAnswers(s: Pipe, t: Task, c: Choice)
    requires Safe(s) && At(s, t).Writing?
    ensures Answers(s, t, c, WriteStep(s, t, c, At(s, t)))
  {
    hide WriteWait, WriteTransfer, Answers;
    if Tests(At(s, t)) {
      TestMeansEmpty(s, t);
    }
    if At(s, t).w.WCopy? {
      CopyOffers(s, t);
    }
    hide Safe;
    if Transferring(At(s, t)) {
      WriteTransferAnswers(s, t, c);
    } else {
      WriteWaitAnswers(s, t, c);
    }
  }

  lemma CopyOffers(s: Pipe, t: Task)
    requires Safe(s) && At(s, t).Writing? && At(s, t).w.WCopy?
    ensures s.buffer.Some? && Valid(RingOf(s)) && |s.buffer.value| == s.size
    ensures 0 <= Offered(s, At(s, t)) <= |At(s, t).data| && s.wp + Offered(s, At(s, t)) <= s.size
  {
    InsideSees(s, t);
    WriteProgress(RingOf(s), |At(s, t).data|);
    hide Queue, SpaceFree, WriteCount, CallOk, Counted, Conserved;
  }

  lemma WriteWaitAnswers(s: Pipe, t: Task, c: Choice)
    requires At(s, t).Writing? && !Transferring(At(s, t))
    requires Tests(At(s, t)) ==>
               && Measurable(s, s.rp) && (SpaceFree(s.rp, s.wp, s.size) == 0 <==> |Contents(s)| == s.size - 1)
               && |Contents(s)| <= s.size - 1
    ensures Answers(s, t, c, WriteWait(s, t, c, At(s, t)))
  {
    hide Contents, SpaceFree, Offered;
  }

  lemma WriteTransferAnswers(s: Pipe, t: Task, c: Choice)
    requires At(s, t).Writing? && Transferring(At(s, t))
    requires At(s, t).w.WCopy? ==>
               && s.buffer.Some? && Valid(RingOf(s)) && |s.buffer.value| == s.size
               && 0 <= Offered(s, At(s, t)) <= |At(s, t).data| && s.wp + Offered(s, At(s, t)) <= s.size
    ensures Answers(s, t, c, WriteTransfer(s, t, c, At(s, t)))
  {
    hide Contents, WriteCount, Wrap;
  }

  /** In every run a call ends, by a step of its task, if and only if one of these happens, and
      gives back what is said of it there: a signal, where it waits for the semaphore or sleeps;
      -EAGAIN, if it must not block and finds nothing to read, or no room; -EFAULT, if its copy
      fails; the bytes moved, once it has woken the other side; for an open, no memory, or a new
      handle; for a close, the handle gone. A call that fails moves no byte and no handle. A test
      leads on to the copy if and only if there is something to read, or room, and to a wait if
      and only if there is not and the call may block. */
  lemma WhatCallsReturn(size: nat, schedule: Schedule, t: Task, c: Choice)
    requires 2 <= size && At(Run(size, schedule), t) != Idle
    ensures Answers(Run(size, schedule), t, c, Next(Run(size, schedule), t, c))
  {
    hide Next, Answers;
    OrderlyRun(size, schedule);
    AnswersStep(Run(size, schedule), t, c);
  }

  /** In every run a task waits only in a call that may block, and is on a queue only while it
      waits. */
  lemma OnlyBlockingCallsWait(size: nat, schedule: Schedule, t: Task)
    requires 2 <= size
    ensures var s := Run(size, schedule);
            && (t in s.inq ==> ReadWaits(At(s, t))) && (t in s.outq ==> WriteWaits(At(s, t)))
            && (Waits(At(s, t)) ==> !At(s, t).nonblock)
  {
    hide Next, Safe;
    OrderlyRun(size, schedule);
    assert QueuedOk(Run(size, schedule), t);
  }

  // ------------------------------------------------------------- how much they move

  /** In every run the bytes a read has copied are the front of the ring, and its next step
      takes just these: as many as it wants, or all there are, or all up to the end of the
      array. */
  lemma WhatAReadTakes(size: nat, schedule: Schedule, t: Task)
    requires 2 <= size && At(Run(size, schedule), t).Reading? && At(Run(size, schedule), t).r.RAdvance?
    ensures var s, s' := Run(size, schedule), Next(Run(size, schedule), t, Go);
            var got, want := At(s, t).r.got, At(s, t).want;
            && s'.taken == s.taken + Deliver(got) && At(s', t) == At(s, t).(r := RWrap(got))
            && Contents(s) == got + Contents(s')
            && |got| <= want && (want > 0 ==> got != [])
            && (|got| == want || Contents(s') == [] || s.rp + |got| == size)
  {
    hide Queue, Next, RunFrom, Safe;
    OrderlyRun(size, schedule);
    Takes(Run(size, schedule), t);
    NextIsTransfer(Run(size, schedule), t);
  }

  lemma NextIsTransfer(s: Pipe, t: Task)
    requires Transferring(At(s, t))
    ensures Next(s, t, Go) == if At(s, t).Reading? then ReadTransfer(s, t, Go, At(s, t))
                              else WriteTransfer(s, t, Go, At(s, t))
  {
    hide ReadTransfer, WriteTransfer;
  }

  /** A reader about to advance knows what it has. */
  lemma AdvancingSees(s: Pipe, t: Task)
    requires Safe(s) && At(s, t).Reading? && At(s, t).r.RAdvance?
    ensures s.sem == Some(t) && s.buffer.Some? && Valid(RingOf(s)) && |s.buffer.value| == s.size
    ensures Contents(s) == Queue(RingOf(s)) && s.rp != s.wp
    ensures var got := At(s, t).r.got;
            && |got| == ReadCount(RingOf(s), At(s, t).want)
            && s.rp + |got| <= s.size && got == s.buffer.value[s.rp..s.rp + |got|]
  {
    assert InCritical(At(s, t)) <==> s.sem == Some(t);
    hide Queue, CallOk, Counted, Conserved;
  }

  lemma Takes(s: Pipe, t: Task)
    requires Safe(s) && At(s, t).Reading? && At(s, t).r.RAdvance?
    ensures var s' := ReadTransfer(s, t, Go, At(s, t));
            var got, want := At(s, t).r.got, At(s, t).want;
            && s'.taken == s.taken + Deliver(got) && At(s', t) == At(s, t).(r := RWrap(got))
            && Contents(s) == got + Contents(s')
            && |got| <= want && (want > 0 ==> got != [])
            && (|got| == want || Contents(s') == [] || s.rp + |got| == s.size)
  {
    AdvancingSees(s, t);
    hide Safe, Queue, Deliver, Contents;
    var got := At(s, t).r.got;
    var after := AfterRead(RingOf(s), |got|);
    ReadTakesFront(RingOf(s), |got|);
    SpaceIsComplement(after);
    ContentsAre(ReadTransfer(s, t, Go, At(s, t)), after);
  }

  lemma ContentsAre(s: Pipe, r: Ring)
    requires s.buffer == Some(r.buf) && |r.buf| == s.size && Valid(r)
    requires Wrap(s.rp, s.size) == r.rp && Wrap(s.wp, s.size) == r.wp && !Holder(s).OpenRp?
    ensures Contents(s) == Queue(r)
  {
    hide Queue;
  }

  /** And the bytes a write has copied go behind those in the ring: all of its data, or as much
      as fills the ring, or as much as there is room for up to the end of the array. */
  lemma WhatAWritePuts(size: nat, schedule: Schedule, t: Task)
    requires 2 <= size && At(Run(size, schedule), t).Writing? && At(Run(size, schedule), t).w.WAdvance?
    ensures var s, s' := Run(size, schedule), Next(Run(size, schedule), t, Go);
            var n, data := At(s, t).w.count, At(s, t).data;
            && n <= |data| && (data != [] ==> n > 0)
            && s'.accepted == s.accepted + data[..n] && At(s', t) == At(s, t).(w := WWrap(n))
            && Contents(s') == Contents(s) + data[..n]
            && (n == |data| || |Contents(s')| == size - 1 || s.wp + n == size)
  {
    hide Queue, Next, RunFrom, Safe;
    OrderlyRun(size, schedule);
    Puts(Run(size, schedule), t);
    NextIsTransfer(Run(size, schedule), t);
  }

  lemma PuttingSees(s: Pipe, t: Task)
    requires Safe(s) && At(s, t).Writing? && At(s, t).w.WAdvance?
    ensures s.sem == Some(t) && s.buffer.Some? && Valid(RingOf(s)) && |s.buffer.value| == s.size
    ensures Contents(s) == Queue(RingOf(s)) && SpaceFree(s.rp, s.wp, s.size) != 0
    ensures var n, data := At(s, t).w.count, At(s, t).data;
            && n <= |data| && n == WriteCount(RingOf(s), |data|) && n <= WriteCount(RingOf(s), n)
            && s.wp + n <= s.size && s.buffer.value[s.wp..s.wp + n] == data[..n]
  {
    assert InCritical(At(s, t)) <==> s.sem == Some(t);
    hide Queue, CallOk, Counted, Conserved;
  }

  lemma Puts(s: Pipe, t: Task)
    requires Safe(s) && At(s, t).Writing? && At(s, t).w.WAdvance?
    ensures var s' := WriteTransfer(s, t, Go, At(s, t));
            var n, data := At(s, t).w.count, At(s, t).data;
            && n <= |data| && (data != [] ==> n > 0)
            && s'.accepted == s.accepted + data[..n] && At(s', t) == At(s, t).(w := WWrap(n))
            && Contents(s') == Contents(s) + data[..n]
            && (n == |data| || |Contents(s')| == s.size - 1 || s.wp + n == s.size)
  {
    PuttingSees(s, t);
    hide Safe, Queue, Contents, SpaceFree, WriteCount;
    var n, data := At(s, t).w.count, At(s, t).data;
    WriteProgress(RingOf(s), |data|);
    CommitAppends(RingOf(s), data[..n]);
    ContentsAre(WriteTransfer(s, t, Go, At(s, t)), AfterWrite(RingOf(s), n));
  }

  // ------------------------------------------------------------- once each

  /** The choices a task makes that begin a call. */
  ghost predicate Begins(s: Pipe, t: Task, c: Choice) {
    At(s, t) == Idle &&
    match c
    case StartOpen(_) => true
    case StartClose(f) => f in s.files && Unused(s, f)
    case StartRead(f, _, _) => f in s.files && s.files[f].read && NotClosing(s, f)
    case StartWrite(f, _, _) => f in s.files && s.files[f].write && NotClosing(s, f)
    case _ => false
  }

  /** The calls a schedule lets a task begin. */
  ghost function Begun(size: nat, schedule: Schedule, t: Task): seq<Choice> {
    if schedule == [] then []
    else
      var n := |schedule| - 1;
      Begun(size, schedule[..n], t)
      + if schedule[n].0 == t && Begins(Run(size, schedule[..n]), t, schedule[n].1) then [schedule[n].1] else []
  }

  ghost function Pending(pc: Pc): seq<Choice> {
    if pc == Idle then [] else [CallOf(pc)]
  }

  /** What one step of t moves: to t, if it reads, and from it, if it writes. */
  ghost function HandedOver(s: Pipe, s': Pipe): seq<Byte> {
    if |s'.taken| <= |s.taken| || !s'.taken[|s.taken|].delivered then [] else Bytes(s'.taken[|s.taken|..])
  }

  ghost function Accepted(s: Pipe, s': Pipe): seq<Byte> {
    if |s'.accepted| <= |s.accepted| then [] else s'.accepted[|s.accepted|..]
  }

  /** What a task's steps have moved in all. */
  ghost function Moved(size: nat, schedule: Schedule, t: Task): (seq<Byte>, seq<Byte>) {
    if schedule == [] then ([], [])
    else
      var n := |schedule| - 1;
      var (got, put) := Moved(size, schedule[..n], t);
      if schedule[n].0 != t then (got, put)
      else
        (got + HandedOver(Run(size, schedule[..n]), Run(size, schedule)),
         put + Accepted(Run(size, schedule[..n]), Run(size, schedule)))
  }

  /** What the calls of one task gave back: themselves, the bytes read, and the bytes that the
      counts they returned say were written. */
  ghost function CallsIn(returned: seq<Return>, t: Task): seq<Choice> {
    if returned == [] then []
    else
      var n := |returned| - 1;
      CallsIn(returned[..n], t) + if returned[n].task == t then [returned[n].call] else []
  }

  ghost function ReadIn(returned: seq<Return>, t: Task): seq<Byte> {
    if returned == [] then []
    else
      var n := |returned| - 1;
      ReadIn(returned[..n], t) + if returned[n].task == t then returned[n].out else []
  }

  ghost function WrittenIn(returned: seq<Return>, t: Task): seq<Byte> {
    if returned == [] then []
    else
      var n := |returned| - 1;
      WrittenIn(returned[..n], t) + if returned[n].task == t then WrittenBy(returned[n]) else []
  }

  ghost function WrittenBy(r: Return): seq<Byte> {
    if r.call.StartWrite? && r.result.Done? && r.result.count <= |r.call.data| then r.call.data[..r.result.count]
    else []
  }

  /** What the call a task is in has moved already. */
  ghost function HasGot(pc: Pc): seq<Byte> {
    if !pc.Reading? then []
    else
      match pc.r
      case RWrap(got) => got
      case RUp(got) => got
      case RWake(got) => got
      case _ => []
  }

  ghost function HasPut(pc: Pc): seq<Byte> {
    if !pc.Writing? then []
    else
      match pc.w
      case WWrap(n) => if n <= |pc.data| then pc.data[..n] else []
      case WUp(n) => if n <= |pc.data| then pc.data[..n] else []
      case WWake(n) => if n <= |pc.data| then pc.data[..n] else []
      case _ => []
  }

  /** A step moves bytes and notes them, or ends the call, which gives back what it noted. */
  ghost predicate Notes(s: Pipe, t: Task, s': Pipe) {
    MovesOn(s, t, s') || exists r: Return :: GivesBack(s, t, s', r)
  }

  ghost predicate MovesOn(s: Pipe, t: Task, s': Pipe) {
    && s'.returned == s.returned
    && HasGot(At(s', t)) == HasGot(At(s, t)) + HandedOver(s, s')
    && HasPut(At(s', t)) == HasPut(At(s, t)) + Accepted(s, s')
  }

  ghost predicate GivesBack(s: Pipe, t: Task, s': Pipe, r: Return) {
    && s'.returned == s.returned + [r] && r.task == t
    && r.out == HasGot(At(s, t)) && WrittenBy(r) == HasPut(At(s, t))
    && HandedOver(s, s') == [] && Accepted(s, s') == [] && HasGot(At(s', t)) == [] && HasPut(At(s', t)) == []
  }

  /** The last of the returns, if the step added one. */
  lemma NoteIt(s: Pipe, t: Task, s': Pipe, r: Return)
    requires MovesOn(s, t, s') || GivesBack(s, t, s', r)
    ensures Notes(s, t, s')
  {
  }

  lemma NotesStep(s: Pipe, t: Task, c: Choice)
    ensures Notes(s, t, Next(s, t, c))
  {
    hide ReadStep, WriteStep, OpenStep, CloseStep, Notes, Start;
    if At(s, t).Reading? {
      ReadNotes(s, t, c);
    } else if At(s, t).Writing? {
      WriteNotes(s, t, c);
    } else if Closing(At(s, t)) {
      CloseNotes(s, t, c);
    } else if At(s, t).Idle? {
      StartNotes(s, t, c);
    } else {
      OpenNotes(s, t, c);
    }
  }

  lemma StartNotes(s: Pipe, t: Task, c: Choice)
    requires At(s, t).Idle?
    ensures Notes(s, t, Start(s, t, c))
  {
    hide Notes, Unused, NotClosing, Bytes;
    NoteIt(s, t, Start(s, t, c), Return(t, c, TryAgain, []));
  }

  lemma OpenNotes(s: Pipe, t: Task, c: Choice)
    requires At(s, t).OpenDown? || At(s, t).OpenAlloc? || At(s, t).OpenRp? || At(s, t).OpenCount?
    ensures Notes(s, t, OpenStep(s, t, c, At(s, t)))
  {
    hide Notes, Contents, Bytes;
    var s' := OpenStep(s, t, c, At(s, t));
    NoteIt(s, t, s', if s'.returned == s.returned then Return(t, c, TryAgain, []) else s'.returned[|s.returned|]);
  }

  lemma CloseNotes(s: Pipe, t: Task, c: Choice)
    requires Closing(At(s, t))
    ensures Notes(s, t, CloseStep(s, t, c, At(s, t)))
  {
    hide Notes, Contents, Bytes;
    var s' := CloseStep(s, t, c, At(s, t));
    NoteIt(s, t, s', if s'.returned == s.returned then Return(t, c, TryAgain, []) else s'.returned[|s.returned|]);
  }

  lemma ReadNotes(s: Pipe, t: Task, c: Choice)
    requires At(s, t).Reading?
    ensures Notes(s, t, ReadStep(s, t, c, At(s, t)))
  {
    hide ReadWait, ReadTransfer, Notes;
    if Transferring(At(s, t)) {
      ReadTransferNotes(s, t, c);
    } else {
      ReadWaitNotes(s, t, c);
    }
  }

  lemma ReadWaitNotes(s: Pipe, t: Task, c: Choice)
    requires At(s, t).Reading? && !Transferring(At(s, t))
    ensures Notes(s, t, ReadWait(s, t, c, At(s, t)))
  {
    hide Notes, Bytes;
    var s' := ReadWait(s, t, c, At(s, t));
    NoteIt(s, t, s', if s'.returned == s.returned then Return(t, c, TryAgain, []) else s'.returned[|s.returned|]);
  }

  lemma ReadTransferNotes(s: Pipe, t: Task, c: Choice)
    requires At(s, t).Reading? && Transferring(At(s, t))
    ensures Notes(s, t, ReadTransfer(s, t, c, At(s, t)))
  {
    hide Notes, CopyOut, Valid, Wrap, Deliver, HandedOver, Accepted;
    var s' := ReadTransfer(s, t, c, At(s, t));
    NothingTaken(s, s');
    NothingAccepted(s, s');
    if At(s, t).r.RAdvance? {
      DeliveringHandsOver(s, At(s, t).r.got, s');
    }
    NoteIt(s, t, s', if s'.returned == s.returned then Return(t, c, TryAgain, []) else s'.returned[|s.returned|]);
  }

  lemma DeliveringHandsOver(s: Pipe, got: seq<Byte>, s': Pipe)
    ensures s'.taken == s.taken + Deliver(got) ==> HandedOver(s, s') == got
  {
    if s'.taken == s.taken + Deliver(got) {
      assert s'.taken[|s.taken|..] == Deliver(got);
    }
  }

  lemma WriteNotes(s: Pipe, t: Task, c: Choice)
    requires At(s, t).Writing?
    ensures Notes(s, t, WriteStep(s, t, c, At(s, t)))
  {
    hide WriteWait, WriteTransfer, Notes;
    if Transferring(At(s, t)) {
      WriteTransferNotes(s, t, c);
    } else {
      WriteWaitNotes(s, t, c);
    }
  }

  lemma WriteWaitNotes(s: Pipe, t: Task, c: Choice)
    requires At(s, t).Writing? && !Transferring(At(s, t))
    ensures Notes(s, t, WriteWait(s, t, c, At(s, t)))
  {
    hide Notes, Bytes, SpaceFree;
    var s' := WriteWait(s, t, c, At(s, t));
    NoteIt(s, t, s', if s'.returned == s.returned then Return(t, c, TryAgain, []) else s'.returned[|s.returned|]);
  }

  lemma WriteTransferNotes(s: Pipe, t: Task, c: Choice)
    requires At(s, t).Writing? && Transferring(At(s, t))
    ensures Notes(s, t, WriteTransfer(s, t, c, At(s, t)))
  {
    hide Notes, Wrap, Overlay, CopyIn, HandedOver, Accepted;
    var pc := At(s, t);
    var s' := WriteTransfer(s, t, c, pc);
    if pc.w.WCopy? {
      CopyInNotes(s, t, c, pc);
    } else {
      NothingTaken(s, s');
      if pc.w.WAdvance? && pc.w.count <= |pc.data| {
        AcceptingPuts(s, pc.data[..pc.w.count], s');
      }
      NothingAccepted(s, s');
      NoteIt(s, t, s', if s'.returned == s.returned then Return(t, c, TryAgain, []) else s'.returned[|s.returned|]);
    }
  }

  lemma NothingTaken(s: Pipe, s': Pipe)
    ensures s'.taken == s.taken ==> HandedOver(s, s') == []
  {
  }

  lemma NothingAccepted(s: Pipe, s': Pipe)
    ensures s'.accepted == s.accepted ==> Accepted(s, s') == []
  {
  }

  lemma CopyInNotes(s: Pipe, t: Task, c: Choice, pc: Pc)
    requires pc == At(s, t) && pc.Writing? && pc.w.WCopy?
    ensures Notes(s, t, CopyIn(s, t, c, pc))
  {
    hide Notes, Valid, Overlay, WriteCount, Bytes;
    var s' := CopyIn(s, t, c, pc);
    NoteIt(s, t, s', if s'.returned == s.returned then Return(t, c, TryAgain, []) else s'.returned[|s.returned|]);
  }

  lemma AcceptingPuts(s: Pipe, data: seq<Byte>, s': Pipe)
    ensures s'.accepted == s.accepted + data ==> Accepted(s, s') == data
  {
  }

  /** In every run, for each task: the bytes its steps have taken out of the ring are, in order,
      those its reads have returned and those the read it is in has still to return; and the bytes
      its steps have put in are, in order, the fronts of its writes' data that they returned the
      counts of, and that of the write it is in. */
  lemma {:induction false} WhatIsReturnedWasMoved(size: nat, schedule: Schedule, t: Task)
    ensures var s, moved := Run(size, schedule), Moved(size, schedule, t);
            && moved.0 == ReadIn(s.returned, t) + HasGot(At(s, t))
            && moved.1 == WrittenIn(s.returned, t) + HasPut(At(s, t))
  {
    hide Next, Notes, HasGot, HasPut, WrittenBy, HandedOver, Accepted;
    if schedule == [] {
      AtFirst(size, t);
    } else {
      var n := |schedule| - 1;
      var s, u, c := Run(size, schedule[..n]), schedule[n].0, schedule[n].1;
      WhatIsReturnedWasMoved(size, schedule[..n], t);
      NotesStep(s, u, c);
      NextMoves(s, u, c);
      MovedMore(s, u, Next(s, u, c), t, Moved(size, schedule[..n], t));
    }
  }

  lemma AtFirst(size: nat, t: Task)
    ensures HasGot(At(Init(size), t)) == HasPut(At(Init(size), t)) == []
  {
  }

  lemma MovedMore(s: Pipe, u: Task, s': Pipe, t: Task, moved: (seq<Byte>, seq<Byte>))
    requires Notes(s, u, s') && (u != t ==> At(s', t) == At(s, t))
    requires moved.0 == ReadIn(s.returned, t) + HasGot(At(s, t))
    requires moved.1 == WrittenIn(s.returned, t) + HasPut(At(s, t))
    ensures (if u != t then moved.0 else moved.0 + HandedOver(s, s')) == ReadIn(s'.returned, t) + HasGot(At(s', t))
    ensures (if u != t then moved.1 else moved.1 + Accepted(s, s')) == WrittenIn(s'.returned, t) + HasPut(At(s', t))
  {
    hide HasGot, HasPut, HandedOver, Accepted, WrittenBy, At;
    if MovesOn(s, u, s') {
      hide ReadIn, WrittenIn;
      Regroup(ReadIn(s.returned, t), HasGot(At(s, t)), HandedOver(s, s'));
      Regroup(WrittenIn(s.returned, t), HasPut(At(s, t)), Accepted(s, s'));
    } else {
      var r: Return :| GivesBack(s, u, s', r);
      OneMoreReturn(s.returned, r, t);
      hide ReadIn, WrittenIn;
    }
  }

  lemma OneMoreReturn(returned: seq<Return>, r: Return, t: Task)
    ensures ReadIn(returned + [r], t) == ReadIn(returned, t) + (if r.task == t then r.out else [])
    ensures WrittenIn(returned + [r], t) == WrittenIn(returned, t) + (if r.task == t then WrittenBy(r) else [])
    ensures CallsIn(returned + [r], t) == CallsIn(returned, t) + (if r.task == t then [r.call] else [])
  {
    hide WrittenBy;
    assert (returned + [r])[..|returned|] == returned;
  }

  /** In every run each call returns once: those a task has begun are, in order, those it has
      returned from, and the one it is in. */
  lemma {:induction false} CallsReturnOnce(size: nat, schedule: Schedule, t: Task)
    requires 2 <= size
    ensures var s := Run(size, schedule);
            Begun(size, schedule, t) == CallsIn(s.returned, t) + Pending(At(s, t))
  {
    hide Next, Answers, Orderly, Begins;
    if schedule == [] {
    } else {
      var n := |schedule| - 1;
      var s, u, c := Run(size, schedule[..n]), schedule[n].0, schedule[n].1;
      CallsReturnOnce(size, schedule[..n], t);
      OrderlyRun(size, schedule[..n]);
      NextMoves(s, u, c);
      ReturnsMore(s, u, c, t, Begun(size, schedule[..n], t));
    }
  }

  lemma ReturnsMore(s: Pipe, u: Task, c: Choice, t: Task, begun: seq<Choice>)
    requires Orderly(s) && (u != t ==> At(Next(s, u, c), t) == At(s, t))
    requires begun == CallsIn(s.returned, t) + Pending(At(s, t))
    ensures begun + (if u == t && Begins(s, t, c) then [c] else [])
         == CallsIn(Next(s, u, c).returned, t) + Pending(At(Next(s, u, c), t))
  {
    hide Next, Orderly, CallOf, Ending, Begins, CallsIn;
    if At(s, u) == Idle {
      Starts(s, u, c);
    } else {
      AnswersStep(s, u, c);
      NotBegun(s, u, c);
      OneReturn(s, u, c, t);
    }
  }

  lemma NotBegun(s: Pipe, t: Task, c: Choice)
    requires At(s, t) != Idle
    ensures !Begins(s, t, c)
  {
  }

  lemma OneReturn(s: Pipe, u: Task, c: Choice, t: Task)
    requires At(s, u) != Idle && Answers(s, u, c, Next(s, u, c))
    ensures var s' := Next(s, u, c);
            if u == t then CallsIn(s'.returned, t) + Pending(At(s', t)) == CallsIn(s.returned, t) + Pending(At(s, t))
            else CallsIn(s'.returned, t) == CallsIn(s.returned, t)
  {
    hide Next, CallOf, Ending, CallsIn, Tests, Copies, Waits, CanGoOn;
    var s' := Next(s, u, c);
    var e := Ending(s, u, c);
    if e.Some? {
      var r := Return(u, CallOf(At(s, u)), e.value.0, e.value.1);
      OneMoreReturn(s.returned, r, t);
      assert s'.returned == s.returned + [r];
      assert Pending(At(s', u)) == [];
    } else {
      assert s'.returned == s.returned + [] == s.returned;
    }
  }

  lemma Starts(s: Pipe, t: Task, c: Choice)
    requires At(s, t) == Idle
    ensures var s' := Next(s, t, c);
            && s'.returned == s.returned
            && (if Begins(s, t, c) then At(s', t) != Idle && CallOf(At(s', t)) == c else At(s', t) == Idle)
  {
    hide Unused, NotClosing;
  }
}
