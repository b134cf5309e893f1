/** What a read or a write of PipeProtocol does when, from some point of a run on, only its own
    task takes steps. */
module PipeAlone {
  import opened Common
  import opened PipeRing
  import opened PipeProtocol
  import opened PipeSafety
  import opened PipeCalls

  /** n steps of t. */
  ghost function Alone(s: Pipe, t: Task, n: nat): Pipe {
    if n == 0 then s else Next(Alone(s, t, n - 1), t, Go)
  }

  lemma {:induction false} AloneOn(s: Pipe, t: Task, m: nat, n: nat)
    ensures Alone(Alone(s, t, m), t, n) == Alone(s, t, m + n)
  {
    hide Next;
    if n > 0 {
      AloneOn(s, t, m, n - 1);
    }
  }

  lemma GotoTwice(s: Pipe, t: Task, pc: Pc, pc': Pc)
    ensures Goto(Goto(s, t, pc), t, pc') == Goto(s, t, pc')
  {
    assert s.pcs[t := pc][t := pc'] == s.pcs[t := pc'];
  }

  ghost function Inside(s: Pipe, t: Task, pc: Pc): Pipe {
    Goto(s, t, pc).(sem := Some(t))
  }

  /** Nobody is inside, and the ring is there. */
  ghost predicate Free(s: Pipe) {
    && s.sem == None && s.buffer.Some? && Valid(RingOf(s)) && |s.buffer.value| == s.size
    && Contents(s) == Queue(RingOf(s))
    && (Contents(s) == [] <==> s.rp == s.wp)
    && Measurable(s, s.rp) && (SpaceFree(s.rp, s.wp, s.size) == 0 <==> |Contents(s)| == s.size - 1)
    && |Contents(s)| < s.size
  }

  lemma NobodyInside(s: Pipe, t: Task)
    requires Safe(s) && s.sem == None && (At(s, t).Reading? || At(s, t).Writing?)
    ensures Free(s)
  {
    CallHasBuffer(s, t);
    var r := RingOf(s);
    assert Valid(r) && |r.buf| == s.size && Contents(s) == Queue(r) by {
      hide Queue, CallOk, Counted, Conserved;
    }
    hide Safe, Queue, SpaceFree, Contents;
    SpaceIsComplement(r);
  }

  // ------------------------------------------------------------- a read

  ghost function Reads(s: Pipe, t: Task, r: ReadAt): Pc
    requires At(s, t).Reading?
  {
    At(s, t).(r := r)
  }

  /** What a read does that nobody interferes with: given something to read, it returns the
      front of it, as much as it wants, or all, or all up to the end of the array, and wakes
      the writers; otherwise it returns -EAGAIN, or sleeps. Nothing else changes. */
  ghost predicate ReadDoes(s: Pipe, t: Task, s': Pipe, got: seq<Byte>)
    requires At(s, t).Reading?
  {
    var pc, out := At(s, t), s.(pcs := s'.pcs, inq := s'.inq, woken := s'.woken);
    && (forall u: Task :: u != t ==> At(s', u) == At(s, u))
    && if Contents(s) != [] then
         && At(s', t) == Idle && s'.inq == s.inq - {t} && s'.woken - {t} == s.woken + s.outq - {t}
         && Contents(s) == got + Contents(s')
         && |got| <= pc.want && (pc.want > 0 ==> got != [])
         && (|got| == pc.want || Contents(s') == [] || s.rp + |got| == s.size)
         && s' == out.(rp := s'.rp, taken := s.taken + Deliver(got),
                       returned := s.returned + [Return(t, CallOf(pc), Done(|got|), got)])
       else if pc.nonblock then
         && At(s', t) == Idle && s'.inq == s.inq - {t} && s'.woken == s.woken
         && s' == out.(returned := s.returned + [Return(t, CallOf(pc), TryAgain, [])])
       else
         && At(s', t) == Reads(s, t, RSleep) && s'.inq == s.inq + {t} && s'.woken == s.woken - {t}
         && s' == out
  }

  lemma ReadEnters(s: Pipe, t: Task)
    requires At(s, t).Reading? && At(s, t).r.RDown? && s.sem == None
    ensures Next(s, t, Go) == Inside(s, t, Reads(s, t, RTest))
  {
    hide WriteStep, OpenStep, CloseStep, Start, ReadTransfer;
  }

  lemma ReadTests(s: Pipe, t: Task)
    requires At(s, t).Reading? && At(s, t).r.RTest?
    ensures var pc := At(s, t);
            Next(s, t, Go) == if s.rp != s.wp then Goto(s, t, Reads(s, t, RCopy))
                              else if pc.nonblock then UpAndRet(s, t, TryAgain)
                              else Up(s, t, Reads(s, t, RLoad))
  {
    hide WriteStep, OpenStep, CloseStep, Start, ReadTransfer;
  }

  /** From the test on, with something in the ring: its front, and what is then left. */
  lemma ReadServes(s: Pipe, t: Task) returns (got: seq<Byte>)
    requires Free(s) && Contents(s) != [] && At(s, t).Reading? && At(s, t).r.RDown?
    ensures var want := At(s, t).want;
            && |got| <= want && (want > 0 ==> got != [])
            && s.rp + |got| <= s.size && Contents(s) == got + Queue(AfterRead(RingOf(s), |got|))
            && Valid(AfterRead(RingOf(s), |got|))
            && (|got| == want || Queue(AfterRead(RingOf(s), |got|)) == [] || s.rp + |got| == s.size)
    ensures Alone(s, t, 7) == Served(s, t, got)
  {
    hide Next, Contents, Queue;
    got := CopyOut(s, At(s, t).want);
    ReadTakesFront(RingOf(s), |got|);
    SpaceIsComplement(AfterRead(RingOf(s), |got|));
    ReadEnters(s, t);
    var s1 := Inside(s, t, Reads(s, t, RTest));
    ReadTests(s1, t);
    var s2 := Inside(s, t, Reads(s, t, RCopy));
    GotoTwice(s, t, Reads(s, t, RTest), Reads(s, t, RCopy));
    assert Alone(s, t, 1) == s1;
    assert Alone(s, t, 2) == s2;
    CopiesThenReturns(s, s2, t, got);
    AloneOn(s, t, 2, 5);
  }

  ghost function Served(s: Pipe, t: Task, got: seq<Byte>): Pipe
    requires At(s, t).Reading?
  {
    Goto(s, t, Idle).(rp := Wrap(s.rp + |got|, s.size), taken := s.taken + Deliver(got), woken := s.woken + s.outq,
                      returned := s.returned + [Return(t, CallOf(At(s, t)), Done(|got|), got)])
  }

  lemma CopiesThenReturns(s: Pipe, s2: Pipe, t: Task, got: seq<Byte>)
    requires Free(s) && At(s, t).Reading? && s2 == Inside(s, t, Reads(s, t, RCopy)) && got == CopyOut(s, At(s, t).want)
    ensures Alone(s2, t, 5) == Served(s, t, got)
  {
    hide Next, Contents, Queue;
    var s3 := Inside(s, t, Reads(s, t, RAdvance(got)));
    var s4 := Inside(s, t, Reads(s, t, RWrap(got))).(rp := s.rp + |got|, taken := s.taken + Deliver(got));
    var s5 := Inside(s, t, Reads(s, t, RUp(got))).(rp := Wrap(s.rp + |got|, s.size), taken := s4.taken);
    var s6 := Goto(s, t, Reads(s, t, RWake(got))).(rp := s5.rp, taken := s5.taken);
    assert Next(s2, t, Go) == s3 by {
      ReadCopies(s2, t);
      GotoTwice(s, t, Reads(s, t, RCopy), Reads(s, t, RAdvance(got)));
    }
    assert Next(s3, t, Go) == s4 && Next(s4, t, Go) == s5 by {
      ReadAdvances(s3, t);
      GotoTwice(s, t, Reads(s, t, RAdvance(got)), Reads(s, t, RWrap(got)));
      ReadWraps(s4, t);
      GotoTwice(s, t, Reads(s, t, RWrap(got)), Reads(s, t, RUp(got)));
    }
    assert Next(s5, t, Go) == s6 && Next(s6, t, Go) == Served(s, t, got) by {
      ReadLeaves(s5, t);
      GotoTwice(s, t, Reads(s, t, RUp(got)), Reads(s, t, RWake(got)));
      ReadWakes(s6, t);
      GotoTwice(s, t, Reads(s, t, RWake(got)), Idle);
    }
    Five(s2, t, s3, s4, s5, s6);
  }

  lemma Five(s: Pipe, t: Task, a: Pipe, b: Pipe, c: Pipe, d: Pipe)
    requires Next(s, t, Go) == a && Next(a, t, Go) == b && Next(b, t, Go) == c && Next(c, t, Go) == d
    ensures Alone(s, t, 5) == Next(d, t, Go)
  {
    hide Next;
    assert Alone(s, t, 1) == a;
    assert Alone(s, t, 2) == b;
    assert Alone(s, t, 3) == c;
  }

  lemma ReadCopies(s: Pipe, t: Task)
    requires At(s, t).Reading? && At(s, t).r.RCopy? && s.buffer.Some? && Valid(RingOf(s))
    ensures Next(s, t, Go) == Goto(s, t, Reads(s, t, RAdvance(CopyOut(s, At(s, t).want))))
  {
    hide WriteStep, OpenStep, CloseStep, Start, ReadWait, CopyOut;
  }

  lemma ReadAdvances(s: Pipe, t: Task)
    requires At(s, t).Reading? && At(s, t).r.RAdvance?
    ensures var got := At(s, t).r.got;
            Next(s, t, Go) == Goto(s, t, Reads(s, t, RWrap(got))).(rp := s.rp + |got|, taken := s.taken + Deliver(got))
  {
    hide WriteStep, OpenStep, CloseStep, Start, ReadWait, Deliver;
  }

  lemma ReadWraps(s: Pipe, t: Task)
    requires At(s, t).Reading? && At(s, t).r.RWrap?
    ensures Next(s, t, Go) == Goto(s, t, Reads(s, t, RUp(At(s, t).r.got))).(rp := Wrap(s.rp, s.size))
  {
    hide WriteStep, OpenStep, CloseStep, Start, ReadWait;
  }

  lemma ReadLeaves(s: Pipe, t: Task)
    requires At(s, t).Reading? && At(s, t).r.RUp?
    ensures Next(s, t, Go) == Up(s, t, Reads(s, t, RWake(At(s, t).r.got)))
  {
    hide WriteStep, OpenStep, CloseStep, Start, ReadWait;
  }

  lemma ReadWakes(s: Pipe, t: Task)
    requires At(s, t).Reading? && At(s, t).r.RWake?
    ensures var got := At(s, t).r.got;
            Next(s, t, Go) == Ret(s, t, Done(|got|), got).(woken := s.woken + s.outq)
  {
    hide WriteStep, OpenStep, CloseStep, Start, ReadWait;
  }

  lemma ReadLoads(s: Pipe, t: Task)
    requires At(s, t).Reading? && At(s, t).r.RLoad?
    ensures Next(s, t, Go) == Goto(s, t, Reads(s, t, RCompare(s.rp)))
  {
    hide WriteStep, OpenStep, CloseStep, Start, ReadTransfer;
  }

  lemma ReadCompares(s: Pipe, t: Task)
    requires At(s, t).Reading? && At(s, t).r.RCompare?
    ensures Next(s, t, Go) == if At(s, t).r.seen != s.wp then Dequeue(s, t, Reads(s, t, RDown))
                              else Goto(s, t, Reads(s, t, if t in s.inq then RSleep else REnqueue))
  {
    hide WriteStep, OpenStep, CloseStep, Start, ReadTransfer;
  }

  lemma ReadQueues(s: Pipe, t: Task)
    requires At(s, t).Reading? && At(s, t).r.REnqueue?
    ensures Next(s, t, Go) == Goto(s, t, Reads(s, t, RLoad)).(inq := s.inq + {t}, woken := s.woken - {t})
  {
    hide WriteStep, OpenStep, CloseStep, Start, ReadTransfer;
  }

  lemma ReadIsWoken(s: Pipe, t: Task)
    requires At(s, t).Reading? && At(s, t).r.RSleep? && t in s.woken
    ensures Next(s, t, Go) == Goto(s, t, Reads(s, t, REnqueue))
  {
    hide WriteStep, OpenStep, CloseStep, Start, ReadTransfer;
  }

  /** Queueing up, and one more look. */
  lemma QueuesAndLooks(s: Pipe, t: Task)
    requires At(s, t).Reading? && At(s, t).r.REnqueue?
    ensures var q := s.(inq := s.inq + {t}, woken := s.woken - {t});
            Alone(s, t, 3) == if s.rp != s.wp then Dequeue(q, t, Reads(s, t, RDown))
                              else Goto(q, t, Reads(s, t, RSleep))
  {
    hide Next;
    var q := s.(inq := s.inq + {t}, woken := s.woken - {t});
    var s1 := Goto(q, t, Reads(s, t, RLoad));
    var s2 := Goto(q, t, Reads(s, t, RCompare(s.rp)));
    ReadQueues(s, t);
    assert Next(s, t, Go) == s1;
    ReadLoads(s1, t);
    GotoTwice(q, t, Reads(s, t, RLoad), Reads(s, t, RCompare(s.rp)));
    assert Next(s1, t, Go) == s2;
    ReadCompares(s2, t);
    GotoTwice(q, t, Reads(s, t, RCompare(s.rp)), Reads(s, t, RSleep));
    GotoTwice(q, t, Reads(s, t, RCompare(s.rp)), Reads(s, t, RDown));
    assert Alone(s, t, 1) == s1;
    assert Alone(s, t, 2) == s2;
  }

  /** An empty ring: -EAGAIN, or asleep after seven steps. */
  lemma ReadFindsNothing(s: Pipe, t: Task) returns (n: nat)
    requires Free(s) && Contents(s) == [] && At(s, t).Reading? && At(s, t).r.RDown? && t !in s.inq
    ensures Alone(s, t, n) == if At(s, t).nonblock then
                                Goto(s, t, Idle).(returned := s.returned + [Return(t, CallOf(At(s, t)), TryAgain, [])])
                              else Goto(s, t, Reads(s, t, RSleep)).(inq := s.inq + {t}, woken := s.woken - {t})
  {
    hide Next, Contents;
    var pc := At(s, t);
    var s1 := Inside(s, t, Reads(s, t, RTest));
    ReadEnters(s, t);
    ReadTests(s1, t);
    assert Alone(s, t, 1) == s1;
    if pc.nonblock {
      n := 2;
      GotoTwice(s, t, Reads(s, t, RTest), Idle);
    } else {
      n := 7;
      var s2 := Goto(s, t, Reads(s, t, RLoad));
      GotoTwice(s, t, Reads(s, t, RTest), Reads(s, t, RLoad));
      assert Alone(s, t, 2) == s2;
      LooksThenQueues(s, s2, t);
      AloneOn(s, t, 2, 5);
    }
  }

  lemma LooksThenQueues(s: Pipe, s2: Pipe, t: Task)
    requires At(s, t).Reading? && s2 == Goto(s, t, Reads(s, t, RLoad)) && s.rp == s.wp && t !in s.inq
    ensures Alone(s2, t, 5) == Goto(s, t, Reads(s, t, RSleep)).(inq := s.inq + {t}, woken := s.woken - {t})
  {
    hide Next;
    var s3 := Goto(s, t, Reads(s, t, RCompare(s.rp)));
    var s4 := Goto(s, t, Reads(s, t, REnqueue));
    ReadLoads(s2, t);
    GotoTwice(s, t, Reads(s, t, RLoad), Reads(s, t, RCompare(s.rp)));
    ReadCompares(s3, t);
    GotoTwice(s, t, Reads(s, t, RCompare(s.rp)), Reads(s, t, REnqueue));
    assert Alone(s2, t, 1) == s3;
    assert Alone(s2, t, 2) == s4;
    QueuesAndLooks(s4, t);
    GotoTwice(s.(inq := s.inq + {t}, woken := s.woken - {t}), t, Reads(s, t, REnqueue), Reads(s, t, RSleep));
    AloneOn(s2, t, 2, 3);
  }

  lemma ReadGoesThrough(s: Pipe, t: Task) returns (n: nat, got: seq<Byte>)
    requires Free(s) && AllQueuedOk(s) && At(s, t).Reading? && At(s, t).r.RDown?
    ensures ReadDoes(s, t, Alone(s, t, n), got)
  {
    assert QueuedOk(s, t);
    if Contents(s) == [] {
      got := [];
      n := ReadFindsNothing(s, t);
      hide Next, Free, Contents;
    } else {
      n := 7;
      got := ReadServes(s, t);
      hide Next, Queue, SpaceFree, Alone;
      var s' := Alone(s, t, 7);
      ContentsAre(s', AfterRead(RingOf(s), |got|));
    }
  }

  lemma {:induction false} AloneIsOrderly(s: Pipe, t: Task, n: nat)
    requires Orderly(s)
    ensures Orderly(Alone(s, t, n))
  {
    hide Next, Safe, AllQueuedOk;
    if n > 0 {
      AloneIsOrderly(s, t, n - 1);
      SafeStep(Alone(s, t, n - 1), t, Go);
      QueuedOkStep(Alone(s, t, n - 1), t, Go);
    }
  }

  /** Woken on a ring with something in it, a reader is back at the semaphore in four steps. */
  lemma WokenReadRetries(s: Pipe, t: Task)
    requires At(s, t).Reading? && At(s, t).r.RSleep? && t in s.woken
    ensures var q := s.(inq := s.inq + {t}, woken := s.woken - {t});
            Alone(s, t, 4) == if s.rp != s.wp then Dequeue(q, t, Reads(s, t, RDown))
                              else Goto(q, t, Reads(s, t, RSleep))
  {
    hide Next;
    var q := s.(inq := s.inq + {t}, woken := s.woken - {t});
    var s1 := Goto(s, t, Reads(s, t, REnqueue));
    ReadIsWoken(s, t);
    assert Alone(s, t, 1) == s1;
    QueuesAndLooks(s1, t);
    AloneOn(s, t, 1, 3);
    GotoTwice(q, t, Reads(s, t, REnqueue), Reads(s, t, RSleep));
    GotoTwice(q, t, Reads(s, t, REnqueue), Reads(s, t, RDown));
  }

  lemma WokenReadGoesThrough(s: Pipe, t: Task) returns (n: nat, got: seq<Byte>)
    requires Orderly(s) && s.sem == None && At(s, t).Reading? && At(s, t).r.RSleep? && t in s.woken
    ensures ReadDoes(s, t, Alone(s, t, n), got)
  {
    hide Next, Safe, QueuedOk, ReadDoes, Alone, SpaceFree, Queue, Contents;
    NobodyInside(s, t);
    WokenReadRetries(s, t);
    AloneIsOrderly(s, t, 4);
    var s4 := Alone(s, t, 4);
    assert QueuedOk(s, t);
    BlockingSleeps(s, t);
    if Contents(s) == [] {
      n, got := 4, [];
      SleepsAgain(s, t, s4);
    } else {
      NobodyInside(s4, t);
      SameContents(s, s4);
      var m;
      m, got := ReadGoesThrough(s4, t);
      n := 4 + m;
      AloneOn(s, t, 4, m);
      ReadDoesSo(s, t, s4, Alone(s, t, n), got);
    }
  }

  lemma BlockingSleeps(s: Pipe, t: Task)
    requires QueuedOk(s, t) && At(s, t).Reading? && At(s, t).r.RSleep?
    ensures !At(s, t).nonblock && t !in s.outq
  {
  }

  lemma SameContents(s: Pipe, s': Pipe)
    requires Free(s) && Free(s') && (s'.buffer, s'.rp, s'.wp) == (s.buffer, s.rp, s.wp)
    ensures Contents(s') == Contents(s)
  {
    hide Contents, Queue, SpaceFree;
  }

  lemma SleepsAgain(s: Pipe, t: Task, s': Pipe)
    requires At(s, t).Reading? && !At(s, t).nonblock && Contents(s) == []
    requires s' == Goto(s.(inq := s.inq + {t}, woken := s.woken - {t}), t, Reads(s, t, RSleep))
    ensures ReadDoes(s, t, s', [])
  {
    hide Contents;
  }

  /** The same call, seen from before and after its wait. */
  lemma ReadDoesSo(s: Pipe, t: Task, s4: Pipe, s': Pipe, got: seq<Byte>)
    requires At(s, t).Reading? && !At(s, t).nonblock && At(s, t).r.RSleep?
    requires t !in s.outq && Contents(s) != [] && Contents(s4) == Contents(s)
    requires s4 == Dequeue(s.(inq := s.inq + {t}, woken := s.woken - {t}), t, Reads(s, t, RDown))
    requires ReadDoes(s4, t, s', got)
    ensures ReadDoes(s, t, s', got)
  {
    hide Contents;
  }

  // ------------------------------------------------------------- main results on reads

  /** A read that begins when nobody is inside, and is left alone, does what a read should. */
  lemma AReadAlone(size: nat, schedule: Schedule, t: Task, f: File, nonblock: bool, want: nat)
    returns (n: nat, got: seq<Byte>)
    requires 2 <= size && Run(size, schedule).sem == None
    requires Begins(Run(size, schedule), t, StartRead(f, nonblock, want))
    ensures var s := Run(size, schedule);
            var s1 := Next(s, t, StartRead(f, nonblock, want));
            && At(s1, t).Reading? && CallOf(At(s1, t)) == StartRead(f, nonblock, want)
            && s1 == Goto(s, t, At(s1, t)) && Contents(s1) == Contents(s)
            && ReadDoes(s1, t, Alone(s1, t, n), got)
  {
    hide RunFrom, Safe, AllQueuedOk, Free, Alone;
    OrderlyRun(size, schedule);
    var s := Run(size, schedule);
    var s1 := Next(s, t, StartRead(f, nonblock, want));
    ReadStarts(s, t, f, nonblock, want);
    SafeStep(s, t, StartRead(f, nonblock, want));
    QueuedOkStep(s, t, StartRead(f, nonblock, want));
    hide Next, ReadDoes;
    NobodyInside(s1, t);
    n, got := ReadGoesThrough(s1, t);
  }

  lemma ReadStarts(s: Pipe, t: Task, f: File, nonblock: bool, want: nat)
    requires Begins(s, t, StartRead(f, nonblock, want)) && s.sem == None
    ensures var s1 := Next(s, t, StartRead(f, nonblock, want));
            s1 == Goto(s, t, Reading(f, nonblock, want, RDown)) && Contents(s1) == Contents(s)
  {
    hide NotClosing, Queue;
  }

  /** A reader that has been woken, when nobody is inside, and is left alone, goes on to do
      just the same: it returns what is in the ring, or sleeps again if it has gone. */
  lemma AWokenReadGoesOn(size: nat, schedule: Schedule, t: Task) returns (n: nat, got: seq<Byte>)
    requires var s := Run(size, schedule);
             2 <= size && s.sem == None && At(s, t).Reading? && At(s, t).r.RSleep? && t in s.woken
    ensures ReadDoes(Run(size, schedule), t, Alone(Run(size, schedule), t, n), got)
  {
    hide RunFrom, Safe, AllQueuedOk, Alone, Next, ReadDoes;
    OrderlyRun(size, schedule);
    n, got := WokenReadGoesThrough(Run(size, schedule), t);
  }

  // ------------------------------------------------------------- a write

  ghost function Writes(s: Pipe, t: Task, w: WriteAt): Pc
    requires At(s, t).Writing?
  {
    At(s, t).(w := w)
  }

  /** What a write does that nobody interferes with: given room, it appends all of its data, or
      as much as fills the ring, or as much as fits up to the end of the array, returns how much,
      and wakes the readers; otherwise it returns -EAGAIN, or sleeps. Nothing else changes. */
  ghost predicate WriteDoes(s: Pipe, t: Task, s': Pipe, n: nat)
    requires At(s, t).Writing?
  {
    var pc, out := At(s, t), s.(pcs := s'.pcs, outq := s'.outq, woken := s'.woken);
    && (forall u: Task :: u != t ==> At(s', u) == At(s, u))
    && if |Contents(s)| < s.size - 1 then
         && At(s', t) == Idle && s'.outq == s.outq - {t} && s'.woken - {t} == s.woken + s.inq - {t}
         && n <= |pc.data| && (pc.data != [] ==> n > 0)
         && Contents(s') == Contents(s) + pc.data[..n]
         && (n == |pc.data| || |Contents(s')| == s.size - 1 || s.wp + n == s.size)
         && s' == out.(buffer := s'.buffer, wp := s'.wp, accepted := s.accepted + pc.data[..n],
                       returned := s.returned + [Return(t, CallOf(pc), Done(n), [])])
       else if pc.nonblock then
         && At(s', t) == Idle && s'.outq == s.outq - {t} && s'.woken == s.woken
         && s' == out.(returned := s.returned + [Return(t, CallOf(pc), TryAgain, [])])
       else
         && At(s', t) == Writes(s, t, WSleep) && s'.outq == s.outq + {t} && s'.woken == s.woken - {t}
         && s' == out.(emptied := s.emptied - {t})
  }

  lemma WriteEnters(s: Pipe, t: Task)
    requires At(s, t).Writing? && At(s, t).w.WDown? && s.sem == None
    ensures Next(s, t, Go) == Inside(s, t, Writes(s, t, WTest))
  {
    hide ReadStep, OpenStep, CloseStep, Start, WriteTransfer;
  }

  lemma WriteTests(s: Pipe, t: Task)
    requires At(s, t).Writing? && At(s, t).w.WTest? && Measurable(s, s.rp)
    ensures var pc := At(s, t);
            Next(s, t, Go) == if SpaceFree(s.rp, s.wp, s.size) != 0 then Goto(s, t, Writes(s, t, WCopy))
                              else if pc.nonblock then UpAndRet(s, t, TryAgain)
                              else Up(s, t, Writes(s, t, WEnqueue))
  {
    hide ReadStep, OpenStep, CloseStep, Start, WriteTransfer, SpaceFree;
  }

  lemma WriteCopies(s: Pipe, t: Task, n: nat)
    requires At(s, t).Writing? && At(s, t).w.WCopy? && s.buffer.Some? && Valid(RingOf(s))
    requires n == WriteCount(RingOf(s), |At(s, t).data|) && n <= |At(s, t).data| && s.wp + n <= |s.buffer.value|
    ensures Next(s, t, Go) == Goto(s, t, Writes(s, t, WAdvance(n)))
                              .(buffer := Some(Overlay(s.buffer.value, s.wp, At(s, t).data[..n])))
  {
    hide ReadStep, OpenStep, CloseStep, Start, WriteWait, WriteCount, Overlay;
  }

  lemma WriteAdvances(s: Pipe, t: Task)
    requires At(s, t).Writing? && At(s, t).w.WAdvance? && At(s, t).w.count <= |At(s, t).data|
    ensures var n := At(s, t).w.count;
            Next(s, t, Go) == Goto(s, t, Writes(s, t, WWrap(n)))
                              .(wp := s.wp + n, accepted := s.accepted + At(s, t).data[..n])
  {
    hide ReadStep, OpenStep, CloseStep, Start, WriteWait;
  }

  lemma WriteWraps(s: Pipe, t: Task)
    requires At(s, t).Writing? && At(s, t).w.WWrap?
    ensures Next(s, t, Go) == Goto(s, t, Writes(s, t, WUp(At(s, t).w.count))).(wp := Wrap(s.wp, s.size))
  {
    hide ReadStep, OpenStep, CloseStep, Start, WriteWait;
  }

  lemma WriteLeaves(s: Pipe, t: Task)
    requires At(s, t).Writing? && At(s, t).w.WUp?
    ensures Next(s, t, Go) == Up(s, t, Writes(s, t, WWake(At(s, t).w.count)))
  {
    hide ReadStep, OpenStep, CloseStep, Start, WriteWait;
  }

  lemma WriteWakes(s: Pipe, t: Task)
    requires At(s, t).Writing? && At(s, t).w.WWake?
    ensures Next(s, t, Go) == Ret(s, t, Done(At(s, t).w.count), []).(woken := s.woken + s.inq)
  {
    hide ReadStep, OpenStep, CloseStep, Start, WriteWait;
  }

  lemma WriteQueues(s: Pipe, t: Task)
    requires At(s, t).Writing? && At(s, t).w.WEnqueue?
    ensures Next(s, t, Go) == Goto(s, t, Writes(s, t, WLoad))
                              .(outq := s.outq + {t}, woken := s.woken - {t}, emptied := s.emptied - {t})
  {
    hide ReadStep, OpenStep, CloseStep, Start, WriteTransfer;
  }

  lemma WriteLoads(s: Pipe, t: Task)
    requires At(s, t).Writing? && At(s, t).w.WLoad?
    ensures Next(s, t, Go) == Goto(s, t, Writes(s, t, WCompare(s.rp)))
  {
    hide ReadStep, OpenStep, CloseStep, Start, WriteTransfer;
  }

  lemma WriteCompares(s: Pipe, t: Task)
    requires At(s, t).Writing? && At(s, t).w.WCompare? && Measurable(s, At(s, t).w.seen)
    requires SpaceFree(At(s, t).w.seen, s.wp, s.size) == 0
    ensures Next(s, t, Go) == Goto(s, t, Writes(s, t, WSleep))
  {
    hide ReadStep, OpenStep, CloseStep, Start, WriteTransfer, SpaceFree;
  }

  lemma WriteIsWoken(s: Pipe, t: Task)
    requires At(s, t).Writing? && At(s, t).w.WSleep? && t in s.woken
    ensures Next(s, t, Go) == Dequeue(s, t, Writes(s, t, WDown))
  {
    hide ReadStep, OpenStep, CloseStep, Start, WriteTransfer;
  }

  ghost function Wrote(s: Pipe, t: Task, n: nat): Pipe
    requires At(s, t).Writing? && n <= |At(s, t).data| && s.buffer.Some? && s.wp + n <= |s.buffer.value|
  {
    Goto(s, t, Idle).(buffer := Some(Overlay(s.buffer.value, s.wp, At(s, t).data[..n])), wp := Wrap(s.wp + n, s.size),
                      accepted := s.accepted + At(s, t).data[..n], woken := s.woken + s.inq,
                      returned := s.returned + [Return(t, CallOf(At(s, t)), Done(n), [])])
  }

  /** Room in the ring: seven steps. */
  lemma WriteServes(s: Pipe, t: Task, n: nat)
    requires Free(s) && |Contents(s)| < s.size - 1 && At(s, t).Writing? && At(s, t).w.WDown?
    requires n == WriteCount(RingOf(s), |At(s, t).data|) && n <= |At(s, t).data| && s.wp + n <= s.size
    ensures Alone(s, t, 7) == Wrote(s, t, n)
  {
    hide Next, Contents, Queue, SpaceFree, Overlay;
    WriteEnters(s, t);
    var s1 := Inside(s, t, Writes(s, t, WTest));
    WriteTests(s1, t);
    var s2 := Inside(s, t, Writes(s, t, WCopy));
    GotoTwice(s, t, Writes(s, t, WTest), Writes(s, t, WCopy));
    assert Alone(s, t, 1) == s1;
    assert Alone(s, t, 2) == s2;
    CopiesInThenReturns(s, s2, t, n);
    AloneOn(s, t, 2, 5);
  }

  lemma CopiesInThenReturns(s: Pipe, s2: Pipe, t: Task, n: nat)
    requires Free(s) && At(s, t).Writing? && s2 == Inside(s, t, Writes(s, t, WCopy))
    requires n == WriteCount(RingOf(s), |At(s, t).data|) && n <= |At(s, t).data| && s.wp + n <= s.size
    ensures Alone(s2, t, 5) == Wrote(s, t, n)
  {
    hide Next, Contents, Queue, SpaceFree, Overlay, WriteCount;
    var b, a := Some(Overlay(s.buffer.value, s.wp, At(s, t).data[..n])), s.accepted + At(s, t).data[..n];
    var s3 := Inside(s, t, Writes(s, t, WAdvance(n))).(buffer := b);
    var s4 := Inside(s, t, Writes(s, t, WWrap(n))).(buffer := b, wp := s.wp + n, accepted := a);
    var s5 := Inside(s, t, Writes(s, t, WUp(n))).(buffer := b, wp := Wrap(s.wp + n, s.size), accepted := a);
    var s6 := Goto(s, t, Writes(s, t, WWake(n))).(buffer := b, wp := s5.wp, accepted := a);
    assert Next(s2, t, Go) == s3 by {
      WriteCopies(s2, t, n);
      GotoTwice(s, t, Writes(s, t, WCopy), Writes(s, t, WAdvance(n)));
    }
    assert Next(s3, t, Go) == s4 && Next(s4, t, Go) == s5 by {
      WriteAdvances(s3, t);
      GotoTwice(s, t, Writes(s, t, WAdvance(n)), Writes(s, t, WWrap(n)));
      WriteWraps(s4, t);
      GotoTwice(s, t, Writes(s, t, WWrap(n)), Writes(s, t, WUp(n)));
    }
    assert Next(s5, t, Go) == s6 && Next(s6, t, Go) == Wrote(s, t, n) by {
      WriteLeaves(s5, t);
      GotoTwice(s, t, Writes(s, t, WUp(n)), Writes(s, t, WWake(n)));
      WriteWakes(s6, t);
      GotoTwice(s, t, Writes(s, t, WWake(n)), Idle);
    }
    Five(s2, t, s3, s4, s5, s6);
  }

  /** A full ring: -EAGAIN, or asleep after five steps. */
  lemma WriteFindsNoRoom(s: Pipe, t: Task) returns (n: nat)
    requires Free(s) && |Contents(s)| == s.size - 1 && At(s, t).Writing? && At(s, t).w.WDown?
    ensures Alone(s, t, n) == if At(s, t).nonblock then
                                Goto(s, t, Idle).(returned := s.returned + [Return(t, CallOf(At(s, t)), TryAgain, [])])
                              else Goto(s, t, Writes(s, t, WSleep))
                                   .(outq := s.outq + {t}, woken := s.woken - {t}, emptied := s.emptied - {t})
  {
    hide Next, Contents, SpaceFree, Queue;
    var s1 := Inside(s, t, Writes(s, t, WTest));
    WriteEnters(s, t);
    WriteTests(s1, t);
    assert Alone(s, t, 1) == s1;
    if At(s, t).nonblock {
      n := 2;
      GotoTwice(s, t, Writes(s, t, WTest), Idle);
    } else {
      n := 5;
      var s2 := Goto(s, t, Writes(s, t, WEnqueue));
      GotoTwice(s, t, Writes(s, t, WTest), Writes(s, t, WEnqueue));
      assert Alone(s, t, 2) == s2;
      QueuesThenSleeps(s, s2, t);
      AloneOn(s, t, 2, 3);
    }
  }

  lemma QueuesThenSleeps(s: Pipe, s2: Pipe, t: Task)
    requires At(s, t).Writing? && s2 == Goto(s, t, Writes(s, t, WEnqueue))
    requires Measurable(s, s.rp) && SpaceFree(s.rp, s.wp, s.size) == 0
    ensures Alone(s2, t, 3) == Goto(s, t, Writes(s, t, WSleep))
                               .(outq := s.outq + {t}, woken := s.woken - {t}, emptied := s.emptied - {t})
  {
    hide Next, SpaceFree;
    var q := s.(outq := s.outq + {t}, woken := s.woken - {t}, emptied := s.emptied - {t});
    var s3, s4 := Goto(q, t, Writes(s, t, WLoad)), Goto(q, t, Writes(s, t, WCompare(s.rp)));
    WriteQueues(s2, t);
    GotoTwice(q, t, Writes(s, t, WEnqueue), Writes(s, t, WLoad));
    WriteLoads(s3, t);
    GotoTwice(q, t, Writes(s, t, WLoad), Writes(s, t, WCompare(s.rp)));
    WriteCompares(s4, t);
    GotoTwice(q, t, Writes(s, t, WCompare(s.rp)), Writes(s, t, WSleep));
    assert Alone(s2, t, 1) == s3;
    assert Alone(s2, t, 2) == s4;
  }

  lemma WriteGoesThrough(s: Pipe, t: Task) returns (m: nat, n: nat)
    requires Free(s) && AllQueuedOk(s) && At(s, t).Writing? && At(s, t).w.WDown?
    ensures WriteDoes(s, t, Alone(s, t, m), n)
  {
    if |Contents(s)| == s.size - 1 {
      n := 0;
      assert QueuedOk(s, t);
      m := WriteFindsNoRoom(s, t);
      hide Next, Free, Contents;
    } else {
      m := 7;
      n := RoomFor(s, At(s, t).data);
      WriteServes(s, t, n);
      WroteDoes(s, t, n);
    }
  }

  lemma RoomFor(s: Pipe, data: seq<Byte>) returns (n: nat)
    requires Free(s) && |Contents(s)| < s.size - 1
    ensures n == WriteCount(RingOf(s), |data|) && n <= WriteCount(RingOf(s), n) && n <= |data| && s.wp + n <= s.size
    ensures data != [] ==> n > 0
    ensures n == |data| || |Contents(s)| + n == s.size - 1 || s.wp + n == s.size
  {
    hide Queue, SpaceFree, WriteCount, Contents;
    WriteProgress(RingOf(s), |data|);
    n := WriteCount(RingOf(s), |data|);
  }

  lemma WroteDoes(s: Pipe, t: Task, n: nat)
    requires Free(s) && QueuedOk(s, t) && |Contents(s)| < s.size - 1 && At(s, t).Writing? && At(s, t).w.WDown?
    requires var data := At(s, t).data;
             && n <= WriteCount(RingOf(s), n) && n <= |data| && s.wp + n <= s.size && (data != [] ==> n > 0)
             && (n == |data| || |Contents(s)| + n == s.size - 1 || s.wp + n == s.size)
    ensures WriteDoes(s, t, Wrote(s, t, n), n)
  {
    hide Queue, SpaceFree, Overlay, WriteCount, Contents;
    var d, r := At(s, t).data[..n], RingOf(s);
    WriteAppends(r, d);
    ContentsAre(Wrote(s, t, n), AfterWrite(r.(buf := Overlay(r.buf, r.wp, d)), n));
  }

  lemma WokenWriteGoesThrough(s: Pipe, t: Task) returns (m: nat, n: nat)
    requires Orderly(s) && s.sem == None && At(s, t).Writing? && At(s, t).w.WSleep? && t in s.woken
    ensures WriteDoes(s, t, Alone(s, t, m), n)
  {
    hide Next, Safe, QueuedOk, WriteDoes, SpaceFree, Queue, Contents;
    NobodyInside(s, t);
    WriteIsWoken(s, t);
    AloneIsOrderly(s, t, 1);
    var s1 := Alone(s, t, 1);
    assert s1 == Next(s, t, Go);
    hide Alone;
    NobodyInside(s1, t);
    SameContents(s, s1);
    assert QueuedOk(s, t);
    var k;
    k, n := WriteGoesThrough(s1, t);
    m := 1 + k;
    AloneOn(s, t, 1, k);
    WriteDoesSo(s, t, s1, Alone(s, t, m), n);
  }

  lemma WriteDoesSo(s: Pipe, t: Task, s1: Pipe, s': Pipe, n: nat)
    requires At(s, t).Writing? && At(s, t).w.WSleep? && QueuedOk(s, t) && Contents(s1) == Contents(s)
    requires s1 == Dequeue(s, t, Writes(s, t, WDown)) && WriteDoes(s1, t, s', n)
    ensures WriteDoes(s, t, s', n)
  {
    hide Contents;
  }

  // ------------------------------------------------------------- main results on writes

  /** A write that begins when nobody is inside, and is left alone, does what a write should. */
  lemma AWriteAlone(size: nat, schedule: Schedule, t: Task, f: File, nonblock: bool, data: seq<Byte>)
    returns (m: nat, n: nat)
    requires 2 <= size && Run(size, schedule).sem == None
    requires Begins(Run(size, schedule), t, StartWrite(f, nonblock, data))
    ensures var s := Run(size, schedule);
            var s1 := Next(s, t, StartWrite(f, nonblock, data));
            && At(s1, t).Writing? && CallOf(At(s1, t)) == StartWrite(f, nonblock, data)
            && s1 == Goto(s, t, At(s1, t)) && Contents(s1) == Contents(s)
            && WriteDoes(s1, t, Alone(s1, t, m), n)
  {
    hide RunFrom, Safe, AllQueuedOk, Free, Alone;
    OrderlyRun(size, schedule);
    var s := Run(size, schedule);
    var s1 := Next(s, t, StartWrite(f, nonblock, data));
    WriteStarts(s, t, f, nonblock, data);
    SafeStep(s, t, StartWrite(f, nonblock, data));
    QueuedOkStep(s, t, StartWrite(f, nonblock, data));
    hide Next, WriteDoes;
    NobodyInside(s1, t);
    m, n := WriteGoesThrough(s1, t);
  }

  lemma WriteStarts(s: Pipe, t: Task, f: File, nonblock: bool, data: seq<Byte>)
    requires Begins(s, t, StartWrite(f, nonblock, data)) && s.sem == None
    ensures var s1 := Next(s, t, StartWrite(f, nonblock, data));
            s1 == Goto(s, t, Writing(f, nonblock, data, WDown)) && Contents(s1) == Contents(s)
  {
    hide NotClosing, Queue;
  }

  /** A writer that has been woken, when nobody is inside, and is left alone, goes on to do just
      the same: it writes what there is room for, or sleeps again if there is none. */
  lemma AWokenWriteGoesOn(size: nat, schedule: Schedule, t: Task) returns (m: nat, n: nat)
    requires var s := Run(size, schedule);
             2 <= size && s.sem == None && At(s, t).Writing? && At(s, t).w.WSleep? && t in s.woken
    ensures WriteDoes(Run(size, schedule), t, Alone(Run(size, schedule), t, m), n)
  {
    hide RunFrom, Safe, AllQueuedOk, Alone, Next, WriteDoes;
    OrderlyRun(size, schedule);
    m, n := WokenWriteGoesThrough(Run(size, schedule), t);
  }
}
