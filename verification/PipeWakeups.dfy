/** Who is asleep on scullpipe's two queues, and who still owes a wake-up. */
module PipeWakeups {
  import opened Common
  import opened PipeRing
  import opened PipeProtocol
  import opened PipeSafety

  /** A writer that has advanced `wp` and not yet woken inq. */
  ghost predicate OwesReaders(pc: Pc) {
    pc.Writing? && (pc.w.WWrap? || pc.w.WUp? || pc.w.WWake?)
  }

  /** A reader that has advanced `rp` and not yet woken outq. */
  ghost predicate OwesWriters(pc: Pc) {
    pc.Reading? && (pc.r.RWrap? || pc.r.RUp? || pc.r.RWake?)
  }

  ghost predicate ReadersOwed(s: Pipe) {
    exists t: Task :: OwesReaders(At(s, t))
  }

  ghost predicate WritersOwed(s: Pipe) {
    exists t: Task :: OwesWriters(At(s, t))
  }

  /** spacefree(dev) == 0 on the fields as any task would read them. */
  ghost predicate Full(s: Pipe) {
    Measurable(s, s.rp) && SpaceFree(s.rp, s.wp, s.size) == 0
  }

  ghost predicate ReaderAsleep(s: Pipe, t: Task) {
    At(s, t).Reading? && At(s, t).r.RSleep? && t !in s.woken
  }

  ghost predicate WriterAsleep(s: Pipe, t: Task) {
    At(s, t).Writing? && At(s, t).w.WSleep? && t !in s.woken
  }

  // ------------------------------------------------------------- readers

  /** A queued reader that nobody has woken: once it has loaded `rp`, a `wp` equal to it
      means an empty ring unless a wake-up is on its way; asleep, the ring is empty unless
      a wake-up is on its way. */
  ghost predicate ReaderOk(s: Pipe, u: Task) {
    var pc := At(s, u);
    pc.Reading? ==>
      && (pc.r.RSleep? ==> u in s.inq)
      && (pc.r.RSleep? && u !in s.woken ==> ReadersOwed(s) || Contents(s) == [])
      && (pc.r.RCompare? && u in s.inq && u !in s.woken ==>
            ReadersOwed(s) || (pc.r.seen == s.wp ==> Contents(s) == []))
  }

  /** If no wake-up of readers is pending after a step, then either it has just been
      delivered, or the ring has gained nothing. */
  ghost predicate NothingGained(s: Pipe, t: Task, s': Pipe) {
    || s.inq - {t} <= s'.woken
    || (!ReadersOwed(s) && (Contents(s') == [] || (s'.wp == s.wp && Contents(s) != [])))
  }

  lemma ReadersOwedStays(s: Pipe, t: Task, c: Choice)
    requires ReadersOwed(s) && !(At(s, t).Writing? && At(s, t).w.WWake? && c == Go)
    ensures ReadersOwed(Next(s, t, c))
  {
    NextMoves(s, t, c);
    var w: Task :| OwesReaders(At(s, w));
    assert OwesReaders(At(Next(s, t, c), w));
  }

  /** Only a writer that then owes a wake-up adds bytes; only it, or an open, moves `wp`. */
  ghost predicate AddsLikeAWriter(s: Pipe, t: Task, s': Pipe) {
    && |s.taken| <= |s'.taken|
    && (s'.accepted == s.accepted || OwesReaders(At(s', t)))
    && (s'.wp == s.wp || OwesReaders(At(s', t)) || At(s', t).OpenRp?)
  }

  lemma NextAdds(s: Pipe, t: Task, c: Choice)
    ensures AddsLikeAWriter(s, t, Next(s, t, c))
  {
    hide ReadStep, WriteStep, Contents, Unused, NotClosing;
    if At(s, t).Reading? {
      ReadAdds(s, t, c);
    } else if At(s, t).Writing? {
      WriteAdds(s, t, c);
    }
  }

  lemma ReadAdds(s: Pipe, t: Task, c: Choice)
    requires At(s, t).Reading?
    ensures AddsLikeAWriter(s, t, ReadStep(s, t, c, At(s, t)))
  {
  }

  lemma WriteAdds(s: Pipe, t: Task, c: Choice)
    requires At(s, t).Writing?
    ensures AddsLikeAWriter(s, t, WriteStep(s, t, c, At(s, t)))
  {
  }

  lemma GainsOwe(s: Pipe, t: Task, c: Choice)
    requires Safe(s) && !ReadersOwed(Next(s, t, c))
    ensures NothingGained(s, t, Next(s, t, c))
  {
    var s' := Next(s, t, c);
    SafeStep(s, t, c);
    NextAdds(s, t, c);
    assert !OwesReaders(At(s', t));
    if ReadersOwed(s) {
      if !(At(s, t).Writing? && At(s, t).w.WWake? && c == Go) {
        ReadersOwedStays(s, t, c);
      }
    } else if At(s', t).OpenRp? {
      assert InCritical(At(s', t));
    } else {
      assert |s.accepted| == |s.taken| + |Contents(s)|;
      assert |s'.accepted| == |s'.taken| + |Contents(s')|;
    }
  }

  /** Queues and wake-ups of the tasks that do not move. */
  ghost predicate QueuesKept(s: Pipe, t: Task, s': Pipe) {
    && (forall u: Task :: u != t ==> (u in s'.inq <==> u in s.inq) && (u in s'.outq <==> u in s.outq))
    && (forall u: Task :: u != t && u in s.woken ==> u in s'.woken)
    && (forall u: Task :: u != t && u in s.emptied ==> u in s'.emptied)
  }

  lemma NextKeepsQueues(s: Pipe, t: Task, c: Choice)
    ensures QueuesKept(s, t, Next(s, t, c))
  {
    hide ReadStep, WriteStep, Contents, Unused, NotClosing, Discard;
    if At(s, t).Reading? {
      ReadKeepsQueues(s, t, c);
    } else if At(s, t).Writing? {
      WriteKeepsQueues(s, t, c);
    }
  }

  lemma ReadKeepsQueues(s: Pipe, t: Task, c: Choice)
    requires At(s, t).Reading?
    ensures QueuesKept(s, t, ReadStep(s, t, c, At(s, t)))
  {
  }

  lemma WriteKeepsQueues(s: Pipe, t: Task, c: Choice)
    requires At(s, t).Writing?
    ensures QueuesKept(s, t, WriteStep(s, t, c, At(s, t)))
  {
  }

  ghost predicate ReadersOk(s: Pipe) {
    forall u: Task :: ReaderOk(s, u)
  }

  lemma OtherReaderOk(s: Pipe, t: Task, c: Choice, u: Task)
    requires Safe(s) && ReaderOk(s, u) && u != t
    ensures ReaderOk(Next(s, t, c), u)
  {
    var s' := Next(s, t, c);
    NextMoves(s, t, c);
    NextKeepsQueues(s, t, c);
    if !ReadersOwed(s') {
      GainsOwe(s, t, c);
    }
  }

  lemma OwnReaderOk(s: Pipe, t: Task, c: Choice)
    requires Safe(s) && ReaderOk(s, t) && At(s, t).Reading?
    ensures ReaderOk(ReadStep(s, t, c, At(s, t)), t)
  {
    var s' := ReadStep(s, t, c, At(s, t));
    var r := At(s, t).r;
    assert s' == Next(s, t, c);
    if s' != s && r.RLoad? {
      OwnLoadOk(s, t, c);
    } else if s' != s && r.RCompare? {
      OwnCompareOk(s, t, c);
    } else if s' != s {
      ElsewhereReaderOk(s, t, c);
    }
  }

  lemma OwnLoadOk(s: Pipe, t: Task, c: Choice)
    requires Safe(s) && At(s, t).Reading? && At(s, t).r.RLoad? && c == Go
    ensures ReaderOk(ReadStep(s, t, c, At(s, t)), t)
  {
    OwnWaitKeepsContents(s, t, c);
    if ReadersOwed(s) {
      ReadersOwedStays(s, t, c);
    } else {
      LoadSeesEmpty(s);
    }
  }

  lemma OwnCompareOk(s: Pipe, t: Task, c: Choice)
    requires Safe(s) && ReaderOk(s, t) && At(s, t).Reading? && At(s, t).r.RCompare? && c == Go
    ensures ReaderOk(ReadStep(s, t, c, At(s, t)), t)
  {
    OwnWaitKeepsContents(s, t, c);
    if ReadersOwed(s) {
      ReadersOwedStays(s, t, c);
    }
  }

  lemma ElsewhereReaderOk(s: Pipe, t: Task, c: Choice)
    requires At(s, t).Reading? && !At(s, t).r.RLoad? && !At(s, t).r.RCompare?
    requires ReadStep(s, t, c, At(s, t)) != s
    ensures var pc := At(ReadStep(s, t, c, At(s, t)), t);
            pc.Reading? ==> !pc.r.RSleep? && !pc.r.RCompare?
  {
    hide Contents, CopyOut, Deliver, Wrap;
    match At(s, t).r
    case RDown => case RTest => case REnqueue => case RSleep =>
    case RCopy => case RAdvance(_) => case RWrap(_) => case RUp(_) => case RWake(_) =>
  }

  /** With no writer in between, equal pointers mean an empty ring. */
  lemma LoadSeesEmpty(s: Pipe)
    requires Safe(s) && !ReadersOwed(s)
    ensures s.rp == s.wp ==> Contents(s) == []
  {
    if s.wp == s.size {
      assert OwesReaders(At(s, s.sem.value));
    }
  }

  lemma OwnWaitKeepsContents(s: Pipe, t: Task, c: Choice)
    requires Safe(s) && At(s, t).Reading? && !InCritical(At(s, t))
    requires !At(s, t).r.RDown?
    ensures Contents(ReadStep(s, t, c, At(s, t))) == Contents(s)
  {
    ReadOutsideFrame(s, t, c);
    HolderFrame(s, t, c);
  }

  lemma ReadersOkStep(s: Pipe, t: Task, c: Choice)
    requires Safe(s) && ReadersOk(s)
    ensures ReadersOk(Next(s, t, c))
  {
    forall u: Task
      ensures ReaderOk(Next(s, t, c), u)
    {
      assert ReaderOk(s, u);
      if u != t {
        OtherReaderOk(s, t, c, u);
      } else if At(s, t).Reading? {
        OwnReaderOk(s, t, c);
      } else {
        NotReadingStartsAfresh(s, t, c);
      }
    }
  }

  lemma NotReadingStartsAfresh(s: Pipe, t: Task, c: Choice)
    requires !At(s, t).Reading?
    ensures At(Next(s, t, c), t).Reading? ==> At(Next(s, t, c), t).r.RDown?
  {
    hide ReadStep, WriteStep, Contents;
    if At(s, t).Writing? {
      WriteStays(s, t, c);
    }
  }

  // ------------------------------------------------------------- writers

  /** The same for writers, save for those that were queued when an open reset a pointer:
      scull_p_open empties the ring and wakes nobody. */
  ghost predicate WriterOk(s: Pipe, u: Task) {
    var pc := At(s, u);
    pc.Writing? ==>
      && (pc.w.WSleep? || pc.w.WCompare? || pc.w.WLoad? ==> u in s.outq)
      && (pc.w.WSleep? && u !in s.woken ==> WritersOwed(s) || u in s.emptied || Full(s))
      && (pc.w.WCompare? && u !in s.woken ==> WritersOwed(s) || u in s.emptied || pc.w.seen == s.rp)
  }

  lemma WritersOwedStays(s: Pipe, t: Task, c: Choice)
    requires WritersOwed(s) && !(At(s, t).Reading? && At(s, t).r.RWake? && c == Go)
    ensures WritersOwed(Next(s, t, c))
  {
    NextMoves(s, t, c);
    var w: Task :| OwesWriters(At(s, w));
    assert OwesWriters(At(Next(s, t, c), w));
  }

  /** Only a reader that then owes a wake-up, or an open, makes a full ring less than full. */
  ghost predicate FreesLikeAReader(s: Pipe, t: Task, s': Pipe) {
    || OwesWriters(At(s', t))
    || ((At(s, t).OpenAlloc? || At(s, t).OpenRp?) && s.outq <= s'.emptied)
    || (s'.rp == s.rp && (Full(s) ==> Full(s')))
  }

  lemma NextFrees(s: Pipe, t: Task, c: Choice)
    requires Safe(s) && s.buffer.Some?
    ensures FreesLikeAReader(s, t, Next(s, t, c))
  {
    hide ReadStep, WriteStep, Contents, Unused, NotClosing, SpaceFree;
    if !InCritical(At(s, t)) {
      OutsideFrame(s, t, c);
    } else if At(s, t).Reading? {
      ReadFrees(s, t, c);
    } else if At(s, t).Writing? {
      WriteFrees(s, t, c);
    }
  }

  lemma ReadFrees(s: Pipe, t: Task, c: Choice)
    requires At(s, t).Reading?
    ensures FreesLikeAReader(s, t, ReadStep(s, t, c, At(s, t)))
  {
  }

  lemma WriteFrees(s: Pipe, t: Task, c: Choice)
    requires Safe(s) && At(s, t).Writing? && InCritical(At(s, t))
    ensures FreesLikeAReader(s, t, WriteStep(s, t, c, At(s, t)))
  {
    hide Contents, Overlay, SpaceFree;
    assert s.sem == Some(t);
    var w := At(s, t).w;
    if w.WWrap? {
      WrapKeepsFull(s.rp, s.size);
    }
  }

  /** A `wp` at the end of the array measures like one at its start. */
  lemma WrapKeepsFull(rp: nat, size: nat)
    requires 2 <= size && rp < size
    ensures SpaceFree(rp, size, size) == 0 ==> SpaceFree(rp, 0, size) == 0
  {
    ModSmall(rp, size);
    ModPlus(rp, size);
  }

  lemma OtherWriterOk(s: Pipe, t: Task, c: Choice, u: Task)
    requires Safe(s) && WriterOk(s, u) && u != t
    ensures WriterOk(Next(s, t, c), u)
  {
    var s' := Next(s, t, c);
    NextMoves(s, t, c);
    NextKeepsQueues(s, t, c);
    if At(s, u).Writing? && !WritersOwed(s') {
      assert !OwesWriters(At(s', t));
      CallHasBuffer(s, u);
      NextFrees(s, t, c);
      if WritersOwed(s) && !(At(s, t).Reading? && At(s, t).r.RWake? && c == Go) {
        WritersOwedStays(s, t, c);
      }
    }
  }

  lemma OwnWriterOk(s: Pipe, t: Task, c: Choice)
    requires Safe(s) && WriterOk(s, t) && At(s, t).Writing?
    ensures WriterOk(WriteStep(s, t, c, At(s, t)), t)
  {
    var s' := WriteStep(s, t, c, At(s, t));
    var w := At(s, t).w;
    assert s' == Next(s, t, c);
    if s' != s && w.WCompare? {
      OwnMeasureOk(s, t, c);
    } else if s' != s {
      ElsewhereWriterOk(s, t, c);
    }
  }

  lemma OwnMeasureOk(s: Pipe, t: Task, c: Choice)
    requires Safe(s) && WriterOk(s, t) && At(s, t).Writing? && At(s, t).w.WCompare? && c == Go
    ensures WriterOk(WriteStep(s, t, c, At(s, t)), t)
  {
    hide WriteTransfer, Contents, SpaceFree, WritersOwed;
    if WritersOwed(s) {
      WritersOwedStays(s, t, c);
    }
  }

  lemma ElsewhereWriterOk(s: Pipe, t: Task, c: Choice)
    requires At(s, t).Writing? && WriterOk(s, t) && !At(s, t).w.WCompare?
    requires WriteStep(s, t, c, At(s, t)) != s
    ensures var s' := WriteStep(s, t, c, At(s, t));
            At(s', t).Writing? ==>
              && !At(s', t).w.WSleep?
              && (At(s', t).w.WLoad? || At(s', t).w.WCompare? ==> t in s'.outq)
              && (At(s', t).w.WCompare? ==> At(s', t).w.seen == s'.rp)
  {
    hide Contents, Overlay, WriteCount, SpaceFree, Wrap, WriteWait, WriteTransfer;
    if Transferring(At(s, t)) {
      TransferringDoesNotWait(s, t, c);
    } else {
      WaitingElsewhere(s, t, c);
    }
  }

  lemma WaitingElsewhere(s: Pipe, t: Task, c: Choice)
    requires At(s, t).Writing? && !Transferring(At(s, t)) && !At(s, t).w.WCompare? && WriterOk(s, t)
    requires WriteWait(s, t, c, At(s, t)) != s
    ensures var s' := WriteWait(s, t, c, At(s, t));
            At(s', t).Writing? ==>
              && !At(s', t).w.WSleep?
              && (At(s', t).w.WLoad? || At(s', t).w.WCompare? ==> t in s'.outq)
              && (At(s', t).w.WCompare? ==> At(s', t).w.seen == s'.rp)
  {
    hide SpaceFree, WritersOwed, Full;
  }

  lemma TransferringDoesNotWait(s: Pipe, t: Task, c: Choice)
    requires At(s, t).Writing? && Transferring(At(s, t))
    requires WriteTransfer(s, t, c, At(s, t)) != s
    ensures var pc := At(WriteTransfer(s, t, c, At(s, t)), t);
            pc.Idle? || (pc.Writing? && Transferring(pc))
  {
    hide Contents, Overlay, WriteCount, SpaceFree, Wrap;
  }

  ghost predicate WritersOk(s: Pipe) {
    forall u: Task :: WriterOk(s, u)
  }

  lemma WritersOkStep(s: Pipe, t: Task, c: Choice)
    requires Safe(s) && WritersOk(s)
    ensures WritersOk(Next(s, t, c))
  {
    forall u: Task
      ensures WriterOk(Next(s, t, c), u)
    {
      assert WriterOk(s, u);
      if u != t {
        OtherWriterOk(s, t, c, u);
      } else if At(s, t).Writing? {
        OwnWriterOk(s, t, c);
      } else {
        NotWritingStartsAfresh(s, t, c);
      }
    }
  }

  lemma NotWritingStartsAfresh(s: Pipe, t: Task, c: Choice)
    requires !At(s, t).Writing?
    ensures At(Next(s, t, c), t).Writing? ==> At(Next(s, t, c), t).w.WDown?
  {
    hide ReadStep, WriteStep, Contents;
    if At(s, t).Reading? {
      ReadStays(s, t, c);
    }
  }

  // ------------------------------------------------------------- every run

  ghost predicate Attended(s: Pipe) {
    Safe(s) && ReadersOk(s) && WritersOk(s)
  }

  lemma AttendedStep(s: Pipe, t: Task, c: Choice)
    requires Attended(s)
    ensures Attended(Next(s, t, c))
  {
    SafeStep(s, t, c);
    ReadersOkStep(s, t, c);
    WritersOkStep(s, t, c);
  }

  lemma {:induction false} AttendedRun(size: nat, schedule: Schedule)
    requires 2 <= size
    ensures Attended(Run(size, schedule))
  {
    if schedule == [] {
      SafeInit(size);
    } else {
      var n := |schedule| - 1;
      AttendedRun(size, schedule[..n]);
      AttendedStep(Run(size, schedule[..n]), schedule[n].0, schedule[n].1);
    }
  }

  /** No reader's wake-up is lost: in every run, a reader asleep on inq means the ring is
      empty, or a writer that has advanced `wp` is still to wake it. */
  lemma NoReaderIsLost(size: nat, schedule: Schedule, t: Task)
    requires 2 <= size && ReaderAsleep(Run(size, schedule), t)
    ensures var s := Run(size, schedule); Contents(s) == [] || ReadersOwed(s)
  {
    AttendedRun(size, schedule);
    assert ReaderOk(Run(size, schedule), t);
  }

  /** A writer asleep on outq means the ring is full, or a reader that has advanced `rp` is
      still to wake it, or an open reset a pointer after the writer had queued. */
  lemma NoWriterIsLostButByOpen(size: nat, schedule: Schedule, t: Task)
    requires 2 <= size && WriterAsleep(Run(size, schedule), t)
    ensures var s := Run(size, schedule); Full(s) || WritersOwed(s) || t in s.emptied
  {
    AttendedRun(size, schedule);
    assert WriterOk(Run(size, schedule), t);
  }

  /** A writer asleep although there is space and nobody is going to wake it. */
  ghost predicate Stranded(s: Pipe, t: Task) {
    WriterAsleep(s, t) && !Full(s) && !WritersOwed(s)
  }

  ghost predicate SomeStranded(s: Pipe) {
    exists t: Task :: Stranded(s, t)
  }

  ghost predicate SomeWriterAsleep(s: Pipe) {
    exists t: Task :: WriterAsleep(s, t)
  }

  /** The step by which an open resets a pointer of a ring and so leaves space in it. */
  ghost predicate OpenMakesRoom(s: Pipe, t: Task, c: Choice) {
    c == Go && ((At(s, t).OpenAlloc? && s.rp != 1) || At(s, t).OpenRp?)
  }

  /** The step by which a writer falls asleep on an `rp` that an open has since reset. */
  ghost predicate SleepsOnStaleMeasure(s: Pipe, t: Task, c: Choice) {
    && c == Go && At(s, t).Writing? && At(s, t).w.WCompare? && t !in s.woken && t in s.emptied
    && Measurable(s, At(s, t).w.seen) && SpaceFree(At(s, t).w.seen, s.wp, s.size) == 0
    && !Full(s)
  }

  /** Exactly which steps strand a writer: with no wake-up on its way, an open that makes
      room while a writer sleeps, or a writer going to sleep on what it measured before one. */
  lemma WhatStrandsAWriter(size: nat, schedule: Schedule, t: Task, c: Choice)
    requires 2 <= size
    requires !SomeStranded(Run(size, schedule))
    ensures var s := Run(size, schedule);
            SomeStranded(Next(s, t, c)) <==>
            && !WritersOwed(s)
            && ((OpenMakesRoom(s, t, c) && SomeWriterAsleep(s)) || SleepsOnStaleMeasure(s, t, c))
  {
    var s := Run(size, schedule);
    var s' := Next(s, t, c);
    AttendedRun(size, schedule);
    if SomeStranded(s') {
      var u: Task :| Stranded(s', u);
      StrandedHow(s, t, c, u);
    }
    if !WritersOwed(s) && OpenMakesRoom(s, t, c) && SomeWriterAsleep(s) {
      var u: Task :| WriterAsleep(s, u);
      OpenStrands(s, t, c, u);
    }
    if !WritersOwed(s) && SleepsOnStaleMeasure(s, t, c) {
      StaleStrands(s, t, c);
    }
  }

  lemma OpenStrands(s: Pipe, t: Task, c: Choice, u: Task)
    requires Attended(s) && !WritersOwed(s) && OpenMakesRoom(s, t, c) && WriterAsleep(s, u)
    ensures Stranded(Next(s, t, c), u)
  {
    hide ReadStep, WriteStep;
    var s' := Next(s, t, c);
    CallHasBuffer(s, u);
    NotOwedStays(s, t, c);
    assert s.sem == Some(t);
    if At(s, t).OpenAlloc? {
      if s.rp == 0 {
      } else {
        ModPlus(s.rp, s.size);
      }
    }
  }

  /** Only a reader comes to owe writers a wake-up. */
  lemma NotOwedStays(s: Pipe, t: Task, c: Choice)
    requires !WritersOwed(s) && !At(s, t).Reading?
    ensures !WritersOwed(Next(s, t, c))
  {
    hide ReadStep, WriteStep;
    NextMoves(s, t, c);
    NotReadingStartsAfresh(s, t, c);
    forall w: Task
      ensures !OwesWriters(At(Next(s, t, c), w))
    {
      assert !OwesWriters(At(s, w));
    }
  }

  lemma StaleStrands(s: Pipe, t: Task, c: Choice)
    requires Attended(s) && !WritersOwed(s) && SleepsOnStaleMeasure(s, t, c)
    ensures Stranded(Next(s, t, c), t)
  {
    NotOwedStays(s, t, c);
  }

  lemma StrandedHow(s: Pipe, t: Task, c: Choice, u: Task)
    requires Attended(s) && !SomeStranded(s) && Stranded(Next(s, t, c), u)
    ensures !WritersOwed(s)
    ensures (OpenMakesRoom(s, t, c) && SomeWriterAsleep(s)) || SleepsOnStaleMeasure(s, t, c)
  {
    var s' := Next(s, t, c);
    assert WriterOk(s, u) && !Stranded(s, u);
    NextMoves(s, t, c);
    NextKeepsQueues(s, t, c);
    assert !OwesWriters(At(s', t));
    if u == t {
      StrandsItself(s, t, c);
    } else {
      assert WriterAsleep(s, u);
      if WritersOwed(s) && !(At(s, t).Reading? && At(s, t).r.RWake? && c == Go) {
        WritersOwedStays(s, t, c);
      }
      assert Full(s) && !WritersOwed(s);
      CallHasBuffer(s, u);
      NextFrees(s, t, c);
      assert s.sem == Some(t);
      if At(s, t).OpenAlloc? && s.rp == 1 {
        ModPlus(1, s.size);
      }
    }
  }

  lemma StrandsItself(s: Pipe, t: Task, c: Choice)
    requires Attended(s) && !Stranded(s, t) && Stranded(Next(s, t, c), t)
    ensures !WritersOwed(s) && SleepsOnStaleMeasure(s, t, c)
  {
    assert WriterOk(s, t);
    if WritersOwed(s) {
      WritersOwedStays(s, t, c);
    }
    if !At(s, t).Writing? {
      NotWritingStartsAfresh(s, t, c);
    } else if !At(s, t).w.WCompare? && Next(s, t, c) != s {
      ElsewhereWriterOk(s, t, c);
    }
  }
}
