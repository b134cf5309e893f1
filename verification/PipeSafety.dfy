/** What every run of PipeProtocol keeps: mutual exclusion, handle counts, ring bounds,
    and no byte lost, duplicated or reordered. */
module PipeSafety {
  import opened Common
  import opened PipeRing
  import opened PipeProtocol

  // ------------------------------------------------------------- the semaphore

  /** A step moves only the task that takes it, and moves the semaphore only with it. */
  ghost predicate Moves(s: Pipe, t: Task, s': Pipe) {
    && (forall u: Task :: u != t ==> At(s', u) == At(s, u))
    && s'.size == s.size
    && (|| (s'.sem == s.sem && InCritical(At(s', t)) == InCritical(At(s, t)))
        || (s.sem == None && s'.sem == Some(t) && InCritical(At(s', t)))
        || (InCritical(At(s, t)) && s'.sem == None && !InCritical(At(s', t))))
  }

  lemma NextMoves(s: Pipe, t: Task, c: Choice)
    ensures Moves(s, t, Next(s, t, c))
  {
    hide Start, OpenStep, CloseStep, ReadStep, WriteStep, Moves;
    var pc := At(s, t);
    if pc.Idle? {
      StartMoves(s, t, c);
    } else if pc.Reading? {
      ReadMoves(s, t, c);
    } else if pc.Writing? {
      WriteMoves(s, t, c);
    } else {
      OpenMoves(s, t, c);
    }
  }

  lemma StartMoves(s: Pipe, t: Task, c: Choice)
    requires At(s, t).Idle?
    ensures Moves(s, t, Start(s, t, c))
  {
  }

  lemma OpenMoves(s: Pipe, t: Task, c: Choice)
    requires !At(s, t).Idle? && !At(s, t).Reading? && !At(s, t).Writing?
    ensures Moves(s, t, Next(s, t, c))
  {
    hide Start, ReadStep, WriteStep, OpenStep, CloseStep, Moves;
    if Closing(At(s, t)) {
      ClosingMoves(s, t, c);
    } else {
      OpeningMoves(s, t, c);
    }
  }

  lemma ClosingMoves(s: Pipe, t: Task, c: Choice)
    requires Closing(At(s, t))
    ensures Moves(s, t, CloseStep(s, t, c, At(s, t)))
  {
    hide Contents, Discard;
  }

  lemma OpeningMoves(s: Pipe, t: Task, c: Choice)
    requires At(s, t).OpenDown? || At(s, t).OpenAlloc? || At(s, t).OpenRp? || At(s, t).OpenCount?
    ensures Moves(s, t, OpenStep(s, t, c, At(s, t)))
  {
    hide Contents, Discard;
  }

  lemma ReadMoves(s: Pipe, t: Task, c: Choice)
    requires At(s, t).Reading?
    ensures Moves(s, t, ReadStep(s, t, c, At(s, t)))
  {
    if Transferring(At(s, t)) {
      ReadTransferMoves(s, t, c);
    } else {
      ReadWaitMoves(s, t, c);
    }
  }

  lemma ReadWaitMoves(s: Pipe, t: Task, c: Choice)
    requires At(s, t).Reading? && !Transferring(At(s, t))
    ensures Moves(s, t, ReadWait(s, t, c, At(s, t)))
  {
  }

  lemma ReadTransferMoves(s: Pipe, t: Task, c: Choice)
    requires At(s, t).Reading? && Transferring(At(s, t))
    ensures Moves(s, t, ReadTransfer(s, t, c, At(s, t)))
  {
  }

  lemma WriteMoves(s: Pipe, t: Task, c: Choice)
    requires At(s, t).Writing?
    ensures Moves(s, t, WriteStep(s, t, c, At(s, t)))
  {
    if Transferring(At(s, t)) {
      WriteTransferMoves(s, t, c);
    } else {
      WriteWaitMoves(s, t, c);
    }
  }

  lemma WriteWaitMoves(s: Pipe, t: Task, c: Choice)
    requires At(s, t).Writing? && !Transferring(At(s, t))
    ensures Moves(s, t, WriteWait(s, t, c, At(s, t)))
  {
  }

  lemma WriteTransferMoves(s: Pipe, t: Task, c: Choice)
    requires At(s, t).Writing? && Transferring(At(s, t))
    ensures Moves(s, t, WriteTransfer(s, t, c, At(s, t)))
  {
  }

  ghost predicate Exclusive(s: Pipe) {
    forall t: Task :: InCritical(At(s, t)) <==> s.sem == Some(t)
  }

  lemma ExclusiveStep(s: Pipe, t: Task, c: Choice)
    requires Exclusive(s)
    ensures Exclusive(Next(s, t, c))
  {
    NextMoves(s, t, c);
  }

  // ------------------------------------------------------------- handles

  ghost function Readers(files: map<File, Mode>): set<File> {
    set f | f in files && files[f].read
  }

  ghost function Writers(files: map<File, Mode>): set<File> {
    set f | f in files && files[f].write
  }

  /** A call in flight holds a handle of the right mode; a handle being released is in no
      other call. */
  ghost predicate CallOk(s: Pipe, t: Task) {
    var pc := At(s, t);
    && (UsedFile(pc).Some? ==> pc.file in s.files)
    && (pc.Reading? ==> s.files[pc.file].read)
    && (pc.Writing? ==> s.files[pc.file].write)
    && (Closing(pc) ==> forall u: Task :: u != t ==> UsedFile(At(s, u)) != Some(pc.file))
  }

  ghost predicate Counted(s: Pipe) {
    && s.nreaders == |Readers(s.files)|
    && s.nwriters == |Writers(s.files)|
    && (s.nreaders + s.nwriters > 0 ==> s.buffer.Some?)
    && (Holder(s).OpenRp? || Holder(s).OpenCount? ==> s.buffer.Some?)
    && (s.buffer.Some? ==> s.files != map[] || Holder(s).OpenRp? || Holder(s).OpenCount?)
  }

  /** Reads and writes neither open nor close anything, and return or stay in their call. */
  ghost predicate StaysInCall(s: Pipe, t: Task, s': Pipe) {
    var pc, pc' := At(s, t), At(s', t);
    && s'.files == s.files && s'.nreaders == s.nreaders && s'.nwriters == s.nwriters
    && s'.buffer.Some? == s.buffer.Some?
    && (pc'.Idle? || (pc'.Reading? && pc.Reading? && pc'.file == pc.file)
        || (pc'.Writing? && pc.Writing? && pc'.file == pc.file))
  }

  lemma ReadStays(s: Pipe, t: Task, c: Choice)
    requires At(s, t).Reading?
    ensures StaysInCall(s, t, ReadStep(s, t, c, At(s, t)))
  {
    if Transferring(At(s, t)) {
      ReadTransferStays(s, t, c);
    } else {
      ReadWaitStays(s, t, c);
    }
  }

  lemma ReadWaitStays(s: Pipe, t: Task, c: Choice)
    requires At(s, t).Reading? && !Transferring(At(s, t))
    ensures StaysInCall(s, t, ReadWait(s, t, c, At(s, t)))
  {
  }

  lemma ReadTransferStays(s: Pipe, t: Task, c: Choice)
    requires At(s, t).Reading? && Transferring(At(s, t))
    ensures StaysInCall(s, t, ReadTransfer(s, t, c, At(s, t)))
  {
  }

  lemma WriteStays(s: Pipe, t: Task, c: Choice)
    requires At(s, t).Writing?
    ensures StaysInCall(s, t, WriteStep(s, t, c, At(s, t)))
  {
    if Transferring(At(s, t)) {
      WriteTransferStays(s, t, c);
    } else {
      WriteWaitStays(s, t, c);
    }
  }

  lemma WriteWaitStays(s: Pipe, t: Task, c: Choice)
    requires At(s, t).Writing? && !Transferring(At(s, t))
    ensures StaysInCall(s, t, WriteWait(s, t, c, At(s, t)))
  {
  }

  lemma WriteTransferStays(s: Pipe, t: Task, c: Choice)
    requires At(s, t).Writing? && Transferring(At(s, t))
    ensures StaysInCall(s, t, WriteTransfer(s, t, c, At(s, t)))
  {
  }

  ghost predicate CallsOk(s: Pipe) {
    forall u: Task :: CallOk(s, u)
  }

  lemma CallsOkStep(s: Pipe, t: Task, c: Choice)
    requires CallsOk(s)
    ensures CallsOk(Next(s, t, c))
  {
    hide ReadStep, WriteStep;
    NextMoves(s, t, c);
    var s' := Next(s, t, c);
    assert CallOk(s, t);
    forall u: Task
      ensures CallOk(s', u)
    {
      assert CallOk(s, u);
      if At(s, t).Reading? {
        ReadStays(s, t, c);
      } else if At(s, t).Writing? {
        WriteStays(s, t, c);
      } else {
        OtherCallOk(s, t, c, u);
      }
    }
  }

  lemma OtherCallOk(s: Pipe, t: Task, c: Choice, u: Task)
    requires CallsOk(s) && Moves(s, t, Next(s, t, c))
    requires !At(s, t).Reading? && !At(s, t).Writing?
    ensures CallOk(Next(s, t, c), u)
  {
    hide Start, CloseStep, OpenStep, ReadStep, WriteStep, Contents, Discard;
    assert CallOk(s, t) && CallOk(s, u);
    if At(s, t).Idle? {
      StartCallOk(s, t, c, u);
    } else if Closing(At(s, t)) {
      CloseCallOk(s, t, c, u);
    } else {
      OpenCallOk(s, t, c, u);
    }
  }

  lemma StartCallOk(s: Pipe, t: Task, c: Choice, u: Task)
    requires CallOk(s, u) && At(s, t).Idle? && Moves(s, t, Start(s, t, c))
    ensures CallOk(Start(s, t, c), u)
  {
  }

  lemma CloseCallOk(s: Pipe, t: Task, c: Choice, u: Task)
    requires CallOk(s, t) && CallOk(s, u) && Closing(At(s, t)) && Moves(s, t, CloseStep(s, t, c, At(s, t)))
    ensures CallOk(CloseStep(s, t, c, At(s, t)), u)
  {
    hide Contents, Discard;
  }

  lemma OpenCallOk(s: Pipe, t: Task, c: Choice, u: Task)
    requires CallOk(s, u) && !At(s, t).Idle? && UsedFile(At(s, t)) == None
    requires Moves(s, t, OpenStep(s, t, c, At(s, t)))
    ensures CallOk(OpenStep(s, t, c, At(s, t)), u)
  {
    hide Contents, Discard;
  }

  lemma ReadersAdd(files: map<File, Mode>, f: File, m: Mode)
    requires f !in files
    ensures |Readers(files[f := m])| == |Readers(files)| + if m.read then 1 else 0
  {
    assert Readers(files[f := m]) == if m.read then Readers(files) + {f} else Readers(files);
  }

  lemma WritersAdd(files: map<File, Mode>, f: File, m: Mode)
    requires f !in files
    ensures |Writers(files[f := m])| == |Writers(files)| + if m.write then 1 else 0
  {
    assert Writers(files[f := m]) == if m.write then Writers(files) + {f} else Writers(files);
  }

  lemma FilesRemove(files: map<File, Mode>, f: File)
    requires f in files
    ensures |Readers(files - {f})| == |Readers(files)| - if files[f].read then 1 else 0
    ensures |Writers(files - {f})| == |Writers(files)| - if files[f].write then 1 else 0
  {
    var fewer := files - {f};
    assert Readers(fewer) == Readers(files) - {f} by {
      hide Writers;
    }
    assert Writers(fewer) == Writers(files) - {f} by {
      hide Readers;
    }
  }

  lemma CountedStep(s: Pipe, t: Task, c: Choice)
    requires Exclusive(s) && Counted(s)
    ensures Counted(Next(s, t, c))
  {
    hide ReadStep, WriteStep, Readers, Writers, Contents, Discard;
    ExclusiveStep(s, t, c);
    NextMoves(s, t, c);
    HolderFrame(s, t, c);
    var pc := At(s, t);
    if pc.Reading? {
      ReadStays(s, t, c);
    } else if pc.Writing? {
      WriteStays(s, t, c);
    } else if pc.OpenCount? && c.Handle? && c.file !in s.files {
      ReadersAdd(s.files, c.file, pc.mode);
      WritersAdd(s.files, c.file, pc.mode);
      assert c.file in Next(s, t, c).files;
    } else if pc.CloseCount? && c == Go && pc.file in s.files {
      FilesRemove(s.files, pc.file);
      NoFiles(s.files - {pc.file});
    }
  }

  lemma NoFiles(files: map<File, Mode>)
    ensures files == map[] ==> Readers(files) == {} && Writers(files) == {}
  {
  }

  /** The holder's position changes only by the holder's own step, or by acquiring. */
  lemma HolderFrame(s: Pipe, t: Task, c: Choice)
    requires Exclusive(s)
    ensures var s' := Next(s, t, c);
            if s.sem != None && s.sem != Some(t) then Holder(s') == Holder(s)
            else Holder(s') == if InCritical(At(s', t)) then At(s', t) else Idle
  {
    NextMoves(s, t, c);
    assert InCritical(At(s, t)) <==> s.sem == Some(t);
  }

  // ------------------------------------------------------------- the ring

  /** Both pointers stay inside the array, save that the task that has just advanced one to
      the end, and still holds the semaphore, has yet to wrap it. */
  ghost predicate InBounds(s: Pipe) {
    var h := Holder(s);
    && 2 <= s.size
    && (s.buffer.Some? ==> |s.buffer.value| == s.size)
    && (s.rp < s.size || (s.rp == s.size && h.Reading? && h.r.RWrap?))
    && (s.wp < s.size || (s.wp == s.size && h.Writing? && h.w.WWrap?))
    && (h.OpenRp? ==> s.wp == 0)
  }

  /** What the holder of the semaphore has established about the ring. */
  ghost predicate HolderOk(s: Pipe)
    requires InBounds(s)
  {
    match Holder(s)
    case Reading(_, _, want, r) =>
      && s.buffer.Some?
      && (r.RCopy? ==> s.rp != s.wp)
      && (r.RAdvance? ==>
            && s.rp != s.wp
            && |r.got| == ReadCount(RingOf(s), want)
            && r.got == s.buffer.value[s.rp..s.rp + |r.got|])
    case Writing(_, _, data, w) =>
      && s.buffer.Some?
      && (w.WCopy? || w.WAdvance? ==> SpaceFree(s.rp, s.wp, s.size) != 0)
      && (w.WAdvance? ==>
            && w.count <= |data| && w.count == WriteCount(RingOf(s), |data|)
            && w.count <= WriteCount(RingOf(s), w.count)
            && s.wp + w.count <= s.size
            && s.buffer.value[s.wp..s.wp + w.count] == data[..w.count])
    case _ => true
  }

  ghost function Bytes(taken: seq<Taken>): seq<Byte> {
    seq(|taken|, i requires 0 <= i < |taken| => taken[i].byte)
  }

  /** Every accepted byte has left the ring once, in order, or is still in it, in order. */
  ghost predicate Conserved(s: Pipe) {
    s.accepted == Bytes(s.taken) + Contents(s)
  }

  ghost predicate RingOk(s: Pipe) {
    InBounds(s) && HolderOk(s) && Conserved(s)
  }

  lemma BytesOfMore(taken: seq<Taken>, q: seq<Byte>)
    ensures Bytes(taken + Deliver(q)) == Bytes(taken) + q
    ensures Bytes(taken + Discard(q)) == Bytes(taken) + q
  {
  }

  lemma CallHasBuffer(s: Pipe, t: Task)
    requires CallsOk(s) && Counted(s)
    ensures At(s, t).Reading? || At(s, t).Writing? ==> s.buffer.Some?
  {
    var pc := At(s, t);
    assert CallOk(s, t);
    if pc.Reading? {
      assert pc.file in Readers(s.files);
    } else if pc.Writing? {
      assert pc.file in Writers(s.files);
    }
  }

  ghost predicate SameRing(s: Pipe, s': Pipe) {
    && s'.size == s.size && s'.buffer == s.buffer && s'.rp == s.rp && s'.wp == s.wp
    && s'.accepted == s.accepted && s'.taken == s.taken
  }

  /** Steps outside the critical section leave the ring alone. */
  lemma OutsideFrame(s: Pipe, t: Task, c: Choice)
    requires Exclusive(s) && !InCritical(At(s, t))
    ensures SameRing(s, Next(s, t, c))
  {
    hide ReadStep, WriteStep;
    if At(s, t).Reading? {
      ReadOutsideFrame(s, t, c);
    } else if At(s, t).Writing? {
      WriteOutsideFrame(s, t, c);
    }
  }

  lemma ReadOutsideFrame(s: Pipe, t: Task, c: Choice)
    requires At(s, t).Reading? && !InCritical(At(s, t))
    ensures SameRing(s, ReadStep(s, t, c, At(s, t)))
  {
  }

  lemma WriteOutsideFrame(s: Pipe, t: Task, c: Choice)
    requires At(s, t).Writing? && !InCritical(At(s, t))
    ensures SameRing(s, WriteStep(s, t, c, At(s, t)))
  {
  }

  /** The positions just inside the critical section claim nothing about the ring. */
  ghost predicate Entering(pc: Pc) {
    pc.OpenAlloc? || pc.CloseCount? || (pc.Reading? && pc.r.RTest?) || (pc.Writing? && pc.w.WTest?)
  }

  lemma OutsideEnters(s: Pipe, t: Task, c: Choice)
    requires !InCritical(At(s, t)) && InCritical(At(Next(s, t, c), t))
    ensures Entering(At(Next(s, t, c), t))
  {
    hide ReadStep, WriteStep;
    if At(s, t).Reading? {
      ReadWaitEnters(s, t, c);
    } else if At(s, t).Writing? {
      WriteWaitEnters(s, t, c);
    }
  }

  lemma ReadWaitEnters(s: Pipe, t: Task, c: Choice)
    requires At(s, t).Reading? && !InCritical(At(s, t))
    requires InCritical(At(ReadStep(s, t, c, At(s, t)), t))
    ensures Entering(At(ReadStep(s, t, c, At(s, t)), t))
  {
  }

  lemma WriteWaitEnters(s: Pipe, t: Task, c: Choice)
    requires At(s, t).Writing? && !InCritical(At(s, t))
    requires InCritical(At(WriteStep(s, t, c, At(s, t)), t))
    ensures Entering(At(WriteStep(s, t, c, At(s, t)), t))
  {
  }

  lemma OutsideRingStep(s: Pipe, t: Task, c: Choice)
    requires Exclusive(s) && CallsOk(s) && Counted(s) && RingOk(s) && !InCritical(At(s, t))
    ensures RingOk(Next(s, t, c))
  {
    var s' := Next(s, t, c);
    OutsideFrame(s, t, c);
    HolderFrame(s, t, c);
    NextMoves(s, t, c);
    assert s.sem != Some(t);
    CallsOkStep(s, t, c);
    CountedStep(s, t, c);
    CallHasBuffer(s', t);
    if InCritical(At(s', t)) {
      OutsideEnters(s, t, c);
    }
  }

  lemma OpenRingStep(s: Pipe, t: Task, c: Choice)
    requires Exclusive(s) && RingOk(s) && InCritical(At(s, t))
    requires !At(s, t).Reading? && !At(s, t).Writing?
    ensures RingOk(Next(s, t, c))
  {
    hide ReadStep, WriteStep;
    HolderFrame(s, t, c);
    NextMoves(s, t, c);
    assert s.sem == Some(t);
    BytesOfMore(s.taken, Contents(s));
  }

  lemma ReadAdvanceStep(s: Pipe, t: Task, c: Choice)
    requires Exclusive(s) && RingOk(s) && At(s, t).Reading? && At(s, t).r.RAdvance?
    ensures RingOk(ReadStep(s, t, c, At(s, t)))
  {
    hide Queue, Bytes;
    HolderFrame(s, t, c);
    assert s.sem == Some(t);
    if c == Go {
      var got := At(s, t).r.got;
      ReadTakesFront(RingOf(s), |got|);
      TakeStep(s, ReadStep(s, t, c, At(s, t)), got);
    }
  }

  lemma TakeStep(s: Pipe, s': Pipe, got: seq<Byte>)
    requires Conserved(s) && s.buffer.Some? && Valid(RingOf(s)) && |s.buffer.value| == s.size
    requires Valid(AfterRead(RingOf(s), |got|))
    requires Queue(RingOf(s)) == got + Queue(AfterRead(RingOf(s), |got|))
    requires s'.buffer == s.buffer && s'.size == s.size && s'.rp == s.rp + |got| && s'.wp == s.wp
    requires s'.taken == s.taken + Deliver(got) && s'.accepted == s.accepted
    requires !Holder(s).OpenRp? && !Holder(s').OpenRp?
    ensures Conserved(s')
  {
    hide Queue, Bytes;
    BytesOfMore(s.taken, got);
    Regroup(Bytes(s.taken), got, Queue(AfterRead(RingOf(s), |got|)));
  }

  lemma Regroup(a: seq<Byte>, b: seq<Byte>, c: seq<Byte>)
    ensures (a + b) + c == a + (b + c)
  {
  }

  lemma ReadRingStep(s: Pipe, t: Task, c: Choice)
    requires Exclusive(s) && RingOk(s) && InCritical(At(s, t)) && At(s, t).Reading?
    ensures RingOk(ReadStep(s, t, c, At(s, t)))
  {
    HolderFrame(s, t, c);
    assert s.sem == Some(t);
    match At(s, t).r
    case RTest =>
    case RCopy =>
    case RAdvance(_) => ReadAdvanceStep(s, t, c);
    case RWrap(_) =>
    case RUp(_) =>
  }

  lemma WriteAdvanceStep(s: Pipe, t: Task, c: Choice)
    requires Exclusive(s) && RingOk(s) && At(s, t).Writing? && At(s, t).w.WAdvance?
    ensures RingOk(WriteStep(s, t, c, At(s, t)))
  {
    HolderFrame(s, t, c);
    assert s.sem == Some(t);
    var pc := At(s, t);
    if c == Go {
      var d := pc.data[..pc.w.count];
      CommitAppends(RingOf(s), d);
      CommitStep(s, WriteStep(s, t, c, pc), d);
    }
  }

  lemma CommitStep(s: Pipe, s': Pipe, d: seq<Byte>)
    requires Conserved(s) && s.buffer.Some? && Valid(RingOf(s)) && |s.buffer.value| == s.size
    requires Valid(AfterWrite(RingOf(s), |d|))
    requires Queue(AfterWrite(RingOf(s), |d|)) == Queue(RingOf(s)) + d
    requires s'.buffer == s.buffer && s'.size == s.size && s'.rp == s.rp && s'.wp == s.wp + |d|
    requires s'.taken == s.taken && s'.accepted == s.accepted + d
    requires !Holder(s).OpenRp? && !Holder(s').OpenRp?
    ensures Conserved(s')
  {
    hide Queue, Bytes;
    Regroup(Bytes(s.taken), Queue(RingOf(s)), d);
  }

  lemma WriteRingStep(s: Pipe, t: Task, c: Choice)
    requires Exclusive(s) && RingOk(s) && InCritical(At(s, t)) && At(s, t).Writing?
    ensures RingOk(WriteStep(s, t, c, At(s, t)))
  {
    HolderFrame(s, t, c);
    assert s.sem == Some(t);
    match At(s, t).w
    case WTest =>
    case WCopy => WriteCopyStep(s, t, c);
    case WAdvance(_) => WriteAdvanceStep(s, t, c);
    case WWrap(_) =>
    case WUp(_) =>
  }

  lemma WriteCopyStep(s: Pipe, t: Task, c: Choice)
    requires Exclusive(s) && RingOk(s) && At(s, t).Writing? && At(s, t).w.WCopy?
    ensures RingOk(WriteStep(s, t, c, At(s, t)))
  {
    hide Queue, Bytes, SpaceFree, WriteWait, Overlay, WriteCount;
    HolderFrame(s, t, c);
    assert s.sem == Some(t);
    var pc := At(s, t);
    var r := RingOf(s);
    WriteProgress(r, |pc.data|);
    var n := WriteCount(r, |pc.data|);
    if c == Go {
      OverlaidRing(s, pc.data[..n]);
      OverlayLays(s.buffer.value, s.wp, pc.data[..n]);
    } else if c.Fault? && |c.junk| <= n {
      FitsLess(r, |pc.data|, |c.junk|);
      OverlaidRing(s, c.junk);
    }
  }

  /** Bytes laid in the free region leave the ring as it was. */
  lemma OverlaidRing(s: Pipe, data: seq<Byte>)
    requires s.buffer.Some? && Valid(RingOf(s)) && |data| <= WriteCount(RingOf(s), |data|)
    ensures s.wp + |data| <= |s.buffer.value|
    ensures var r' := Ring(Overlay(s.buffer.value, s.wp, data), s.rp, s.wp);
            && Valid(r') && Queue(r') == Queue(RingOf(s)) && |r'.buf| == |s.buffer.value|
            && forall k: nat :: WriteCount(r', k) == WriteCount(RingOf(s), k)
  {
    hide Queue, SpaceFree;
    FreeRegionIsDisjoint(RingOf(s), data);
  }

  lemma FitsLess(r: Ring, count: nat, n: nat)
    requires Valid(r) && n <= WriteCount(r, count)
    ensures n <= WriteCount(r, n)
  {
    hide SpaceFree;
  }

  lemma OverlayLays(buf: seq<Byte>, at: nat, data: seq<Byte>)
    requires at + |data| <= |buf|
    ensures Overlay(buf, at, data)[at..at + |data|] == data
  {
  }

  // ------------------------------------------------------------- every run

  ghost predicate Safe(s: Pipe) {
    Exclusive(s) && CallsOk(s) && Counted(s) && RingOk(s)
  }

  lemma SafeInit(size: nat)
    requires 2 <= size
    ensures Safe(Init(size))
  {
    assert Readers(map[]) == {} && Writers(map[]) == {};
  }

  lemma SafeStep(s: Pipe, t: Task, c: Choice)
    requires Safe(s)
    ensures Safe(Next(s, t, c))
  {
    hide ReadStep, WriteStep;
    ExclusiveStep(s, t, c);
    CallsOkStep(s, t, c);
    CountedStep(s, t, c);
    if !InCritical(At(s, t)) {
      OutsideRingStep(s, t, c);
    } else if At(s, t).Reading? {
      ReadRingStep(s, t, c);
    } else if At(s, t).Writing? {
      WriteRingStep(s, t, c);
    } else {
      OpenRingStep(s, t, c);
    }
  }

  lemma {:induction false} SafeRunFrom(s: Pipe, schedule: Schedule)
    requires Safe(s)
    ensures Safe(RunFrom(s, schedule))
  {
    if schedule != [] {
      var n := |schedule| - 1;
      SafeRunFrom(s, schedule[..n]);
      SafeStep(RunFrom(s, schedule[..n]), schedule[n].0, schedule[n].1);
    }
  }

  lemma SafeRun(size: nat, schedule: Schedule)
    requires 2 <= size
    ensures Safe(Run(size, schedule))
  {
    SafeInit(size);
    SafeRunFrom(Init(size), schedule);
  }

  /** Semaphore discipline: at most one task is in its critical section, and a task that
      has returned, sleeps, or is about to sleep does not hold the semaphore. */
  lemma AtMostOneInside(size: nat, schedule: Schedule, t: Task, u: Task)
    requires 2 <= size
    ensures var s := Run(size, schedule);
            && (InCritical(At(s, t)) && InCritical(At(s, u)) ==> t == u)
            && (s.sem == Some(t) <==> InCritical(At(s, t)))
            && (At(s, t).Idle? ==> s.sem != Some(t))
            && (At(s, t).Reading? && At(s, t).r.RSleep? ==> s.sem != Some(t))
            && (At(s, t).Writing? && At(s, t).w.WSleep? ==> s.sem != Some(t))
  {
    SafeRun(size, schedule);
  }

  /** The counters count the open handles by mode; the buffer is there while any reader or
      writer handle is open, hence throughout every read and write, and gone when no handle is
      open and no open is under way. */
  lemma HandlesAreCounted(size: nat, schedule: Schedule, t: Task)
    requires 2 <= size
    ensures var s := Run(size, schedule);
            && s.nreaders == |Readers(s.files)|
            && s.nwriters == |Writers(s.files)|
            && (Readers(s.files) + Writers(s.files) != {} ==> s.buffer.Some?)
            && (s.files == map[] && s.sem == None ==> s.buffer == None)
            && (At(s, t).Reading? || At(s, t).Writing? ==> s.buffer.Some? && |s.buffer.value| == size)
  {
    SafeRun(size, schedule);
    SizeIsFixed(Init(size), schedule);
    var s := Run(size, schedule);
    CallHasBuffer(s, t);
    if Readers(s.files) != {} {
      var f :| f in Readers(s.files);
    }
    if Writers(s.files) != {} {
      var f :| f in Writers(s.files);
    }
  }

  lemma {:induction false} SizeIsFixed(s: Pipe, schedule: Schedule)
    ensures RunFrom(s, schedule).size == s.size
  {
    if schedule != [] {
      var n := |schedule| - 1;
      SizeIsFixed(s, schedule[..n]);
      NextMoves(RunFrom(s, schedule[..n]), schedule[n].0, schedule[n].1);
    }
  }

  /** Conservation over every run, opens and closes included: each accepted byte has left
      the ring exactly once and in order - to a reader, or dropped by an open or a last
      close - or is still in it, in order. */
  lemma BytesAreConserved(size: nat, schedule: Schedule)
    requires 2 <= size
    ensures var s := Run(size, schedule);
            s.accepted == Bytes(s.taken) + Contents(s) && |Contents(s)| < size
  {
    SafeRun(size, schedule);
    SizeIsFixed(Init(size), schedule);
  }

  /** The steps that drop bytes: on a ring with bytes in it, an open, or the close of the
      last handle. */
  ghost predicate Drops(s: Pipe, t: Task, c: Choice) {
    && c == Go && Contents(s) != []
    && ((At(s, t).OpenAlloc? && s.buffer.Some?) || (At(s, t).CloseCount? && IsLast(s, At(s, t).file)))
  }

  ghost predicate IsLast(s: Pipe, f: File) {
    && f in s.files
    && s.nreaders + s.nwriters == (if s.files[f].read then 1 else 0) + (if s.files[f].write then 1 else 0)
  }

  ghost predicate Undisturbed(s: Pipe, schedule: Schedule) {
    schedule == [] ||
    (var n := |schedule| - 1;
     Undisturbed(s, schedule[..n]) && !Drops(RunFrom(s, schedule[..n]), schedule[n].0, schedule[n].1))
  }

  ghost predicate Extends(s: Pipe, s': Pipe) {
    && s.accepted <= s'.accepted
    && s.taken <= s'.taken
    && forall i :: |s.taken| <= i < |s'.taken| ==> s'.taken[i].delivered
  }

  /** Every other step only accepts bytes and hands bytes to readers: these do not. */
  lemma DropsExactly(s: Pipe, t: Task, c: Choice)
    ensures Extends(s, Next(s, t, c)) <==> !Drops(s, t, c)
  {
    hide ReadStep, WriteStep, Contents;
    var pc := At(s, t);
    if Drops(s, t, c) {
      var s' := Next(s, t, c);
      assert s'.taken == s.taken + Discard(Contents(s));
      assert !s'.taken[|s.taken|].delivered;
    }
    if pc.Reading? {
      ReadDelivers(s, t, c);
    } else if pc.Writing? {
      WriteDelivers(s, t, c);
    }
  }

  lemma ReadDelivers(s: Pipe, t: Task, c: Choice)
    requires At(s, t).Reading?
    ensures Extends(s, ReadStep(s, t, c, At(s, t)))
  {
  }

  lemma WriteDelivers(s: Pipe, t: Task, c: Choice)
    requires At(s, t).Writing?
    ensures Extends(s, WriteStep(s, t, c, At(s, t)))
  {
  }

  lemma {:induction false} UndisturbedExtends(s: Pipe, schedule: Schedule)
    requires Undisturbed(s, schedule)
    ensures Extends(s, RunFrom(s, schedule))
  {
    if schedule != [] {
      var n := |schedule| - 1;
      UndisturbedExtends(s, schedule[..n]);
      DropsExactly(RunFrom(s, schedule[..n]), schedule[n].0, schedule[n].1);
    }
  }

  /** As long as no open and no last close meets bytes in the ring, under any interleaving of
      any number of tasks that open, close, read and write: what was in the ring followed by
      what writers put in is what readers got, in critical-section order, followed by what is
      in the ring now. */
  lemma FifoBetweenOpens(size: nat, before: Schedule, schedule: Schedule)
    requires 2 <= size
    requires Undisturbed(Run(size, before), schedule)
    ensures var s := Run(size, before);
            var s' := RunFrom(s, schedule);
            && s.accepted <= s'.accepted && s.taken <= s'.taken
            && (forall i :: |s.taken| <= i < |s'.taken| ==> s'.taken[i].delivered)
            && Contents(s) + s'.accepted[|s.accepted|..]
               == Bytes(s'.taken[|s.taken|..]) + Contents(s')
  {
    var s := Run(size, before);
    var s' := RunFrom(s, schedule);
    SafeRun(size, before);
    SafeRunFrom(s, schedule);
    UndisturbedExtends(s, schedule);
    FifoSplit(s, s');
  }

  lemma FifoSplit(s: Pipe, s': Pipe)
    requires Conserved(s) && Conserved(s') && Extends(s, s')
    ensures Contents(s) + s'.accepted[|s.accepted|..] == Bytes(s'.taken[|s.taken|..]) + Contents(s')
  {
    var put := s'.accepted[|s.accepted|..];
    var got := s'.taken[|s.taken|..];
    assert s'.accepted == s.accepted + put;
    assert Bytes(s'.taken) == Bytes(s.taken) + Bytes(got);
    CancelFront(Bytes(s.taken), Contents(s), put, Bytes(got), Contents(s'));
  }

  lemma CancelFront(front: seq<Byte>, a: seq<Byte>, b: seq<Byte>, c: seq<Byte>, d: seq<Byte>)
    requires (front + a) + b == (front + c) + d
    ensures a + b == c + d
  {
    assert a + b == ((front + a) + b)[|front|..];
    assert c + d == ((front + c) + d)[|front|..];
  }

  // ------------------------------------------------------------- progress

  /** How many steps the critical section still has to take. */
  ghost function StepsInside(pc: Pc): nat {
    match pc
    case OpenAlloc(_) => 3
    case OpenRp(_) => 2
    case OpenCount(_) => 1
    case CloseCount(_) => 1
    case Reading(_, _, _, r) =>
      if r.RTest? then 5 else if r.RCopy? then 4 else if r.RAdvance? then 3 else if r.RWrap? then 2
      else if r.RUp? then 1 else 0
    case Writing(_, _, _, w) =>
      if w.WTest? then 5 else if w.WCopy? then 4 else if w.WAdvance? then 3 else if w.WWrap? then 2
      else if w.WUp? then 1 else 0
    case _ => 0
  }

  /** Nothing blocks or faults a task that holds the semaphore - not a missing buffer, not a
      pointer out of place, not another task - and its critical section ends. */
  lemma HolderGetsOut(size: nat, schedule: Schedule, t: Task) returns (c: Choice)
    requires 2 <= size && Run(size, schedule).sem == Some(t)
    ensures var s := Run(size, schedule);
            StepsInside(At(Next(s, t, c), t)) < StepsInside(At(s, t))
  {
    hide ReadStep, WriteStep;
    SafeRun(size, schedule);
    var s := Run(size, schedule);
    assert InCritical(At(s, t)) && Holder(s) == At(s, t);
    c := Go;
    if At(s, t).Reading? {
      ReaderGetsOn(s, t);
    } else if At(s, t).Writing? {
      WriterGetsOn(s, t);
    } else if At(s, t).CloseCount? {
      assert CallOk(s, t);
    } else if At(s, t).OpenAlloc? && s.buffer == None {
      c := AllocFails;
    } else if At(s, t).OpenCount? {
      var n := HighestFile(s.files.Keys);
      c := Handle(File(n));
    }
  }

  lemma ReaderGetsOn(s: Pipe, t: Task)
    requires RingOk(s) && At(s, t).Reading? && InCritical(At(s, t)) && Holder(s) == At(s, t)
    ensures StepsInside(At(ReadStep(s, t, Go, At(s, t)), t)) < StepsInside(At(s, t))
  {
  }

  lemma WriterGetsOn(s: Pipe, t: Task)
    requires RingOk(s) && At(s, t).Writing? && InCritical(At(s, t)) && Holder(s) == At(s, t)
    ensures StepsInside(At(WriteStep(s, t, Go, At(s, t)), t)) < StepsInside(At(s, t))
  {
    if At(s, t).w.WCopy? {
      WriteProgress(RingOf(s), |At(s, t).data|);
    }
  }

  lemma HighestFile(files: set<File>) returns (n: nat)
    ensures forall f :: f in files ==> f.id < n
  {
    if files == {} {
      n := 0;
    } else {
      var f :| f in files;
      var m := HighestFile(files - {f});
      n := Max(m, f.id + 1);
    }
  }
}
