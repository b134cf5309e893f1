/** scullpipe under concurrency (higher_scull/high_scull/pipe.c): any number of tasks open,
    close, read and write one device, and every access to the shared fields that another
    task can observe is a step of its own. `Next` is total: a choice that the task's
    position does not allow leaves the state as it is, so a run is any sequence of
    (task, choice) pairs. */
module PipeProtocol {
  import opened Common
  import opened PipeRing

  datatype Task = Task(id: nat)
  datatype File = File(id: nat)

  datatype Mode = Mode(read: bool, write: bool)

  /** Where a task stands in scull_p_read; waiting is wait_event_interruptible spelled out. */
  datatype ReadAt =
    | RDown                      // about to down_interruptible
    | RTest                      // sem held, rp == wp ?
    | RLoad                      // wait condition: load rp ...
    | RCompare(seen: nat)        // ... then load wp and compare
    | REnqueue                   // prepare_to_wait on inq
    | RSleep                     // schedule()
    | RCopy                      // sem held, copy_to_user
    | RAdvance(got: seq<Byte>)   // sem held, rp += count
    | RWrap(got: seq<Byte>)      // sem held, rp == end ?
    | RUp(got: seq<Byte>)        // sem held, about to up
    | RWake(got: seq<Byte>)      // about to wake outq

  /** Where a task stands in scull_p_write and scull_getwritespace. */
  datatype WriteAt =
    | WDown
    | WTest                      // sem held, spacefree == 0 ?
    | WEnqueue                   // prepare_to_wait on outq
    | WLoad                      // spacefree without the sem: load rp ...
    | WCompare(seen: nat)        // ... then load wp
    | WSleep
    | WCopy                      // sem held, copy_from_user
    | WAdvance(count: nat)       // sem held, wp += count
    | WWrap(count: nat)
    | WUp(count: nat)
    | WWake(count: nat)          // about to wake inq

  datatype Pc =
    | Idle
    | OpenDown(mode: Mode)
    | OpenAlloc(mode: Mode)      // sem held: allocate if need be, wp = buffer
    | OpenRp(mode: Mode)         // sem held: rp = buffer
    | OpenCount(mode: Mode)      // sem held: count the handle, up
    | CloseDown(file: File)
    | CloseCount(file: File)     // sem held: uncount, free if last, up
    | Reading(file: File, nonblock: bool, want: nat, r: ReadAt)
    | Writing(file: File, nonblock: bool, data: seq<Byte>, w: WriteAt)

  /** What the scheduler and the environment decide. */
  datatype Choice =
    | Go
    | Signal                     // a signal interrupts the wait
    | AllocFails                 // kmalloc returns null
    | Allocates(bytes: seq<Byte>)// kmalloc returns this memory
    | Fault(junk: seq<Byte>)     // the user copy fails, having overwritten this much
    | Handle(file: File)         // the name of the new handle
    | StartOpen(mode: Mode)
    | StartClose(file: File)
    | StartRead(file: File, nonblock: bool, want: nat)
    | StartWrite(file: File, nonblock: bool, data: seq<Byte>)

  /** A byte that left the ring: handed to a reader, or dropped by an open or a last close. */
  datatype Taken = Taken(byte: Byte, delivered: bool)

  /** What a call gave back: to a reader, also the bytes. */
  datatype Return = Return(task: Task, call: Choice, result: Result, out: seq<Byte>)

  datatype Pipe = Pipe(
    size: nat,                   // scull_p_buffer
    buffer: Option<seq<Byte>>,
    rp: nat,
    wp: nat,
    nreaders: int,
    nwriters: int,
    sem: Option<Task>,
    inq: set<Task>,
    outq: set<Task>,
    woken: set<Task>,            // queued tasks made runnable since they queued
    pcs: map<Task, Pc>,
    files: map<File, Mode>,      // handles open and counted
    accepted: seq<Byte>,         // history: bytes of successful writes
    taken: seq<Taken>,           // history: bytes that left the ring
    emptied: set<Task>,          // history: writers queued when an open reset a pointer
    returned: seq<Return>        // history: the calls that have returned
  )

  ghost function At(s: Pipe, t: Task): Pc {
    if t in s.pcs then s.pcs[t] else Idle
  }

  ghost function Init(size: nat): Pipe {
    Pipe(size, None, 0, 0, 0, 0, None, {}, {}, {}, map[], map[], [], [], {}, [])
  }

  // ------------------------------------------------------------------ steps

  ghost function Goto(s: Pipe, t: Task, pc: Pc): Pipe {
    s.(pcs := s.pcs[t := pc])
  }

  /** The choice that began the call a task is in. */
  ghost function CallOf(pc: Pc): Choice {
    match pc
    case OpenDown(m) => StartOpen(m)
    case OpenAlloc(m) => StartOpen(m)
    case OpenRp(m) => StartOpen(m)
    case OpenCount(m) => StartOpen(m)
    case CloseDown(f) => StartClose(f)
    case CloseCount(f) => StartClose(f)
    case Reading(f, nb, n, _) => StartRead(f, nb, n)
    case Writing(f, nb, d, _) => StartWrite(f, nb, d)
    case Idle => Go
  }

  /** The call returns. */
  ghost function Ret(s: Pipe, t: Task, result: Result, out: seq<Byte>): Pipe {
    Goto(s, t, Idle).(returned := s.returned + [Return(t, CallOf(At(s, t)), result, out)])
  }

  /** down_interruptible: a signal ends the call, otherwise the semaphore must be free. */
  ghost function Down(s: Pipe, t: Task, c: Choice, next: Pc): Pipe {
    if c == Signal then Ret(s, t, Interrupted, [])
    else if c == Go && s.sem == None then Goto(s, t, next).(sem := Some(t))
    else s
  }

  ghost function Up(s: Pipe, t: Task, next: Pc): Pipe {
    Goto(s, t, next).(sem := None)
  }

  ghost function UpAndRet(s: Pipe, t: Task, result: Result): Pipe {
    Ret(s, t, result, []).(sem := None)
  }

  /** finish_wait */
  ghost function Dequeue(s: Pipe, t: Task, next: Pc): Pipe {
    Goto(s, t, next).(inq := s.inq - {t}, outq := s.outq - {t})
  }

  /** finish_wait after a signal */
  ghost function DequeueAndRet(s: Pipe, t: Task): Pipe {
    Ret(s, t, Interrupted, []).(inq := s.inq - {t}, outq := s.outq - {t})
  }

  ghost predicate Unused(s: Pipe, f: File) {
    forall u: Task :: UsedFile(At(s, u)) != Some(f)
  }

  ghost predicate NotClosing(s: Pipe, f: File) {
    forall u: Task :: !(Closing(At(s, u)) && At(s, u).file == f)
  }

  ghost predicate Closing(pc: Pc) {
    pc.CloseDown? || pc.CloseCount?
  }

  ghost function UsedFile(pc: Pc): Option<File> {
    if Closing(pc) || pc.Reading? || pc.Writing? then Some(pc.file) else None
  }

  /** The kernel calls release once no other call on the handle is in flight, and starts no
      call on a handle that is being released or lacks the mode. */
  ghost function Start(s: Pipe, t: Task, c: Choice): Pipe {
    match c
    case StartOpen(m) => Goto(s, t, OpenDown(m))
    case StartClose(f) =>
      if f in s.files && Unused(s, f) then Goto(s, t, CloseDown(f)) else s
    case StartRead(f, nb, n) =>
      if f in s.files && s.files[f].read && NotClosing(s, f) then Goto(s, t, Reading(f, nb, n, RDown)) else s
    case StartWrite(f, nb, d) =>
      if f in s.files && s.files[f].write && NotClosing(s, f) then Goto(s, t, Writing(f, nb, d, WDown)) else s
    case _ => s
  }

  ghost function Discard(q: seq<Byte>): seq<Taken> {
    seq(|q|, i requires 0 <= i < |q| => Taken(q[i], false))
  }

  ghost function Deliver(q: seq<Byte>): seq<Taken> {
    seq(|q|, i requires 0 <= i < |q| => Taken(q[i], true))
  }

  ghost function OpenStep(s: Pipe, t: Task, c: Choice, pc: Pc): Pipe
    requires pc.OpenDown? || pc.OpenAlloc? || pc.OpenRp? || pc.OpenCount?
  {
    match pc
    case OpenDown(m) => Down(s, t, c, OpenAlloc(m))
    case OpenAlloc(m) =>
      if s.buffer == None && c == AllocFails then UpAndRet(s, t, NoMemory)
      else if s.buffer == None && c.Allocates? && |c.bytes| == s.size then
        Goto(s, t, OpenRp(m)).(buffer := Some(c.bytes), wp := 0)
      else if s.buffer.Some? && c == Go then
        Goto(s, t, OpenRp(m)).(wp := 0, taken := s.taken + Discard(Contents(s)), emptied := s.emptied + s.outq)
      else s
    case OpenRp(m) =>
      if c == Go then Goto(s, t, OpenCount(m)).(rp := 0, emptied := s.emptied + s.outq) else s
    case OpenCount(m) =>
      if c.Handle? && c.file !in s.files then
        UpAndRet(s, t, Done(0)).(files := s.files[c.file := m],
                                 nreaders := s.nreaders + if m.read then 1 else 0,
                                 nwriters := s.nwriters + if m.write then 1 else 0)
      else s
  }

  ghost function CloseStep(s: Pipe, t: Task, c: Choice, pc: Pc): Pipe
    requires Closing(pc)
  {
    match pc
    case CloseDown(f) => if c == Signal then s else Down(s, t, c, CloseCount(f))
    case CloseCount(f) =>
      if c != Go || f !in s.files then s
      else
        var readers := s.nreaders - if s.files[f].read then 1 else 0;
        var writers := s.nwriters - if s.files[f].write then 1 else 0;
        var s' := UpAndRet(s, t, Done(0)).(files := s.files - {f}, nreaders := readers, nwriters := writers);
        if readers + writers == 0 then s'.(buffer := None, taken := s.taken + Discard(Contents(s))) else s'
  }

  ghost predicate Transferring(pc: Pc) {
    || (pc.Reading? && (pc.r.RCopy? || pc.r.RAdvance? || pc.r.RWrap? || pc.r.RUp? || pc.r.RWake?))
    || (pc.Writing? && (pc.w.WCopy? || pc.w.WAdvance? || pc.w.WWrap? || pc.w.WUp? || pc.w.WWake?))
  }

  ghost function ReadStep(s: Pipe, t: Task, c: Choice, pc: Pc): Pipe
    requires pc.Reading?
  {
    if Transferring(pc) then ReadTransfer(s, t, c, pc) else ReadWait(s, t, c, pc)
  }

  /** Up to the point where the ring is known not to be empty. */
  ghost function ReadWait(s: Pipe, t: Task, c: Choice, pc: Pc): Pipe
    requires pc.Reading? && !Transferring(pc)
  {
    match pc.r
    case RDown => Down(s, t, c, pc.(r := RTest))
    case RTest =>
      if c != Go then s
      else if s.rp != s.wp then Goto(s, t, pc.(r := RCopy))
      else if pc.nonblock then UpAndRet(s, t, TryAgain)
      else Up(s, t, pc.(r := RLoad))
    case RLoad => if c == Go then Goto(s, t, pc.(r := RCompare(s.rp))) else s
    case RCompare(seen) =>
      if c != Go then s
      else if seen != s.wp then Dequeue(s, t, pc.(r := RDown))
      else if t in s.inq then Goto(s, t, pc.(r := RSleep))
      else Goto(s, t, pc.(r := REnqueue))
    case REnqueue =>
      if c == Go then Goto(s, t, pc.(r := RLoad)).(inq := s.inq + {t}, woken := s.woken - {t}) else s
    case RSleep =>
      if c == Signal then DequeueAndRet(s, t)
      else if c == Go && t in s.woken then Goto(s, t, pc.(r := REnqueue))
      else s
  }

  ghost function ReadTransfer(s: Pipe, t: Task, c: Choice, pc: Pc): Pipe
    requires pc.Reading? && Transferring(pc)
  {
    match pc.r
    case RCopy =>
      if c.Fault? then UpAndRet(s, t, BadAddress)
      else if c == Go && s.buffer.Some? && Valid(RingOf(s)) then
        Goto(s, t, pc.(r := RAdvance(CopyOut(s, pc.want))))
      else s
    case RAdvance(got) =>
      if c == Go then Goto(s, t, pc.(r := RWrap(got))).(rp := s.rp + |got|, taken := s.taken + Deliver(got)) else s
    case RWrap(got) => if c == Go then Goto(s, t, pc.(r := RUp(got))).(rp := Wrap(s.rp, s.size)) else s
    case RUp(got) => if c == Go then Up(s, t, pc.(r := RWake(got))) else s
    case RWake(got) => if c == Go then Ret(s, t, Done(|got|), got).(woken := s.woken + s.outq) else s
  }

  ghost function CopyOut(s: Pipe, want: nat): seq<Byte>
    requires s.buffer.Some? && Valid(RingOf(s))
  {
    s.buffer.value[s.rp..s.rp + ReadCount(RingOf(s), want)]
  }

  ghost function WriteStep(s: Pipe, t: Task, c: Choice, pc: Pc): Pipe
    requires pc.Writing?
  {
    if Transferring(pc) then WriteTransfer(s, t, c, pc) else WriteWait(s, t, c, pc)
  }

  /** Up to the point where there is known to be space; scull_getwritespace. */
  ghost function WriteWait(s: Pipe, t: Task, c: Choice, pc: Pc): Pipe
    requires pc.Writing? && !Transferring(pc)
  {
    match pc.w
    case WDown => Down(s, t, c, pc.(w := WTest))
    case WTest =>
      if c != Go || !Measurable(s, s.rp) then s
      else if SpaceFree(s.rp, s.wp, s.size) != 0 then Goto(s, t, pc.(w := WCopy))
      else if pc.nonblock then UpAndRet(s, t, TryAgain)
      else Up(s, t, pc.(w := WEnqueue))
    case WEnqueue =>
      if c == Go then
        Goto(s, t, pc.(w := WLoad)).(outq := s.outq + {t}, woken := s.woken - {t}, emptied := s.emptied - {t})
      else s
    case WLoad => if c == Go then Goto(s, t, pc.(w := WCompare(s.rp))) else s
    case WCompare(seen) =>
      if c != Go || !Measurable(s, seen) then s
      else if SpaceFree(seen, s.wp, s.size) == 0 then Goto(s, t, pc.(w := WSleep))
      else Dequeue(s, t, pc.(w := WDown))
    case WSleep =>
      if c == Signal then DequeueAndRet(s, t)
      else if c == Go && t in s.woken then Dequeue(s, t, pc.(w := WDown))
      else s
  }

  ghost function WriteTransfer(s: Pipe, t: Task, c: Choice, pc: Pc): Pipe
    requires pc.Writing? && Transferring(pc)
  {
    match pc.w
    case WCopy => CopyIn(s, t, c, pc)
    case WAdvance(n) =>
      if c == Go && n <= |pc.data| then
        Goto(s, t, pc.(w := WWrap(n))).(wp := s.wp + n, accepted := s.accepted + pc.data[..n])
      else s
    case WWrap(n) => if c == Go then Goto(s, t, pc.(w := WUp(n))).(wp := Wrap(s.wp, s.size)) else s
    case WUp(n) => if c == Go then Up(s, t, pc.(w := WWake(n))) else s
    case WWake(n) => if c == Go then Ret(s, t, Done(n), []).(woken := s.woken + s.inq) else s
  }

  ghost function CopyIn(s: Pipe, t: Task, c: Choice, pc: Pc): Pipe
    requires pc.Writing?
  {
    if !(s.buffer.Some? && Valid(RingOf(s))) then s
    else
      var n := WriteCount(RingOf(s), |pc.data|);
      if n < 0 || n > |pc.data| || s.wp + n > |s.buffer.value| then s
      else if c.Fault? && |c.junk| <= n then
        UpAndRet(s, t, BadAddress).(buffer := Some(Overlay(s.buffer.value, s.wp, c.junk)))
      else if c == Go then
        Goto(s, t, pc.(w := WAdvance(n))).(buffer := Some(Overlay(s.buffer.value, s.wp, pc.data[..n])))
      else s
  }

  ghost predicate Measurable(s: Pipe, rp: nat) {
    0 < s.size && s.wp <= rp + s.size
  }

  ghost function Next(s: Pipe, t: Task, c: Choice): Pipe {
    var pc := At(s, t);
    if pc.Idle? then Start(s, t, c)
    else if pc.Reading? then ReadStep(s, t, c, pc)
    else if pc.Writing? then WriteStep(s, t, c, pc)
    else if Closing(pc) then CloseStep(s, t, c, pc)
    else OpenStep(s, t, c, pc)
  }

  type Schedule = seq<(Task, Choice)>

  ghost function RunFrom(s: Pipe, schedule: Schedule): Pipe {
    if schedule == [] then s
    else
      var n := |schedule| - 1;
      Next(RunFrom(s, schedule[..n]), schedule[n].0, schedule[n].1)
  }

  ghost function Run(size: nat, schedule: Schedule): Pipe {
    RunFrom(Init(size), schedule)
  }

  // ------------------------------------------------------------- what a state holds

  ghost function RingOf(s: Pipe): Ring
    requires s.buffer.Some?
  {
    Ring(s.buffer.value, s.rp, s.wp)
  }

  /** The position of the task that holds the semaphore. */
  ghost function Holder(s: Pipe): Pc {
    if s.sem.Some? then At(s, s.sem.value) else Idle
  }

  /** The bytes in the ring. A pointer seen at the end of the array is one about to wrap,
      and a ring whose `wp` an open has just reset is empty. */
  ghost function Contents(s: Pipe): seq<Byte> {
    if s.buffer == None || Holder(s).OpenRp? then []
    else
      var r := Ring(s.buffer.value, Wrap(s.rp, s.size), Wrap(s.wp, s.size));
      if Valid(r) then Queue(r) else []
  }

  ghost predicate InCritical(pc: Pc) {
    match pc
    case Idle => false
    case OpenDown(_) => false
    case CloseDown(_) => false
    case Reading(_, _, _, r) => r.RTest? || r.RCopy? || r.RAdvance? || r.RWrap? || r.RUp?
    case Writing(_, _, _, w) => w.WTest? || w.WCopy? || w.WAdvance? || w.WWrap? || w.WUp?
    case _ => true
  }
}
