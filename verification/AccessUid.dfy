/** sculluid and scullwuid, the devices that one user at a time may open
    (higher_scull/high_scull/access.c). They keep the same count and owner under a spin
    lock; scullwuid waits where sculluid gives up, and its wait condition reads count and
    owner without the lock, one load at a time. As in PipeProtocol a run is any sequence of
    (task, choice) pairs. */
module AccessUid {
  import opened Common

  datatype Task = Task(id: nat)
  datatype Uid = Uid(id: nat)
  datatype Handle = Handle(id: nat)

  /** current->uid, current->euid and capable(CAP_DAC_OVERRIDE). */
  datatype Cred = Cred(uid: Uid, euid: Uid, override: bool)

  datatype Pc =
    | Idle
    | OpenLock(cred: Cred, nonblock: bool)
    | OpenTest(cred: Cred, nonblock: bool)   // lock held
    | OpenOwner(cred: Cred)                  // lock held: take ownership if the count is 0
    | OpenCount(cred: Cred)                  // lock held: count the handle
    | OpenUnlock(cred: Cred, handle: Handle) // lock held
    | LoadCount(cred: Cred)                  // the wait condition, without the lock ...
    | CompareUid(cred: Cred)
    | CompareEuid(cred: Cred)
    | Enqueue(cred: Cred)                    // prepare_to_wait
    | Sleep(cred: Cred)                      // schedule()
    | CloseLock(handle: Handle)
    | CloseCount(handle: Handle)             // lock held: uncount the handle
    | CloseUnlock(left: int)                 // lock held
    | CloseWake                              // about to wake the queue

  datatype Choice =
    | Go
    | Signal                                 // a signal ends the sleep
    | StartOpen(cred: Cred, nonblock: bool)
    | StartClose(handle: Handle)
    | Name(handle: Handle)                   // the name of the new handle

  datatype Device = Device(
    waits: bool,                 // scullwuid
    count: int,
    owner: Uid,
    lock: Option<Task>,
    queue: set<Task>,
    woken: set<Task>,            // queued tasks made runnable since they queued
    pcs: map<Task, Pc>,
    handles: map<Handle, Cred>,  // history: the open handles, and who opened them
    founder: Cred                // history: who last took the count from 0
  )

  ghost function At(s: Device, t: Task): Pc {
    if t in s.pcs then s.pcs[t] else Idle
  }

  ghost function Init(waits: bool): Device {
    Device(waits, 0, Uid(0), None, {}, {}, map[], map[], Cred(Uid(0), Uid(0), false))
  }

  /** The test that lets a user in, whoever else there is. */
  ghost predicate Matches(owner: Uid, c: Cred) {
    owner == c.uid || owner == c.euid || c.override
  }

  ghost predicate Available(s: Device, c: Cred) {
    s.count == 0 || Matches(s.owner, c)
  }

  // ------------------------------------------------------------------ steps

  ghost function Goto(s: Device, t: Task, pc: Pc): Device {
    s.(pcs := s.pcs[t := pc])
  }

  ghost function Lock(s: Device, t: Task, next: Pc): Device {
    if s.lock == None then Goto(s, t, next).(lock := Some(t)) else s
  }

  /** finish_wait, and back to the lock. */
  ghost function Retry(s: Device, t: Task, c: Cred): Device {
    Goto(s, t, OpenLock(c, false)).(queue := s.queue - {t})
  }

  ghost predicate Closes(pc: Pc, h: Handle) {
    (pc.CloseLock? || pc.CloseCount?) && pc.handle == h
  }

  ghost function Start(s: Device, t: Task, c: Choice): Device {
    match c
    case StartOpen(cred, nonblock) => Goto(s, t, OpenLock(cred, nonblock))
    case StartClose(h) =>
      if h in s.handles && forall u: Task :: !Closes(At(s, u), h) then Goto(s, t, CloseLock(h)) else s
    case _ => s
  }

  ghost function OpenStep(s: Device, t: Task, c: Choice, pc: Pc): Device
    requires pc.OpenLock? || pc.OpenTest? || pc.OpenOwner? || pc.OpenCount? || pc.OpenUnlock?
  {
    match pc
    case OpenLock(cred, nonblock) => if c == Go then Lock(s, t, OpenTest(cred, nonblock)) else s
    case OpenTest(cred, nonblock) =>
      if c != Go then s
      else if Available(s, cred) then Goto(s, t, OpenOwner(cred))
      else if nonblock || !s.waits then Goto(s, t, Idle).(lock := None)   // -EAGAIN, -EBUSY
      else Goto(s, t, LoadCount(cred)).(lock := None)
    case OpenOwner(cred) =>
      if c == Go then Goto(s, t, OpenCount(cred)).(owner := if s.count == 0 then cred.uid else s.owner) else s
    case OpenCount(cred) =>
      if c.Name? && c.handle !in s.handles then
        Goto(s, t, OpenUnlock(cred, c.handle)).(count := s.count + 1, handles := s.handles[c.handle := cred],
                                founder := if s.count == 0 then cred else s.founder)
      else s
    case OpenUnlock(_, _) => if c == Go then Goto(s, t, Idle).(lock := None) else s
  }

  /** wait_event_interruptible, spelled out. */
  ghost function WaitStep(s: Device, t: Task, c: Choice, pc: Pc): Device
    requires Waits(pc)
  {
    match pc
    case LoadCount(cred) =>
      if c != Go then s
      else if s.count == 0 then Retry(s, t, cred)
      else Goto(s, t, CompareUid(cred))
    case CompareUid(cred) =>
      if c != Go then s
      else if s.owner == cred.uid then Retry(s, t, cred)
      else Goto(s, t, CompareEuid(cred))
    case CompareEuid(cred) =>
      if c != Go then s
      else if s.owner == cred.euid || cred.override then Retry(s, t, cred)
      else Goto(s, t, if t in s.queue then Sleep(cred) else Enqueue(cred))
    case Enqueue(cred) =>
      if c == Go then Goto(s, t, LoadCount(cred)).(queue := s.queue + {t}, woken := s.woken - {t}) else s
    case Sleep(cred) =>
      if c == Signal then Goto(s, t, Idle).(queue := s.queue - {t})
      else if c == Go && t in s.woken then Goto(s, t, Enqueue(cred))
      else s
  }

  ghost predicate Waits(pc: Pc) {
    pc.LoadCount? || pc.CompareUid? || pc.CompareEuid? || pc.Enqueue? || pc.Sleep?
  }

  ghost function CloseStep(s: Device, t: Task, c: Choice, pc: Pc): Device
    requires pc.CloseLock? || pc.CloseCount? || pc.CloseUnlock? || pc.CloseWake?
  {
    if c != Go then s
    else
      match pc
      case CloseLock(h) => Lock(s, t, CloseCount(h))
      case CloseCount(h) => Goto(s, t, CloseUnlock(s.count - 1)).(count := s.count - 1, handles := s.handles - {h})
      case CloseUnlock(left) => Goto(s, t, if s.waits && left == 0 then CloseWake else Idle).(lock := None)
      case CloseWake => Goto(s, t, Idle).(woken := s.woken + s.queue)
  }

  ghost function Next(s: Device, t: Task, c: Choice): Device {
    var pc := At(s, t);
    if pc == Idle then Start(s, t, c)
    else if Waits(pc) then WaitStep(s, t, c, pc)
    else if pc.CloseLock? || pc.CloseCount? || pc.CloseUnlock? || pc.CloseWake? then CloseStep(s, t, c, pc)
    else OpenStep(s, t, c, pc)
  }

  type Schedule = seq<(Task, Choice)>

  ghost function Run(waits: bool, schedule: Schedule): Device {
    if schedule == [] then Init(waits)
    else
      var (t, c) := schedule[|schedule| - 1];
      Next(Run(waits, schedule[..|schedule| - 1]), t, c)
  }

  // ------------------------------------------------------------------ the lock

  ghost predicate InCritical(pc: Pc) {
    pc.OpenTest? || pc.OpenOwner? || pc.OpenCount? || pc.OpenUnlock? || pc.CloseCount? || pc.CloseUnlock?
  }

  ghost predicate Exclusive(s: Device) {
    forall t: Task :: InCritical(At(s, t)) <==> s.lock == Some(t)
  }

  /** What a step does to the lock, and to the variables the lock protects. */
  ghost predicate KeepsDiscipline(s: Device, t: Task, s': Device) {
    var pc, pc' := At(s, t), At(s', t);
    && s'.waits == s.waits
    && (forall u: Task :: u != t ==> At(s', u) == At(s, u))
    && s'.lock == (if InCritical(pc') then Some(t) else if InCritical(pc) then None else s.lock)
    && (InCritical(pc') && !InCritical(pc) ==> s.lock == None)
    && (!InCritical(pc) ==> s'.count == s.count && s'.owner == s.owner
                            && s'.handles == s.handles && s'.founder == s.founder)
  }

  lemma Discipline(s: Device, t: Task, c: Choice)
    requires Exclusive(s)
    ensures KeepsDiscipline(s, t, Next(s, t, c))
  {
    var pc := At(s, t);
    assert InCritical(pc) <==> s.lock == Some(t);
    if Waits(pc) {
      WaitDiscipline(s, t, c);
    } else if pc == Idle {
      StartDiscipline(s, t, c);
    } else if pc.OpenLock? || pc.OpenTest? || pc.OpenOwner? || pc.OpenCount? || pc.OpenUnlock? {
      OpenDiscipline(s, t, c);
    }
  }

  lemma WaitDiscipline(s: Device, t: Task, c: Choice)
    requires Waits(At(s, t))
    ensures KeepsDiscipline(s, t, WaitStep(s, t, c, At(s, t)))
  {
  }

  lemma StartDiscipline(s: Device, t: Task, c: Choice)
    requires At(s, t) == Idle
    ensures KeepsDiscipline(s, t, Start(s, t, c))
  {
  }

  lemma OpenDiscipline(s: Device, t: Task, c: Choice)
    requires var pc := At(s, t); pc.OpenLock? || pc.OpenTest? || pc.OpenOwner? || pc.OpenCount? || pc.OpenUnlock?
    requires InCritical(At(s, t)) <==> s.lock == Some(t)
    ensures KeepsDiscipline(s, t, OpenStep(s, t, c, At(s, t)))
  {
  }

  lemma ExclusiveStep(s: Device, t: Task, c: Choice)
    requires Exclusive(s)
    ensures Exclusive(Next(s, t, c))
  {
    hide Next, InCritical;
    Discipline(s, t, c);
    var s' := Next(s, t, c);
    forall u: Task
      ensures InCritical(At(s', u)) <==> s'.lock == Some(u)
    {
      assert InCritical(At(s, u)) <==> s.lock == Some(u);
      assert InCritical(At(s, t)) <==> s.lock == Some(t);
    }
  }

  // ------------------------------------------------------------------ handles

  ghost predicate ClosersOk(s: Device) {
    && (forall t: Task, h: Handle :: Closes(At(s, t), h) ==> h in s.handles)
    && (forall t: Task, u: Task, h: Handle :: t != u && Closes(At(s, t), h) ==> !Closes(At(s, u), h))
  }

  /** The steps that change count, owner or handles. */
  ghost predicate Counts(s: Device, t: Task, c: Choice, s': Device) {
    var pc := At(s, t);
    if pc.CloseCount? && c == Go then
      && At(s', t) == CloseUnlock(s.count - 1)
      && s'.count == s.count - 1 && s'.handles == s.handles - {pc.handle}
      && s'.owner == s.owner && s'.founder == s.founder
    else if pc.OpenCount? && c.Name? && c.handle !in s.handles then
      && s'.count == s.count + 1 && s'.handles == s.handles[c.handle := pc.cred]
      && s'.owner == s.owner && s'.founder == (if s.count == 0 then pc.cred else s.founder)
    else
      && s'.count == s.count && s'.handles == s.handles && s'.founder == s.founder
      && s'.owner == if pc.OpenOwner? && c == Go && s.count == 0 then pc.cred.uid else s.owner
  }

  lemma CountsStep(s: Device, t: Task, c: Choice)
    ensures Counts(s, t, c, Next(s, t, c))
  {
    hide Available, Matches, InCritical, Closes;
  }

  /** The handles a step leaves open, and whom it makes close one. */
  lemma Closings(s: Device, t: Task, c: Choice)
    requires forall h: Handle :: Closes(At(s, t), h) ==> h in s.handles
    ensures var s' := Next(s, t, c);
            && (forall h :: h in s.handles && !Closes(At(s, t), h) ==> h in s'.handles)
            && (forall h: Handle :: Closes(At(s', t), h) ==>
                  h in s'.handles && (Closes(At(s, t), h) || forall u: Task :: !Closes(At(s, u), h)))
  {
  }

  lemma ClosersOkStep(s: Device, t: Task, c: Choice)
    requires ClosersOk(s) && Exclusive(s)
    ensures ClosersOk(Next(s, t, c))
  {
    hide Next, Closes, Exclusive;
    var s' := Next(s, t, c);
    Discipline(s, t, c);
    Closings(s, t, c);
    forall u: Task, h: Handle | Closes(At(s', u), h)
      ensures h in s'.handles
    {
      if u != t {
        assert Closes(At(s, u), h);
        assert !Closes(At(s, t), h);
      }
    }
    forall u: Task, v: Task, h: Handle | u != v && Closes(At(s', u), h)
      ensures !Closes(At(s', v), h)
    {
      if u != t {
        assert Closes(At(s, u), h);
        assert !Closes(At(s, v), h);
        assert v == t ==> !Closes(At(s', v), h);
      } else {
        assert !Closes(At(s, v), h);
      }
    }
  }

  /** Who holds the device, and what the task inside has already established. */
  ghost predicate OwnerOk(s: Device) {
    && s.count == |s.handles|
    && (s.count > 0 ==> s.owner == s.founder.uid)
    && (forall h :: h in s.handles ==> Matches(s.owner, s.handles[h]))
    && (forall t: Task :: InsideOk(s, At(s, t)))
  }

  ghost predicate InsideOk(s: Device, pc: Pc) {
    && (pc.OpenOwner? ==> Available(s, pc.cred))
    && (pc.OpenCount? ==> Matches(s.owner, pc.cred) && (s.count == 0 ==> s.owner == pc.cred.uid))
  }

  lemma OwnerOkStep(s: Device, t: Task, c: Choice)
    requires OwnerOk(s) && Exclusive(s) && ClosersOk(s)
    ensures OwnerOk(Next(s, t, c))
  {
    hide Next, Matches;
    var s' := Next(s, t, c);
    assert InsideOk(s, At(s, t));
    OwnInsideOk(s, t, c);
    Discipline(s, t, c);
    HandlesStep(s, t, c);
    forall u: Task
      ensures InsideOk(s', At(s', u))
    {
      if u != t {
        assert InsideOk(s, At(s, u));
        assert InCritical(At(s, u)) <==> s.lock == Some(u);
        assert InCritical(At(s, t)) <==> s.lock == Some(t);
      }
    }
  }

  lemma OwnInsideOk(s: Device, t: Task, c: Choice)
    requires InsideOk(s, At(s, t))
    ensures InsideOk(Next(s, t, c), At(Next(s, t, c), t))
  {
    hide Closes, InCritical;
  }

  lemma HandlesStep(s: Device, t: Task, c: Choice)
    requires OwnerOk(s) && ClosersOk(s)
    ensures var s' := Next(s, t, c);
            && s'.count == |s'.handles|
            && (s'.count > 0 ==> s'.owner == s'.founder.uid)
            && (forall h :: h in s'.handles ==> Matches(s'.owner, s'.handles[h]))
  {
    hide Next, Matches;
    CountsStep(s, t, c);
    var pc := At(s, t);
    assert InsideOk(s, pc);
    if pc.CloseCount? {
      assert Closes(pc, pc.handle);
      OneLess(s.handles, pc.handle);
    } else if pc.OpenCount? && c.Name? && c.handle !in s.handles {
      OneMore(s.handles, c.handle, pc.cred);
    } else {
      assert s.count == 0 ==> s.handles == map[];
    }
  }

  lemma OneMore(m: map<Handle, Cred>, h: Handle, c: Cred)
    requires h !in m
    ensures |m[h := c]| == |m| + 1
  {
    assert m[h := c].Keys == m.Keys + {h};
    assert |m[h := c].Keys| == |m[h := c]| && |m.Keys| == |m|;
  }

  lemma OneLess(m: map<Handle, Cred>, h: Handle)
    requires h in m
    ensures |m - {h}| == |m| - 1
  {
    assert (m - {h}).Keys == m.Keys - {h};
    assert |(m - {h}).Keys| == |m - {h}| && |m.Keys| == |m|;
  }

  // ------------------------------------------------------------------ wake-ups

  ghost predicate Owes(pc: Pc) {
    pc.CloseWake? || (pc.CloseUnlock? && pc.left == 0)
  }

  ghost predicate Owed(s: Device) {
    exists t: Task :: Owes(At(s, t))
  }

  /** What a queued task's loads so far still tell it: the device is as it saw it, or a
      wake-up is owed, or it has been woken. */
  ghost predicate WaiterOk(s: Device, t: Task) {
    var pc := At(s, t);
    && (Waits(pc) ==> s.waits)
    && (pc.Sleep? ==> t in s.queue)
    && (t in s.queue && t !in s.woken && !Owed(s) ==>
          && (pc.CompareUid? ==> s.count != 0)
          && (pc.CompareEuid? ==> s.count != 0 && s.owner != pc.cred.uid)
          && (pc.Sleep? ==> !Available(s, pc.cred)))
  }

  ghost predicate WaitersOk(s: Device) {
    forall t: Task :: WaiterOk(s, t)
  }

  /** A wake-up that is owed stays owed until it is made. */
  lemma OwedStays(s: Device, t: Task, c: Choice)
    requires s.waits && Owed(s)
    ensures var s' := Next(s, t, c); Owed(s') || s'.woken == s.woken + s.queue
  {
    var s' := Next(s, t, c);
    var u: Task :| Owes(At(s, u));
    if u == t {
      assert (c == Go && At(s, t).CloseWake?) || Owes(At(s', t));
    } else {
      assert Owes(At(s', u));
    }
  }

  /** A step that brings the count to 0 owes a wake-up, and only where it is 0 does the
      owner change. */
  lemma NoNewsStep(s: Device, t: Task, c: Choice)
    requires s.count > 0
    ensures var s' := Next(s, t, c); Owed(s') || (s'.count > 0 && s'.owner == s.owner)
  {
    hide Next;
    CountsStep(s, t, c);
    var s' := Next(s, t, c);
    if s'.count == 0 {
      assert Owes(At(s', t));
    }
  }

  /** What another task's step leaves of a waiter. */
  ghost predicate KeepsWaiter(s: Device, u: Task, s': Device) {
    && s'.waits == s.waits && At(s', u) == At(s, u)
    && (u in s'.queue <==> u in s.queue) && (u in s.woken ==> u in s'.woken)
  }

  lemma QueueStep(s: Device, t: Task, c: Choice, u: Task)
    requires u != t
    ensures KeepsWaiter(s, u, Next(s, t, c))
  {
    hide Available, Matches, InCritical, Closes;
    if Waits(At(s, t)) {
      WaitQueueStep(s, t, c, u);
    } else {
      hide WaitStep;
      var pc := At(s, t);
      if pc.CloseLock? || pc.CloseCount? || pc.CloseUnlock? || pc.CloseWake? {
        hide OpenStep;
      }
    }
  }

  lemma WaitQueueStep(s: Device, t: Task, c: Choice, u: Task)
    requires Waits(At(s, t)) && u != t
    ensures KeepsWaiter(s, u, WaitStep(s, t, c, At(s, t)))
  {
  }

  lemma OtherWaiterOk(s: Device, t: Task, c: Choice, u: Task)
    requires WaiterOk(s, u) && u != t && s.count >= 0
    ensures WaiterOk(Next(s, t, c), u)
  {
    hide Next, Owed;
    var s' := Next(s, t, c);
    QueueStep(s, t, c, u);
    if s.waits && !Owed(s') {
      if Owed(s) {
        OwedStays(s, t, c);
      } else if s.count > 0 {
        NoNewsStep(s, t, c);
      }
    }
  }

  lemma OwnWaiterOk(s: Device, t: Task, c: Choice)
    requires WaiterOk(s, t)
    ensures WaiterOk(Next(s, t, c), t)
  {
    hide InCritical, Closes, Owed;
    var s' := Next(s, t, c);
    if Waits(At(s, t)) && Owed(s) {
      WaitingOwesNothing(s, t, c);
    }
  }

  lemma WaitingOwesNothing(s: Device, t: Task, c: Choice)
    requires Waits(At(s, t)) && Owed(s)
    ensures Owed(Next(s, t, c))
  {
    var u: Task :| Owes(At(s, u));
    assert Owes(At(Next(s, t, c), u));
  }

  ghost predicate Sound(s: Device) {
    Exclusive(s) && ClosersOk(s) && OwnerOk(s) && WaitersOk(s)
  }

  lemma CountIsNatural(s: Device)
    requires OwnerOk(s)
    ensures s.count >= 0
  {
  }

  lemma SoundStep(s: Device, t: Task, c: Choice)
    requires Sound(s)
    ensures Sound(Next(s, t, c))
  {
    hide Exclusive, ClosersOk, OwnerOk, WaiterOk, Next;
    ExclusiveStep(s, t, c);
    ClosersOkStep(s, t, c);
    OwnerOkStep(s, t, c);
    assert s.count >= 0 by {
      CountIsNatural(s);
    }
    forall u: Task
      ensures WaiterOk(Next(s, t, c), u)
    {
      assert WaiterOk(s, u);
      if u == t {
        OwnWaiterOk(s, t, c);
      } else {
        OtherWaiterOk(s, t, c, u);
      }
    }
  }

  lemma {:induction false} SoundRun(waits: bool, schedule: Schedule)
    ensures Sound(Run(waits, schedule))
  {
    if schedule == [] {
    } else {
      var (t, c) := schedule[|schedule| - 1];
      SoundRun(waits, schedule[..|schedule| - 1]);
      SoundStep(Run(waits, schedule[..|schedule| - 1]), t, c);
    }
  }

  // ------------------------------------------------------------------ main results

  /** In every run the count is the number of open handles, and while it is positive the
      owner is the user who took it from 0 and lets in everyone who holds a handle. */
  lemma OwnerLetsThemIn(waits: bool, schedule: Schedule)
    ensures var s := Run(waits, schedule);
            && s.count == |s.handles|
            && (s.count > 0 ==> s.owner == s.founder.uid)
            && forall h :: h in s.handles ==> Matches(s.owner, s.handles[h])
  {
    SoundRun(waits, schedule);
  }

  /** Two users, neither privileged nor acting for another, never share the device. */
  lemma UsersDoNotShare(waits: bool, schedule: Schedule, a: Handle, b: Handle)
    requires a in Run(waits, schedule).handles && b in Run(waits, schedule).handles
    requires forall h :: h in {a, b} ==>
               var c := Run(waits, schedule).handles[h]; !c.override && c.uid == c.euid
    ensures Run(waits, schedule).handles[a].uid == Run(waits, schedule).handles[b].uid
  {
    hide Run;
    OwnerLetsThemIn(waits, schedule);
    assert a in {a, b} && b in {a, b};
  }

  /** Nobody sleeps through a chance to open: in every run a task asleep on the queue and
      not woken could not open the device now, or a close that brought the count to 0 is
      still to wake it. */
  lemma NoOpenerIsLost(schedule: Schedule, t: Task)
    requires var s := Run(true, schedule); At(s, t).Sleep? && t !in s.woken
    ensures var s := Run(true, schedule);
            t in s.queue && (Owed(s) || (s.handles != map[] && !Matches(s.owner, At(s, t).cred)))
  {
    SoundRun(true, schedule);
    assert WaiterOk(Run(true, schedule), t);
  }

  /** An open is let in exactly when nobody holds the device or the user who took it matches.
      Otherwise sculluid, and scullwuid with O_NONBLOCK, drop the lock and give up - with
      -EBUSY and -EAGAIN - and scullwuid drops it and waits. */
  lemma WhoIsLetIn(waits: bool, schedule: Schedule, t: Task)
    requires At(Run(waits, schedule), t).OpenTest?
    ensures var s := Run(waits, schedule);
            var s' := Next(s, t, Go);
            var c, nonblock := At(s, t).cred, At(s, t).nonblock;
            && (s'.handles, s'.count, s'.owner) == (s.handles, s.count, s.owner)
            && if s.handles == map[] || Matches(s.founder.uid, c) then At(s', t) == OpenOwner(c) && s'.lock == Some(t)
               else s'.lock == None && At(s', t) == if nonblock || !waits then Idle else LoadCount(c)
  {
    SoundRun(waits, schedule);
    WaitsStays(waits, schedule);
    var s := Run(waits, schedule);
    assert InCritical(At(s, t)) <==> s.lock == Some(t);
  }

  lemma {:induction false} WaitsStays(waits: bool, schedule: Schedule)
    ensures Run(waits, schedule).waits == waits
  {
    if schedule == [] {
    } else {
      var (t, c) := schedule[|schedule| - 1];
      WaitsStays(waits, schedule[..|schedule| - 1]);
      SoundRun(waits, schedule[..|schedule| - 1]);
      Discipline(Run(waits, schedule[..|schedule| - 1]), t, c);
    }
  }
}
