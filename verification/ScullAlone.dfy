/** When the unlocked trim in the opens of higher_scull/high_scull/access.c is safe: while it
    runs, nobody holds the semaphore and nobody else trims. Such a run is one in which trim
    might as well have taken the semaphore. */
module ScullAlone {
  import opened Common
  import opened StoreAddress
  import opened Store
  import opened StoreHistory
  import opened ScullProtocol
  import opened ScullSerial
  import ScullCalls

  /** A trim under way is alone on the device. */
  ghost predicate Alone(s: System) {
    forall t: Task :: Trims(At(s, t)) ==> s.sem == None && forall u: Task :: u != t ==> !Trims(At(s, u))
  }

  /** The same device, where the task that trims, if any, holds the semaphore. */
  ghost function Lift(s: System, trimmer: Option<Task>): System {
    s.(locked := true, sem := if trimmer.Some? then trimmer else s.sem)
  }

  ghost predicate Covered(s: System, trimmer: Option<Task>) {
    && !s.locked && Sound(Lift(s, trimmer))
    && match trimmer
       case None => forall t: Task :: !Trims(At(s, t))
       case Some(t) => s.sem == None && Trims(At(s, t))
  }

  lemma AloneStep(s: System, trimmer: Option<Task>, t: Task, c: Choice) returns (trimmer': Option<Task>)
    requires Covered(s, trimmer) && Alone(Next(s, t, c))
    ensures Covered(Next(s, t, c), trimmer')
  {
    hide Sound;
    if Trims(At(s, t)) {
      assert trimmer == Some(t) by {
        TrimmerIs(s, trimmer, t);
      }
      trimmer' := TrimGoes(s, t, c);
    } else if At(s, t).Idle? && c.Begin? && c.call.Open? && c.call.writeOnly {
      trimmer' := Some(t);
      TrimStarts(s, trimmer, t, c);
    } else {
      trimmer' := trimmer;
      OthersGo(s, trimmer, t, c);
    }
  }

  lemma TrimmerIs(s: System, trimmer: Option<Task>, t: Task)
    requires Covered(s, trimmer) && Trims(At(s, t))
    ensures trimmer == Some(t)
  {
    hide Serial;
    assert InCritical(At(Lift(s, trimmer), t)) <==> Lift(s, trimmer).sem == Some(t);
  }

  lemma TrimGoes(s: System, t: Task, c: Choice) returns (trimmer': Option<Task>)
    requires Covered(s, Some(t))
    ensures Covered(Next(s, t, c), trimmer')
  {
    var l := Lift(s, Some(t));
    SoundStep(l, t, c);
    hide Sound;
    if c != Go {
      trimmer' := Some(t);
      assert Next(l, t, c) == Lift(Next(s, t, c), trimmer');
    } else if At(s, t).TrimReset? {
      trimmer' := None;
      SoundStep(Next(l, t, Go), t, Go);
      ResetTwice(s, t);
      NobodyElseTrims(s, t, Next(s, t, Go));
    } else {
      trimmer' := Some(t);
      TrimStepLifts(s, t);
      LiftedTrims(s, t);
    }
  }

  /** The unlocked reset is the locked one and the leave after it. */
  lemma ResetTwice(s: System, t: Task)
    requires Covered(s, Some(t)) && At(s, t).TrimReset?
    ensures Next(Next(Lift(s, Some(t)), t, Go), t, Go) == Lift(Next(s, t, Go), None)
    ensures !Next(s, t, Go).locked && Next(s, t, Go).pcs == s.pcs[t := Idle]
  {
    hide Sound;
    var l1 := Next(Lift(s, Some(t)), t, Go);
    assert l1.pcs[t := Idle] == s.pcs[t := Idle];
  }

  lemma NobodyElseTrims(s: System, t: Task, s': System)
    requires Covered(s, Some(t)) && s'.pcs == s.pcs[t := Idle]
    ensures forall u: Task :: !Trims(At(s', u))
  {
    hide Sound;
    forall u: Task
      ensures !Trims(At(s', u))
    {
      if u != t && Trims(At(s, u)) {
        TrimmerIs(s, Some(t), u);
      }
    }
  }

  lemma TrimStepLifts(s: System, t: Task)
    requires Covered(s, Some(t)) && !At(s, t).TrimReset?
    ensures Next(Lift(s, Some(t)), t, Go) == Lift(Next(s, t, Go), Some(t))
    ensures !Next(s, t, Go).locked && Next(s, t, Go).sem == None
  {
    hide Sound, TrimStep;
    TrimSame(s, Some(t), t, At(s, t));
    TrimKeepsSem(s, t);
  }

  lemma TrimKeepsSem(s: System, t: Task)
    requires Trims(At(s, t)) && !At(s, t).TrimReset?
    ensures TrimStep(s, t, At(s, t)).sem == s.sem
  {
  }

  /** A trim that is not at its end goes on trimming. */
  lemma LiftedTrims(s: System, t: Task)
    requires Covered(s, Some(t)) && !At(s, t).TrimReset?
    ensures Trims(At(Next(s, t, Go), t))
  {
    var l := Lift(s, Some(t));
    assert Sound(l) && At(l, t) == At(s, t);
    HolderCarries(l, t);
    assert Carries(l, t, Next(l, t, Go));
    LostIsNotHeld(Next(l, t, Go));
    assert At(Next(l, t, Go), t) == At(Next(s, t, Go), t) by {
      TrimStepLifts(s, t);
    }
    hide Carries, Sound, HeldOk;
  }

  /** An open for writing, with the device to itself, goes where the locked one goes in two
      steps. */
  lemma TrimStarts(s: System, trimmer: Option<Task>, t: Task, c: Choice)
    requires Covered(s, trimmer) && At(s, t).Idle? && c.Begin? && c.call.Open? && c.call.writeOnly
    requires Alone(Next(s, t, c))
    ensures Covered(Next(s, t, c), Some(t))
  {
    hide Sound, Next;
    var l, s' := Lift(s, trimmer), Next(s, t, c);
    var begin := Begin(Open(true, false));
    SoundStep(l, t, begin);
    SoundStep(Next(l, t, begin), t, Go);
    BeginsTrim(s, t, c);
    if trimmer.Some? {
      TrimmerIsAlone(s, trimmer.value, t, s');
    }
    TrimmerFindsItFree(s, t, s');
    BeginsTwice(s, t);
  }

  lemma BeginsTrim(s: System, t: Task, c: Choice)
    requires !s.locked && At(s, t).Idle? && c.Begin? && c.call.Open? && c.call.writeOnly
    ensures Next(s, t, c) == Goto(s, t, TrimHead)
  {
  }

  lemma TrimmerIsAlone(s: System, u: Task, t: Task, s': System)
    requires Trims(At(s, u)) && At(s, t).Idle? && s' == Goto(s, t, TrimHead)
    ensures !Alone(s')
  {
    assert Trims(At(s', t)) && Trims(At(s', u)) && u != t;
  }

  lemma TrimmerFindsItFree(s: System, t: Task, s': System)
    requires s' == Goto(s, t, TrimHead) && Alone(s')
    ensures s.sem == None
  {
    assert Trims(At(s', t));
  }

  lemma BeginsTwice(s: System, t: Task)
    requires !s.locked && s.sem == None && At(s, t).Idle?
    ensures Next(Next(Lift(s, None), t, Begin(Open(true, false))), t, Go) == Lift(Goto(s, t, TrimHead), Some(t))
  {
    var l1 := Next(Lift(s, None), t, Begin(Open(true, false)));
    assert l1 == Goto(Lift(s, None), t, TrimEnter(false));
    assert l1.pcs[t := TrimHead] == s.pcs[t := TrimHead];
  }

  /** Every other step is the same with and without the lock on trim. */
  lemma OthersGo(s: System, trimmer: Option<Task>, t: Task, c: Choice)
    requires Covered(s, trimmer) && !Trims(At(s, t)) && Alone(Next(s, t, c))
    requires !(At(s, t).Idle? && c.Begin? && c.call.Open? && c.call.writeOnly)
    ensures Covered(Next(s, t, c), trimmer)
  {
    var l, s' := Lift(s, trimmer), Next(s, t, c);
    SoundStep(l, t, c);
    Discipline(l, t, c);
    assert InCritical(At(l, t)) <==> l.sem == Some(t);
    hide Sound, Next, Alone;
    match trimmer {
      case None =>
        SameUnlocked(s, t, c);
        NobodyTrims(s, t, c);
      case Some(u) =>
        TrimmerGoesOn(s, u, t, c);
        SameOutside(s, u, t, c);
    }
  }

  lemma SameUnlocked(s: System, t: Task, c: Choice)
    requires !s.locked && !Trims(At(s, t)) && !(At(s, t).Idle? && c.Begin? && c.call.Open? && c.call.writeOnly)
    ensures Next(Lift(s, None), t, c) == Lift(Next(s, t, c), None) && !Next(s, t, c).locked
  {
    hide FollowStep, AccessStep, TrimStep, Start, EnterStep;
    var pc := At(s, t);
    if Accesses(pc) {
      AccessSame(s, None, t, pc);
    } else if Follows(pc) {
      FollowSame(s, None, t, pc);
    } else if pc.Idle? {
      StartSame(s, None, t, c);
    } else if pc.LoadShape? || pc.Enter? {
      EnterSame(s, t, pc);
    }
  }

  lemma NobodyTrims(s: System, t: Task, c: Choice)
    requires Covered(s, None) && !Trims(At(s, t)) && Alone(Next(s, t, c))
    requires KeepsDiscipline(Lift(s, None), t, Next(Lift(s, None), t, c))
    requires Next(Lift(s, None), t, c) == Lift(Next(s, t, c), None)
    ensures forall u: Task :: !Trims(At(Next(s, t, c), u))
  {
    hide Sound, Next;
    var s' := Next(s, t, c);
    forall u: Task
      ensures !Trims(At(s', u))
    {
      assert At(Lift(s', None), u) == At(s', u) && At(Lift(s, None), u) == At(s, u);
    }
  }

  /** The task that trims is where it was, and nobody has gone in. */
  lemma TrimmerGoesOn(s: System, u: Task, t: Task, c: Choice)
    requires Covered(s, Some(u)) && u != t && !InCritical(At(s, t)) && Alone(Next(s, t, c))
    ensures At(Next(s, t, c), u) == At(s, u) && Next(s, t, c).sem == None
  {
    StepIsOwn(s, t, c);
    hide Sound, Next;
    assert At(Next(s, t, c), u) == At(s, u);
  }

  lemma SameOutside(s: System, u: Task, t: Task, c: Choice)
    requires !s.locked && s.sem == None && !InCritical(At(s, t)) && Next(s, t, c).sem == None
    requires !(At(s, t).Idle? && c.Begin? && c.call.Open? && c.call.writeOnly)
    ensures Next(Lift(s, Some(u)), t, c) == Lift(Next(s, t, c), Some(u)) && !Next(s, t, c).locked
  {
    hide CallOk, FollowStep, AccessStep, TrimStep;
  }

  // ------------------------------------------------------------------ steps that take no lock

  lemma GotoSame(s: System, k: Option<Task>, t: Task, pc: Pc)
    ensures Goto(Lift(s, k), t, pc) == Lift(Goto(s, t, pc), k)
  {
  }

  lemma TouchSame(s: System, k: Option<Task>, t: Task, b: Block, next: System)
    requires !s.locked && !next.locked
    ensures Touch(Lift(s, k), t, b, Lift(next, k)) == Lift(Touch(s, t, b, next), k) && !Touch(s, t, b, next).locked
  {
    hide Lift, Goto;
    GotoSame(s, k, t, Lost);
    LiftIs(s, k);
    LiftIs(Goto(s, t, Lost), k);
    LiftBad(Goto(s, t, Lost), k);
    GotoIs(s, t, Lost);
  }

  lemma LiftIs(s: System, k: Option<Task>)
    ensures Lift(s, k).live == s.live && Lift(s, k).bad == s.bad
  {
  }

  lemma LiftBad(s: System, k: Option<Task>)
    ensures Lift(s, k).(bad := true) == Lift(s.(bad := true), k)
  {
  }

  lemma GotoIs(s: System, t: Task, pc: Pc)
    ensures Goto(s, t, pc).locked == s.locked
  {
  }

  lemma StartSame(s: System, k: Option<Task>, t: Task, c: Choice)
    requires !s.locked && !(c.Begin? && c.call.Open? && c.call.writeOnly)
    ensures Start(Lift(s, k), t, c) == Lift(Start(s, t, c), k) && !Start(s, t, c).locked
  {
    hide CallOk;
  }

  lemma EnterSame(s: System, t: Task, pc: Pc)
    requires !s.locked && (pc.LoadShape? || pc.Enter?)
    ensures EnterStep(Lift(s, None), t, pc) == Lift(EnterStep(s, t, pc), None) && !EnterStep(s, t, pc).locked
  {
  }

  lemma GrowSame(s: System, k: Option<Task>, t: Task, job: Job)
    requires !s.locked
    ensures Grow(Lift(s, k), t, job) == Lift(Grow(s, t, job), k) && !Grow(s, t, job).locked
  {
    hide Missing;
  }

  lemma FollowSame(s: System, k: Option<Task>, t: Task, pc: Pc)
    requires !s.locked && Follows(pc)
    ensures FollowStep(Lift(s, k), t, pc) == Lift(FollowStep(s, t, pc), k) && !FollowStep(s, t, pc).locked
  {
    hide Target, Grow, Touch;
    GrowSame(s, k, t, pc.job);
    if pc.Walk? {
      var further := Goto(s, t, Walk(pc.job, pc.gen, pc.at + 1));
      var next := if pc.at + 1 < |s.store.items| then further else Grow(s, t, pc.job);
      TouchSame(s, k, t, Item(pc.gen, pc.at), next);
    }
  }

  lemma ReachArraySame(s: System, k: Option<Task>, t: Task, job: Job, gen: nat, i: nat)
    requires !s.locked
    ensures ReachArray(Lift(s, k), t, job, gen, i) == Lift(ReachArray(s, t, job, gen, i), k)
    ensures !ReachArray(s, t, job, gen, i).locked
  {
    hide EmptyArray, Missing;
  }

  lemma ReachSlotSame(s: System, k: Option<Task>, t: Task, job: Job, gen: nat, i: nat, j: nat)
    requires !s.locked
    ensures ReachSlot(Lift(s, k), t, job, gen, i, j) == Lift(ReachSlot(s, t, job, gen, i, j), k)
    ensures !ReachSlot(s, t, job, gen, i, j).locked
  {
    hide SetQuantum, Missing;
  }

  lemma CopySame(s: System, k: Option<Task>, t: Task, job: Job)
    requires !s.locked
    ensures Copy(Lift(s, k), t, job) == Lift(Copy(s, t, job), k) && !Copy(s, t, job).locked
  {
    hide ReadFound, WriteBytes, ItemsOk, InShape, Target;
  }

  lemma AccessSame(s: System, k: Option<Task>, t: Task, pc: Pc)
    requires !s.locked && Accesses(pc)
    ensures AccessStep(Lift(s, k), t, pc) == Lift(AccessStep(s, t, pc), k) && !AccessStep(s, t, pc).locked
  {
    hide ReachArray, ReachSlot, Copy, Touch, Target, Lift;
    var i, j := Target(pc.job).item, Target(pc.job).slot;
    match pc
    case TestArray(job, gen) =>
      ReachArraySame(s, k, t, job, gen, i);
      TouchSame(s, k, t, Item(gen, i), ReachArray(s, t, job, gen, i));
    case TestSlot(job, gen) =>
      ReachSlotSame(s, k, t, job, gen, i, j);
      TouchSame(s, k, t, Slots(gen, i), ReachSlot(s, t, job, gen, i, j));
    case CopyBytes(job, gen) =>
      CopySame(s, k, t, job);
      TouchSame(s, k, t, Bytes(gen, i, j), Copy(s, t, job));
  }

  lemma FreeSame(s: System, k: Option<Task>, b: Block)
    requires !s.locked
    ensures Free(Lift(s, k), b) == Lift(Free(s, b), k) && !Free(s, b).locked
  {
  }

  lemma TrimSame(s: System, k: Option<Task>, t: Task, pc: Pc)
    requires !s.locked && Trims(pc) && !pc.TrimReset?
    ensures TrimStep(Lift(s, k), t, pc) == Lift(TrimStep(s, t, pc), k) && !TrimStep(s, t, pc).locked
  {
    hide Touch, Free;
    match pc
    case TrimHead =>
    case TrimItem(gen, n) =>
      var next := if n >= |s.store.items| then s
                  else Goto(s, t, if s.store.items[n] == None then TrimNext(gen, n) else TrimSlot(gen, n, 0));
      TouchSame(s, k, t, Item(gen, n), next);
    case TrimSlot(gen, n, j) =>
      var next := Goto(s, t, TrimSlot(gen, n, j + 1));
      FreeSame(next, k, Bytes(gen, n, j));
      TouchSame(s, k, t, Slots(gen, n), if SlotIsFull(s.store, n, j) then Free(next, Bytes(gen, n, j)) else next);
    case TrimArray(gen, n) => FreeSame(Goto(s, t, TrimNext(gen, n)), k, Slots(gen, n));
    case TrimNext(gen, n) =>
      var next := Goto(s, t, if n + 1 < |s.store.items| then TrimItem(gen, n + 1) else TrimReset);
      FreeSame(next, k, Item(gen, n));
      TouchSame(s, k, t, Item(gen, n), Free(next, Item(gen, n)));
  }

  // ------------------------------------------------------------------ what a step may change

  /** A step of t, trim or not, is t's own. */
  ghost predicate Own(s: System, t: Task, s': System) {
    && (s'.locked, s'.params) == (s.locked, s.params)
    && (forall u: Task :: u != t ==> At(s', u) == At(s, u))
    && (s'.sem == s.sem || s'.sem == None || (s'.sem == Some(t) && InCritical(At(s', t))))
  }

  lemma StepIsOwn(s: System, t: Task, c: Choice)
    ensures Own(s, t, Next(s, t, c))
  {
    hide CallOk, FollowStep, AccessStep, TrimStep, EnterStep, Start, Own, StaysInside;
    var pc := At(s, t);
    if Accesses(pc) {
      AccessStays(s, t, pc);
      StayingIsOwn(s, t, AccessStep(s, t, pc));
    } else if Follows(pc) {
      FollowStays(s, t, pc);
      StayingIsOwn(s, t, FollowStep(s, t, pc));
    } else if Trims(pc) {
      TrimIsOwn(s, t, pc);
    } else if pc.Idle? {
      StartIsOwn(s, t, c);
    } else if pc.LoadShape? || pc.Enter? {
      EnterIsOwn(s, t, pc);
    } else {
      RestIsOwn(s, t, c);
    }
    SameIsOwn(s, t);
  }

  lemma SameIsOwn(s: System, t: Task)
    ensures Own(s, t, s)
  {
  }

  lemma StayingIsOwn(s: System, t: Task, s': System)
    requires StaysInside(s, t, s')
    ensures Own(s, t, s')
  {
  }

  lemma StartIsOwn(s: System, t: Task, c: Choice)
    ensures Own(s, t, Start(s, t, c))
  {
    hide CallOk;
  }

  lemma EnterIsOwn(s: System, t: Task, pc: Pc)
    requires pc.LoadShape? || pc.Enter?
    ensures Own(s, t, EnterStep(s, t, pc))
  {
  }

  lemma TrimIsOwn(s: System, t: Task, pc: Pc)
    requires Trims(pc)
    ensures Own(s, t, TrimStep(s, t, pc))
  {
    hide SlotIsFull;
  }

  lemma RestIsOwn(s: System, t: Task, c: Choice)
    requires var pc := At(s, t);
             pc.TrimEnter? || pc.Leave? || pc.Lost?
    ensures Own(s, t, Next(s, t, c))
  {
    hide Start, FollowStep, AccessStep, TrimStep, EnterStep;
  }

  /** Trim is begun by an open for writing and by nothing else. */
  lemma OnlyOpensTrim(s: System, t: Task, c: Choice)
    requires !s.locked && !At(s, t).TrimEnter?
    ensures var pc' := At(Next(s, t, c), t);
            && !pc'.TrimEnter?
            && (Trims(pc') && !Trims(At(s, t)) ==>
                  At(s, t).Idle? && c.Begin? && c.call.Open? && c.call.writeOnly && Next(s, t, c).sem == s.sem)
  {
    hide CallOk, FollowStep, AccessStep, TrimStep;
    var pc := At(s, t);
    if Accesses(pc) {
      AccessStays(s, t, pc);
    } else if Follows(pc) {
      FollowStays(s, t, pc);
    } else if Trims(pc) {
      TrimEndsOrTrims(s, t, pc);
    }
  }

  lemma TrimEndsOrTrims(s: System, t: Task, pc: Pc)
    requires Trims(pc) && pc == At(s, t)
    ensures !At(TrimStep(s, t, pc), t).TrimEnter?
  {
    hide SlotIsFull;
  }

  // ------------------------------------------------------------------ when every trim is alone

  /** While one task trims, no other is in any call. */
  ghost predicate Lonely(s: System) {
    forall t: Task :: Trims(At(s, t)) ==> forall u: Task :: u != t ==> At(s, u) == Idle
  }

  /** What keeps holding of a device on which every trim is lonely. */
  ghost predicate Kept(g: Shape, s: System) {
    s.params == g && (forall t: Task :: !At(s, t).TrimEnter?) && exists trimmer :: Covered(s, trimmer)
  }

  lemma KeptAtFirst(g: Shape)
    ensures Kept(g, Init(g, false)) && Lonely(Init(g, false)) && Alone(Init(g, false))
  {
    hide Covered;
    CoveredAtFirst(g);
  }

  lemma KeptStep(g: Shape, s: System, t: Task, c: Choice)
    requires Kept(g, s) && Lonely(Next(s, t, c))
    ensures Kept(g, Next(s, t, c)) && Alone(Next(s, t, c))
  {
    hide Next, Covered;
    var trimmer :| Covered(s, trimmer);
    LonelyIsAlone(s, trimmer, t, c);
    var trimmer' := AloneStep(s, trimmer, t, c);
    StepIsOwn(s, t, c);
    assert !s.locked by {
      CoveredIsUnlocked(s, trimmer);
    }
    OnlyOpensTrim(s, t, c);
    var s' := Next(s, t, c);
    forall u: Task
      ensures !At(s', u).TrimEnter?
    {
    }
  }

  lemma CoveredIsUnlocked(s: System, trimmer: Option<Task>)
    requires Covered(s, trimmer)
    ensures !s.locked
  {
  }

  lemma LonelyIsAlone(s: System, trimmer: Option<Task>, t: Task, c: Choice)
    requires Covered(s, trimmer) && !At(s, t).TrimEnter? && Lonely(Next(s, t, c))
    ensures Alone(Next(s, t, c))
  {
    var s' := Next(s, t, c);
    StepIsOwn(s, t, c);
    OnlyOpensTrim(s, t, c);
    hide Next, Covered;
    forall u: Task | Trims(At(s', u))
      ensures s'.sem == None && forall v: Task :: v != u ==> !Trims(At(s', v))
    {
      if Trims(At(s, u)) {
        TrimmerIs(s, trimmer, u);
        TrimmerHoldsNothing(s, u);
        if u == t {
          TrimTakesNothing(s, t, c);
        }
      } else {
        SomeoneHolds(s, trimmer);
      }
    }
  }

  lemma TrimmerHoldsNothing(s: System, t: Task)
    requires Covered(s, Some(t))
    ensures s.sem == None
  {
  }

  lemma SomeoneHolds(s: System, trimmer: Option<Task>)
    requires Covered(s, trimmer)
    ensures s.sem.Some? ==> InCritical(At(s, s.sem.value))
  {
    hide Serial;
    if s.sem.Some? {
      assert At(Lift(s, trimmer), s.sem.value) == At(s, s.sem.value);
    }
  }

  lemma TrimTakesNothing(s: System, t: Task, c: Choice)
    requires Trims(At(s, t))
    ensures Next(s, t, c).sem == s.sem
  {
    hide SlotIsFull;
  }

  // ------------------------------------------------------------------ main results

  /** An unlocked device in which the calls so far have acted as if made one by one. */
  ghost predicate ActsSerially(g: Shape, s: System) {
    && !s.bad && s.shape == g && CallsOk(g, s.calls) && s.replies == Run(g, Scull, s.calls).replies
    && (s.sem == None && (forall t: Task :: !Trims(At(s, t))) ==>
          && s.store == Run(g, Scull, s.calls).store
          && forall b: Block :: b in s.live <==> IsBlock(s.gen, s.store, Front(0, 0, 0, 0), b))
  }

  lemma CoveredActsSerially(g: Shape, s: System, trimmer: Option<Task>)
    requires s.params == g && Covered(s, trimmer)
    ensures ActsSerially(g, s)
  {
    var l := Lift(s, trimmer);
    assert (l.bad, l.shape, l.calls, l.replies, l.store, l.gen, l.live)
        == (s.bad, s.shape, s.calls, s.replies, s.store, s.gen, s.live);
    hide Run, IsBlock, HeldOk, LiveIs, Underway, OutsideOk, CallOk;
  }

  /** In every run in which, at every moment, a task that trims finds the semaphore free and
      nobody else trimming, the unlocked trim does no harm: nobody touches or frees a dead block,
      and the calls act as if made one by one. */
  lemma UnlockedIsSafeAlone(g: Shape, schedule: Schedule)
    requires forall k :: 0 <= k <= |schedule| ==> Alone(RunFrom(g, false, schedule[..k]))
    ensures ActsSerially(g, RunFrom(g, false, schedule))
  {
    hide ActsSerially, Covered;
    var trimmer := CoveredRun(g, schedule);
    CoveredActsSerially(g, RunFrom(g, false, schedule), trimmer);
  }

  lemma KeptIsSafe(g: Shape, s: System)
    requires Kept(g, s)
    ensures ActsSerially(g, s)
  {
    hide Covered, ActsSerially;
    var trimmer :| Covered(s, trimmer);
    CoveredActsSerially(g, s, trimmer);
  }

  lemma {:induction false} CoveredRun(g: Shape, schedule: Schedule) returns (trimmer: Option<Task>)
    requires forall k :: 0 <= k <= |schedule| ==> Alone(RunFrom(g, false, schedule[..k]))
    ensures RunFrom(g, false, schedule).params == g && Covered(RunFrom(g, false, schedule), trimmer)
  {
    hide Next, Alone, Covered;
    if schedule == [] {
      trimmer := None;
      CoveredAtFirst(g);
    } else {
      var n := |schedule| - 1;
      assert schedule[..n + 1] == schedule;
      assert forall k :: 0 <= k <= n ==> schedule[..n][..k] == schedule[..k];
      trimmer := CoveredRun(g, schedule[..n]);
      var s := RunFrom(g, false, schedule[..n]);
      StepIsOwn(s, schedule[n].0, schedule[n].1);
      trimmer := AloneStep(s, trimmer, schedule[n].0, schedule[n].1);
    }
  }

  lemma CoveredAtFirst(g: Shape)
    ensures Covered(Init(g, false), None)
  {
    BeginsSound(g);
    assert Lift(Init(g, false), None) == Init(g, true);
    hide Sound;
  }

  // ------------------------------------------------------------------ left alone

  /** A call that is not trimming takes the same steps with and without the lock on trim. */
  lemma {:induction false} AloneSame(s: System, t: Task, n: nat)
    requires !s.locked && !Trims(At(s, t)) && !At(s, t).TrimEnter?
    ensures var s' := ScullCalls.Alone(s, t, n);
            && ScullCalls.Alone(Lift(s, None), t, n) == Lift(s', None)
            && !s'.locked && !Trims(At(s', t)) && !At(s', t).TrimEnter?
  {
    hide Next, Lift;
    if n > 0 {
      AloneSame(s, t, n - 1);
      var s1 := ScullCalls.Alone(s, t, n - 1);
      SameUnlocked(s1, t, Go);
      OnlyOpensTrim(s1, t, Go);
    }
  }

  /** Left alone, a call on a device that nobody trims, and with nobody inside, is answered. */
  lemma CallGoesThrough(g: Shape, s: System, t: Task, call: Call) returns (n: nat)
    requires Kept(g, s) && (forall u: Task :: !Trims(At(s, u)))
    requires At(s, t) == Idle && s.sem == None && !call.Open? && CallOk(g, call)
    ensures var s' := ScullCalls.Alone(Next(s, t, Begin(call)), t, n);
            At(s', t) == Idle && s'.sem == None && ScullCalls.Answers(g, s, call, s')
  {
    var l := Lift(s, None);
    assert Sound(l) && !s.locked && l.params == g && At(l, t) == Idle by {
      NobodyCovers(g, s);
    }
    hide Next, Sound, Kept, CallOk, Lift, ScullCalls.Alone, ScullCalls.Answers;
    SameUnlocked(s, t, Begin(call));
    OnlyOpensTrim(s, t, Begin(call));
    n := ScullCalls.CallGoesThrough(l, t, call);
    AloneSame(Next(s, t, Begin(call)), t, n);
    AnswersSame(g, s, call, ScullCalls.Alone(Next(s, t, Begin(call)), t, n), t);
  }

  lemma NobodyCovers(g: Shape, s: System)
    requires Kept(g, s) && (forall u: Task :: !Trims(At(s, u)))
    ensures Covered(s, None)
  {
    hide Sound;
  }

  lemma AnswersSame(g: Shape, s: System, call: Call, s': System, t: Task)
    requires CallOk(g, call) && ScullCalls.Answers(g, Lift(s, None), call, Lift(s', None))
    ensures ScullCalls.Answers(g, s, call, s')
    ensures At(Lift(s', None), t) == At(s', t) && Lift(s', None).sem == s'.sem
  {
    hide Answer, CallOk;
  }

  /** Left alone, an unlocked trim comes to its end. */
  lemma {:induction false} TrimFinishes(s: System, t: Task, bound: nat) returns (n: nat)
    requires Covered(s, Some(t)) && HeldOk(Lift(s, Some(t)), At(s, t))
    requires StepsInside(Lift(s, Some(t)), At(s, t)) <= bound
    ensures var s' := ScullCalls.Alone(s, t, n);
            && Covered(s', None) && At(s', t) == Idle && s'.sem == None && s'.store == ScullTrim()
            && s'.params == s.params
    decreases bound
  {
    hide Next, Lift, Sound, HeldOk, StepsInside, ScullCalls.Alone;
    var s1 := Next(s, t, Go);
    ScullCalls.OneStep(s, t);
    StepIsOwn(s, t, Go);
    var trimmer := TrimGoes(s, t, Go);
    if At(s, t).TrimReset? {
      n := 1;
      ResetEmpties(s, t);
      NobodyElseTrims(s, t, s1);
      CoveredIsNone(s1, trimmer);
    } else {
      TrimStepLifts(s, t);
      LiftedTrims(s, t);
      TrimmerIs(s1, trimmer, t);
      TrimMovesOn(s, t);
      var m := TrimFinishes(s1, t, StepsInside(Lift(s1, Some(t)), At(s1, t)));
      n := 1 + m;
      ScullCalls.AloneOn(s, t, 1, m);
    }
  }

  lemma ResetEmpties(s: System, t: Task)
    requires Covered(s, Some(t)) && At(s, t).TrimReset?
    ensures var s' := Next(s, t, Go);
            At(s', t) == Idle && s'.sem == None && s'.store == ScullTrim() && s'.pcs == s.pcs[t := Idle]
  {
    hide Sound;
  }

  lemma CoveredIsNone(s: System, trimmer: Option<Task>)
    requires Covered(s, trimmer) && forall u: Task :: !Trims(At(s, u))
    ensures trimmer == None
  {
    hide Sound;
  }

  lemma TrimMovesOn(s: System, t: Task)
    requires Covered(s, Some(t)) && !At(s, t).TrimReset?
    requires Next(Lift(s, Some(t)), t, Go) == Lift(Next(s, t, Go), Some(t))
    ensures var l, l' := Lift(s, Some(t)), Lift(Next(s, t, Go), Some(t));
            && HeldOk(l, At(s, t)) && HeldOk(l', At(Next(s, t, Go), t))
            && StepsInside(l', At(Next(s, t, Go), t)) < StepsInside(l, At(s, t))
  {
    var l := Lift(s, Some(t));
    assert At(l, t) == At(s, t) && At(Lift(Next(s, t, Go), Some(t)), t) == At(Next(s, t, Go), t);
    assert ScullCalls.IsInside(l, t) && !At(l, t).Leave?;
    hide Sound, Next, HeldOk, StepsInside, Lift;
    ScullCalls.MovesOn(l, t);
  }

  /** An open for writing, on a device that nobody uses, empties it. */
  lemma OpenGoesThrough(g: Shape, s: System, t: Task) returns (n: nat)
    requires Kept(g, s) && (forall u: Task :: At(s, u) == Idle)
    ensures var s' := ScullCalls.Alone(Next(s, t, Begin(Open(true, false))), t, n);
            At(s', t) == Idle && s'.sem == None && s'.store == ScullTrim() && s'.live == {}
  {
    var c := Begin(Open(true, false));
    var s1 := Next(s, t, c);
    CoveredByNobody(g, s);
    hide Sound, Lift, StepsInside, HeldOk, Next, ScullCalls.Alone, Kept;
    BeginsTrim(s, t, c);
    StepIsOwn(s, t, c);
    assert Trims(At(s1, t)) && Lonely(s1);
    KeptStep(g, s, t, c);
    var trimmer := KeptIsCovered(g, s1);
    TrimmerIs(s1, trimmer, t);
    TrimIsHeld(s1, t);
    n := TrimFinishes(s1, t, StepsInside(Lift(s1, Some(t)), At(s1, t)));
    NoBlockIsLeft(ScullCalls.Alone(s1, t, n));
  }

  lemma CoveredByNobody(g: Shape, s: System)
    requires Kept(g, s) && forall u: Task :: At(s, u) == Idle
    ensures Covered(s, None) && !s.locked
  {
    NobodyCovers(g, s);
    hide Sound;
  }

  lemma KeptIsCovered(g: Shape, s: System) returns (trimmer: Option<Task>)
    requires Kept(g, s)
    ensures Covered(s, trimmer) && s.params == g
  {
    hide Covered;
    trimmer :| Covered(s, trimmer);
  }

  lemma TrimIsHeld(s: System, t: Task)
    requires Covered(s, Some(t))
    ensures HeldOk(Lift(s, Some(t)), At(s, t))
  {
    var l := Lift(s, Some(t));
    assert At(l, t) == At(s, t) && ScullCalls.IsInside(l, t);
    hide Sound, HeldOk, Lift;
    ScullCalls.InsideIsHeld(l, t);
  }

  lemma NoBlockIsLeft(s: System)
    requires Covered(s, None) && s.sem == None && s.store == ScullTrim()
    ensures s.live == {}
  {
    var l := Lift(s, None);
    assert LiveIs(l, Idle) by {
      hide Run, HeldOk, LiveIs, CallOk, OutsideOk, Underway;
    }
    hide Sound, Covered;
  }
}
