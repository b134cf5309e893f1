/** What every run of ScullProtocol keeps when trim takes the semaphore: no block is touched
    or freed that is not live, and the calls act as if made one after the other, in the order
    in which they leave the device. */
module ScullSerial {
  import opened Common
  import opened StoreAddress
  import opened Store
  import opened StoreHistory
  import opened ScullProtocol
  import StoreBytes

  // ------------------------------------------------------------------ the semaphore

  ghost predicate InCritical(pc: Pc) {
    Follows(pc) || Accesses(pc) || Trims(pc) || pc.Leave? || pc.Lost?
  }

  ghost predicate Exclusive(s: System) {
    && s.locked && s.shape == s.params
    && forall t: Task :: InCritical(At(s, t)) <==> s.sem == Some(t)
  }

  ghost predicate KeepsDiscipline(s: System, t: Task, s': System) {
    var pc, pc' := At(s, t), At(s', t);
    && s'.locked == s.locked && s'.params == s.params
    && (forall u: Task :: u != t ==> At(s', u) == At(s, u))
    && s'.sem == (if InCritical(pc') then Some(t) else if InCritical(pc) then None else s.sem)
    && (InCritical(pc') && !InCritical(pc) ==> s.sem == None)
    && (!InCritical(pc) ==>
          (s'.shape, s'.store, s'.gen, s'.live, s'.bad) == (s.shape, s.store, s.gen, s.live, s.bad))
  }

  lemma Discipline(s: System, t: Task, c: Choice)
    requires Exclusive(s)
    ensures KeepsDiscipline(s, t, Next(s, t, c)) && Next(s, t, c).shape == s.params
  {
    hide Copy, ReadFound, WriteBytes, CallOk, FollowStep, AccessStep, TrimStep, EnterStep, Start;
    var pc := At(s, t);
    assert InCritical(pc) <==> s.sem == Some(t);
    if Follows(pc) {
      FollowDiscipline(s, t);
    } else if Accesses(pc) {
      AccessDiscipline(s, t);
    } else if Trims(pc) {
      TrimDiscipline(s, t);
    } else if !InCritical(pc) {
      OutsideDiscipline(s, t, c);
    }
  }

  lemma OutsideDiscipline(s: System, t: Task, c: Choice)
    requires Exclusive(s) && !InCritical(At(s, t)) && s.sem != Some(t)
    ensures var s' := Next(s, t, c); KeepsDiscipline(s, t, s') && s'.shape == s.params
  {
    hide CallOk, FollowStep, AccessStep, TrimStep, Start, EnterStep;
    if At(s, t).Idle? {
      StartDiscipline(s, t, c);
    } else if At(s, t).LoadShape? || At(s, t).Enter? {
      EnterDiscipline(s, t);
    }
  }

  lemma StartDiscipline(s: System, t: Task, c: Choice)
    requires s.locked && At(s, t).Idle? && s.sem != Some(t) && s.shape == s.params
    ensures var s' := Start(s, t, c); KeepsDiscipline(s, t, s') && s'.shape == s.params
  {
    hide CallOk;
  }

  lemma EnterDiscipline(s: System, t: Task)
    requires (At(s, t).LoadShape? || At(s, t).Enter?) && s.sem != Some(t) && s.shape == s.params
    ensures var s' := EnterStep(s, t, At(s, t)); KeepsDiscipline(s, t, s') && s'.shape == s.params
  {
  }

  lemma FollowDiscipline(s: System, t: Task)
    requires Exclusive(s) && Follows(At(s, t)) && s.sem == Some(t)
    ensures var s' := FollowStep(s, t, At(s, t)); KeepsDiscipline(s, t, s') && s'.shape == s.params
  {
    hide FollowStep;
    FollowStays(s, t, At(s, t));
  }

  lemma AccessDiscipline(s: System, t: Task)
    requires Exclusive(s) && Accesses(At(s, t)) && s.sem == Some(t)
    ensures var s' := AccessStep(s, t, At(s, t)); KeepsDiscipline(s, t, s') && s'.shape == s.params
  {
    hide AccessStep;
    AccessStays(s, t, At(s, t));
  }

  /** A step of a read or write from inside to inside. */
  ghost predicate StaysInside(s: System, t: Task, s': System) {
    && (s'.locked, s'.params, s'.shape, s'.sem) == (s.locked, s.params, s.shape, s.sem)
    && (s' == s || (InCritical(At(s', t)) && !Trims(At(s', t)) && forall u: Task :: u != t ==> At(s', u) == At(s, u)))
  }

  lemma TouchStays(s: System, t: Task, b: Block, next: System)
    requires StaysInside(s, t, next)
    ensures StaysInside(s, t, Touch(s, t, b, next))
  {
  }

  lemma GotoStays(s: System, t: Task, pc: Pc)
    requires InCritical(pc) && !Trims(pc)
    ensures StaysInside(s, t, Goto(s, t, pc))
  {
  }

  lemma GrowStays(s: System, t: Task, job: Job)
    ensures StaysInside(s, t, Grow(s, t, job))
  {
    hide Missing;
  }

  lemma FollowStays(s: System, t: Task, pc: Pc)
    requires Follows(pc)
    ensures StaysInside(s, t, FollowStep(s, t, pc))
  {
    hide Target, Grow, Touch, StaysInside;
    GrowStays(s, t, pc.job);
    assert StaysInside(s, t, s) by {
      StandingStays(s, t);
    }
    match pc
    case TestSize(job) =>
      GotoStays(s, t, Leave(job.call, Reply(Done(0), [])));
      if !job.call.Open? && job.call.pos < s.store.size {
        GotoStays(s, t, LoadHead(job.(count := Min(job.count, s.store.size - job.call.pos))));
      }
    case LoadHead(job) => GotoStays(s, t, Walk(job, s.gen, 0));
    case Walk(job, gen, at) =>
      GotoStays(s, t, TestArray(job, gen));
      GotoStays(s, t, Walk(job, gen, at + 1));
      var next := if at + 1 < |s.store.items| then Goto(s, t, Walk(job, gen, at + 1)) else Grow(s, t, job);
      TouchStays(s, t, Item(gen, at), next);
  }

  lemma StandingStays(s: System, t: Task)
    ensures StaysInside(s, t, s)
  {
  }

  lemma AccessStays(s: System, t: Task, pc: Pc)
    requires Accesses(pc)
    ensures StaysInside(s, t, AccessStep(s, t, pc))
  {
    hide ReachArray, ReachSlot, Copy, Target, Touch, StaysInside;
    var i, j := Target(pc.job).item, Target(pc.job).slot;
    match pc
    case TestArray(job, gen) =>
      ReachArrayStays(s, t, job, gen, i);
      TouchStays(s, t, Item(gen, i), ReachArray(s, t, job, gen, i));
    case TestSlot(job, gen) =>
      ReachSlotStays(s, t, job, gen, i, j);
      TouchStays(s, t, Slots(gen, i), ReachSlot(s, t, job, gen, i, j));
    case CopyBytes(job, gen) =>
      CopyStays(s, t, job);
      TouchStays(s, t, Bytes(gen, i, j), Copy(s, t, job));
  }

  lemma CopyStays(s: System, t: Task, job: Job)
    ensures StaysInside(s, t, Copy(s, t, job))
  {
    hide ReadFound, WriteBytes, ItemsOk, InShape;
  }

  lemma ReachArrayStays(s: System, t: Task, job: Job, gen: nat, i: nat)
    ensures StaysInside(s, t, ReachArray(s, t, job, gen, i))
  {
    hide EmptyArray, Missing;
  }

  lemma ReachSlotStays(s: System, t: Task, job: Job, gen: nat, i: nat, j: nat)
    ensures StaysInside(s, t, ReachSlot(s, t, job, gen, i, j))
  {
    hide SetQuantum, Missing;
  }

  lemma TrimDiscipline(s: System, t: Task)
    requires Exclusive(s) && Trims(At(s, t)) && s.sem == Some(t)
    ensures var s' := TrimStep(s, t, At(s, t)); KeepsDiscipline(s, t, s') && s'.shape == s.params
  {
  }

  lemma ExclusiveStep(s: System, t: Task, c: Choice)
    requires Exclusive(s)
    ensures Exclusive(Next(s, t, c))
  {
    hide Next, InCritical;
    Discipline(s, t, c);
    var s' := Next(s, t, c);
    forall u: Task
      ensures InCritical(At(s', u)) <==> s'.sem == Some(u)
    {
      assert InCritical(At(s, u)) <==> s.sem == Some(u);
      assert InCritical(At(s, t)) <==> s.sem == Some(t);
    }
  }

  // ------------------------------------------------------------------ what is left of a call

  ghost predicate JobOk(g: Shape, job: Job) {
    && !job.call.Open? && CallOk(g, job.call) && !job.call.env.signal && job.shape == g
    && (job.call.Write? ==> job.count == |job.call.data|)
  }

  /** The end of the call, from the item on. */
  ghost function AccessOn(g: Shape, st: Store, job: Job): (Store, Reply)
    requires ItemsOk(g, st.items) && JobOk(g, job) && Target(job).item < |st.items|
  {
    PositionInvertsLocate(g, job.call.pos);
    if job.call.Read? then
      var (r, out) := ReadFound(g, st.items, Target(job), job.count, job.call.env);
      (st, Reply(r, out))
    else
      var (st', r) := WriteFound(g, st, job.call.pos, job.call.data, job.left, job.call.env.memory, job.call.env.fault);
      (st', Reply(r, []))
  }

  /** The end of the call, from the list on. */
  ghost function FollowOn(g: Shape, st: Store, job: Job): (Store, Reply)
    requires ItemsOk(g, st.items) && JobOk(g, job)
  {
    FollowKeepsOk(g, st.items, Target(job).item, job.left);
    var f := Follow(st.items, Target(job).item, job.left);
    var st' := st.(items := f.items);
    if f.found then AccessOn(g, st', job.(left := f.budget)) else (st', Missing(job.call))
  }

  lemma ReadFollows(g: Shape, st: Store, call: Call)
    requires ItemsOk(g, st.items) && call.Read? && CallOk(g, call) && !call.env.signal
    ensures AnswerRead(g, Scull, st, call.pos, call.count, call.env)
         == if call.pos >= st.size then (st, Reply(Done(0), []))
            else FollowOn(g, st, Job(call, g, Min(call.count, st.size - call.pos), call.env.budget))
  {
    hide ReadFound, Follow, Locate;
  }

  lemma WriteFollows(g: Shape, st: Store, call: Call)
    requires ItemsOk(g, st.items) && call.Write? && CallOk(g, call) && !call.env.signal
    ensures AnswerWrite(g, Scull, st, call.pos, call.data, call.env)
         == FollowOn(g, st, Job(call, g, |call.data|, call.env.budget))
  {
    hide WriteFound, Follow, Locate;
  }

  lemma FollowReaches(g: Shape, st: Store, job: Job)
    requires ItemsOk(g, st.items) && JobOk(g, job) && Target(job).item < |st.items|
    ensures FollowOn(g, st, job) == AccessOn(g, st, job)
  {
    hide AccessOn, Target;
  }

  lemma FollowGrowsOne(g: Shape, st: Store, job: Job)
    requires ItemsOk(g, st.items) && JobOk(g, job) && |st.items| <= Target(job).item
    ensures job.left == 0 ==> FollowOn(g, st, job) == (st, Missing(job.call))
    ensures var more := st.(items := st.items + [None]);
            ItemsOk(g, more.items) &&
            (job.left > 0 ==> FollowOn(g, st, job) == FollowOn(g, more, job.(left := job.left - 1)))
  {
    hide AccessOn, Locate;
  }

  lemma AccessReads(g: Shape, st: Store, job: Job)
    requires ItemsOk(g, st.items) && JobOk(g, job) && Target(job).item < |st.items| && job.call.Read?
    ensures var at, v := Target(job), st.items[Target(job).item];
            InShape(g, at)
            && (v.Some? ==> at.slot < |v.value|)
            && (v == None || v.value[at.slot] == None ==> AccessOn(g, st, job) == (st, Missing(job.call)))
            && (v.Some? && v.value[at.slot].Some? ==>
                  var (r, out) := ReadFound(g, st.items, at, job.count, job.call.env);
                  AccessOn(g, st, job) == (st, Reply(r, out)))
  {
    PositionInvertsLocate(g, job.call.pos);
    hide Locate;
    assert ArrayOk(g, st.items[Target(job).item]);
  }

  lemma AccessWrites(g: Shape, st: Store, job: Job)
    requires ItemsOk(g, st.items) && JobOk(g, job) && Target(job).item < |st.items| && job.call.Write?
    ensures var at, v := Target(job), st.items[Target(job).item];
            InShape(g, at) &&
            if v == None then
              var more := st.(items := st.items[at.item := EmptyArray(g)]);
              if job.left == 0 then AccessOn(g, st, job) == (st, Missing(job.call))
              else ItemsOk(g, more.items) && AccessOn(g, st, job) == AccessOn(g, more, job.(left := job.left - 1))
            else if at.slot >= |v.value| then false
            else if v.value[at.slot] == None then
              var more := st.(items := SetQuantum(st.items, at.item, at.slot, Some(job.call.env.memory)));
              if job.left == 0 then AccessOn(g, st, job) == (st, Missing(job.call))
              else ItemsOk(g, more.items) && AccessOn(g, st, job) == AccessOn(g, more, job.(left := job.left - 1))
            else
              |v.value[at.slot].value| == g.quantum &&
              var q := v.value[at.slot].value;
              var (st', r) := WriteBytes(g, st, at, q, job.call.pos, job.call.data, job.call.env.fault);
              AccessOn(g, st, job) == (st', Reply(r, []))
  {
    WriteSteps(g, st, job.call.pos, job.call.data, job.left, job.call.env.memory, job.call.env.fault);
    hide Locate, WriteFound, WriteBytes;
    assert ArrayOk(g, st.items[Target(job).item]);
    if st.items[Target(job).item].Some? {
      assert QuantumOk(g, st.items[Target(job).item].value[Target(job).slot]);
    }
  }

  // ------------------------------------------------------------------ the holder

  /** What the task inside has established about the store and its pointers. */
  ghost predicate HeldOk(s: System, pc: Pc) {
    var g, items := s.params, s.store.items;
    && ItemsOk(g, items) && !pc.Lost?
    && (Follows(pc) || Accesses(pc) ==> JobOk(g, pc.job))
    && (pc.TestSize? ==>
          pc.job.call.Read? && pc.job.count == pc.job.call.count && pc.job.left == pc.job.call.env.budget)
    && (pc.Walk? || Accesses(pc) || pc.TrimItem? || pc.TrimSlot? || pc.TrimArray? || pc.TrimNext? ==> pc.gen == s.gen)
    && (pc.Walk? ==> pc.at < |items| && pc.at <= Target(pc.job).item)
    && (Accesses(pc) ==> Target(pc.job).item < |items|)
    && (pc.TestSlot? || pc.CopyBytes? ==> items[Target(pc.job).item].Some?)
    && (pc.CopyBytes? ==> SlotIsFull(s.store, Target(pc.job).item, Target(pc.job).slot))
    && (pc.TrimItem? || pc.TrimSlot? || pc.TrimArray? || pc.TrimNext? ==> pc.k < |items|)
    && (pc.TrimSlot? || pc.TrimArray? ==> items[pc.k].Some?)
    && (pc.TrimSlot? ==> pc.j <= g.qset)
  }

  /** How far trim has got: the first item, the first array, and the first quantum not yet
      freed. */
  datatype Front = Front(items: nat, arrays: nat, quantumItem: nat, quantumSlot: nat)

  ghost function FrontOf(s: System, pc: Pc): Front {
    match pc
    case TrimItem(_, k) => Front(k, k, k, 0)
    case TrimSlot(_, k, j) => Front(k, k, k, j)
    case TrimArray(_, k) => Front(k, k, k + 1, 0)
    case TrimNext(_, k) => Front(k, k + 1, k + 1, 0)
    case TrimReset => Front(|s.store.items|, |s.store.items|, |s.store.items|, 0)
    case _ => Front(0, 0, 0, 0)
  }

  /** A block of the store that trim has not freed. */
  ghost predicate IsBlock(gen: nat, st: Store, f: Front, b: Block) {
    b.gen == gen &&
    match b
    case Item(_, i) => f.items <= i < |st.items|
    case Slots(_, i) => f.arrays <= i < |st.items| && st.items[i].Some?
    case Bytes(_, i, j) =>
      SlotIsFull(st, i, j) && (f.quantumItem < i || (f.quantumItem == i && f.quantumSlot <= j))
  }

  /** The live blocks are exactly those. */
  ghost predicate LiveIs(s: System, pc: Pc) {
    forall b: Block :: b in s.live <==> IsBlock(s.gen, s.store, FrontOf(s, pc), b)
  }

  ghost function CallOf(pc: Pc): Call
    requires InCritical(pc) && !pc.Lost?
  {
    if Follows(pc) || Accesses(pc) then pc.job.call
    else if pc.Leave? then pc.call
    else Open(true, false)
  }

  /** What the store and the reply will be when the task leaves. */
  ghost function Rest(s: System, pc: Pc): (Store, Reply)
    requires HeldOk(s, pc) && InCritical(pc)
  {
    if pc.TestSize? then
      AnswerRead(s.params, Scull, s.store, pc.job.call.pos, pc.job.call.count, pc.job.call.env)
    else if Follows(pc) then FollowOn(s.params, s.store, pc.job)
    else if Accesses(pc) then AccessOn(s.params, s.store, pc.job)
    else if pc.Leave? then (s.store, pc.reply)
    else (ScullTrim(), Reply(Done(0), []))
  }

  /** A step of the task inside that leaves the outcome of its call what it was, touches no
      dead block, and keeps the live blocks in step with the store. */
  ghost predicate Carries(s: System, t: Task, s': System)
    requires HeldOk(s, At(s, t)) && InCritical(At(s, t))
  {
    var pc, pc' := At(s, t), At(s', t);
    && InCritical(pc') && s'.params == s.params && HeldOk(s', pc') && LiveIs(s', pc')
    && CallOf(pc') == CallOf(pc) && Rest(s', pc') == Rest(s, pc)
    && (s'.bad, s'.calls, s'.replies, s'.callers) == (s.bad, s.calls, s.replies, s.callers)
  }

  // Blocks of a store that has gained one.

  ghost predicate Gains(gen: nat, st: Store, st': Store, b: Block) {
    forall b': Block :: IsBlock(gen, st', Front(0, 0, 0, 0), b') <==> IsBlock(gen, st, Front(0, 0, 0, 0), b') || b' == b
  }

  lemma ItemGained(gen: nat, st: Store)
    ensures Gains(gen, st, st.(items := st.items + [None]), Item(gen, |st.items|))
  {
  }

  lemma ArrayGained(g: Shape, gen: nat, st: Store, i: nat)
    requires i < |st.items| && st.items[i] == None
    ensures Gains(gen, st, st.(items := st.items[i := EmptyArray(g)]), Slots(gen, i))
  {
  }

  lemma QuantumGained(gen: nat, st: Store, i: nat, j: nat, q: seq<Byte>)
    requires i < |st.items| && st.items[i].Some? && j < |st.items[i].value|
    ensures Gains(gen, st, st.(items := SetQuantum(st.items, i, j, Some(q))), Bytes(gen, i, j))
  {
    var st' := st.(items := SetQuantum(st.items, i, j, Some(q)));
    forall k: nat, l: nat
      ensures SlotIsFull(st', k, l) <==> SlotIsFull(st, k, l) || (k == i && l == j)
    {
    }
  }

  lemma WritingGainsNothing(g: Shape, gen: nat, st: Store, at: Place, q: seq<Byte>, pos: nat, data: seq<Byte>,
                            fault: Option<seq<Byte>>)
    requires |q| == g.quantum && at.offset < g.quantum && SlotIsFull(st, at.item, at.slot) && ItemsOk(g, st.items)
    ensures var st' := WriteBytes(g, st, at, q, pos, data, fault).0;
            ItemsOk(g, st'.items) && forall b: Block ::
              IsBlock(gen, st', Front(0, 0, 0, 0), b) <==> IsBlock(gen, st, Front(0, 0, 0, 0), b)
  {
    var st' := WriteBytes(g, st, at, q, pos, data, fault).0;
    forall k: nat, l: nat
      ensures SlotIsFull(st', k, l) <==> SlotIsFull(st, k, l)
    {
    }
    assert ArrayOk(g, st.items[at.item]);
    forall k | 0 <= k < |st'.items|
      ensures ArrayOk(g, st'.items[k])
    {
      assert ArrayOk(g, st.items[k]);
    }
  }

  lemma TargetStays(job: Job, left: nat)
    ensures Target(job.(left := left)) == Target(job)
  {
  }

  // The steps, one by one.

  /** The call is over but for leaving. */
  lemma LeavingCarries(s: System, t: Task, reply: Reply)
    requires (Follows(At(s, t)) || Accesses(At(s, t))) && HeldOk(s, At(s, t)) && LiveIs(s, At(s, t))
    requires Rest(s, At(s, t)) == (s.store, reply)
    ensures Carries(s, t, Goto(s, t, Leave(At(s, t).job.call, reply)))
  {
    hide Rest, Target, IsBlock;
    RestOfLeaving(Goto(s, t, Leave(At(s, t).job.call, reply)), At(s, t).job.call, reply);
  }

  lemma RestOfLeaving(s: System, call: Call, reply: Reply)
    requires ItemsOk(s.params, s.store.items)
    ensures HeldOk(s, Leave(call, reply)) && Rest(s, Leave(call, reply)) == (s.store, reply)
  {
  }

  lemma SizeCarries(s: System, t: Task)
    requires At(s, t).TestSize? && HeldOk(s, At(s, t)) && LiveIs(s, At(s, t))
    ensures Carries(s, t, FollowStep(s, t, At(s, t)))
  {
    hide FollowOn, AccessOn, AnswerRead, Grow, IsBlock;
    ReadFollows(s.params, s.store, At(s, t).job.call);
  }

  lemma GrowCarries(s: System, t: Task, job: Job)
    requires (At(s, t).LoadHead? || At(s, t).Walk?) && At(s, t).job == job
    requires HeldOk(s, At(s, t)) && LiveIs(s, At(s, t)) && |s.store.items| <= Target(job).item
    ensures Carries(s, t, Grow(s, t, job))
  {
    hide FollowOn, AccessOn, Target, CallOk, IsBlock;
    FollowGrowsOne(s.params, s.store, job);
    if job.left == 0 {
      LeavingCarries(s, t, Missing(job.call));
    } else {
      TargetStays(job, job.left - 1);
      ItemGained(s.gen, s.store);
    }
  }

  lemma HeadCarries(s: System, t: Task)
    requires At(s, t).LoadHead? && HeldOk(s, At(s, t)) && LiveIs(s, At(s, t))
    ensures Carries(s, t, FollowStep(s, t, At(s, t)))
  {
    hide FollowOn, AccessOn, Target, IsBlock, Grow, Carries;
    var job := At(s, t).job;
    if s.store.items == [] {
      GrowCarries(s, t, job);
    } else {
      WalkStarts(s, t, job);
    }
  }

  lemma WalkStarts(s: System, t: Task, job: Job)
    requires At(s, t) == LoadHead(job) && HeldOk(s, At(s, t)) && LiveIs(s, At(s, t)) && s.store.items != []
    ensures Carries(s, t, Goto(s, t, Walk(job, s.gen, 0)))
  {
    hide FollowOn, AccessOn, Target, IsBlock;
  }

  lemma WalkCarries(s: System, t: Task)
    requires At(s, t).Walk? && HeldOk(s, At(s, t)) && LiveIs(s, At(s, t))
    ensures Carries(s, t, FollowStep(s, t, At(s, t)))
  {
    var job, at := At(s, t).job, At(s, t).at;
    assert IsBlock(s.gen, s.store, FrontOf(s, At(s, t)), Item(s.gen, at));
    hide FollowOn, AccessOn, Target, IsBlock, Grow, Carries;
    if at == Target(job).item {
      WalkArrives(s, t);
    } else if at + 1 < |s.store.items| {
      WalkGoesOn(s, t);
    } else {
      GrowCarries(s, t, job);
    }
  }

  lemma WalkArrives(s: System, t: Task)
    requires At(s, t).Walk? && HeldOk(s, At(s, t)) && LiveIs(s, At(s, t)) && At(s, t).at == Target(At(s, t).job).item
    ensures Carries(s, t, Goto(s, t, TestArray(At(s, t).job, At(s, t).gen)))
  {
    hide FollowOn, AccessOn, Target, IsBlock;
    FollowReaches(s.params, s.store, At(s, t).job);
  }

  lemma WalkGoesOn(s: System, t: Task)
    requires At(s, t).Walk? && HeldOk(s, At(s, t)) && LiveIs(s, At(s, t))
    requires At(s, t).at < Target(At(s, t).job).item && At(s, t).at + 1 < |s.store.items|
    ensures Carries(s, t, Goto(s, t, Walk(At(s, t).job, At(s, t).gen, At(s, t).at + 1)))
  {
    hide FollowOn, AccessOn, Target, IsBlock;
  }

  /** What the step to an array or a quantum needs to know of the rest of the call. */
  lemma AccessGoes(s: System, pc: Pc)
    requires Accesses(pc) && HeldOk(s, pc)
    ensures var g, job := s.params, pc.job;
            var at, v := Target(job), s.store.items[Target(job).item];
            && InShape(g, at) && (v.Some? ==> at.slot < |v.value|)
            && (job.call.Read? || job.left == 0 ==> v == None || v.value[at.slot] == None ==>
                  AccessOn(g, s.store, job) == (s.store, Missing(job.call)))
  {
    hide AccessOn, Target, CallOk, WriteBytes;
    if pc.job.call.Read? {
      AccessReads(s.params, s.store, pc.job);
    } else {
      AccessWrites(s.params, s.store, pc.job);
    }
  }

  lemma ArrayCarries(s: System, t: Task)
    requires At(s, t).TestArray? && HeldOk(s, At(s, t)) && LiveIs(s, At(s, t))
    ensures Carries(s, t, AccessStep(s, t, At(s, t)))
  {
    var job := At(s, t).job;
    var i := Target(job).item;
    assert IsBlock(s.gen, s.store, FrontOf(s, At(s, t)), Item(s.gen, i));
    hide AccessOn, FollowOn, Target, CallOk, IsBlock, Carries, ItemsOk, JobOk, Locate;
    AccessGoes(s, At(s, t));
    if s.store.items[i].Some? {
      ArrayFound(s, t);
    } else if job.call.Read? || job.left == 0 {
      LeavingCarries(s, t, Missing(job.call));
    } else {
      ArrayMade(s, t);
    }
  }

  lemma ArrayFound(s: System, t: Task)
    requires At(s, t).TestArray? && HeldOk(s, At(s, t)) && LiveIs(s, At(s, t))
    requires s.store.items[Target(At(s, t).job).item].Some?
    ensures Carries(s, t, Goto(s, t, TestSlot(At(s, t).job, At(s, t).gen)))
  {
    hide AccessOn, Target, CallOk, IsBlock;
  }

  lemma ArrayMade(s: System, t: Task)
    requires At(s, t).TestArray? && HeldOk(s, At(s, t)) && LiveIs(s, At(s, t)) && At(s, t).job.call.Write?
    requires At(s, t).job.left > 0 && s.store.items[Target(At(s, t).job).item] == None
    ensures Carries(s, t, ReachArray(s, t, At(s, t).job, At(s, t).gen, Target(At(s, t).job).item))
  {
    hide AccessOn, Target, CallOk, IsBlock, WriteBytes;
    var job := At(s, t).job;
    AccessWrites(s.params, s.store, job);
    ArrayGained(s.params, s.gen, s.store, Target(job).item);
    TargetStays(job, job.left - 1);
  }

  lemma SlotCarries(s: System, t: Task)
    requires At(s, t).TestSlot? && HeldOk(s, At(s, t)) && LiveIs(s, At(s, t))
    ensures Carries(s, t, AccessStep(s, t, At(s, t)))
  {
    var job := At(s, t).job;
    var i, j := Target(job).item, Target(job).slot;
    assert IsBlock(s.gen, s.store, FrontOf(s, At(s, t)), Slots(s.gen, i));
    hide AccessOn, FollowOn, Target, CallOk, IsBlock, Carries, ItemsOk, JobOk, Locate;
    AccessGoes(s, At(s, t));
    if s.store.items[i].value[j].Some? {
      SlotFound(s, t);
    } else if job.call.Read? || job.left == 0 {
      LeavingCarries(s, t, Missing(job.call));
    } else {
      SlotMade(s, t);
    }
  }

  lemma SlotFound(s: System, t: Task)
    requires At(s, t).TestSlot? && HeldOk(s, At(s, t)) && LiveIs(s, At(s, t))
    requires SlotIsFull(s.store, Target(At(s, t).job).item, Target(At(s, t).job).slot)
    ensures Carries(s, t, Goto(s, t, CopyBytes(At(s, t).job, At(s, t).gen)))
  {
    hide AccessOn, Target, CallOk, IsBlock;
  }

  lemma SlotMade(s: System, t: Task)
    requires At(s, t).TestSlot? && HeldOk(s, At(s, t)) && LiveIs(s, At(s, t)) && At(s, t).job.call.Write?
    requires At(s, t).job.left > 0 && Target(At(s, t).job).slot < |s.store.items[Target(At(s, t).job).item].value|
    requires s.store.items[Target(At(s, t).job).item].value[Target(At(s, t).job).slot] == None
    ensures var at := Target(At(s, t).job);
            Carries(s, t, ReachSlot(s, t, At(s, t).job, At(s, t).gen, at.item, at.slot))
  {
    hide AccessOn, Target, CallOk, IsBlock, WriteBytes;
    var job := At(s, t).job;
    AccessWrites(s.params, s.store, job);
    QuantumGained(s.gen, s.store, Target(job).item, Target(job).slot, job.call.env.memory);
    TargetStays(job, job.left - 1);
  }

  lemma CopyCarries(s: System, t: Task)
    requires At(s, t).CopyBytes? && HeldOk(s, At(s, t)) && LiveIs(s, At(s, t))
    ensures Carries(s, t, AccessStep(s, t, At(s, t)))
  {
    var job := At(s, t).job;
    var at := Target(job);
    assert IsBlock(s.gen, s.store, FrontOf(s, At(s, t)), Bytes(s.gen, at.item, at.slot));
    hide AccessOn, FollowOn, Target, CallOk, IsBlock, Carries, ItemsOk, Copy, Locate;
    if job.call.Read? {
      CopyOutCarries(s, t);
    } else {
      CopyInCarries(s, t);
    }
  }

  lemma CopyOutCarries(s: System, t: Task)
    requires At(s, t).CopyBytes? && HeldOk(s, At(s, t)) && LiveIs(s, At(s, t)) && At(s, t).job.call.Read?
    ensures Carries(s, t, Copy(s, t, At(s, t).job))
  {
    var job := At(s, t).job;
    hide AccessOn, Target, CallOk, IsBlock, Carries, ReadFound, WriteBytes;
    AccessReads(s.params, s.store, job);
    LeavingCarries(s, t, Rest(s, At(s, t)).1);
  }

  lemma CopyInCarries(s: System, t: Task)
    requires At(s, t).CopyBytes? && HeldOk(s, At(s, t)) && LiveIs(s, At(s, t)) && At(s, t).job.call.Write?
    ensures Carries(s, t, Copy(s, t, At(s, t).job))
  {
    var job := At(s, t).job;
    var at := Target(job);
    hide AccessOn, Target, CallOk, IsBlock, ReadFound, WriteBytes;
    AccessWrites(s.params, s.store, job);
    WritingGainsNothing(s.params, s.gen, s.store, at, s.store.items[at.item].value[at.slot].value,
                        job.call.pos, job.call.data, job.call.env.fault);
    var s' := Copy(s, t, job);
    RestOfLeaving(s', job.call, At(s', t).reply);
  }

  // Trim.

  lemma TrimCarries(s: System, t: Task)
    requires Trims(At(s, t)) && HeldOk(s, At(s, t)) && LiveIs(s, At(s, t)) && s.shape == s.params && s.locked
    ensures Carries(s, t, TrimStep(s, t, At(s, t)))
  {
    hide IsBlock, Carries, TrimStep;
    match At(s, t)
    case TrimHead => TrimBegins(s, t);
    case TrimItem(_, k) => TrimItemCarries(s, t, k);
    case TrimSlot(_, k, j) => TrimSlotCarries(s, t, k, j);
    case TrimArray(_, k) => TrimArrayCarries(s, t, k);
    case TrimNext(_, k) => TrimNextCarries(s, t, k);
    case TrimReset => TrimEnds(s, t);
  }

  lemma TrimBegins(s: System, t: Task)
    requires At(s, t).TrimHead? && HeldOk(s, At(s, t)) && LiveIs(s, At(s, t))
    ensures Carries(s, t, TrimStep(s, t, At(s, t)))
  {
    hide IsBlock;
  }

  lemma TrimItemCarries(s: System, t: Task, k: nat)
    requires At(s, t) == TrimItem(s.gen, k) && HeldOk(s, At(s, t)) && LiveIs(s, At(s, t))
    ensures Carries(s, t, TrimStep(s, t, At(s, t)))
  {
    assert IsBlock(s.gen, s.store, FrontOf(s, At(s, t)), Item(s.gen, k));
    if s.store.items[k] == None {
      NothingPassed(s.gen, s.store, k, Front(k, k, k, 0), Front(k, k + 1, k + 1, 0));
    }
    hide IsBlock;
  }

  lemma NothingPassed(gen: nat, st: Store, k: nat, f: Front, f': Front)
    requires k < |st.items| && f.items == f'.items == f.arrays == k && f'.quantumItem == k + 1 && f'.quantumSlot == 0
    requires || (st.items[k] == None && f == Front(k, k, k, 0) && f'.arrays == k + 1)
             || (st.items[k].Some? && f.quantumItem == k && |st.items[k].value| <= f.quantumSlot && f'.arrays == k)
    ensures forall b: Block :: IsBlock(gen, st, f, b) <==> IsBlock(gen, st, f', b)
  {
  }

  lemma TrimSlotCarries(s: System, t: Task, k: nat, j: nat)
    requires At(s, t) == TrimSlot(s.gen, k, j) && HeldOk(s, At(s, t)) && LiveIs(s, At(s, t)) && s.shape == s.params
    ensures Carries(s, t, TrimStep(s, t, At(s, t)))
  {
    var f := FrontOf(s, At(s, t));
    assert ArrayOk(s.params, s.store.items[k]);
    assert IsBlock(s.gen, s.store, f, Slots(s.gen, k));
    assert SlotIsFull(s.store, k, j) <==> IsBlock(s.gen, s.store, f, Bytes(s.gen, k, j));
    hide IsBlock, SlotIsFull, FollowOn, AccessOn, JobOk, ItemsOk;
    if j >= s.params.qset {
      NothingPassed(s.gen, s.store, k, f, Front(k, k, k + 1, 0));
    } else {
      BlockPassed(s.gen, s.store, f, Front(k, k, k, j + 1), Bytes(s.gen, k, j));
    }
  }

  lemma BlockPassed(gen: nat, st: Store, f: Front, f': Front, b0: Block)
    requires b0.gen == gen &&
             match b0
             case Bytes(_, k, j) => f == Front(k, k, k, j) && f' == Front(k, k, k, j + 1)
             case Slots(_, k) => f == Front(k, k, k + 1, 0) && f' == Front(k, k + 1, k + 1, 0)
             case Item(_, k) => f == Front(k, k + 1, k + 1, 0) && f' == Front(k + 1, k + 1, k + 1, 0)
    ensures forall b: Block :: IsBlock(gen, st, f', b) <==> IsBlock(gen, st, f, b) && b != b0
  {
  }

  lemma TrimArrayCarries(s: System, t: Task, k: nat)
    requires At(s, t) == TrimArray(s.gen, k) && HeldOk(s, At(s, t)) && LiveIs(s, At(s, t))
    ensures Carries(s, t, TrimStep(s, t, At(s, t)))
  {
    assert IsBlock(s.gen, s.store, FrontOf(s, At(s, t)), Slots(s.gen, k));
    BlockPassed(s.gen, s.store, Front(k, k, k + 1, 0), Front(k, k + 1, k + 1, 0), Slots(s.gen, k));
    hide IsBlock;
  }

  lemma TrimNextCarries(s: System, t: Task, k: nat)
    requires At(s, t) == TrimNext(s.gen, k) && HeldOk(s, At(s, t)) && LiveIs(s, At(s, t))
    ensures Carries(s, t, TrimStep(s, t, At(s, t)))
  {
    assert IsBlock(s.gen, s.store, FrontOf(s, At(s, t)), Item(s.gen, k));
    BlockPassed(s.gen, s.store, Front(k, k + 1, k + 1, 0), Front(k + 1, k + 1, k + 1, 0), Item(s.gen, k));
    hide IsBlock;
  }

  lemma TrimEnds(s: System, t: Task)
    requires At(s, t).TrimReset? && HeldOk(s, At(s, t)) && LiveIs(s, At(s, t)) && s.locked
    ensures Carries(s, t, TrimStep(s, t, At(s, t)))
  {
  }

  lemma HolderCarries(s: System, t: Task)
    requires (Follows(At(s, t)) || Accesses(At(s, t)) || Trims(At(s, t))) && s.shape == s.params && s.locked
    requires HeldOk(s, At(s, t)) && LiveIs(s, At(s, t))
    ensures Carries(s, t, Next(s, t, Go))
  {
    hide Carries, FollowStep, AccessStep, TrimStep, IsBlock, HeldOk;
    var pc := At(s, t);
    if pc.TestSize? {
      SizeCarries(s, t);
    } else if pc.LoadHead? {
      HeadCarries(s, t);
    } else if pc.Walk? {
      WalkCarries(s, t);
    } else if pc.TestArray? {
      ArrayCarries(s, t);
    } else if pc.TestSlot? {
      SlotCarries(s, t);
    } else if pc.CopyBytes? {
      CopyCarries(s, t);
    } else {
      TrimCarries(s, t);
    }
  }

  // ------------------------------------------------------------------ every run

  /** A task on its way in has a proper call, and the parameters it copied are those in force. */
  ghost predicate OutsideOk(g: Shape, pc: Pc) {
    && (pc.LoadShape? || pc.Enter? ==> !pc.call.Open? && CallOk(g, pc.call))
    && (pc.Enter? ==> pc.shape == g)
  }

  /** The device is where the calls that have left it would have brought it one by one; or a
      task is inside, and will leave it so. */
  ghost predicate Serial(s: System) {
    && CallsOk(s.params, s.calls) && !s.bad
    && (forall t: Task :: OutsideOk(s.params, At(s, t)))
    && var run := Run(s.params, Scull, s.calls);
       && s.replies == run.replies
       && match s.sem
          case None => HeldOk(s, Idle) && LiveIs(s, Idle) && s.store == run.store
          case Some(t) => Underway(s, At(s, t), run.store)
  }

  ghost predicate Underway(s: System, pc: Pc, before: Store)
    requires ItemsOk(s.params, before.items)
  {
    && InCritical(pc) && HeldOk(s, pc) && LiveIs(s, pc) && CallOk(s.params, CallOf(pc))
    && Rest(s, pc) == Answer(s.params, Scull, before, CallOf(pc))
  }

  ghost predicate Sound(s: System) {
    Exclusive(s) && Serial(s)
  }

  lemma HolderStep(s: System, t: Task)
    requires Sound(s) && (Follows(At(s, t)) || Accesses(At(s, t)) || Trims(At(s, t)))
    ensures Serial(Next(s, t, Go))
  {
    hide Next, HeldOk, LiveIs, Rest, Answer, Run, CallOk, OutsideOk;
    assert InCritical(At(s, t)) <==> s.sem == Some(t);
    Discipline(s, t, Go);
    HolderCarries(s, t);
    InsideIsOk(s.params, At(Next(s, t, Go), t));
  }

  lemma InsideIsOk(g: Shape, pc: Pc)
    requires InCritical(pc)
    ensures OutsideOk(g, pc)
  {
  }

  lemma AllOutside(s: System, t: Task, s': System)
    requires Serial(s) && s'.params == s.params && s'.pcs == s.pcs[t := At(s', t)] && OutsideOk(s.params, At(s', t))
    ensures forall u: Task :: OutsideOk(s.params, At(s', u))
  {
    hide CallOk, Run, HeldOk, LiveIs, Underway;
    forall u: Task
      ensures OutsideOk(s.params, At(s', u))
    {
      TaskOutside(s, u);
    }
  }

  /** A call whose outcome is that the store stays, wherever it ends. */
  lemma LogSerial(s: System, t: Task, call: Call, reply: Reply)
    requires Sound(s) && !InCritical(At(s, t)) && CallOk(s.params, call)
    requires forall st: Store :: ItemsOk(s.params, st.items) ==> Answer(s.params, Scull, st, call) == (st, reply)
    ensures Serial(Log(s, t, call, reply))
  {
    hide HeldOk, Rest, Answer, Run, CallOk;
    assert InCritical(At(s, t)) <==> s.sem == Some(t);
    RunMore(s.params, Scull, s.calls, call);
    var s' := Log(s, t, call, reply);
    StateSame(s, s');
    AllOutside(s, t, s');
  }

  /** What is said of the holder is about the device and its own position. */
  lemma StateSame(s: System, s': System)
    requires (s'.params, s'.store, s'.gen, s'.live) == (s.params, s.store, s.gen, s.live)
    ensures forall pc: Pc :: HeldOk(s', pc) == HeldOk(s, pc) && LiveIs(s', pc) == LiveIs(s, pc)
    ensures forall pc: Pc {:trigger Rest(s', pc)} :: HeldOk(s, pc) && InCritical(pc) ==> Rest(s', pc) == Rest(s, pc)
  {
    hide IsBlock, FollowOn, AccessOn, AnswerRead, Target;
  }

  /** A task moves outside. */
  lemma GotoSerial(s: System, t: Task, pc: Pc)
    requires Sound(s) && !InCritical(At(s, t)) && OutsideOk(s.params, pc)
    ensures Serial(Goto(s, t, pc))
  {
    hide HeldOk, Rest, Answer, Run, CallOk, OutsideOk;
    assert InCritical(At(s, t)) <==> s.sem == Some(t);
    StateSame(s, Goto(s, t, pc));
    AllOutside(s, t, Goto(s, t, pc));
  }

  /** A task goes in. */
  lemma EnterSerial(s: System, t: Task, pc: Pc)
    requires Sound(s) && s.sem == None && HeldOk(s, pc) && InCritical(pc) && FrontOf(s, pc) == Front(0, 0, 0, 0)
    requires CallOk(s.params, CallOf(pc)) && Rest(s, pc) == Answer(s.params, Scull, s.store, CallOf(pc))
    ensures Serial(Goto(s, t, pc).(sem := Some(t)))
  {
    hide HeldOk, Rest, Answer, Run, CallOk, OutsideOk, IsBlock;
    InsideIsOk(s.params, pc);
    StateSame(s, Goto(s, t, pc).(sem := Some(t)));
    AllOutside(s, t, Goto(s, t, pc).(sem := Some(t)));
  }

  lemma LeaveStep(s: System, t: Task)
    requires Sound(s) && At(s, t).Leave?
    ensures Serial(Next(s, t, Go))
  {
    hide Rest, Answer, Run, CallOk, IsBlock, ItemsOk;
    assert InCritical(At(s, t)) <==> s.sem == Some(t);
    LeavingRests(s, At(s, t));
    RunMore(s.params, Scull, s.calls, At(s, t).call);
    AllOutside(s, t, Next(s, t, Go));
  }

  lemma LeavingRests(s: System, pc: Pc)
    requires pc.Leave? && HeldOk(s, pc)
    ensures Rest(s, pc) == (s.store, pc.reply)
  {
  }

  lemma StartSerial(s: System, t: Task, c: Choice)
    requires Sound(s) && At(s, t).Idle?
    ensures Serial(Start(s, t, c))
  {
    hide Serial, CallOk, Answer;
    if c.Begin? && CallOk(s.params, c.call) {
      if !c.call.Open? {
        GotoSerial(s, t, LoadShape(c.call));
      } else if !c.call.writeOnly {
        OpenAnswers(s.params, c.call);
        LogSerial(s, t, c.call, Reply(Done(0), []));
      } else {
        GotoSerial(s, t, TrimEnter(c.call.signal));
      }
    }
  }

  lemma OpenAnswers(g: Shape, call: Call)
    requires call.Open? && (!call.writeOnly || call.signal)
    ensures CallOk(g, call)
    ensures var r := if call.writeOnly then Interrupted else Done(0);
            forall st: Store :: ItemsOk(g, st.items) ==> Answer(g, Scull, st, call) == (st, Reply(r, []))
  {
  }

  lemma SignalAnswers(g: Shape, call: Call)
    requires !call.Open? && CallOk(g, call) && call.env.signal
    ensures forall st: Store :: ItemsOk(g, st.items) ==> Answer(g, Scull, st, call) == (st, Reply(Interrupted, []))
  {
  }

  lemma EnterStepSerial(s: System, t: Task)
    requires Sound(s) && (At(s, t).LoadShape? || At(s, t).Enter?)
    ensures Serial(EnterStep(s, t, At(s, t)))
  {
    hide Serial, CallOk, Answer;
    TaskOutside(s, t);
    var pc := At(s, t);
    if pc.LoadShape? {
      GotoSerial(s, t, Enter(pc.call, s.shape));
    } else if pc.call.env.signal {
      SignalAnswers(s.params, pc.call);
      LogSerial(s, t, pc.call, Reply(Interrupted, []));
    } else if s.sem == None {
      GoesIn(s, t, pc.call);
    }
  }

  lemma GoesIn(s: System, t: Task, call: Call)
    requires Sound(s) && s.sem == None && !call.Open? && CallOk(s.params, call) && !call.env.signal
    ensures var pc := if call.Read? then TestSize(Job(call, s.params, call.count, call.env.budget))
                      else LoadHead(Job(call, s.params, |call.data|, call.env.budget));
            Serial(Goto(s, t, pc).(sem := Some(t)))
  {
    var pc := if call.Read? then TestSize(Job(call, s.params, call.count, call.env.budget))
              else LoadHead(Job(call, s.params, |call.data|, call.env.budget));
    hide Run, AnswerRead, AnswerWrite, FollowOn, AccessOn, IsBlock;
    if call.Write? {
      WriteFollows(s.params, s.store, call);
    }
    hide CallOk;
    EnterSerial(s, t, pc);
  }

  lemma TrimEnterSerial(s: System, t: Task)
    requires Sound(s) && At(s, t).TrimEnter?
    ensures Serial(Next(s, t, Go))
  {
    hide Run, FollowOn, AccessOn, IsBlock, LiveIs, AnswerRead;
    var pc := At(s, t);
    if pc.signal {
      OpenAnswers(s.params, Open(true, true));
      hide Serial;
      LogSerial(s, t, Open(true, true), Reply(Interrupted, []));
    } else if s.sem == None {
      EnterSerial(s, t, TrimHead);
    }
  }

  lemma TaskOutside(s: System, t: Task)
    requires Serial(s)
    ensures OutsideOk(s.params, At(s, t))
  {
    hide CallOk, Run, HeldOk, LiveIs, Underway;
  }

  lemma SoundStep(s: System, t: Task, c: Choice)
    requires Sound(s)
    ensures Sound(Next(s, t, c))
  {
    ExclusiveStep(s, t, c);
    hide Exclusive, Serial, FollowStep, AccessStep, TrimStep, EnterStep, Start, Log, CallOk;
    var pc := At(s, t);
    if pc.Idle? {
      StartSerial(s, t, c);
    } else if c == Go {
      if Follows(pc) || Accesses(pc) || Trims(pc) {
        HolderStep(s, t);
      } else if pc.LoadShape? || pc.Enter? {
        EnterStepSerial(s, t);
      } else if pc.TrimEnter? {
        TrimEnterSerial(s, t);
      } else if pc.Leave? {
        LeaveStep(s, t);
      }
    }
  }

  lemma {:induction false} SoundRun(g: Shape, schedule: Schedule)
    ensures Sound(RunFrom(g, true, schedule)) && RunFrom(g, true, schedule).params == g
  {
    hide Next, Serial;
    if schedule == [] {
      BeginsSound(g);
    } else {
      var n := |schedule| - 1;
      SoundRun(g, schedule[..n]);
      SoundStep(RunFrom(g, true, schedule[..n]), schedule[n].0, schedule[n].1);
      Discipline(RunFrom(g, true, schedule[..n]), schedule[n].0, schedule[n].1);
    }
  }

  lemma BeginsSound(g: Shape)
    ensures Sound(Init(g, true))
  {
  }

  // ------------------------------------------------------------------ whose calls they are

  /** The logged calls of one task. */
  ghost function CallsOf(calls: seq<Call>, callers: seq<Task>, t: Task): seq<Call>
    requires |calls| == |callers|
  {
    if calls == [] then []
    else
      var n := |calls| - 1;
      CallsOf(calls[..n], callers[..n], t) + if callers[n] == t then [calls[n]] else []
  }

  /** The call a task is in. */
  ghost function PendingCall(pc: Pc): seq<Call> {
    match pc
    case Idle => []
    case Lost => []
    case LoadShape(call) => [call]
    case Enter(call, _) => [call]
    case TrimEnter(signal) => [Open(true, signal)]
    case _ => [CallOf(pc)]
  }

  /** The calls that a step begins. */
  ghost function Begins(s: System, t: Task, c: Choice): seq<Call> {
    if At(s, t) == Idle && c.Begin? && CallOk(s.params, c.call) then [c.call] else []
  }

  /** The calls that a schedule lets a task begin. */
  ghost function Begun(g: Shape, schedule: Schedule, t: Task): seq<Call> {
    if schedule == [] then []
    else
      var n := |schedule| - 1;
      Begun(g, schedule[..n], t)
      + if schedule[n].0 == t then Begins(RunFrom(g, true, schedule[..n]), t, schedule[n].1) else []
  }

  /** A task's logged calls and the one it is in, before and after a step of t: one more if
      the step begins one. */
  ghost predicate Accounts(s: System, t: Task, c: Choice, s': System) {
    || (s'.calls == s.calls && s'.callers == s.callers
        && PendingCall(At(s', t)) == PendingCall(At(s, t)) + Begins(s, t, c))
    || (exists call: Call :: s'.calls == s.calls + [call] && s'.callers == s.callers + [t]
                             && PendingCall(At(s', t)) == []
                             && PendingCall(At(s, t)) + Begins(s, t, c) == [call])
  }

  lemma StepAccounts(s: System, t: Task, c: Choice)
    requires Sound(s)
    ensures Accounts(s, t, c, Next(s, t, c))
  {
    hide Serial, FollowStep, AccessStep, TrimStep, CallOk, Carries;
    var pc := At(s, t);
    if c == Go && (Follows(pc) || Accesses(pc) || Trims(pc)) {
      InsideAccounts(s, t);
    } else if pc.LoadShape? || pc.Enter? {
      EnterAccounts(s, t, c);
    } else if pc.Leave? && c == Go {
      assert Next(s, t, c).calls == s.calls + [pc.call];
    } else if pc.TrimEnter? && c == Go && pc.signal {
      assert Next(s, t, c).calls == s.calls + [Open(true, true)];
    } else if pc.Idle? && c.Begin? && CallOk(s.params, c.call) && c.call.Open? && !c.call.writeOnly {
      assert Next(s, t, c).calls == s.calls + [c.call];
    }
  }

  lemma EnterAccounts(s: System, t: Task, c: Choice)
    requires Sound(s) && (At(s, t).LoadShape? || At(s, t).Enter?)
    ensures Accounts(s, t, c, Next(s, t, c))
  {
    hide Serial, CallOk, FollowStep, AccessStep, TrimStep;
    var call := At(s, t).call;
    TaskOutside(s, t);
    if c == Go && At(s, t).Enter? && call.env.signal {
      assert Next(s, t, c).calls == s.calls + [call];
    }
  }

  lemma InsideAccounts(s: System, t: Task)
    requires Sound(s) && (Follows(At(s, t)) || Accesses(At(s, t)) || Trims(At(s, t)))
    ensures Accounts(s, t, Go, Next(s, t, Go))
  {
    hide Next, HeldOk, LiveIs, Rest, Run, CallOk, Answer;
    assert InCritical(At(s, t)) <==> s.sem == Some(t);
    HolderCarries(s, t);
    assert !At(Next(s, t, Go), t).Lost? by {
      LostIsNotHeld(Next(s, t, Go));
    }
  }

  /** Each task's calls are logged once each and in the order it made them: those it has begun
      are those logged, and the one it is in. */
  lemma {:induction false} CallsAreLoggedOnce(g: Shape, schedule: Schedule, t: Task)
    ensures var s := RunFrom(g, true, schedule);
            && |s.calls| == |s.callers|
            && Begun(g, schedule, t) == CallsOf(s.calls, s.callers, t) + PendingCall(At(s, t))
  {
    if schedule == [] {
    } else {
      var n := |schedule| - 1;
      CallsAreLoggedOnce(g, schedule[..n], t);
      SoundRun(g, schedule[..n]);
      LoggedStep(RunFrom(g, true, schedule[..n]), schedule[n].0, schedule[n].1, t, Begun(g, schedule[..n], t));
    }
  }

  lemma LoggedStep(s: System, u: Task, c: Choice, t: Task, begun: seq<Call>)
    requires Sound(s) && |s.calls| == |s.callers|
    requires begun == CallsOf(s.calls, s.callers, t) + PendingCall(At(s, t))
    ensures var s' := Next(s, u, c);
            && |s'.calls| == |s'.callers|
            && begun + (if u == t then Begins(s, t, c) else [])
               == CallsOf(s'.calls, s'.callers, t) + PendingCall(At(s', t))
  {
    hide Next, Sound, PendingCall, Begins;
    StepAccounts(s, u, c);
    var s' := Next(s, u, c);
    var before, more := CallsOf(s.calls, s.callers, t), Begins(s, t, c);
    assert u != t ==> At(s', t) == At(s, t) by {
      if u != t {
        OthersStay(s, u, c, t);
      }
    }
    if s'.calls == s.calls && s'.callers == s.callers {
      assert before + PendingCall(At(s, t)) + more == before + (PendingCall(At(s, t)) + more);
    } else {
      var n := |s.calls|;
      assert s'.calls[..n] == s.calls && s'.callers[..n] == s.callers;
      assert before + PendingCall(At(s, t)) + more == before + (PendingCall(At(s, t)) + more);
    }
  }

  lemma OthersStay(s: System, u: Task, c: Choice, t: Task)
    requires Sound(s) && u != t
    ensures At(Next(s, u, c), t) == At(s, t)
  {
    hide Next, Serial;
    Discipline(s, u, c);
  }

  // ------------------------------------------------------------------ main results

  /** Calls made concurrently act as if made one after the other: in every run the replies are
      those of the same calls made in the order in which they left the device, and whenever
      nobody is inside, the store is what they leave and exactly its blocks are live. The calls
      are those the tasks began: each task's once each, in its own order, but for the one it
      may still be in. */
  lemma ConcurrentCallsAreSerial(g: Shape, schedule: Schedule)
    ensures var s := RunFrom(g, true, schedule);
            && CallsOk(g, s.calls) && s.replies == Run(g, Scull, s.calls).replies
            && (s.sem == None ==>
                  && s.store == Run(g, Scull, s.calls).store
                  && forall b: Block :: b in s.live <==> IsBlock(s.gen, s.store, Front(0, 0, 0, 0), b))
    ensures var s := RunFrom(g, true, schedule);
            && |s.calls| == |s.callers|
            && forall t: Task :: Begun(g, schedule, t) == CallsOf(s.calls, s.callers, t) + PendingCall(At(s, t))
  {
    SoundRun(g, schedule);
    CallsAreLoggedOnce(g, schedule, Task(0));
    forall t: Task
      ensures Begun(g, schedule, t) == CallsOf(RunFrom(g, true, schedule).calls, RunFrom(g, true, schedule).callers, t)
                                       + PendingCall(At(RunFrom(g, true, schedule), t))
    {
      CallsAreLoggedOnce(g, schedule, t);
    }
  }

  /** In every run, at most one task is inside; nobody touches or frees a block that is not
      live; and the parameters each call copied before it took the semaphore are those of the
      device. */
  lemma NoDeadBlockIsTouched(g: Shape, schedule: Schedule, t: Task, u: Task)
    ensures var s := RunFrom(g, true, schedule);
            && !s.bad && s.shape == g
            && (InCritical(At(s, t)) && InCritical(At(s, u)) ==> t == u)
            && (At(s, t).Enter? ==> At(s, t).shape == s.shape)
            && (Follows(At(s, t)) || Accesses(At(s, t)) ==> At(s, t).job.shape == s.shape)
  {
    SoundRun(g, schedule);
    var s := RunFrom(g, true, schedule);
    TaskOutside(s, t);
    assert InCritical(At(s, t)) <==> s.sem == Some(t);
    assert InCritical(At(s, u)) <==> s.sem == Some(u);
  }

  // ------------------------------------------------------------------ progress

  /** How many steps trim takes for n items. */
  ghost function TrimSteps(g: Shape, n: nat): nat {
    if n == 0 then 0 else TrimSteps(g, n - 1) + g.qset + 4
  }

  /** How many steps the critical section still takes at most. */
  ghost function StepsInside(s: System, pc: Pc): nat
    requires HeldOk(s, pc)
  {
    var n := |s.store.items|;
    match pc
    case TestSize(job) => Target(job).item + 8
    case LoadHead(job) => Target(job).item + 7
    case Walk(job, _, at) => Target(job).item - at + 5
    case TestArray(_, _) => 4
    case TestSlot(_, _) => 3
    case CopyBytes(_, _) => 2
    case Leave(_, _) => 1
    case TrimHead => TrimSteps(s.params, n) + 3
    case TrimItem(_, k) => TrimSteps(s.params, n - k) + 2
    case TrimSlot(_, k, j) => TrimSteps(s.params, n - k - 1) + s.params.qset - j + 5
    case TrimArray(_, k) => TrimSteps(s.params, n - k - 1) + 4
    case TrimNext(_, k) => TrimSteps(s.params, n - k - 1) + 3
    case TrimReset => 2
    case _ => 0
  }

  /** Nothing holds up the task inside: in every run each of its steps brings it nearer to
      leaving, by a bound that depends only on where it is and how long the list is. */
  lemma HolderGetsOut(g: Shape, schedule: Schedule, t: Task)
    requires RunFrom(g, true, schedule).sem == Some(t)
    ensures var s := RunFrom(g, true, schedule);
            var s' := Next(s, t, Go);
            HeldOk(s, At(s, t)) && HeldOk(s', At(s', t)) && StepsInside(s', At(s', t)) < StepsInside(s, At(s, t))
  {
    hide StepsInside, Next, HeldOk, LiveIs, Run, Rest, Answer, OutsideOk, CallOk;
    SoundRun(g, schedule);
    var s := RunFrom(g, true, schedule);
    assert InCritical(At(s, t)) <==> s.sem == Some(t);
    HeldMoves(s, t);
  }

  lemma HeldMoves(s: System, t: Task)
    requires InCritical(At(s, t)) && HeldOk(s, At(s, t)) && LiveIs(s, At(s, t)) && s.shape == s.params && s.locked
    ensures var s' := Next(s, t, Go);
            HeldOk(s', At(s', t)) && StepsInside(s', At(s', t)) < StepsInside(s, At(s, t))
  {
    hide StepsInside, FollowStep, AccessStep, TrimStep, HeldOk, LiveIs, Rest;
    var pc := At(s, t);
    if pc.Leave? {
      LeavingEnds(s, t);
    } else if !pc.Lost? {
      HolderCarries(s, t);
      if Follows(pc) {
        FollowMoves(s, t);
      } else if Accesses(pc) {
        AccessMoves(s, t);
      } else {
        TrimMoves(s, t);
      }
    } else {
      LostIsNotHeld(s);
    }
  }

  lemma LostIsNotHeld(s: System)
    ensures !HeldOk(s, Lost)
  {
  }

  lemma LeavingEnds(s: System, t: Task)
    requires At(s, t).Leave? && HeldOk(s, At(s, t))
    ensures var s' := Next(s, t, Go); HeldOk(s', At(s', t)) && StepsInside(s', At(s', t)) < StepsInside(s, At(s, t))
  {
  }

  lemma FollowMoves(s: System, t: Task)
    requires Follows(At(s, t)) && HeldOk(s, At(s, t)) && LiveIs(s, At(s, t))
    requires HeldOk(FollowStep(s, t, At(s, t)), At(FollowStep(s, t, At(s, t)), t))
    ensures var s' := FollowStep(s, t, At(s, t)); StepsInside(s', At(s', t)) < StepsInside(s, At(s, t))
  {
    var pc := At(s, t);
    hide Locate, ItemsOk;
    if pc.Walk? {
      assert IsBlock(s.gen, s.store, FrontOf(s, pc), Item(s.gen, pc.at));
      hide IsBlock;
    } else {
      hide IsBlock;
    }
  }

  lemma AccessMoves(s: System, t: Task)
    requires Accesses(At(s, t)) && HeldOk(s, At(s, t)) && LiveIs(s, At(s, t))
    requires HeldOk(AccessStep(s, t, At(s, t)), At(AccessStep(s, t, At(s, t)), t))
    ensures var s' := AccessStep(s, t, At(s, t)); StepsInside(s', At(s', t)) < StepsInside(s, At(s, t))
  {
    var at := Target(At(s, t).job);
    AccessGoes(s, At(s, t));
    var f := FrontOf(s, At(s, t));
    assert At(s, t).TestArray? ==> IsBlock(s.gen, s.store, f, Item(s.gen, at.item));
    assert At(s, t).TestSlot? ==> IsBlock(s.gen, s.store, f, Slots(s.gen, at.item));
    assert At(s, t).CopyBytes? ==> IsBlock(s.gen, s.store, f, Bytes(s.gen, at.item, at.slot));
    hide IsBlock, Target, AccessOn, ReadFound, WriteBytes, EmptyArray, SetQuantum, Missing;
  }

  lemma TrimMoves(s: System, t: Task)
    requires Trims(At(s, t)) && HeldOk(s, At(s, t)) && LiveIs(s, At(s, t)) && s.shape == s.params && s.locked
    requires HeldOk(TrimStep(s, t, At(s, t)), At(TrimStep(s, t, At(s, t)), t))
    ensures var s' := TrimStep(s, t, At(s, t)); StepsInside(s', At(s', t)) < StepsInside(s, At(s, t))
  {
    hide TrimStep, LiveIs, StepsInside, ItemsOk, JobOk, Target;
    match At(s, t)
    case TrimItem(_, k) => TrimItemMoves(s, t, k);
    case TrimSlot(_, k, j) => TrimSlotMoves(s, t, k, j);
    case TrimNext(_, k) => TrimNextMoves(s, t, k);
    case _ => TrimRestMoves(s, t);
  }

  lemma TrimRestMoves(s: System, t: Task)
    requires At(s, t).TrimHead? || At(s, t).TrimArray? || At(s, t).TrimReset?
    requires HeldOk(s, At(s, t)) && HeldOk(TrimStep(s, t, At(s, t)), At(TrimStep(s, t, At(s, t)), t))
    ensures var s' := TrimStep(s, t, At(s, t)); StepsInside(s', At(s', t)) < StepsInside(s, At(s, t))
  {
    hide ItemsOk, Target;
  }

  lemma TrimItemMoves(s: System, t: Task, k: nat)
    requires At(s, t) == TrimItem(s.gen, k) && HeldOk(s, At(s, t)) && LiveIs(s, At(s, t))
    requires HeldOk(TrimStep(s, t, At(s, t)), At(TrimStep(s, t, At(s, t)), t))
    ensures var s' := TrimStep(s, t, At(s, t)); StepsInside(s', At(s', t)) < StepsInside(s, At(s, t))
  {
    assert IsBlock(s.gen, s.store, FrontOf(s, At(s, t)), Item(s.gen, k));
    OneItemMore(s.params, |s.store.items| - k);
    hide IsBlock, TrimSteps, ItemsOk, Target, FrontOf;
  }

  lemma TrimSlotMoves(s: System, t: Task, k: nat, j: nat)
    requires At(s, t) == TrimSlot(s.gen, k, j) && HeldOk(s, At(s, t)) && LiveIs(s, At(s, t)) && s.shape == s.params
    requires HeldOk(TrimStep(s, t, At(s, t)), At(TrimStep(s, t, At(s, t)), t))
    ensures var s' := TrimStep(s, t, At(s, t)); StepsInside(s', At(s', t)) < StepsInside(s, At(s, t))
  {
    assert IsBlock(s.gen, s.store, FrontOf(s, At(s, t)), Slots(s.gen, k));
    hide IsBlock, TrimSteps, ItemsOk, Target, FrontOf, SlotIsFull;
  }

  lemma TrimNextMoves(s: System, t: Task, k: nat)
    requires At(s, t) == TrimNext(s.gen, k) && HeldOk(s, At(s, t)) && LiveIs(s, At(s, t))
    requires HeldOk(TrimStep(s, t, At(s, t)), At(TrimStep(s, t, At(s, t)), t))
    ensures var s' := TrimStep(s, t, At(s, t)); StepsInside(s', At(s', t)) < StepsInside(s, At(s, t))
  {
    assert IsBlock(s.gen, s.store, FrontOf(s, At(s, t)), Item(s.gen, k));
    hide IsBlock, TrimSteps, ItemsOk, Target, FrontOf;
  }

  lemma OneItemMore(g: Shape, n: nat)
    requires n > 0
    ensures TrimSteps(g, n) == TrimSteps(g, n - 1) + g.qset + 4
  {
  }
}
