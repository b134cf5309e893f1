/** scull under concurrency (higher_scull/high_scull/main.c): any number of tasks open the
    device for writing, read and write, and every test, allocation, dereference and kfree is
    a step of its own. A step that dereferences or frees a block that is not live makes the
    run bad. `locked` says whether trim runs under the semaphore, as in scull_open, or
    without it, as in the opens of higher_scull/high_scull/access.c. */
module ScullProtocol {
  import opened Common
  import opened StoreAddress
  import opened Store
  import opened StoreHistory

  datatype Task = Task(id: nat)

  /** A block is known by where it hangs and by how many trims there had been when it was
      allocated, so that a freed block is never mistaken for a later one. */
  datatype Block =
    | Item(gen: nat, item: nat)
    | Slots(gen: nat, item: nat)
    | Bytes(gen: nat, item: nat, slot: nat)

  /** A read or write once inside: what it copied before the semaphore, what is left of its
      count, and how many allocations are left to it. */
  datatype Job = Job(call: Call, shape: Shape, count: nat, left: nat)

  datatype Pc =
    | Idle
    | LoadShape(call: Call)                   // quantum = dev->quantum, qset = dev->qset
    | Enter(call: Call, shape: Shape)         // down_interruptible
    | TestSize(job: Job)
    | LoadHead(job: Job)                      // scull_follow: dev->data ...
    | Walk(job: Job, gen: nat, at: nat)       // ... and next after next, from item `at`
    | TestArray(job: Job, gen: nat)
    | TestSlot(job: Job, gen: nat)
    | CopyBytes(job: Job, gen: nat)           // the user copy, and the size
    | Leave(call: Call, reply: Reply)         // up
    | TrimEnter(signal: bool)                 // down_interruptible
    | TrimHead                                // scull_trim: dptr = dev->data
    | TrimItem(gen: nat, k: nat)              // dptr->data ?
    | TrimSlot(gen: nat, k: nat, j: nat)      // kfree(dptr->data[j])
    | TrimArray(gen: nat, k: nat)             // kfree(dptr->data)
    | TrimNext(gen: nat, k: nat)              // next = dptr->next; kfree(dptr)
    | TrimReset
    | Lost                                    // after a bad dereference

  datatype Choice = Begin(call: Call) | Go

  datatype System = System(
    params: Shape,               // scull_quantum and scull_qset
    locked: bool,
    shape: Shape,                // dev->quantum and dev->qset
    store: Store,
    gen: nat,                    // the number of trims completed
    live: set<Block>,
    sem: Option<Task>,
    pcs: map<Task, Pc>,
    bad: bool,
    calls: seq<Call>,            // history: the calls made, in the order they left the device
    replies: seq<Reply>,         // history: and their replies
    callers: seq<Task>           // history: and who made them
  )

  ghost function At(s: System, t: Task): Pc {
    if t in s.pcs then s.pcs[t] else Idle
  }

  ghost function Init(g: Shape, locked: bool): System {
    System(g, locked, g, ScullTrim(), 0, {}, None, map[], false, [], [], [])
  }

  // ------------------------------------------------------------------ steps

  ghost function Goto(s: System, t: Task, pc: Pc): System {
    s.(pcs := s.pcs[t := pc])
  }

  /** A dereference; after a bad one the task is lost. */
  ghost function Touch(s: System, t: Task, b: Block, next: System): System {
    if b in s.live then next else Goto(s, t, Lost).(bad := true)
  }

  ghost function Free(s: System, b: Block): System {
    s.(live := s.live - {b}, bad := s.bad || b !in s.live)
  }

  /** The call ends without, or after, leaving the critical section. */
  ghost function Log(s: System, t: Task, call: Call, reply: Reply): System {
    Goto(s, t, Idle).(calls := s.calls + [call], replies := s.replies + [reply], callers := s.callers + [t])
  }

  ghost function Target(job: Job): Place {
    Locate(job.shape, if job.call.Open? then 0 else job.call.pos)
  }

  /** What a call that cannot go on replies. */
  ghost function Missing(call: Call): Reply {
    Reply(if call.Write? then NoMemory else Done(0), [])
  }

  ghost function Start(s: System, t: Task, c: Choice): System {
    if !c.Begin? || !CallOk(s.params, c.call) then s
    else if !c.call.Open? then Goto(s, t, LoadShape(c.call))
    else if !c.call.writeOnly then Log(s, t, c.call, Reply(Done(0), []))
    else Goto(s, t, if s.locked then TrimEnter(c.call.signal) else TrimHead)
  }

  ghost function EnterStep(s: System, t: Task, pc: Pc): System
    requires pc.LoadShape? || pc.Enter?
  {
    match pc
    case LoadShape(call) => Goto(s, t, Enter(call, s.shape))
    case Enter(call, shape) =>
      if call.Open? then s
      else if call.env.signal then Log(s, t, call, Reply(Interrupted, []))
      else if s.sem.Some? then s
      else if call.Read? then
        Goto(s, t, TestSize(Job(call, shape, call.count, call.env.budget))).(sem := Some(t))
      else
        Goto(s, t, LoadHead(Job(call, shape, |call.data|, call.env.budget))).(sem := Some(t))
  }

  ghost predicate Follows(pc: Pc) {
    pc.TestSize? || pc.LoadHead? || pc.Walk?
  }

  /** A new item at the end of the list, or the end of the call. */
  ghost function Grow(s: System, t: Task, job: Job): System {
    var n := |s.store.items|;
    if job.left == 0 then Goto(s, t, Leave(job.call, Missing(job.call)))
    else
      Goto(s, t, Walk(job.(left := job.left - 1), s.gen, n))
      .(store := s.store.(items := s.store.items + [None]), live := s.live + {Item(s.gen, n)})
  }

  ghost function FollowStep(s: System, t: Task, pc: Pc): System
    requires Follows(pc)
  {
    match pc
    case TestSize(job) =>
      if job.call.Open? then s
      else if job.call.pos >= s.store.size then Goto(s, t, Leave(job.call, Reply(Done(0), [])))
      else Goto(s, t, LoadHead(job.(count := Min(job.count, s.store.size - job.call.pos))))
    case LoadHead(job) =>
      if s.store.items == [] then Grow(s, t, job) else Goto(s, t, Walk(job, s.gen, 0))
    case Walk(job, gen, at) =>
      if at == Target(job).item then Goto(s, t, TestArray(job, gen))
      else
        Touch(s, t, Item(gen, at),
              if at + 1 < |s.store.items| then Goto(s, t, Walk(job, gen, at + 1)) else Grow(s, t, job))
  }

  ghost predicate Accesses(pc: Pc) {
    pc.TestArray? || pc.TestSlot? || pc.CopyBytes?
  }

  ghost function AccessStep(s: System, t: Task, pc: Pc): System
    requires Accesses(pc)
  {
    var i, j := Target(pc.job).item, Target(pc.job).slot;
    match pc
    case TestArray(job, gen) => Touch(s, t, Item(gen, i), ReachArray(s, t, job, gen, i))
    case TestSlot(job, gen) => Touch(s, t, Slots(gen, i), ReachSlot(s, t, job, gen, i, j))
    case CopyBytes(job, gen) => Touch(s, t, Bytes(gen, i, j), Copy(s, t, job))
  }

  /** The array of item i, if need be a new one. */
  ghost function ReachArray(s: System, t: Task, job: Job, gen: nat, i: nat): System {
    if i >= |s.store.items| then s
    else if s.store.items[i].Some? then Goto(s, t, TestSlot(job, gen))
    else if !job.call.Write? || job.left == 0 then Goto(s, t, Leave(job.call, Missing(job.call)))
    else
      Goto(s, t, TestSlot(job.(left := job.left - 1), gen))
      .(store := s.store.(items := s.store.items[i := EmptyArray(s.params)]), live := s.live + {Slots(s.gen, i)})
  }

  /** The quantum in slot j of it, if need be a new one. */
  ghost function ReachSlot(s: System, t: Task, job: Job, gen: nat, i: nat, j: nat): System {
    if i >= |s.store.items| || s.store.items[i] == None || j >= |s.store.items[i].value| then s
    else if s.store.items[i].value[j].Some? then Goto(s, t, CopyBytes(job, gen))
    else if !job.call.Write? || job.left == 0 then Goto(s, t, Leave(job.call, Missing(job.call)))
    else
      Goto(s, t, CopyBytes(job.(left := job.left - 1), gen))
      .(store := s.store.(items := SetQuantum(s.store.items, i, j, Some(job.call.env.memory))),
        live := s.live + {Bytes(s.gen, i, j)})
  }

  ghost function Copy(s: System, t: Task, job: Job): System {
    var at := Target(job);
    if at.item >= |s.store.items| || !ItemsOk(s.params, s.store.items) || job.call.Open? then s
    else if s.store.items[at.item] == None || at.slot >= |s.store.items[at.item].value|
            || s.store.items[at.item].value[at.slot] == None || job.shape != s.params || !InShape(s.params, at) then s
    else if job.call.Read? then
      var (r, out) := ReadFound(s.params, s.store.items, at, job.count, job.call.env);
      Goto(s, t, Leave(job.call, Reply(r, out)))
    else
      var (st, r) := WriteBytes(s.params, s.store, at, s.store.items[at.item].value[at.slot].value,
                                job.call.pos, job.call.data, job.call.env.fault);
      Goto(s, t, Leave(job.call, Reply(r, []))).(store := st)
  }

  ghost predicate Trims(pc: Pc) {
    pc.TrimHead? || pc.TrimItem? || pc.TrimSlot? || pc.TrimArray? || pc.TrimNext? || pc.TrimReset?
  }

  ghost function TrimStep(s: System, t: Task, pc: Pc): System
    requires Trims(pc)
  {
    match pc
    case TrimHead => Goto(s, t, if s.store.items == [] then TrimReset else TrimItem(s.gen, 0))
    case TrimItem(gen, k) =>
      Touch(s, t, Item(gen, k),
            if k >= |s.store.items| then s
            else Goto(s, t, if s.store.items[k] == None then TrimNext(gen, k) else TrimSlot(gen, k, 0)))
    case TrimSlot(gen, k, j) =>
      if j >= s.shape.qset then Goto(s, t, TrimArray(gen, k))
      else
        Touch(s, t, Slots(gen, k),
              if SlotIsFull(s.store, k, j) then Free(Goto(s, t, TrimSlot(gen, k, j + 1)), Bytes(gen, k, j))
              else Goto(s, t, TrimSlot(gen, k, j + 1)))
    case TrimArray(gen, k) => Free(Goto(s, t, TrimNext(gen, k)), Slots(gen, k))
    case TrimNext(gen, k) =>
      Touch(s, t, Item(gen, k),
            Free(Goto(s, t, if k + 1 < |s.store.items| then TrimItem(gen, k + 1) else TrimReset), Item(gen, k)))
    case TrimReset =>
      var (call, reply) := (Open(true, false), Reply(Done(0), []));
      (if s.locked then Goto(s, t, Leave(call, reply)) else Log(s, t, call, reply))
      .(store := ScullTrim(), shape := s.params, gen := s.gen + 1)
  }

  ghost predicate SlotIsFull(st: Store, k: nat, j: nat) {
    k < |st.items| && st.items[k].Some? && j < |st.items[k].value| && st.items[k].value[j].Some?
  }

  ghost function Next(s: System, t: Task, c: Choice): System {
    var pc := At(s, t);
    if pc == Idle then Start(s, t, c)
    else if c != Go then s
    else if pc.LoadShape? || pc.Enter? then EnterStep(s, t, pc)
    else if Follows(pc) then FollowStep(s, t, pc)
    else if Accesses(pc) then AccessStep(s, t, pc)
    else if Trims(pc) then TrimStep(s, t, pc)
    else if pc.TrimEnter? then
      if pc.signal then Log(s, t, Open(true, true), Reply(Interrupted, []))
      else if s.sem == None then Goto(s, t, TrimHead).(sem := Some(t))
      else s
    else if pc.Leave? then
      Log(s, t, pc.call, pc.reply).(sem := if s.sem == Some(t) then None else s.sem)
    else s
  }

  type Schedule = seq<(Task, Choice)>

  ghost function RunFrom(g: Shape, locked: bool, schedule: Schedule): System {
    if schedule == [] then Init(g, locked)
    else
      var n := |schedule| - 1;
      Next(RunFrom(g, locked, schedule[..n]), schedule[n].0, schedule[n].1)
  }
}
