/** scullsingle as a whole (higher_scull/high_scull/access.c): opens and releases move the
    counter of AccessSingle, a successful write-only open trims the device of ScullProtocol
    without its semaphore, and reads and writes go through a handle that is open. A handle may
    be shared by any number of tasks; it is released when none of them is in a call on it. */
module ScullSingle {
  import opened Common
  import opened StoreAddress
  import opened StoreHistory
  import opened ScullProtocol
  import opened Store
  import opened ScullSerial
  import ScullCalls
  import opened ScullAlone
  import Gate = AccessSingle

  type Handle = Gate.Task

  datatype Device = Device(
    gate: Gate.Single,
    scull: System,
    via: map<Task, Handle>       // the handle of each task's latest call
  )

  datatype Event =
    | TryOpen(task: Task, handle: Handle, writeOnly: bool)  // atomic_dec_and_test
    | Proceed(handle: Handle)                               // restore the counter, end the open, or release
    | Use(task: Task, handle: Handle, call: Call)           // a read or write
    | GoOn(task: Task)

  ghost function Init(g: Shape): Device {
    Device(Gate.Init(), ScullProtocol.Init(g, false), map[])
  }

  /** A task is in a call on the handle, or trims for its open. */
  ghost predicate Busy(d: Device, h: Handle) {
    exists t: Task :: At(d.scull, t) != Idle && t in d.via && d.via[t] == h
  }

  ghost function Next(d: Device, e: Event): Device {
    match e
    case TryOpen(t, h, writeOnly) =>
      if At(d.scull, t) != Idle || Gate.At(d.gate, h) != Gate.Out then d
      else
        var gate := Gate.Next(d.gate, h, Gate.Open(writeOnly));
        if !Gate.Inside(Gate.At(gate, h)) then d.(gate := gate)
        else Device(gate, ScullProtocol.Next(d.scull, t, Begin(Open(writeOnly, false))), d.via[t := h])
    case Proceed(h) =>
      if Busy(d, h) then d else d.(gate := Gate.Next(d.gate, h, Gate.Go))
    case Use(t, h, call) =>
      if At(d.scull, t) != Idle || Gate.At(d.gate, h) != Gate.Holding || call.Open? then d
      else Device(d.gate, ScullProtocol.Next(d.scull, t, Begin(call)), d.via[t := h])
    case GoOn(t) => d.(scull := ScullProtocol.Next(d.scull, t, Go))
  }

  ghost function RunEvents(g: Shape, events: seq<Event>): Device {
    if events == [] then Init(g) else Next(RunEvents(g, events[..|events| - 1]), events[|events| - 1])
  }

  /** Every task in a call has come in by the one handle, and a task that trims is still opening
      it. */
  ghost predicate Admitted(d: Device) {
    && Gate.Balanced(d.gate)
    && (forall t: Task :: At(d.scull, t) != Idle ==> t in d.via && Gate.Inside(Gate.At(d.gate, d.via[t])))
    && (forall t: Task :: Trims(At(d.scull, t)) ==> Gate.At(d.gate, d.via[t]) == Gate.Trimming)
    && Lonely(d.scull)
  }

  lemma OneHandle(s: Gate.Single, h: Handle, i: Handle)
    requires Gate.Balanced(s) && Gate.Inside(Gate.At(s, h)) && Gate.Inside(Gate.At(s, i))
    ensures h == i
  {
    if h != i {
      Gate.TwoElements(Gate.Holders(s), h, i);
    }
  }

  /** An open that gets in finds no handle open. */
  lemma NobodyIsIn(s: Gate.Single, h: Handle, writeOnly: bool, i: Handle)
    requires Gate.Balanced(s) && Gate.At(s, h) == Gate.Out
    requires Gate.Inside(Gate.At(Gate.Next(s, h, Gate.Open(writeOnly)), h))
    ensures !Gate.Inside(Gate.At(s, i))
  {
    assert |Gate.Holders(s)| == 0;
    assert i !in Gate.Holders(s);
  }

  lemma OpenStep(g: Shape, d: Device, t: Task, h: Handle, writeOnly: bool)
    requires Admitted(d) && Kept(g, d.scull)
    ensures var d' := Next(d, TryOpen(t, h, writeOnly)); Admitted(d') && Kept(g, d'.scull)
  {
    hide ScullProtocol.Next, Kept;
    var d' := Next(d, TryOpen(t, h, writeOnly));
    Gate.BalancedStep(d.gate, h, Gate.Open(writeOnly));
    if At(d.scull, t) == Idle && Gate.At(d.gate, h) == Gate.Out && Gate.Inside(Gate.At(d'.gate, h)) {
      forall u: Task
        ensures At(d.scull, u) == Idle
      {
        if At(d.scull, u) != Idle {
          NobodyIsIn(d.gate, h, writeOnly, d.via[u]);
        }
      }
      StepIsOwn(d.scull, t, Begin(Open(writeOnly, false)));
      KeptStep(g, d.scull, t, Begin(Open(writeOnly, false)));
      KeptIsUnlocked(g, d.scull);
      OpensGo(d.scull, t, writeOnly);
    }
  }

  lemma KeptIsUnlocked(g: Shape, s: System)
    requires Kept(g, s)
    ensures !s.locked && forall t: Task :: !At(s, t).TrimEnter?
  {
    hide Sound;
  }

  lemma OpensGo(s: System, t: Task, writeOnly: bool)
    requires At(s, t) == Idle && !s.locked
    ensures At(ScullProtocol.Next(s, t, Begin(Open(writeOnly, false))), t) == if writeOnly then TrimHead else Idle
  {
  }

  lemma UseStep(g: Shape, d: Device, t: Task, h: Handle, call: Call)
    requires Admitted(d) && Kept(g, d.scull)
    ensures var d' := Next(d, Use(t, h, call)); Admitted(d') && Kept(g, d'.scull)
  {
    hide ScullProtocol.Next, Kept;
    if At(d.scull, t) == Idle && Gate.At(d.gate, h) == Gate.Holding && !call.Open? {
      forall u: Task
        ensures !Trims(At(d.scull, u))
      {
        if Trims(At(d.scull, u)) {
          OneHandle(d.gate, h, d.via[u]);
        }
      }
      StepIsOwn(d.scull, t, Begin(call));
      KeptIsUnlocked(g, d.scull);
      OnlyOpensTrim(d.scull, t, Begin(call));
      KeptStep(g, d.scull, t, Begin(call));
    }
  }

  lemma GoStep(g: Shape, d: Device, t: Task)
    requires Admitted(d) && Kept(g, d.scull)
    ensures var d' := Next(d, GoOn(t)); Admitted(d') && Kept(g, d'.scull)
  {
    IdleWaits(d.scull, t);
    hide ScullProtocol.Next, Kept;
    StepIsOwn(d.scull, t, Go);
    KeptIsUnlocked(g, d.scull);
    OnlyOpensTrim(d.scull, t, Go);
    KeptStep(g, d.scull, t, Go);
  }

  lemma IdleWaits(s: System, t: Task)
    ensures At(s, t) == Idle ==> ScullProtocol.Next(s, t, Go) == s
  {
    hide FollowStep, AccessStep, TrimStep, EnterStep;
  }

  lemma ProceedStep(g: Shape, d: Device, h: Handle)
    requires Admitted(d) && Kept(g, d.scull)
    ensures var d' := Next(d, Proceed(h)); Admitted(d') && Kept(g, d'.scull)
  {
    hide Kept;
    if !Busy(d, h) {
      Gate.BalancedStep(d.gate, h, Gate.Go);
    }
  }

  lemma {:induction false} AdmittedRun(g: Shape, events: seq<Event>)
    ensures Admitted(RunEvents(g, events)) && Kept(g, RunEvents(g, events).scull)
  {
    hide Next, Admitted, Kept;
    if events == [] {
      AdmittedAtFirst(g);
    } else {
      var n := |events| - 1;
      AdmittedRun(g, events[..n]);
      var d := RunEvents(g, events[..n]);
      match events[n]
      case TryOpen(t, h, writeOnly) => OpenStep(g, d, t, h, writeOnly);
      case Proceed(h) => ProceedStep(g, d, h);
      case Use(t, h, call) => UseStep(g, d, t, h, call);
      case GoOn(t) => GoStep(g, d, t);
    }
  }

  lemma AdmittedAtFirst(g: Shape)
    ensures Admitted(Init(g)) && Kept(g, Init(g).scull)
  {
    KeptAtFirst(g);
    Gate.CounterCounts([]);
  }

  /** The counter does for trim what the semaphore would: in every run of opens, calls and
      releases of scullsingle, with a handle shared by any number of tasks, nobody touches or
      frees a dead block, the calls act as if made one by one, and while an open trims no other
      task is in any call. */
  lemma TheCounterProtectsTrim(g: Shape, events: seq<Event>)
    ensures var d := RunEvents(g, events); ActsSerially(g, d.scull) && Lonely(d.scull) && Gate.Balanced(d.gate)
  {
    hide Kept, ActsSerially, Lonely, Gate.Balanced;
    AdmittedRun(g, events);
    KeptIsSafe(g, RunEvents(g, events).scull);
  }

  // ------------------------------------------------------------------ left alone

  /** What more events make of a device. */
  ghost function After(d: Device, events: seq<Event>): Device {
    if events == [] then d else Next(After(d, events[..|events| - 1]), events[|events| - 1])
  }

  lemma {:induction false} RunsOn(g: Shape, events: seq<Event>, more: seq<Event>)
    ensures RunEvents(g, events + more) == After(RunEvents(g, events), more)
  {
    hide Next;
    if more == [] {
      assert events + more == events;
    } else {
      var n := |more| - 1;
      RunsOn(g, events, more[..n]);
      assert (events + more)[..|events| + n] == events + more[..n];
    }
  }

  ghost function Goes(t: Task, n: nat): seq<Event> {
    seq(n, _ => GoOn(t))
  }

  lemma {:induction false} GoesAre(d: Device, events: seq<Event>, t: Task, n: nat)
    ensures var d1 := After(d, events);
            After(d, events + Goes(t, n)) == d1.(scull := ScullCalls.Alone(d1.scull, t, n))
  {
    hide ScullProtocol.Next;
    if n == 0 {
      assert events + Goes(t, 0) == events;
    } else {
      GoesAre(d, events, t, n - 1);
      assert events + Goes(t, n) == events + Goes(t, n - 1) + [GoOn(t)];
      OneMore(d, events + Goes(t, n - 1), GoOn(t));
    }
  }

  lemma OneMore(d: Device, events: seq<Event>, e: Event)
    ensures After(d, events + [e]) == Next(After(d, events), e)
  {
    hide Next;
    assert (events + [e])[..|events|] == events;
  }

  /** In every run, on a device that nobody has open, an open for writing that is left alone
      empties it, frees every block, and ends with its handle. */
  lemma AnOpenEmptiesTheDevice(g: Shape, events: seq<Event>, t: Task, h: Handle) returns (more: seq<Event>)
    requires var d := RunEvents(g, events);
             At(d.scull, t) == Idle && Gate.At(d.gate, h) == Gate.Out && Gate.Free(d.gate)
    ensures var d' := RunEvents(g, events + more);
            && Gate.At(d'.gate, h) == Gate.Holding && (forall u: Task :: At(d'.scull, u) == Idle)
            && d'.scull.store == ScullTrim() && d'.scull.live == {} && !d'.scull.bad
  {
    hide RunEvents, Kept, Gate.Balanced, ScullProtocol.Next;
    AdmittedRun(g, events);
    var d := RunEvents(g, events);
    var begin := Begin(Open(true, false));
    NobodyIsBusy(d);
    var n := OpenGoesThrough(g, d.scull, t);
    var d1 := Device(Gate.Next(d.gate, h, Gate.Open(true)), ScullProtocol.Next(d.scull, t, begin), d.via[t := h]);
    GetsInToTrim(d, t, h);
    OneMore(d, [], TryOpen(t, h, true));
    assert [] + [TryOpen(t, h, true)] == [TryOpen(t, h, true)];
    GoesAre(d, [TryOpen(t, h, true)], t, n);
    var d2 := d1.(scull := ScullCalls.Alone(d1.scull, t, n));
    AloneIsOwn(d1.scull, t, n);
    StepIsOwn(d.scull, t, begin);
    more := [TryOpen(t, h, true)] + Goes(t, n) + [Proceed(h)];
    OneMore(d, [TryOpen(t, h, true)] + Goes(t, n), Proceed(h));
    RunsOn(g, events, more);
    AdmittedRun(g, events + more);
    KeptIsSafe(g, RunEvents(g, events + more).scull);
    assert !Busy(d2, h);
  }

  /** In every run an open for reading too, on such a device, gets its handle at once and leaves
      the store alone. */
  lemma AnOpenForReading(g: Shape, events: seq<Event>, t: Task, h: Handle)
    requires var d := RunEvents(g, events);
             At(d.scull, t) == Idle && Gate.At(d.gate, h) == Gate.Out && Gate.Free(d.gate)
    ensures var d, d' := RunEvents(g, events), RunEvents(g, events + [TryOpen(t, h, false)]);
            && Gate.At(d'.gate, h) == Gate.Holding && (forall u: Task :: At(d'.scull, u) == Idle)
            && (d'.scull.store, d'.scull.live) == (d.scull.store, d.scull.live)
  {
    hide RunEvents, Kept;
    AdmittedRun(g, events);
    var d := RunEvents(g, events);
    NobodyIsBusy(d);
    RunsOn(g, events, [TryOpen(t, h, false)]);
    OneMore(d, [], TryOpen(t, h, false));
    assert [] + [TryOpen(t, h, false)] == [TryOpen(t, h, false)];
    StepIsOwn(d.scull, t, Begin(Open(false, false)));
    OpensAtOnce(d.scull, t);
    hide ScullProtocol.Next;
  }

  lemma OpensAtOnce(s: System, t: Task)
    requires At(s, t) == Idle
    ensures var s' := ScullProtocol.Next(s, t, Begin(Open(false, false)));
            At(s', t) == Idle && (s'.store, s'.live) == (s.store, s.live)
  {
  }

  /** And any open of a device that is not free gives up, and leaves everything as it was. */
  lemma AnOpenIsRefused(g: Shape, events: seq<Event>, t: Task, h: Handle, writeOnly: bool)
    requires var d := RunEvents(g, events);
             At(d.scull, t) == Idle && Gate.At(d.gate, h) == Gate.Out && !Gate.Free(d.gate)
    ensures var d, d' := RunEvents(g, events), RunEvents(g, events + [TryOpen(t, h, writeOnly), Proceed(h)]);
            && d' == d.(gate := d'.gate) && d'.gate.available == d.gate.available
            && forall i: Handle :: Gate.At(d'.gate, i) == Gate.At(d.gate, i)
  {
    hide RunEvents, Kept, ScullProtocol.Next;
    AdmittedRun(g, events);
    var d := RunEvents(g, events);
    var e := [TryOpen(t, h, writeOnly)];
    RunsOn(g, events, e + [Proceed(h)]);
    OneMore(d, [], e[0]);
    assert [] + e == e && e + [Proceed(h)] == [TryOpen(t, h, writeOnly), Proceed(h)];
    OneMore(d, e, Proceed(h));
    IsRestoring(d.gate, h, writeOnly);
    assert !Busy(d, h);
  }

  lemma IsRestoring(s: Gate.Single, h: Handle, writeOnly: bool)
    requires Gate.Balanced(s) && Gate.At(s, h) == Gate.Out && !Gate.Free(s)
    ensures var s' := Gate.Next(s, h, Gate.Open(writeOnly));
            s' == Gate.Single(s.available - 1, s.pcs[h := Gate.Restoring])
  {
    assert |Gate.Holders(s)| == 0 <==> Gate.Holders(s) == {};
    assert |Gate.Failing(s)| == 0 <==> Gate.Failing(s) == {};
  }

  lemma GetsInToTrim(d: Device, t: Task, h: Handle)
    requires Gate.Balanced(d.gate) && Gate.Free(d.gate) && At(d.scull, t) == Idle && Gate.At(d.gate, h) == Gate.Out
    ensures var gate := Gate.Next(d.gate, h, Gate.Open(true));
            && Gate.At(gate, h) == Gate.Trimming
            && Next(d, TryOpen(t, h, true))
               == Device(gate, ScullProtocol.Next(d.scull, t, Begin(Open(true, false))), d.via[t := h])
  {
    hide ScullProtocol.Next;
  }

  lemma NobodyIsBusy(d: Device)
    requires Admitted(d) && Gate.Free(d.gate)
    ensures forall u: Task :: At(d.scull, u) == Idle
  {
    assert forall h: Handle :: Gate.Inside(Gate.At(d.gate, h)) ==> h in Gate.Holders(d.gate);
  }

  lemma {:induction false} AloneIsOwn(s: System, t: Task, n: nat)
    ensures forall u: Task :: u != t ==> At(ScullCalls.Alone(s, t, n), u) == At(s, u)
  {
    hide ScullProtocol.Next;
    if n > 0 {
      AloneIsOwn(s, t, n - 1);
      StepIsOwn(ScullCalls.Alone(s, t, n - 1), t, Go);
    }
  }

  /** And a read or write through an open handle, with nobody inside and left alone, is answered
      as it would be by itself. */
  lemma ACallIsAnswered(g: Shape, events: seq<Event>, t: Task, h: Handle, call: Call) returns (more: seq<Event>)
    requires var d := RunEvents(g, events);
             && At(d.scull, t) == Idle && d.scull.sem == None && Gate.At(d.gate, h) == Gate.Holding
             && !call.Open? && CallOk(g, call)
    ensures var d, d' := RunEvents(g, events), RunEvents(g, events + more);
            && d'.gate == d.gate && At(d'.scull, t) == Idle && d'.scull.sem == None
            && ScullCalls.Answers(g, d.scull, call, d'.scull)
  {
    hide RunEvents, Kept, Gate.Balanced, ScullProtocol.Next, CallOk, ScullCalls.Answers, ScullCalls.Alone;
    AdmittedRun(g, events);
    var d := RunEvents(g, events);
    forall u: Task
      ensures !Trims(At(d.scull, u))
    {
      if Trims(At(d.scull, u)) {
        OneHandle(d.gate, h, d.via[u]);
      }
    }
    var n := CallGoesThrough(g, d.scull, t, call);
    OneMore(d, [], Use(t, h, call));
    assert [] + [Use(t, h, call)] == [Use(t, h, call)];
    GoesAre(d, [Use(t, h, call)], t, n);
    more := [Use(t, h, call)] + Goes(t, n);
    RunsOn(g, events, more);
  }

  /** And a handle with no call on it closes at once, and leaves the device free. */
  lemma ACloseFreesTheDevice(g: Shape, events: seq<Event>, h: Handle)
    requires var d := RunEvents(g, events); Gate.At(d.gate, h) == Gate.Holding && !Busy(d, h)
    ensures var d, d' := RunEvents(g, events), RunEvents(g, events + [Proceed(h)]);
            d' == d.(gate := d'.gate) && Gate.Holders(d'.gate) == {} && Gate.At(d'.gate, h) == Gate.Out
  {
    hide RunEvents, Kept, ScullProtocol.Next;
    AdmittedRun(g, events);
    var d := RunEvents(g, events);
    RunsOn(g, events, [Proceed(h)]);
    OneMore(d, [], Proceed(h));
    assert [] + [Proceed(h)] == [Proceed(h)];
    var gate := Gate.Next(d.gate, h, Gate.Go);
    forall i | i in Gate.Holders(gate)
      ensures false
    {
      OneHandle(d.gate, h, i);
    }
  }
}
