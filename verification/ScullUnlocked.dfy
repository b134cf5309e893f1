/** What the unlocked trim in the opens of higher_scull/high_scull/access.c does to a call that
    is under way on another handle of the same device, and how many tasks it takes. */
module ScullUnlocked {
  import opened Common
  import opened StoreAddress
  import opened Store
  import opened StoreHistory
  import opened ScullProtocol
  import opened ScullAlone
  import ScullSerial

  const UNIT := Shape(1, 1)

  function AWrite(): Call {
    Write(0, [7], Env(false, 3, [0], None))
  }

  function AJob(left: nat): Job {
    Job(AWrite(), UNIT, 1, left)
  }

  // The states of the run, for a task w that writes and a task o that opens.

  ghost function Asked(w: Task): System {
    Init(UNIT, false).(pcs := map[w := Enter(AWrite(), UNIT)])
  }

  ghost function Linked(w: Task): System {
    Init(UNIT, false).(sem := Some(w), store := Store(0, [None]), live := {Item(0, 0)},
                       pcs := map[w := Walk(AJob(2), 0, 0)])
  }

  ghost function Arrayed(w: Task): System {
    Linked(w).(store := Store(0, [Some([None])]), live := {Item(0, 0), Slots(0, 0)},
               pcs := map[w := TestSlot(AJob(1), 0)])
  }

  ghost function Reached(w: Task): System {
    Init(UNIT, false).(sem := Some(w), store := Store(0, [Some([Some([0])])]),
                       live := {Item(0, 0), Slots(0, 0), Bytes(0, 0, 0)},
                       pcs := map[w := CopyBytes(AJob(0), 0)])
  }

  ghost function Opened(w: Task, o: Task): System {
    Reached(w).(pcs := map[w := CopyBytes(AJob(0), 0), o := TrimHead])
  }

  ghost function Trimming(w: Task, o: Task): System {
    Reached(w).(pcs := map[w := CopyBytes(AJob(0), 0), o := TrimItem(0, 0)])
  }

  ghost function Freed(w: Task, o: Task): System {
    Reached(w).(live := {Item(0, 0), Slots(0, 0)},
                pcs := map[w := CopyBytes(AJob(0), 0), o := TrimSlot(0, 0, 1)])
  }

  /** All steps are taken by tasks of T. */
  ghost predicate By(schedule: Schedule, T: set<Task>) {
    forall i :: 0 <= i < |schedule| ==> schedule[i].0 in T
  }

  /** One more step of a run. */
  lemma Then(x: Schedule, T: set<Task>, s: System, t: Task, c: Choice) returns (x': Schedule, s': System)
    requires s == RunFrom(UNIT, false, x) && By(x, T) && t in T
    ensures s' == Next(s, t, c) == RunFrom(UNIT, false, x') && By(x', T)
  {
    x', s' := x + [(t, c)], Next(s, t, c);
    assert x'[..|x|] == x;
  }

  lemma TargetIs(left: nat)
    ensures Target(AJob(left)) == Place(0, 0, 0)
  {
    UnitShape(0);
  }

  lemma AskIt(w: Task) returns (x: Schedule)
    ensures RunFrom(UNIT, false, x) == Asked(w) && By(x, {w})
  {
    hide FollowStep, AccessStep, TrimStep;
    var s;
    x, s := Then([], {w}, Init(UNIT, false), w, Begin(AWrite()));
    assert CallOk(UNIT, AWrite());
    x, s := Then(x, {w}, s, w, Go);
    assert s == Asked(w);
  }

  lemma LinkIt(w: Task, x0: Schedule) returns (x: Schedule)
    requires RunFrom(UNIT, false, x0) == Asked(w) && By(x0, {w})
    ensures RunFrom(UNIT, false, x) == Linked(w) && By(x, {w})
  {
    hide AccessStep, TrimStep, Start;
    var s;
    x, s := Then(x0, {w}, Asked(w), w, Go);
    assert At(s, w) == LoadHead(AJob(3));
    x, s := Then(x, {w}, s, w, Go);
    assert s == Linked(w);
  }

  lemma ArrayIt(w: Task, x0: Schedule) returns (x: Schedule)
    requires RunFrom(UNIT, false, x0) == Linked(w) && By(x0, {w})
    ensures RunFrom(UNIT, false, x) == Arrayed(w) && By(x, {w})
  {
    hide TrimStep, Start, EnterStep, Target, Copy, ReachSlot, EmptyArray, Locate;
    TargetIs(2);
    UnitArray();
    var s;
    x, s := Then(x0, {w}, Linked(w), w, Go);
    assert s == Linked(w).(pcs := map[w := TestArray(AJob(2), 0)]);
    x, s := Then(x, {w}, s, w, Go);
    assert s == Arrayed(w);
  }

  lemma UnitArray()
    ensures EmptyArray(UNIT) == Some([None])
  {
    var a := EmptyArray(UNIT).value;
    assert a == [a[0]];
  }

  lemma ReachIt(w: Task, x0: Schedule) returns (x: Schedule)
    requires RunFrom(UNIT, false, x0) == Arrayed(w) && By(x0, {w})
    ensures RunFrom(UNIT, false, x) == Reached(w) && By(x, {w})
  {
    hide TrimStep, Start, EnterStep, Target, Copy, ReachArray, Locate;
    TargetIs(1);
    var empty: seq<Quantum> := [None];
    assert empty[0 := Some([0])] == [Some([0])];
    assert SetQuantum([Some(empty)], 0, 0, Some([0])) == [Some([Some([0])])];
    var s;
    x, s := Then(x0, {w}, Arrayed(w), w, Go);
    assert s == Reached(w);
  }

  lemma OpenIt(w: Task, o: Task, x0: Schedule) returns (x: Schedule)
    requires w != o && RunFrom(UNIT, false, x0) == Reached(w) && By(x0, {w})
    ensures RunFrom(UNIT, false, x) == Trimming(w, o) && By(x, {w, o})
  {
    hide Next, RunFrom;
    OpenBegins(w, o);
    TrimBegins(w, o);
    var s;
    x, s := Then(x0, {w, o}, Reached(w), o, Begin(Open(true, false)));
    x, s := Then(x, {w, o}, s, o, Go);
  }

  lemma OpenBegins(w: Task, o: Task)
    requires w != o
    ensures Next(Reached(w), o, Begin(Open(true, false))) == Opened(w, o)
  {
    hide FollowStep, AccessStep, EnterStep, TrimStep;
  }

  lemma TrimBegins(w: Task, o: Task)
    requires w != o
    ensures Next(Opened(w, o), o, Go) == Trimming(w, o)
  {
    hide FollowStep, AccessStep, EnterStep, Start;
    assert Opened(w, o).pcs[o := TrimItem(0, 0)] == Trimming(w, o).pcs;
  }

  ghost function AtFirstSlot(w: Task, o: Task): System {
    Reached(w).(pcs := map[w := CopyBytes(AJob(0), 0), o := TrimSlot(0, 0, 0)])
  }

  lemma FreeIt(w: Task, o: Task, x0: Schedule) returns (x: Schedule)
    requires w != o && RunFrom(UNIT, false, x0) == Trimming(w, o) && By(x0, {w, o})
    ensures RunFrom(UNIT, false, x) == Freed(w, o) && By(x, {w, o})
  {
    hide Next, RunFrom;
    ItemIsTested(w, o);
    SlotIsFreed(w, o);
    var s;
    x, s := Then(x0, {w, o}, Trimming(w, o), o, Go);
    x, s := Then(x, {w, o}, s, o, Go);
  }

  lemma ItemIsTested(w: Task, o: Task)
    requires w != o
    ensures Next(Trimming(w, o), o, Go) == AtFirstSlot(w, o)
  {
    hide FollowStep, AccessStep, EnterStep, Start;
    assert Trimming(w, o).pcs[o := TrimSlot(0, 0, 0)] == AtFirstSlot(w, o).pcs;
  }

  lemma SlotIsFreed(w: Task, o: Task)
    requires w != o
    ensures Next(AtFirstSlot(w, o), o, Go) == Freed(w, o)
  {
    hide FollowStep, AccessStep, EnterStep, Start;
    assert AtFirstSlot(w, o).pcs[o := TrimSlot(0, 0, 1)] == Freed(w, o).pcs;
    assert AtFirstSlot(w, o).live - {Bytes(0, 0, 0)} == Freed(w, o).live;
  }

  lemma CopyIsBad(w: Task, o: Task)
    requires w != o
    ensures Next(Freed(w, o), w, Go).bad
  {
    hide TrimStep, Start, EnterStep, FollowStep, Copy, Target;
    TargetIs(0);
  }

  /** Whichever two tasks they are: w's write has its quantum and is about to copy into it,
      inside the semaphore; o's open for writing trims the device without the semaphore and
      frees the quantum; the copy goes to a block that is no longer live. */
  lemma AnUnlockedTrimPullsABlockAway(w: Task, o: Task) returns (x: Schedule)
    requires w != o
    ensures By(x, {w, o}) && RunFrom(UNIT, false, x).bad
  {
    hide RunFrom, Next;
    x := AskIt(w);
    x := LinkIt(w, x);
    x := ArrayIt(w, x);
    x := ReachIt(w, x);
    x := OpenIt(w, o, x);
    x := FreeIt(w, o, x);
    CopyIsBad(w, o);
    var s;
    x, s := Then(x, {w, o}, Freed(w, o), w, Go);
  }

  // ------------------------------------------------------------------ one task

  /** A task that is the only one to take steps has the device to itself. */
  lemma {:induction false} OneTaskIsKept(g: Shape, schedule: Schedule, T: set<Task>)
    requires |T| <= 1 && By(schedule, T)
    ensures var s := RunFrom(g, false, schedule);
            Kept(g, s) && forall u: Task :: u !in T ==> At(s, u) == Idle
  {
    hide Next, Kept, Lonely;
    if schedule == [] {
      KeptAtFirst(g);
    } else {
      var n := |schedule| - 1;
      var (t, c) := schedule[n];
      OneTaskIsKept(g, schedule[..n], T);
      var s := RunFrom(g, false, schedule[..n]);
      StepIsOwn(s, t, c);
      OnlyOneIsLonely(Next(s, t, c), T, t);
      KeptStep(g, s, t, c);
    }
  }

  lemma OnlyOneIsLonely(s: System, T: set<Task>, t: Task)
    requires |T| <= 1 && t in T && forall u: Task :: u !in T ==> At(s, u) == Idle
    ensures Lonely(s)
  {
    assert |T - {t}| == 0;
    assert forall u: Task :: u != t && u in T ==> u in T - {t};
  }

  // ------------------------------------------------------------------ main results

  /** The tasks of T cannot touch a dead block, however their calls interleave and whatever the
      shape, if and only if there is at most one of them. */
  lemma HowManyTasksAreSafe(T: set<Task>)
    ensures |T| <= 1 <==> forall g: Shape, schedule: Schedule :: By(schedule, T) ==> !RunFrom(g, false, schedule).bad
  {
    hide RunFrom, Kept, By;
    if |T| <= 1 {
      forall g: Shape, schedule: Schedule | By(schedule, T)
        ensures !RunFrom(g, false, schedule).bad
      {
        OneTaskIsKept(g, schedule, T);
        KeptIsSafe(g, RunFrom(g, false, schedule));
      }
    } else {
      var w :| w in T;
      assert T != {w};
      var o :| o in T && o != w;
      var x := AnUnlockedTrimPullsABlockAway(w, o);
      Wider(x, {w, o}, T);
    }
  }

  lemma Wider(schedule: Schedule, T: set<Task>, U: set<Task>)
    requires By(schedule, T) && T <= U
    ensures By(schedule, U)
  {
  }

  /** No run touches a dead block if and only if trim takes the semaphore. */
  lemma WhatTheSemaphoreIsFor(locked: bool)
    ensures locked <==> forall g: Shape, schedule: Schedule :: !RunFrom(g, locked, schedule).bad
  {
    hide RunFrom;
    if locked {
      forall g: Shape, schedule: Schedule
        ensures !RunFrom(g, locked, schedule).bad
      {
        ScullSerial.NoDeadBlockIsTouched(g, schedule, Task(0), Task(0));
      }
    } else {
      var x := AnUnlockedTrimPullsABlockAway(Task(0), Task(1));
    }
  }
}
