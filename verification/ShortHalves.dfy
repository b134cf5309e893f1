/** The top and bottom halves of the short driver step by step (IO_port/copy/short.c):
    interrupts store times and move the head at any moment, also while the bottom half runs.
    Every access to the shared ring, the count and the queue of bottom halves is a step. A
    run is any sequence of choices. */
module ShortHalves {
  import opened ShortFormat
  import opened ShortDevice

  /** The handler: short_wq_interrupt, short_tl_interrupt. */
  datatype Top =
    | Out
    | Stored                     // the time is in the ring, tv_head not yet moved
    | Moved                      // about to queue the bottom half
    | Queued                     // short_wq_count++: about to load the count
    | Counting(seen: int)        // about to store one more

  /** short_do_tasklet */
  datatype Bottom =
    | Idle
    | Taken                      // off the queue, about to load the count
    | Saved(count: int)          // the count loaded, not yet zeroed
    | Heading(count: int)        // about to print it
    | Line                       // about to print the time at tv_tail
    | Step                       // about to move tv_tail
    | Again                      // tv_tail != tv_head ?

  datatype Choice = Interrupt(now: Time) | TopGo | BottomGo

  datatype Halves = Halves(
    data: seq<Time>,
    head: nat,
    tail: nat,
    count: int,                  // short_wq_count
    scheduled: bool,             // the bottom half is queued
    top: Top,
    bottom: Bottom,
    recorded: seq<Time>,         // history: the times the head has moved past
    printed: seq<Time>,          // history: the times printed
    announced: int,              // history: the sum of the counts printed
    forgotten: int,              // history: interrupts counted between a load and its zeroing
    doubled: int,                // history: interrupts that a zeroing missed, and a store brought back
    stale: bool,                 // history: a time was printed with none pending
    overfull: bool               // history: a time was stored with 512 pending
  )

  ghost function Init(data: seq<Time>): Halves {
    Halves(data, 0, 0, 0, false, Out, Idle, [], [], 0, 0, 0, false, false)
  }

  /** How many times are recorded and not printed; below 0 after a stale one. */
  ghost function Pending(s: Halves): int {
    |s.recorded| - |s.printed|
  }

  ghost function TopStep(s: Halves, c: Choice): Halves {
    match s.top
    case Out =>
      if c.Interrupt? && s.head < |s.data| then
        s.(data := s.data[s.head := c.now], top := Stored, overfull := s.overfull || Pending(s) >= NR_TIMEVAL)
      else s
    case Stored =>
      if c == TopGo && s.head < |s.data| then
        s.(head := IncrTv(s.head), top := Moved, recorded := s.recorded + [s.data[s.head]])
      else s
    case Moved => if c == TopGo then s.(scheduled := true, top := Queued) else s
    case Queued => if c == TopGo then s.(top := Counting(s.count)) else s
    case Counting(seen) =>
      if c == TopGo then s.(count := seen + 1, top := Out, doubled := s.doubled + (seen - s.count)) else s
  }

  ghost function BottomStep(s: Halves, c: Choice): Halves {
    if c != BottomGo then s
    else
      match s.bottom
      case Idle => if s.scheduled then s.(scheduled := false, bottom := Taken) else s
      case Taken => s.(bottom := Saved(s.count))
      case Saved(n) => s.(count := 0, bottom := Heading(n), forgotten := s.forgotten + (s.count - n))
      case Heading(n) => s.(bottom := Line, announced := s.announced + n)
      case Line =>
        if s.tail < |s.data| then
          s.(bottom := Step, printed := s.printed + [s.data[s.tail]], stale := s.stale || Pending(s) <= 0)
        else s
      case Step => s.(bottom := Again, tail := IncrTv(s.tail))
      case Again => s.(bottom := if s.tail != s.head then Line else Idle)
  }

  ghost function Next(s: Halves, c: Choice): Halves {
    if c == BottomGo then BottomStep(s, c) else TopStep(s, c)
  }

  type Schedule = seq<Choice>

  ghost function Run(data: seq<Time>, schedule: Schedule): Halves {
    if schedule == [] then Init(data)
    else Next(Run(data, schedule[..|schedule| - 1]), schedule[|schedule| - 1])
  }

  // ------------------------------------------------------------------ every run

  /** The place in the ring of the time numbered n. */
  ghost function Place(n: nat): nat {
    n % NR_TIMEVAL
  }

  lemma PlaceNext(n: nat)
    ensures Place(n) < NR_TIMEVAL && IncrTv(Place(n)) == Place(n + 1)
  {
    assert n == NR_TIMEVAL * (n / NR_TIMEVAL) + Place(n);
  }

  /** Times fewer than 512 apart have different places. */
  lemma PlacesDiffer(i: nat, n: nat)
    requires i < n < i + NR_TIMEVAL
    ensures Place(i) != Place(n)
  {
  }

  /** The times the tail has moved past. */
  ghost function Passed(s: Halves): nat {
    |s.printed| - if s.bottom.Step? && s.printed != [] then 1 else 0
  }

  ghost predicate PointersOk(s: Halves) {
    && |s.data| == NR_TIMEVAL && (s.bottom.Step? ==> s.printed != [])
    && s.head == Place(|s.recorded|) && s.tail == Place(Passed(s))
  }

  /** The ring holds the latest times, but for the one a handler is just overwriting. */
  ghost predicate HoldsLatest(s: Halves) {
    forall i: nat :: Holds(s, i)
  }

  ghost predicate Holds(s: Halves, i: nat) {
    i < |s.recorded| && |s.recorded| <= i + NR_TIMEVAL - (if s.top.Stored? then 1 else 0) ==>
      Place(i) < |s.data| && s.data[Place(i)] == s.recorded[i]
  }

  /** Every interrupt that has been counted is announced, about to be, forgotten, or waiting
      in the count; some are so twice. */
  ghost predicate Balanced(s: Halves) {
    var counted := |s.recorded| - if s.top.Out? || s.top.Stored? then 0 else 1;
    s.announced + (if s.bottom.Heading? then s.bottom.count else 0) + s.count + s.forgotten == counted + s.doubled
  }

  /** What the two halves have loaded of the count: the zeroing lowers it, a store raises it. */
  ghost predicate LoadsOk(s: Halves) {
    && 0 <= s.count && 0 <= s.forgotten && 0 <= s.doubled
    && (s.top.Counting? ==> s.count == s.top.seen || (s.count == 0 && 0 <= s.top.seen))
    && (s.bottom.Saved? ==> 0 <= s.bottom.count <= s.count)
    && (s.bottom.Heading? ==> 0 <= s.bottom.count)
    && (s.bottom.Saved? && s.top.Counting? ==> s.bottom.count <= s.top.seen)
  }

  lemma PointersStep(s: Halves, c: Choice)
    requires PointersOk(s)
    ensures PointersOk(Next(s, c))
  {
    hide PointersOk, TopStep, BottomStep;
    if c == BottomGo {
      PointersBottomStep(s);
    } else {
      PointersTopStep(s, c);
    }
  }

  lemma PointersTopStep(s: Halves, c: Choice)
    requires PointersOk(s)
    ensures PointersOk(TopStep(s, c))
  {
    hide Place, IncrTv;
    PlaceNext(|s.recorded|);
  }

  lemma PointersBottomStep(s: Halves)
    requires PointersOk(s)
    ensures PointersOk(BottomStep(s, BottomGo))
  {
    hide Place, IncrTv;
    PlaceNext(Passed(s));
  }

  lemma LatestStep(s: Halves, c: Choice)
    requires PointersOk(s) && HoldsLatest(s)
    ensures HoldsLatest(Next(s, c))
  {
    hide Next, Holds, PointersOk;
    forall i: nat
      ensures Holds(Next(s, c), i)
    {
      HoldsStep(s, c, i);
    }
  }

  lemma HoldsStep(s: Halves, c: Choice, i: nat)
    requires PointersOk(s) && Holds(s, i)
    ensures Holds(Next(s, c), i)
  {
    hide Place, IncrTv;
    PlaceNext(i);
    if c == BottomGo {
      hide TopStep;
    } else {
      hide BottomStep;
      if s.top.Out? && c.Interrupt? && i < |s.recorded| < i + NR_TIMEVAL {
        PlacesDiffer(i, |s.recorded|);
      }
    }
  }

  lemma BalancedStep(s: Halves, c: Choice)
    requires Balanced(s)
    ensures Balanced(Next(s, c))
  {
    hide Balanced, TopStep, BottomStep;
    if c == BottomGo {
      BalancedBottomStep(s);
    } else {
      BalancedTopStep(s, c);
    }
  }

  lemma BalancedTopStep(s: Halves, c: Choice)
    requires Balanced(s)
    ensures Balanced(TopStep(s, c))
  {
    hide IncrTv;
  }

  lemma BalancedBottomStep(s: Halves)
    requires Balanced(s)
    ensures Balanced(BottomStep(s, BottomGo))
  {
    hide IncrTv;
  }

  lemma LoadsStep(s: Halves, c: Choice)
    requires LoadsOk(s)
    ensures LoadsOk(Next(s, c))
  {
    hide LoadsOk, TopStep, BottomStep;
    if c == BottomGo {
      LoadsBottomStep(s);
    } else {
      LoadsTopStep(s, c);
    }
  }

  lemma LoadsTopStep(s: Halves, c: Choice)
    requires LoadsOk(s)
    ensures LoadsOk(TopStep(s, c))
  {
    hide IncrTv;
  }

  lemma LoadsBottomStep(s: Halves)
    requires LoadsOk(s)
    ensures LoadsOk(BottomStep(s, BottomGo))
  {
    hide IncrTv;
  }

  lemma {:induction false} Always(data: seq<Time>, schedule: Schedule)
    requires |data| == NR_TIMEVAL
    ensures var s := Run(data, schedule); PointersOk(s) && HoldsLatest(s) && Balanced(s) && LoadsOk(s)
  {
    if schedule == [] {
    } else {
      hide Next;
      var front, c := schedule[..|schedule| - 1], schedule[|schedule| - 1];
      Always(data, front);
      PointersStep(Run(data, front), c);
      LatestStep(Run(data, front), c);
      BalancedStep(Run(data, front), c);
      LoadsStep(Run(data, front), c);
    }
  }

  /** The counts that bottom halves print, and the one still waiting, add up in every run to
      the interrupts, less those that a bottom half zeroed without having loaded them, and plus
      those that a handler stored back after a bottom half had loaded and zeroed them. */
  lemma CountsAddUp(data: seq<Time>, schedule: Schedule)
    requires |data| == NR_TIMEVAL
    ensures var s := Run(data, schedule);
            && 0 <= s.forgotten && 0 <= s.doubled
            && (s.top.Out? && !s.bottom.Heading? ==>
                  s.announced + s.count == |s.recorded| - s.forgotten + s.doubled)
  {
    Always(data, schedule);
  }

  /** Exactly the steps that make them differ. */
  lemma WhenCountsGoWrong(s: Halves, c: Choice)
    ensures Next(s, c).forgotten != s.forgotten <==> c == BottomGo && s.bottom.Saved? && s.bottom.count != s.count
    ensures Next(s, c).doubled != s.doubled <==> c == TopGo && s.top.Counting? && s.top.seen != s.count
  {
    hide IncrTv;
  }

  // ------------------------------------------------------------------ when times come out right

  /** So far each time has been printed once and in order, and those not printed are in the
      ring, in order from the tail on. */
  ghost predicate InOrder(s: Halves) {
    && Bounded(s)
    && forall i: nat :: |s.printed| <= i < |s.recorded| ==>
         Place(i) < |s.data| && s.data[Place(i)] == s.recorded[i]
  }

  ghost predicate Bounded(s: Halves) {
    && s.printed <= s.recorded
    && Pending(s) <= NR_TIMEVAL - if s.top.Stored? then 1 else 0
  }

  /** The ring has room for as many as there may be. */
  lemma BoundedIsInOrder(s: Halves)
    requires HoldsLatest(s)
    ensures InOrder(s) <==> Bounded(s)
  {
    hide Place;
    if Bounded(s) {
      forall i: nat | |s.printed| <= i < |s.recorded|
        ensures Place(i) < |s.data| && s.data[Place(i)] == s.recorded[i]
      {
        assert Holds(s, i);
      }
    }
  }

  /** Exactly the steps that put an end to that: printing a time when none is pending, and
      storing one when 512 are. */
  ghost predicate GoesWrong(s: Halves, c: Choice) {
    || (s.bottom.Line? && c == BottomGo && Pending(s) == 0)
    || (s.top.Out? && c.Interrupt? && Pending(s) == NR_TIMEVAL)
  }

  lemma WhenTimesGoWrong(data: seq<Time>, schedule: Schedule, c: Choice)
    requires |data| == NR_TIMEVAL && InOrder(Run(data, schedule))
    ensures InOrder(Next(Run(data, schedule), c)) <==> !GoesWrong(Run(data, schedule), c)
  {
    Always(data, schedule);
    InOrderStep(Run(data, schedule), c);
  }

  lemma InOrderStep(s: Halves, c: Choice)
    requires PointersOk(s) && HoldsLatest(s) && InOrder(s)
    ensures InOrder(Next(s, c)) <==> !GoesWrong(s, c)
    ensures Next(s, c).stale || Next(s, c).overfull <==> s.stale || s.overfull || GoesWrong(s, c)
  {
    hide InOrder, Bounded, GoesWrong, HoldsLatest, PointersOk, TopStep, BottomStep;
    LatestStep(s, c);
    BoundedIsInOrder(s);
    BoundedIsInOrder(Next(s, c));
    if c == BottomGo {
      BottomInOrder(s);
    } else {
      TopInOrder(s, c);
    }
  }

  lemma BottomInOrder(s: Halves)
    requires PointersOk(s) && HoldsLatest(s) && Bounded(s)
    ensures var s' := BottomStep(s, BottomGo);
            && (Bounded(s') <==> !GoesWrong(s, BottomGo))
            && (s'.stale || s'.overfull <==> s.stale || s.overfull || GoesWrong(s, BottomGo))
  {
    hide Place, IncrTv;
    PlaceNext(|s.printed|);
    assert Holds(s, |s.printed|);
    hide HoldsLatest;
    if s.bottom.Line? && Pending(s) > 0 {
      assert s.data[s.tail] == s.recorded[|s.printed|];
    }
  }

  lemma TopInOrder(s: Halves, c: Choice)
    requires PointersOk(s) && Bounded(s) && c != BottomGo
    ensures var s' := TopStep(s, c);
            && (Bounded(s') <==> !GoesWrong(s, c))
            && (s'.stale || s'.overfull <==> s.stale || s.overfull || GoesWrong(s, c))
  {
    hide Place, IncrTv;
    PlaceNext(|s.recorded|);
  }

  /** In every run, whatever the interleaving: each recorded time has been printed once and in
      order or is still in the ring, at every moment, if and only if no bottom half has printed
      with none pending and no time has been stored with 512 pending. */
  lemma {:induction false} TimesAreInOrder(data: seq<Time>, schedule: Schedule)
    requires |data| == NR_TIMEVAL
    ensures (forall k :: 0 <= k <= |schedule| ==> InOrder(Run(data, schedule[..k])))
       <==> !Run(data, schedule).stale && !Run(data, schedule).overfull
  {
    hide Next, InOrder, PointersOk, HoldsLatest;
    assert schedule[..|schedule|] == schedule;
    if schedule == [] {
      assert InOrder(Init(data)) by {
        BeginsInOrder(data);
      }
    } else {
      var n := |schedule| - 1;
      var front, c := schedule[..n], schedule[n];
      TimesAreInOrder(data, front);
      assert forall k :: 0 <= k <= n ==> front[..k] == schedule[..k];
      Always(data, front);
      FlagsStay(Run(data, front), c);
      if InOrder(Run(data, front)) {
        InOrderStep(Run(data, front), c);
      }
    }
  }

  lemma BeginsInOrder(data: seq<Time>)
    ensures InOrder(Init(data))
  {
  }

  lemma FlagsStay(s: Halves, c: Choice)
    ensures s.stale || s.overfull ==> Next(s, c).stale || Next(s, c).overfull
  {
  }

  // ------------------------------------------------------------------ when times are printed

  /** A bottom half is at work, or will be: it is queued, or a handler is about to queue it. */
  ghost predicate Attended(s: Halves) {
    s.scheduled || s.bottom != Idle || s.top.Moved?
  }

  /** Times that are pending are attended to; and a bottom half that has printed one, and has met
      no further interrupt, has not the whole ring before it. */
  ghost predicate AttendedOk(s: Halves) {
    && (Pending(s) > 0 ==> Attended(s))
    && ((s.bottom.Step? || s.bottom.Again?) && !s.scheduled && !s.top.Moved? ==> Pending(s) < NR_TIMEVAL)
  }

  lemma AttendedStep(s: Halves, c: Choice)
    requires PointersOk(s) && Bounded(s) && AttendedOk(s)
    ensures AttendedOk(Next(s, c))
  {
    hide IncrTv, PointersOk;
    if c == BottomGo && s.bottom.Again? {
      MeetsWhenDone(s);
    } else if c == BottomGo {
      hide TopStep;
    } else {
      hide BottomStep;
      PointersInside(s);
    }
  }

  lemma PointersInside(s: Halves)
    requires PointersOk(s)
    ensures |s.data| == NR_TIMEVAL && s.head < |s.data| && s.tail < |s.data|
  {
  }

  /** The tail meets the head when nothing is pending, or as much as the ring holds. */
  lemma MeetsWhenDone(s: Halves)
    requires PointersOk(s) && Bounded(s) && s.bottom.Again?
    ensures s.tail == s.head <==> Pending(s) == 0 || Pending(s) == NR_TIMEVAL
  {
    if 0 < Pending(s) < NR_TIMEVAL {
      PlacesDiffer(|s.printed|, |s.recorded|);
    }
  }

  /** As long as times are printed in order, none is left behind: in every run a time that is
      pending has a bottom half at work or queued, or a handler that is about to queue it. */
  lemma {:induction false} NoTimeIsLeftBehind(data: seq<Time>, schedule: Schedule)
    requires |data| == NR_TIMEVAL && !Run(data, schedule).stale && !Run(data, schedule).overfull
    ensures var s := Run(data, schedule); InOrder(s) && AttendedOk(s) && (s.printed != s.recorded ==> Attended(s))
  {
    hide Next, PointersOk, HoldsLatest, AttendedOk;
    TimesAreInOrder(data, schedule);
    assert schedule[..|schedule|] == schedule;
    if schedule == [] {
      NothingPending(data);
    } else {
      var n := |schedule| - 1;
      var s := Run(data, schedule[..n]);
      FlagsStay(s, schedule[n]);
      NoTimeIsLeftBehind(data, schedule[..n]);
      Always(data, schedule[..n]);
      AttendedStep(s, schedule[n]);
    }
    PendingIsMore(Run(data, schedule));
  }

  lemma NothingPending(data: seq<Time>)
    ensures AttendedOk(Init(data))
  {
  }

  lemma PendingIsMore(s: Halves)
    requires InOrder(s) && AttendedOk(s)
    ensures s.printed != s.recorded ==> Attended(s)
  {
  }

  /** n times of a bottom half that meets no interrupt. */
  lemma {:induction false} PrintsMany(data: seq<Time>, x: Schedule, n: nat) returns (x': Schedule)
    requires |data| == NR_TIMEVAL && Run(data, x).bottom.Line? && Run(data, x).top.Out?
    requires InOrder(Run(data, x)) && Pending(Run(data, x)) == n > 0
    ensures var s, s' := Run(data, x), Run(data, x');
            s' == s.(printed := s.recorded, tail := s.head, bottom := Idle)
    decreases n
  {
    hide Run, HoldsLatest, PointersOk, Balanced, LoadsOk;
    Always(data, x);
    var s := Run(data, x);
    var at := s.tail;
    PointersInside(s);
    assert s.data[at] == s.recorded[|s.printed|] by {
      TailIsNext(s);
    }
    x' := PrintsOne(data, x);
    var s1 := Run(data, x');
    assert s1.printed == s.recorded[..|s.printed| + 1];
    Always(data, x');
    PlaceNext(|s.printed|);
    AfterOne(s, s1, n);
    if n > 1 {
      x' := PrintsMany(data, x', n - 1);
    } else {
      assert s1.printed == s.recorded;
    }
  }

  lemma TailIsNext(s: Halves)
    requires PointersOk(s) && InOrder(s) && Pending(s) > 0 && s.bottom.Line?
    ensures s.tail < |s.data| && s.data[s.tail] == s.recorded[|s.printed|]
  {
  }

  /** Where the tail is after one more time, and whether it has met the head. */
  lemma AfterOne(s: Halves, s1: Halves, n: nat)
    requires PointersOk(s) && InOrder(s) && Pending(s) == n > 0 && s.bottom.Line? && s.top.Out? && s.tail < |s.data|
    requires s.data[s.tail] == s.recorded[|s.printed|]
    requires s1 == s.(printed := s.printed + [s.data[s.tail]], stale := s.stale || Pending(s) <= 0,
                      tail := IncrTv(s.tail), bottom := if IncrTv(s.tail) != s.head then Line else Idle)
    ensures InOrder(s1) && Pending(s1) == n - 1 && s1.stale == s.stale
    ensures s1.bottom == (if n > 1 then Line else Idle) && (n == 1 ==> s1.tail == s.head)
  {
    PlaceNext(|s.printed|);
    if n > 1 {
      PlacesDiffer(|s.printed| + 1, |s.recorded|);
    }
    hide Place, IncrTv;
  }

  /** A bottom half that starts with one to 512 times pending, and meets no interrupt, announces
      the count, prints them all, in order, and ends. */
  lemma ABottomHalfPrintsAll(data: seq<Time>, x: Schedule) returns (x': Schedule)
    requires |data| == NR_TIMEVAL && InOrder(Run(data, x)) && Pending(Run(data, x)) > 0
    requires var s := Run(data, x); s.scheduled && s.bottom.Idle? && s.top.Out?
    ensures var s := Run(data, x);
            Run(data, x') == s.(scheduled := false, count := 0, announced := s.announced + s.count,
                                printed := s.recorded, tail := s.head)
  {
    hide Run;
    x' := Starts(data, x);
    x' := PrintsMany(data, x', Pending(Run(data, x)));
  }

  // ------------------------------------------------------------------ runs that go wrong

  lemma Then(data: seq<Time>, x: Schedule, c: Choice)
    ensures Run(data, x + [c]) == Next(Run(data, x), c)
  {
    assert (x + [c])[..|x|] == x;
  }

  /** An interrupt that runs to its end. */
  lemma OneInterrupt(data: seq<Time>, x: Schedule, now: Time) returns (x': Schedule)
    requires Run(data, x).top.Out? && Run(data, x).head < |Run(data, x).data|
    ensures var s := Run(data, x);
            Run(data, x') == s.(data := s.data[s.head := now], head := IncrTv(s.head), count := s.count + 1,
                                scheduled := true, recorded := s.recorded + [now],
                                overfull := s.overfull || Pending(s) >= NR_TIMEVAL)
  {
    hide Run;
    x' := x + [Interrupt(now)];
    Then(data, x, Interrupt(now));
    Then(data, x', TopGo);
    x' := x' + [TopGo];
    Then(data, x', TopGo);
    x' := x' + [TopGo];
    Then(data, x', TopGo);
    x' := x' + [TopGo];
    Then(data, x', TopGo);
    x' := x' + [TopGo];
  }

  /** A bottom half up to its first time. */
  lemma Starts(data: seq<Time>, x: Schedule) returns (x': Schedule)
    requires Run(data, x).bottom.Idle? && Run(data, x).scheduled
    ensures var s := Run(data, x);
            Run(data, x') == s.(scheduled := false, count := 0, announced := s.announced + s.count, bottom := Line,
                                forgotten := s.forgotten)
  {
    hide Run;
    x' := x + [BottomGo];
    Then(data, x, BottomGo);
    Then(data, x', BottomGo);
    x' := x' + [BottomGo];
    Then(data, x', BottomGo);
    x' := x' + [BottomGo];
    Then(data, x', BottomGo);
    x' := x' + [BottomGo];
  }

  /** One time printed, and the test after it. */
  lemma PrintsOne(data: seq<Time>, x: Schedule) returns (x': Schedule)
    requires Run(data, x).bottom.Line? && Run(data, x).tail < |Run(data, x).data|
    ensures var s := Run(data, x);
            Run(data, x') == s.(printed := s.printed + [s.data[s.tail]], stale := s.stale || Pending(s) <= 0,
                                tail := IncrTv(s.tail), bottom := if IncrTv(s.tail) != s.head then Line else Idle)
  {
    hide Run;
    x' := x + [BottomGo];
    Then(data, x, BottomGo);
    Then(data, x', BottomGo);
    x' := x' + [BottomGo];
    Then(data, x', BottomGo);
    x' := x' + [BottomGo];
  }

  lemma Begins(data: seq<Time>)
    ensures Run(data, []) == Init(data)
  {
  }

  /** An interrupt during a bottom half is printed by it, yet queues another, which finds
      nothing pending and prints all the same. */
  lemma AnOverlapPrintsAStaleTime(data: seq<Time>, a: Time, b: Time) returns (x: Schedule)
    requires |data| == NR_TIMEVAL
    ensures var s := Run(data, x); s.recorded == [a, b] && s.printed == [a, b, data[2]] && s.stale && !s.overfull
  {
    hide Run;
    Begins(data);
    x := OneInterrupt(data, [], a);
    x := Starts(data, x);
    x := OneInterrupt(data, x, b);
    x := PrintsOne(data, x);
    x := PrintsOne(data, x);
    x := Starts(data, x);
    x := PrintsOne(data, x);
  }

  /** An interrupt between the load of the count and its zeroing is printed but not
      announced. */
  lemma AnInterruptIsForgotten(data: seq<Time>, a: Time, b: Time) returns (x: Schedule)
    requires |data| == NR_TIMEVAL
    ensures var s := Run(data, x);
            s.recorded == s.printed == [a, b] && s.bottom.Idle? && s.announced == 1 && s.count == 0 && s.forgotten == 1
  {
    hide Run;
    Begins(data);
    x := OneInterrupt(data, [], a);
    Then(data, x, BottomGo);
    x := x + [BottomGo];
    Then(data, x, BottomGo);
    x := x + [BottomGo];
    x := OneInterrupt(data, x, b);
    Then(data, x, BottomGo);
    x := x + [BottomGo];
    Then(data, x, BottomGo);
    x := x + [BottomGo];
    x := PrintsOne(data, x);
    x := PrintsOne(data, x);
  }

  /** An interrupt whose increment has loaded the count when a bottom half loads and zeroes it
      stores the old one back: three are announced or waiting, of two. */
  lemma AnInterruptIsCountedTwice(data: seq<Time>, a: Time, b: Time) returns (x: Schedule)
    requires |data| == NR_TIMEVAL
    ensures var s := Run(data, x);
            && s.recorded == s.printed == [a, b] && s.top.Out? && s.bottom.Idle?
            && s.announced == 1 && s.count == 2 && s.forgotten == 0 && s.doubled == 1
  {
    hide Run;
    Begins(data);
    x := OneInterrupt(data, [], a);
    x := CountsHalfway(data, x, b);
    x := Starts(data, x);
    Then(data, x, TopGo);
    x := x + [TopGo];
    x := PrintsOne(data, x);
    x := PrintsOne(data, x);
  }

  /** An interrupt up to the middle of its increment. */
  lemma CountsHalfway(data: seq<Time>, x: Schedule, now: Time) returns (x': Schedule)
    requires Run(data, x).top.Out? && Run(data, x).head < |Run(data, x).data|
    ensures var s := Run(data, x);
            Run(data, x') == s.(data := s.data[s.head := now], head := IncrTv(s.head), top := Counting(s.count),
                                scheduled := true, recorded := s.recorded + [now],
                                overfull := s.overfull || Pending(s) >= NR_TIMEVAL)
  {
    hide Run;
    x' := x + [Interrupt(now)];
    Then(data, x, Interrupt(now));
    Then(data, x', TopGo);
    x' := x' + [TopGo];
    Then(data, x', TopGo);
    x' := x' + [TopGo];
    Then(data, x', TopGo);
    x' := x' + [TopGo];
  }

  /** n interrupts before any bottom half. */
  lemma {:induction false} ManyInterrupts(data: seq<Time>, now: Time, n: nat) returns (x: Schedule)
    requires |data| == NR_TIMEVAL
    ensures var s := Run(data, x);
            && |s.data| == NR_TIMEVAL && s.head == Place(n) && s.tail == 0 && s.count == n
            && s.top.Out? && s.bottom.Idle? && (n > 0 ==> s.scheduled)
            && |s.recorded| == n && s.printed == [] && s.announced == 0 && s.forgotten == 0
            && (s.overfull <==> n > NR_TIMEVAL)
  {
    hide Run;
    if n == 0 {
      Begins(data);
      x := [];
    } else {
      x := ManyInterrupts(data, now, n - 1);
      PlaceNext(n - 1);
      x := OneInterrupt(data, x, now);
    }
  }

  /** 513 interrupts before a bottom half: it announces 513 and prints one. */
  lemma TooManyAreLost(data: seq<Time>, now: Time) returns (x: Schedule)
    requires |data| == NR_TIMEVAL
    ensures var s := Run(data, x);
            |s.recorded| == s.announced == NR_TIMEVAL + 1 && |s.printed| == 1 && s.bottom.Idle? && !s.scheduled
  {
    hide Run;
    x := ManyInterrupts(data, now, NR_TIMEVAL + 1);
    x := Starts(data, x);
    x := PrintsOne(data, x);
  }
}
