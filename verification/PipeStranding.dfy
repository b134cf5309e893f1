/** Two runs of scullpipe that lose a wake-up, one for each way that an open strands a
    writer: a task fills a two-byte ring and sleeps for space, another opens the device, and
    the sleeper is left asleep on an empty ring; or the open comes between the writer's two
    loads, before it sleeps. */
module PipeStranding {
  import opened Common
  import opened PipeRing
  import opened PipeProtocol
  import opened PipeWakeups

  const WRITER := Task(0)
  const OPENER := Task(1)
  const F := File(0)
  const BOTH := Mode(true, true)

  // What the calls of the runs give back.

  ghost function WasOpened(t: Task): Return {
    Return(t, StartOpen(BOTH), Done(0), [])
  }

  ghost function Wrote(b: Byte): Return {
    Return(WRITER, StartWrite(F, false, [b]), Done(1), [])
  }

  ghost function Got(b: Byte): Return {
    Return(WRITER, StartRead(F, false, 1), Done(1), [b])
  }

  ghost function Opened(): Pipe {
    Init(2).(buffer := Some([0, 0]), nreaders := 1, nwriters := 1,
             pcs := map[WRITER := Idle], files := map[F := BOTH], returned := [WasOpened(WRITER)])
  }

  ghost function Entered(): Pipe {
    Opened().(sem := Some(WRITER), pcs := map[WRITER := Writing(F, false, [7], WCopy)])
  }

  ghost function Copied(): Pipe {
    Opened().(buffer := Some([7, 0]), sem := Some(WRITER),
              pcs := map[WRITER := Writing(F, false, [7], WAdvance(1))])
  }

  ghost function Filled(): Pipe {
    Opened().(buffer := Some([7, 0]), wp := 1, accepted := [7], returned := [WasOpened(WRITER), Wrote(7)])
  }

  ghost function Refused(): Pipe {
    Filled().(pcs := map[WRITER := Writing(F, false, [8], WEnqueue)])
  }

  ghost function Blocked(): Pipe {
    Filled().(outq := {WRITER}, pcs := map[WRITER := Writing(F, false, [8], WSleep)])
  }

  ghost function Resetting(): Pipe {
    Blocked().(sem := Some(OPENER),
               pcs := map[WRITER := Writing(F, false, [8], WSleep), OPENER := OpenAlloc(BOTH)])
  }

  ghost function Reopened(): Pipe {
    Blocked().(wp := 0, nreaders := 2, nwriters := 2, files := map[F := BOTH, File(1) := BOTH],
               pcs := map[WRITER := Writing(F, false, [8], WSleep), OPENER := Idle],
               taken := [Taken(7, false)], emptied := {WRITER},
               returned := [WasOpened(WRITER), Wrote(7), WasOpened(OPENER)])
  }

  /** One more step of a run. */
  lemma Then(x: Schedule, s: Pipe, t: Task, c: Choice) returns (x': Schedule, s': Pipe)
    requires s == Run(2, x)
    ensures s' == Next(s, t, c) == Run(2, x')
  {
    x', s' := x + [(t, c)], Next(s, t, c);
    assert x'[..|x|] == x;
  }

  lemma OpenIt() returns (x: Schedule)
    ensures Run(2, x) == Opened()
  {
    hide ReadStep, WriteStep, CloseStep, Contents, Discard;
    var s;
    x, s := Then([], Init(2), WRITER, StartOpen(BOTH));
    x, s := Then(x, s, WRITER, Go);
    assert s == Init(2).(sem := Some(WRITER), pcs := map[WRITER := OpenAlloc(BOTH)]);
    x, s := Then(x, s, WRITER, Allocates([0, 0]));
    assert s == Allocated();
    x := CountIt(x);
  }

  ghost function Allocated(): Pipe {
    Init(2).(sem := Some(WRITER), pcs := map[WRITER := OpenRp(BOTH)], buffer := Some([0, 0]))
  }

  lemma CountIt(x0: Schedule) returns (x: Schedule)
    requires Run(2, x0) == Allocated()
    ensures Run(2, x) == Opened()
  {
    hide ReadStep, WriteStep, CloseStep, Start, Contents, Discard;
    var s := Allocated();
    x, s := Then(x0, s, WRITER, Go);
    assert At(s, WRITER) == OpenCount(BOTH);
    x, s := Then(x, s, WRITER, Handle(F));
    assert s == Opened();
  }

  lemma FillIt(x0: Schedule) returns (x: Schedule)
    requires Run(2, x0) == Opened()
    ensures Run(2, x) == Filled()
  {
    hide OpenStep, CloseStep, ReadStep;
    var s := Opened();
    x, s := Then(x0, s, WRITER, StartWrite(F, false, [7]));
    assert At(s, WRITER) == Writing(F, false, [7], WDown);
    x, s := Then(x, s, WRITER, Go);
    x, s := Then(x, s, WRITER, Go);
    assert s == Entered();
    x := CopyIt(x);
  }

  lemma CopyIt(x0: Schedule) returns (x: Schedule)
    requires Run(2, x0) == Entered()
    ensures Run(2, x) == Filled()
  {
    hide OpenStep, CloseStep, ReadStep, Start;
    var s := Entered();
    assert WriteCount(RingOf(s), 1) == 1;
    assert Overlay([0, 0], 0, [7]) == [7, 0];
    assert [7][..1] == [7];
    x, s := Then(x0, s, WRITER, Go);
    assert s == Copied();
    x := CommitIt(x);
  }

  lemma CommitIt(x0: Schedule) returns (x: Schedule)
    requires Run(2, x0) == Copied()
    ensures Run(2, x) == Filled()
  {
    hide OpenStep, CloseStep, ReadStep, Start;
    var s := Copied();
    x, s := Then(x0, s, WRITER, Go);
    assert s.wp == 1 && s.accepted == [7];
    x, s := Then(x, s, WRITER, Go);
    x, s := Then(x, s, WRITER, Go);
    x, s := Then(x, s, WRITER, Go);
    assert s == Filled();
  }

  lemma BlockIt(x0: Schedule) returns (x: Schedule)
    requires Run(2, x0) == Filled()
    ensures Run(2, x) == Blocked()
  {
    hide OpenStep, CloseStep, ReadStep;
    var s := Filled();
    x, s := Then(x0, s, WRITER, StartWrite(F, false, [8]));
    assert At(s, WRITER) == Writing(F, false, [8], WDown);
    x, s := Then(x, s, WRITER, Go);
    x, s := Then(x, s, WRITER, Go);
    assert s == Refused();
    x := SleepIt(x);
  }

  lemma SleepIt(x0: Schedule) returns (x: Schedule)
    requires Run(2, x0) == Refused()
    ensures Run(2, x) == Blocked()
  {
    hide OpenStep, CloseStep, ReadStep, Start;
    var s := Refused();
    x, s := Then(x0, s, WRITER, Go);
    x, s := Then(x, s, WRITER, Go);
    assert At(s, WRITER) == Writing(F, false, [8], WCompare(0));
    x, s := Then(x, s, WRITER, Go);
    assert s == Blocked();
  }

  lemma ReopenIt(x0: Schedule) returns (x: Schedule)
    requires Run(2, x0) == Blocked()
    ensures Run(2, x) == Reopened()
  {
    hide ReadStep, WriteStep, CloseStep;
    var s := Blocked();
    x, s := Then(x0, s, OPENER, StartOpen(BOTH));
    x, s := Then(x, s, OPENER, Go);
    assert s == Resetting();
    x := ResetIt(x);
  }

  lemma ResetIt(x0: Schedule) returns (x: Schedule)
    requires Run(2, x0) == Resetting()
    ensures Run(2, x) == Reopened()
  {
    hide ReadStep, WriteStep, CloseStep, Start;
    var s := Resetting();
    assert Contents(s) == [7];
    x, s := Then(x0, s, OPENER, Go);
    assert At(s, OPENER) == OpenRp(BOTH) && s.taken == [Taken(7, false)];
    x, s := Then(x, s, OPENER, Go);
    x, s := Then(x, s, OPENER, Handle(File(1)));
    assert s == Reopened();
  }

  /** The promise that a sleeping writer means a full ring is false: in this run everyone
      else has returned, the ring is empty, and the writer sleeps on with nobody to wake it. */
  lemma AnOpenStrandsAWriter() returns (x: Schedule)
    ensures var s := Run(2, x);
            && Stranded(s, WRITER) && Contents(s) == []
            && forall t: Task :: t != WRITER ==> At(s, t) == Idle
  {
    x := OpenIt();
    x := FillIt(x);
    x := BlockIt(x);
    x := ReopenIt(x);
  }

  // ------------------------------------------------------------- before it sleeps

  ghost function AboutToRead(): Pipe {
    Filled().(sem := Some(WRITER), pcs := map[WRITER := Reading(F, false, 1, RCopy)])
  }

  ghost function Drained(): Pipe {
    Filled().(rp := 1, taken := [Taken(7, true)], returned := [WasOpened(WRITER), Wrote(7), Got(7)])
  }

  ghost function EnteredAgain(): Pipe {
    Drained().(sem := Some(WRITER), pcs := map[WRITER := Writing(F, false, [8], WCopy)])
  }

  ghost function Wrapped(): Pipe {
    Drained().(buffer := Some([7, 8]), wp := 0, accepted := [7, 8],
               returned := [WasOpened(WRITER), Wrote(7), Got(7), Wrote(8)])
  }

  ghost function Loaded(): Pipe {
    Wrapped().(outq := {WRITER}, pcs := map[WRITER := Writing(F, false, [9], WCompare(1))])
  }

  ghost function OpenBetweenLoads(): Pipe {
    Loaded().(sem := Some(OPENER),
              pcs := map[WRITER := Writing(F, false, [9], WCompare(1)), OPENER := OpenAlloc(BOTH)])
  }

  ghost function LoadedThenReset(): Pipe {
    Loaded().(rp := 0, nreaders := 2, nwriters := 2, files := map[F := BOTH, File(1) := BOTH],
              pcs := map[WRITER := Writing(F, false, [9], WCompare(1)), OPENER := Idle],
              taken := [Taken(7, true), Taken(8, false)], emptied := {WRITER},
              returned := [WasOpened(WRITER), Wrote(7), Got(7), Wrote(8), WasOpened(OPENER)])
  }

  lemma ReadIt(x0: Schedule) returns (x: Schedule)
    requires Run(2, x0) == Filled()
    ensures Run(2, x) == Drained()
  {
    hide OpenStep, CloseStep, WriteStep, ReadTransfer;
    var s := Filled();
    x, s := Then(x0, s, WRITER, StartRead(F, false, 1));
    assert At(s, WRITER) == Reading(F, false, 1, RDown);
    x, s := Then(x, s, WRITER, Go);
    x, s := Then(x, s, WRITER, Go);
    assert s == AboutToRead();
    x := TakeIt(x);
  }

  lemma TakeIt(x0: Schedule) returns (x: Schedule)
    requires Run(2, x0) == AboutToRead()
    ensures Run(2, x) == Drained()
  {
    hide OpenStep, CloseStep, WriteStep, ReadWait, Start;
    var s := AboutToRead();
    assert CopyOut(s, 1) == [7];
    x, s := Then(x0, s, WRITER, Go);
    assert s == Taking();
    x := HandOver(x);
  }

  ghost function Taking(): Pipe {
    Filled().(sem := Some(WRITER), pcs := map[WRITER := Reading(F, false, 1, RAdvance([7]))])
  }

  lemma HandOver(x0: Schedule) returns (x: Schedule)
    requires Run(2, x0) == Taking()
    ensures Run(2, x) == Drained()
  {
    hide OpenStep, CloseStep, WriteStep, ReadWait, Start, Contents;
    var s := Taking();
    x, s := Then(x0, s, WRITER, Go);
    assert s.rp == 1 && s.taken == [Taken(7, true)];
    x, s := Then(x, s, WRITER, Go);
    x, s := Then(x, s, WRITER, Go);
    x, s := Then(x, s, WRITER, Go);
    assert s == Drained();
  }

  lemma RefillIt(x0: Schedule) returns (x: Schedule)
    requires Run(2, x0) == Drained()
    ensures Run(2, x) == Wrapped()
  {
    hide OpenStep, CloseStep, ReadStep, WriteTransfer;
    var s := Drained();
    x, s := Then(x0, s, WRITER, StartWrite(F, false, [8]));
    assert At(s, WRITER) == Writing(F, false, [8], WDown);
    x, s := Then(x, s, WRITER, Go);
    x, s := Then(x, s, WRITER, Go);
    assert s == EnteredAgain();
    x := WrapIt(x);
  }

  lemma WrapIt(x0: Schedule) returns (x: Schedule)
    requires Run(2, x0) == EnteredAgain()
    ensures Run(2, x) == Wrapped()
  {
    hide OpenStep, CloseStep, ReadStep, Start, WriteWait;
    var s := EnteredAgain();
    assert WriteCount(RingOf(s), 1) == 1;
    assert Overlay([7, 0], 1, [8]) == [7, 8];
    assert [8][..1] == [8];
    x, s := Then(x0, s, WRITER, Go);
    assert s == CopiedAgain();
    x := CommitAgain(x);
  }

  ghost function CopiedAgain(): Pipe {
    Drained().(buffer := Some([7, 8]), sem := Some(WRITER),
               pcs := map[WRITER := Writing(F, false, [8], WAdvance(1))])
  }

  lemma CommitAgain(x0: Schedule) returns (x: Schedule)
    requires Run(2, x0) == CopiedAgain()
    ensures Run(2, x) == Wrapped()
  {
    hide OpenStep, CloseStep, ReadStep, Start, WriteWait, CopyIn, Contents;
    var s := CopiedAgain();
    assert [8][..1] == [8];
    x, s := Then(x0, s, WRITER, Go);
    assert s.wp == 2 && s.accepted == [7, 8];
    x, s := Then(x, s, WRITER, Go);
    x, s := Then(x, s, WRITER, Go);
    x, s := Then(x, s, WRITER, Go);
    assert s == Wrapped();
  }

  lemma LoadIt(x0: Schedule) returns (x: Schedule)
    requires Run(2, x0) == Wrapped()
    ensures Run(2, x) == Loaded()
  {
    hide OpenStep, CloseStep, ReadStep, WriteTransfer;
    var s := Wrapped();
    x, s := Then(x0, s, WRITER, StartWrite(F, false, [9]));
    assert At(s, WRITER) == Writing(F, false, [9], WDown);
    x, s := Then(x, s, WRITER, Go);
    x, s := Then(x, s, WRITER, Go);
    assert s == FullAgain();
    x := MeasureIt(x);
  }

  ghost function FullAgain(): Pipe {
    Wrapped().(pcs := map[WRITER := Writing(F, false, [9], WEnqueue)])
  }

  lemma MeasureIt(x0: Schedule) returns (x: Schedule)
    requires Run(2, x0) == FullAgain()
    ensures Run(2, x) == Loaded()
  {
    hide OpenStep, CloseStep, ReadStep, Start, WriteTransfer, Contents, SpaceFree;
    var s := FullAgain();
    x, s := Then(x0, s, WRITER, Go);
    x, s := Then(x, s, WRITER, Go);
    assert s == Loaded();
  }

  lemma OpenIn(x0: Schedule) returns (x: Schedule)
    requires Run(2, x0) == Loaded()
    ensures Run(2, x) == LoadedThenReset()
  {
    hide ReadStep, WriteStep, CloseStep;
    var s := Loaded();
    x, s := Then(x0, s, OPENER, StartOpen(BOTH));
    x, s := Then(x, s, OPENER, Go);
    assert s == OpenBetweenLoads();
    x := ResetBetween(x);
  }

  lemma ResetBetween(x0: Schedule) returns (x: Schedule)
    requires Run(2, x0) == OpenBetweenLoads()
    ensures Run(2, x) == LoadedThenReset()
  {
    hide ReadStep, WriteStep, CloseStep, Start;
    var s := OpenBetweenLoads();
    assert Contents(s) == [8];
    x, s := Then(x0, s, OPENER, Go);
    assert s == WpReset();
    x := CountTheOpen(x);
  }

  ghost function WpReset(): Pipe {
    OpenBetweenLoads().(pcs := map[WRITER := Writing(F, false, [9], WCompare(1)), OPENER := OpenRp(BOTH)],
                  taken := [Taken(7, true), Taken(8, false)], emptied := {WRITER})
  }

  lemma CountTheOpen(x0: Schedule) returns (x: Schedule)
    requires Run(2, x0) == WpReset()
    ensures Run(2, x) == LoadedThenReset()
  {
    hide ReadStep, WriteStep, CloseStep, Start, Contents, Discard;
    var s := WpReset();
    x, s := Then(x0, s, OPENER, Go);
    x, s := Then(x, s, OPENER, Handle(File(1)));
    assert s == LoadedThenReset();
  }

  /** The other way: the writer has loaded `rp` and not yet slept when the open resets the
      ring; the step that puts it to sleep strands it. */
  lemma AStaleMeasureStrandsAWriter() returns (x: Schedule)
    ensures var s := Run(2, x);
            && SleepsOnStaleMeasure(s, WRITER, Go) && !SomeStranded(s)
            && Stranded(Next(s, WRITER, Go), WRITER) && Contents(Next(s, WRITER, Go)) == []
            && forall t: Task :: t != WRITER ==> At(s, t) == Idle
  {
    x := OpenIt();
    x := FillIt(x);
    x := ReadIt(x);
    x := RefillIt(x);
    x := LoadIt(x);
    x := OpenIn(x);
  }
}
