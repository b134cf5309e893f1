/** scullsingle, the device that one process at a time may open
    (higher_scull/high_scull/access.c). The lock is one atomic counter; a failed open
    decrements it in one step and restores it in a later one, so opens overlap. Every call
    in flight, and every handle it leads to, is a task of its own. */
module AccessSingle {

  datatype Task = Task(id: nat)

  datatype Pc =
    | Out
    | Restoring                  // the decrement did not reach 0: atomic_inc, then -EBUSY
    | Trimming                   // opened write-only, emptying the device
    | Holding                    // the handle is open

  datatype Choice = Open(writeOnly: bool) | Go

  datatype Single = Single(available: int, pcs: map<Task, Pc>)

  ghost function Init(): Single {
    Single(1, map[])
  }

  ghost function At(s: Single, t: Task): Pc {
    if t in s.pcs then s.pcs[t] else Out
  }

  /** One atomic step of task t; a choice that does not apply leaves the state alone. */
  ghost function Next(s: Single, t: Task, c: Choice): Single {
    match At(s, t)
    case Out =>
      if c.Open? then
        // atomic_dec_and_test
        var left := s.available - 1;
        Single(left, s.pcs[t := if left != 0 then Restoring else if c.writeOnly then Trimming else Holding])
      else s
    case Restoring => if c.Go? then Single(s.available + 1, s.pcs[t := Out]) else s
    case Trimming => if c.Go? then s.(pcs := s.pcs[t := Holding]) else s
    case Holding => if c.Go? then Single(s.available + 1, s.pcs[t := Out]) else s
  }

  type Schedule = seq<(Task, Choice)>

  ghost function Run(schedule: Schedule): Single {
    if schedule == [] then Init()
    else
      var (t, c) := schedule[|schedule| - 1];
      Next(Run(schedule[..|schedule| - 1]), t, c)
  }

  ghost predicate Inside(pc: Pc) {
    pc.Trimming? || pc.Holding?
  }

  ghost function Holders(s: Single): set<Task> {
    set t | t in s.pcs && Inside(s.pcs[t])
  }

  ghost function Failing(s: Single): set<Task> {
    set t | t in s.pcs && s.pcs[t] == Restoring
  }

  ghost predicate Balanced(s: Single) {
    && s.available == 1 - |Holders(s)| - |Failing(s)|
    && |Holders(s)| <= 1
  }

  /** A set after one task has moved. */
  lemma Moved(before: set<Task>, after: set<Task>, t: Task)
    requires forall u: Task :: u != t ==> (u in after <==> u in before)
    ensures |after| == |before| - (if t in before then 1 else 0) + (if t in after then 1 else 0)
  {
    assert after - {t} == before - {t};
    assert |before - {t}| == |before| - if t in before then 1 else 0;
    assert |after - {t}| == |after| - if t in after then 1 else 0;
  }

  lemma BalancedStep(s: Single, t: Task, c: Choice)
    requires Balanced(s)
    ensures Balanced(Next(s, t, c))
  {
    var s' := Next(s, t, c);
    Moved(Holders(s), Holders(s'), t);
    Moved(Failing(s), Failing(s'), t);
    assert t in Holders(s) <==> Inside(At(s, t));
    assert t in Failing(s) <==> At(s, t) == Restoring;
    assert t in Holders(s') <==> Inside(At(s', t));
    assert t in Failing(s') <==> At(s', t) == Restoring;
  }

  lemma TwoElements(s: set<Task>, t: Task, u: Task)
    requires t in s && u in s && t != u
    ensures |s| > 1
  {
    assert {t, u} <= s;
    assert s == {t, u} + (s - {t, u});
  }

  /** In every run the counter is 1 less the handles open and the failed opens that have not
      restored it, so no two handles are ever open at once. */
  lemma {:induction false} CounterCounts(schedule: Schedule)
    ensures Balanced(Run(schedule))
    ensures forall t, u :: t in Holders(Run(schedule)) && u in Holders(Run(schedule)) ==> t == u
  {
    var s := Run(schedule);
    if schedule == [] {
      assert Holders(s) == {} && Failing(s) == {};
    } else {
      var (t, c) := schedule[|schedule| - 1];
      CounterCounts(schedule[..|schedule| - 1]);
      BalancedStep(Run(schedule[..|schedule| - 1]), t, c);
    }
    forall t, u | t in Holders(s) && u in Holders(s)
      ensures t == u
    {
      if t != u {
        TwoElements(Holders(s), t, u);
      }
    }
  }

  /** An open succeeds exactly when no handle is open and no failed open is still to restore
      the counter. */
  lemma WhenOpenSucceeds(schedule: Schedule, t: Task, writeOnly: bool)
    requires At(Run(schedule), t) == Out
    ensures var s := Run(schedule);
            Inside(At(Next(s, t, Open(writeOnly)), t)) <==> Holders(s) == {} && Failing(s) == {}
  {
    CounterCounts(schedule);
    var s := Run(schedule);
    assert |Holders(s)| == 0 <==> Holders(s) == {};
    assert |Failing(s)| == 0 <==> Failing(s) == {};
  }

  ghost predicate Free(s: Single) {
    Holders(s) == {} && Failing(s) == {}
  }

  /** What becomes of an open, in every run: given a free device it goes on to trim, if for
      writing only, and then to its handle, or to the handle at once; refused, it restores the
      counter and ends. A handle lasts until it is closed. Whoever ends leaves the counter one
      higher, and with no call in progress and no handle open it is back at 1. */
  lemma WhatOpensComeTo(schedule: Schedule, t: Task, c: Choice)
    ensures var s, s' := Run(schedule), Next(Run(schedule), t, c);
            var pc, pc' := At(s, t), At(s', t);
            && (pc == Out && c.Open? ==>
                  pc' == if !Free(s) then Restoring else if c.writeOnly then Trimming else Holding)
            && (pc == Trimming && c.Go? ==> pc' == Holding)
            && (pc != Out && pc' == Out <==> c.Go? && (pc == Holding || pc == Restoring))
            && (pc != Out && pc' == Out ==> s'.available == s.available + 1)
            && (Free(s) ==> s.available == 1)
  {
    CounterCounts(schedule);
    var s := Run(schedule);
    assert |Holders(s)| == 0 <==> Holders(s) == {};
    assert |Failing(s)| == 0 <==> Failing(s) == {};
  }

  /** So -EBUSY does not mean that a handle is open: one task's failing open, overlapping a
      release, makes a second one fail on a free device. */
  lemma BusyWhileFree()
    ensures var a, b, c := Task(0), Task(1), Task(2);
            var s := Run([(a, Open(false)), (b, Open(false)), (a, Go)]);
            && Holders(s) == {}
            && At(Next(s, c, Open(false)), c) == Restoring
  {
    var a, b, c := Task(0), Task(1), Task(2);
    var s1 := Next(Init(), a, Open(false));
    var s2 := Next(s1, b, Open(false));
    var s3 := Next(s2, a, Go);
    RunFirst([(a, Open(false)), (b, Open(false))], a, Go);
    RunFirst([(a, Open(false))], b, Open(false));
    RunFirst([], a, Open(false));
    assert [(a, Open(false)), (b, Open(false))] + [(a, Go)] == [(a, Open(false)), (b, Open(false)), (a, Go)];
    assert [(a, Open(false))] + [(b, Open(false))] == [(a, Open(false)), (b, Open(false))];
    assert [] + [(a, Open(false))] == [(a, Open(false))];
    assert s3.pcs[a] == Out && s3.pcs[b] == Restoring;
  }

  lemma RunFirst(schedule: Schedule, t: Task, c: Choice)
    ensures Run(schedule + [(t, c)]) == Next(Run(schedule), t, c)
  {
    assert (schedule + [(t, c)])[..|schedule|] == schedule;
  }
}
