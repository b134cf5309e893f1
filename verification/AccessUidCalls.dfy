/** What the opens and closes of AccessUid come to: when each ends and how, in every run, and what
    one does when, from some point on, only its own task takes steps. */
module AccessUidCalls {
  import opened Common
  import opened AccessUid

  // ------------------------------------------------------------------ how opens end

  ghost predicate Opens(pc: Pc) {
    pc.OpenLock? || pc.OpenTest? || pc.OpenOwner? || pc.OpenCount? || pc.OpenUnlock? || Waits(pc)
  }

  /** Whoever takes the device has it, or his count. */
  ghost predicate LetIn(s: Device, c: Cred) {
    s.handles == map[] || Matches(s.founder.uid, c)
  }

  /** A task is on the queue only while it waits; and one that is about to leave with a handle
      has one, which nobody else has counted. */
  ghost predicate PlaceOk(s: Device, t: Task) {
    && (t in s.queue ==> Waits(At(s, t)))
    && (At(s, t).OpenUnlock? ==> At(s, t).handle in s.handles && s.handles[At(s, t).handle] == At(s, t).cred)
  }

  ghost predicate PlacesOk(s: Device) {
    forall t: Task :: PlaceOk(s, t)
  }

  lemma PlacesOkStep(s: Device, t: Task, c: Choice)
    requires Exclusive(s) && PlacesOk(s)
    ensures PlacesOk(Next(s, t, c))
  {
    hide Next;
    var s' := Next(s, t, c);
    Discipline(s, t, c);
    assert PlaceOk(s, t);
    OwnPlaceOk(s, t, c);
    forall u: Task
      ensures PlaceOk(s', u)
    {
      if u != t {
        assert PlaceOk(s, u);
        assert InCritical(At(s, u)) <==> s.lock == Some(u);
        assert InCritical(At(s, t)) <==> s.lock == Some(t);
        QueueStep(s, t, c, u);
      }
    }
  }

  lemma OwnPlaceOk(s: Device, t: Task, c: Choice)
    requires PlaceOk(s, t)
    ensures PlaceOk(Next(s, t, c), t)
  {
    hide Closes, Matches, Available;
  }

  ghost predicate Sorted(s: Device) {
    Sound(s) && PlacesOk(s)
  }

  lemma {:induction false} SortedRun(waits: bool, schedule: Schedule)
    ensures Sorted(Run(waits, schedule)) && Run(waits, schedule).waits == waits
  {
    hide Next, Sound, PlaceOk;
    SoundRun(waits, schedule);
    WaitsStays(waits, schedule);
    if schedule == [] {
      NobodyIsPlaced(waits);
    } else {
      var (t, c) := schedule[|schedule| - 1];
      SortedRun(waits, schedule[..|schedule| - 1]);
      var s := Run(waits, schedule[..|schedule| - 1]);
      assert Exclusive(s) by {
        SoundIsExclusive(s);
      }
      PlacesOkStep(s, t, c);
    }
  }

  lemma SoundIsExclusive(s: Device)
    requires Sound(s)
    ensures Exclusive(s)
  {
  }

  lemma NobodyIsPlaced(waits: bool)
    ensures PlacesOk(Init(waits))
  {
  }

  /** What a waiting task finds with the one load it is about to make. */
  ghost predicate FindsItFree(s: Device, pc: Pc) {
    || (pc.LoadCount? && s.handles == map[])
    || (pc.CompareUid? && s.owner == pc.cred.uid)
    || (pc.CompareEuid? && (s.owner == pc.cred.euid || pc.cred.override))
  }

  /** What a step of t does to the open that t is in. */
  ghost predicate OpenGoes(s: Device, t: Task, c: Choice, s': Device)
    requires Opens(At(s, t))
  {
    var pc, pc' := At(s, t), At(s', t);
    && (pc' == Idle <==>
          || (pc.OpenUnlock? && c == Go)
          || (pc.Sleep? && c == Signal)
          || (pc.OpenTest? && c == Go && !LetIn(s, pc.cred) && (pc.nonblock || !s.waits)))
    && (pc' == Idle && !pc.OpenUnlock? ==> s'.handles == s.handles && s'.owner == s.owner && t !in s'.queue)
    && (pc.OpenUnlock? ==> pc.handle in s'.handles && s'.handles[pc.handle] == pc.cred)
    && (pc' != Idle ==> Opens(pc') && pc'.cred == pc.cred)
    && (pc'.OpenUnlock? && !pc.OpenUnlock? ==>
          pc'.handle !in s.handles && s'.handles == s.handles[pc'.handle := pc.cred])
    && (Waits(pc) && pc' != Idle ==>
          if c == Go && FindsItFree(s, pc) then pc' == OpenLock(pc.cred, false) && t !in s'.queue else Waits(pc'))
    && (pc.OpenTest? && c == Go ==> (Waits(pc') <==> !LetIn(s, pc.cred) && !pc.nonblock && s.waits))
  }

  lemma OpenGoesOn(s: Device, t: Task, c: Choice)
    requires Sorted(s) && Opens(At(s, t))
    ensures OpenGoes(s, t, c, Next(s, t, c))
  {
    CountAndOwner(s, t);
    assert PlaceOk(s, t);
    hide Sorted, PlaceOk, OpenGoes, OpenStep, WaitStep;
    if Waits(At(s, t)) {
      WaitGoesOn(s, t, c);
    } else {
      LockedGoesOn(s, t, c);
    }
  }

  lemma CountAndOwner(s: Device, t: Task)
    requires Sorted(s)
    ensures s.count == 0 <==> s.handles == map[]
    ensures s.count > 0 ==> s.owner == s.founder.uid
    ensures s.count >= 0
  {
    hide Exclusive, ClosersOk, WaitersOk, InsideOk;
  }

  lemma WaitGoesOn(s: Device, t: Task, c: Choice)
    requires Waits(At(s, t)) && (s.count == 0 <==> s.handles == map[])
    ensures OpenGoes(s, t, c, WaitStep(s, t, c, At(s, t)))
  {
    hide LetIn;
  }

  lemma LockedGoesOn(s: Device, t: Task, c: Choice)
    requires Opens(At(s, t)) && !Waits(At(s, t)) && PlaceOk(s, t)
    requires (s.count == 0 <==> s.handles == map[]) && (s.count > 0 ==> s.owner == s.founder.uid) && s.count >= 0
    ensures OpenGoes(s, t, c, OpenStep(s, t, c, At(s, t)))
  {
  }

  // ------------------------------------------------------------------ undisturbed

  /** The steps of t alone. */
  ghost function By(s: Device, t: Task, choices: seq<Choice>): Device {
    if choices == [] then s
    else
      var n := |choices| - 1;
      Next(By(s, t, choices[..n]), t, choices[n])
  }

  lemma OneMore(s: Device, t: Task, choices: seq<Choice>, c: Choice)
    ensures By(s, t, choices + [c]) == Next(By(s, t, choices), t, c)
  {
    assert (choices + [c])[..|choices|] == choices;
  }

  lemma {:induction false} ByBoth(s: Device, t: Task, front: seq<Choice>, back: seq<Choice>)
    ensures By(s, t, front + back) == By(By(s, t, front), t, back)
  {
    hide Next;
    if back == [] {
      assert front + back == front;
    } else {
      var n := |back| - 1;
      ByBoth(s, t, front, back[..n]);
      assert (front + back)[..|front| + n] == front + back[..n];
    }
  }

  /** What an open does that nobody interferes with, on a device whose handles are those of one
      user at a time: it is let in if nobody is, or if the user who took the device matches, and
      takes it in the first case; otherwise it gives up, or sleeps. */
  ghost predicate OpenDoes(s: Device, t: Task, cred: Cred, nonblock: bool, h: Handle, s': Device) {
    var out := s.(pcs := s'.pcs, queue := s'.queue, woken := s'.woken);
    && (forall u: Task :: u != t ==> At(s', u) == At(s, u))
    && if LetIn(s, cred) then
         && At(s', t) == Idle && s'.queue == s.queue - {t} && s'.woken - {t} == s.woken - {t}
         && s' == out.(count := s.count + 1, handles := s.handles[h := cred], owner := s'.owner, founder := s'.founder)
         && (s'.owner, s'.founder) == if s.handles == map[] then (cred.uid, cred) else (s.owner, s.founder)
       else if nonblock || !s.waits then
         && At(s', t) == Idle && s'.queue == s.queue - {t} && s'.woken - {t} == s.woken - {t}
         && s' == out
       else
         && At(s', t) == Sleep(cred) && s'.queue == s.queue + {t} && s'.woken == s.woken - {t}
         && s' == out
  }

  lemma GotoTwice(s: Device, t: Task, pc: Pc, pc': Pc)
    ensures Goto(Goto(s, t, pc), t, pc') == Goto(s, t, pc')
  {
    assert s.pcs[t := pc][t := pc'] == s.pcs[t := pc'];
  }

  lemma Locks(s: Device, t: Task)
    requires At(s, t).OpenLock? && s.lock == None
    ensures Next(s, t, Go) == Goto(s, t, OpenTest(At(s, t).cred, At(s, t).nonblock)).(lock := Some(t))
  {
  }

  lemma TestsIt(s: Device, t: Task)
    requires At(s, t).OpenTest?
    ensures var cred := At(s, t).cred;
            Next(s, t, Go) == if Available(s, cred) then Goto(s, t, OpenOwner(cred))
                              else if At(s, t).nonblock || !s.waits then Goto(s, t, Idle).(lock := None)
                              else Goto(s, t, LoadCount(cred)).(lock := None)
  {
    hide Available;
  }

  lemma TakesIt(s: Device, t: Task, h: Handle)
    requires At(s, t).OpenOwner? && h !in s.handles
    ensures var cred := At(s, t).cred;
            By(s, t, [Go, Name(h), Go])
            == Goto(s, t, Idle).(lock := None, count := s.count + 1, handles := s.handles[h := cred],
                                 owner := if s.count == 0 then cred.uid else s.owner,
                                 founder := if s.count == 0 then cred else s.founder)
  {
    hide By;
    var cred := At(s, t).cred;
    var s1 := Goto(s, t, OpenCount(cred)).(owner := if s.count == 0 then cred.uid else s.owner);
    var s2 := s1.(pcs := s.pcs[t := OpenUnlock(cred, h)], count := s.count + 1, handles := s.handles[h := cred],
                  founder := if s.count == 0 then cred else s.founder);
    Owns(s, t);
    Counting(s1, t, h);
    Unlocks(s2, t);
    GotoTwice(s, t, OpenCount(cred), OpenUnlock(cred, h));
    GotoTwice(s, t, OpenUnlock(cred, h), Idle);
    hide Next;
    ThreeSteps(s, t, Go, Name(h), Go);
  }

  lemma ThreeSteps(s: Device, t: Task, a: Choice, b: Choice, c: Choice)
    ensures By(s, t, [a, b, c]) == Next(Next(Next(s, t, a), t, b), t, c)
  {
    hide Next;
    OneMore(s, t, [a, b], c);
    OneMore(s, t, [a], b);
    OneMore(s, t, [], a);
    assert [a, b] + [c] == [a, b, c] && [a] + [b] == [a, b] && [] + [a] == [a];
  }

  lemma Owns(s: Device, t: Task)
    requires At(s, t).OpenOwner?
    ensures var cred := At(s, t).cred;
            Next(s, t, Go) == Goto(s, t, OpenCount(cred)).(owner := if s.count == 0 then cred.uid else s.owner)
  {
  }

  lemma Counting(s: Device, t: Task, h: Handle)
    requires At(s, t).OpenCount? && h !in s.handles
    ensures var cred := At(s, t).cred;
            Next(s, t, Name(h)) == Goto(s, t, OpenUnlock(cred, h))
                                   .(count := s.count + 1, handles := s.handles[h := cred],
                                     founder := if s.count == 0 then cred else s.founder)
  {
  }

  lemma Unlocks(s: Device, t: Task)
    requires At(s, t).OpenUnlock?
    ensures Next(s, t, Go) == Goto(s, t, Idle).(lock := None)
  {
  }

  // Waiting.

  lemma Looks(s: Device, t: Task)
    requires At(s, t).LoadCount? && !Available(s, At(s, t).cred)
    ensures By(s, t, [Go, Go, Go]) == Goto(s, t, if t in s.queue then Sleep(At(s, t).cred) else Enqueue(At(s, t).cred))
  {
    hide By;
    var cred := At(s, t).cred;
    var s1, s2 := Goto(s, t, CompareUid(cred)), Goto(s, t, CompareEuid(cred));
    assert Next(s, t, Go) == s1;
    GotoTwice(s, t, CompareUid(cred), CompareEuid(cred));
    assert Next(s1, t, Go) == s2;
    GotoTwice(s, t, CompareEuid(cred), Sleep(cred));
    GotoTwice(s, t, CompareEuid(cred), Enqueue(cred));
    ThreeSteps(s, t, Go, Go, Go);
  }

  /** A task that looks at a device it could open is back at the lock within three steps. */
  lemma LooksAndRetries(s: Device, t: Task) returns (looks: seq<Choice>)
    requires At(s, t).LoadCount? && Available(s, At(s, t).cred)
    ensures By(s, t, looks) == Retry(s, t, At(s, t).cred)
  {
    hide By;
    var cred := At(s, t).cred;
    var s1, s2 := Goto(s, t, CompareUid(cred)), Goto(s, t, CompareEuid(cred));
    OneMore(s, t, [], Go);
    OneMore(s, t, [Go], Go);
    OneMore(s, t, [Go, Go], Go);
    assert [] + [Go] == [Go] && [Go] + [Go] == [Go, Go] && [Go, Go] + [Go] == [Go, Go, Go];
    assert By(s, t, []) == s by {
      Nothing(s, t);
    }
    GotoTwice(s, t, CompareUid(cred), CompareEuid(cred));
    GotoTwice(s, t, CompareUid(cred), OpenLock(cred, false));
    GotoTwice(s, t, CompareEuid(cred), OpenLock(cred, false));
    if s.count == 0 {
      looks := [Go];
    } else if s.owner == cred.uid {
      assert Next(s, t, Go) == s1;
      looks := [Go, Go];
    } else {
      assert Next(s, t, Go) == s1;
      assert Next(s1, t, Go) == s2;
      looks := [Go, Go, Go];
    }
  }

  lemma Nothing(s: Device, t: Task)
    ensures By(s, t, []) == s
  {
  }

  lemma Queues(s: Device, t: Task)
    requires At(s, t).Enqueue?
    ensures Next(s, t, Go) == Goto(s, t, LoadCount(At(s, t).cred)).(queue := s.queue + {t}, woken := s.woken - {t})
  {
  }

  lemma QueuesAndSleeps(s: Device, t: Task)
    requires At(s, t).Enqueue? && !Available(s, At(s, t).cred)
    ensures By(s, t, [Go] + [Go, Go, Go])
         == Goto(s, t, Sleep(At(s, t).cred)).(queue := s.queue + {t}, woken := s.woken - {t})
  {
    hide Next, By;
    var cred := At(s, t).cred;
    var s1 := Goto(s, t, LoadCount(cred)).(queue := s.queue + {t}, woken := s.woken - {t});
    Queues(s, t);
    OneStep(s, t, Go);
    Looks(s1, t);
    GotoTwice(s, t, LoadCount(cred), Sleep(cred));
    ByBoth(s, t, [Go], [Go, Go, Go]);
  }

  lemma OneStep(s: Device, t: Task, c: Choice)
    ensures By(s, t, [c]) == Next(s, t, c)
  {
    hide Next;
    assert By(s, t, [c][..0]) == s;
  }

  lemma LocksAndTests(s: Device, t: Task)
    requires At(s, t).OpenLock? && s.lock == None
    ensures var cred := At(s, t).cred;
            By(s, t, [Go] + [Go]) == if Available(s, cred) then Goto(s, t, OpenOwner(cred)).(lock := Some(t))
                                     else if At(s, t).nonblock || !s.waits then Goto(s, t, Idle)
                                     else Goto(s, t, LoadCount(cred))
  {
    hide Next, By;
    var cred, nonblock := At(s, t).cred, At(s, t).nonblock;
    var s1 := Goto(s, t, OpenTest(cred, nonblock)).(lock := Some(t));
    Locks(s, t);
    TestsIt(s1, t);
    GotoTwice(s, t, OpenTest(cred, nonblock), OpenOwner(cred));
    GotoTwice(s, t, OpenTest(cred, nonblock), Idle);
    GotoTwice(s, t, OpenTest(cred, nonblock), LoadCount(cred));
    OneStep(s, t, Go);
    OneMore(s, t, [Go], Go);
  }

  /** Let in. */
  lemma GetsIn(s: Device, t: Task, h: Handle) returns (choices: seq<Choice>)
    requires At(s, t).OpenLock? && s.lock == None && h !in s.handles && Available(s, At(s, t).cred)
    ensures var cred := At(s, t).cred;
            By(s, t, choices) == Goto(s, t, Idle).(count := s.count + 1, handles := s.handles[h := cred],
                                                   owner := if s.count == 0 then cred.uid else s.owner,
                                                   founder := if s.count == 0 then cred else s.founder)
  {
    hide Next, By;
    var cred := At(s, t).cred;
    var s2 := Goto(s, t, OpenOwner(cred)).(lock := Some(t));
    LocksAndTests(s, t);
    TakesIt(s2, t, h);
    GotoTwice(s, t, OpenOwner(cred), Idle);
    choices := [Go] + [Go] + [Go, Name(h), Go];
    ByBoth(s, t, [Go] + [Go], [Go, Name(h), Go]);
  }

  /** Refused, and told to wait. */
  lemma FallsAsleep(s: Device, t: Task) returns (choices: seq<Choice>)
    requires At(s, t).OpenLock? && s.lock == None && !Available(s, At(s, t).cred)
    requires !At(s, t).nonblock && s.waits && t !in s.queue
    ensures By(s, t, choices) == Goto(s, t, Sleep(At(s, t).cred)).(queue := s.queue + {t}, woken := s.woken - {t})
  {
    hide Next, By;
    var cred := At(s, t).cred;
    var s2, s3 := Goto(s, t, LoadCount(cred)), Goto(s, t, Enqueue(cred));
    LocksAndTests(s, t);
    Looks(s2, t);
    GotoTwice(s, t, LoadCount(cred), Enqueue(cred));
    QueuesAndSleeps(s3, t);
    GotoTwice(s, t, Enqueue(cred), Sleep(cred));
    ByBoth(s, t, [Go] + [Go], [Go, Go, Go]);
    ByBoth(s, t, [Go] + [Go] + [Go, Go, Go], [Go] + [Go, Go, Go]);
    choices := [Go] + [Go] + [Go, Go, Go] + ([Go] + [Go, Go, Go]);
  }

  /** What the count and the owner say of the handles. */
  ghost predicate Kept(s: Device) {
    && s.count >= 0 && (s.count == 0 <==> s.handles == map[]) && (s.count > 0 ==> s.owner == s.founder.uid)
  }

  lemma OpenGoesThrough(s: Device, t: Task, h: Handle) returns (choices: seq<Choice>)
    requires Sorted(s) && At(s, t).OpenLock? && s.lock == None && h !in s.handles
    ensures OpenDoes(s, t, At(s, t).cred, At(s, t).nonblock, h, By(s, t, choices))
  {
    CountAndOwner(s, t);
    assert PlaceOk(s, t);
    assert t !in s.queue;
    hide Next, By, Sorted, OpenDoes, PlaceOk, Available;
    if Available(s, At(s, t).cred) {
      choices := GetsIn(s, t, h);
      LetInDoes(s, t, h);
    } else if At(s, t).nonblock || !s.waits {
      choices := [Go] + [Go];
      LocksAndTests(s, t);
      RefusedDoes(s, t, h);
    } else {
      choices := FallsAsleep(s, t);
      RefusedDoes(s, t, h);
    }
  }

  lemma LetInDoes(s: Device, t: Task, h: Handle)
    requires Kept(s) && At(s, t).OpenLock? && t !in s.queue && Available(s, At(s, t).cred)
    ensures var cred := At(s, t).cred;
            OpenDoes(s, t, cred, At(s, t).nonblock, h,
                     Goto(s, t, Idle).(count := s.count + 1, handles := s.handles[h := cred],
                                       owner := if s.count == 0 then cred.uid else s.owner,
                                       founder := if s.count == 0 then cred else s.founder))
  {
    hide Matches;
  }

  lemma RefusedDoes(s: Device, t: Task, h: Handle)
    requires Kept(s) && At(s, t).OpenLock? && t !in s.queue && !Available(s, At(s, t).cred)
    ensures var cred, nonblock := At(s, t).cred, At(s, t).nonblock;
            OpenDoes(s, t, cred, nonblock, h,
                     if nonblock || !s.waits then Goto(s, t, Idle)
                     else Goto(s, t, Sleep(cred)).(queue := s.queue + {t}, woken := s.woken - {t}))
  {
    hide Matches;
  }

  lemma {:induction false} BySorted(s: Device, t: Task, choices: seq<Choice>)
    requires Sorted(s)
    ensures Sorted(By(s, t, choices))
  {
    hide Next, Sound, PlacesOk;
    if choices != [] {
      var n := |choices| - 1;
      BySorted(s, t, choices[..n]);
      SoundIsExclusive(By(s, t, choices[..n]));
      SoundStep(By(s, t, choices[..n]), t, choices[n]);
      PlacesOkStep(By(s, t, choices[..n]), t, choices[n]);
    }
  }

  lemma IsWoken(s: Device, t: Task)
    requires At(s, t).Sleep? && t in s.woken
    ensures Next(s, t, Go) == Goto(s, t, Enqueue(At(s, t).cred))
  {
  }

  lemma WokenOpenGoesThrough(s: Device, t: Task, h: Handle) returns (choices: seq<Choice>)
    requires Sorted(s) && s.waits && At(s, t).Sleep? && t in s.woken && s.lock == None && h !in s.handles
    ensures OpenDoes(s, t, At(s, t).cred, false, h, By(s, t, choices))
  {
    hide Next, By, Sorted, Available, OpenDoes;
    var cred := At(s, t).cred;
    var q := s.(queue := s.queue + {t}, woken := s.woken - {t});
    var s1, s2 := Goto(s, t, Enqueue(cred)), Goto(q, t, LoadCount(cred));
    IsWoken(s, t);
    OneStep(s, t, Go);
    GotoTwice(s, t, Enqueue(cred), LoadCount(cred));
    if Available(s, cred) {
      assert Available(s2, cred) by {
        SameDevice(s, s2, cred);
      }
      Queues(s1, t);
      OneMore(s, t, [Go], Go);
      var looks := LooksAndRetries(s2, t);
      ByBoth(s, t, [Go] + [Go], looks);
      BySorted(s, t, [Go] + [Go] + looks);
      var s3 := Retry(s2, t, cred);
      var rest := OpenGoesThrough(s3, t, h);
      ByBoth(s, t, [Go] + [Go] + looks, rest);
      choices := [Go] + [Go] + looks + rest;
      OpenDoesSo(s, t, s3, h, By(s, t, choices));
    } else {
      assert !Available(s1, cred) by {
        SameDevice(s, s1, cred);
      }
      QueuesAndSleeps(s1, t);
      GotoTwice(s, t, Enqueue(cred), Sleep(cred));
      ByBoth(s, t, [Go], [Go] + [Go, Go, Go]);
      choices := [Go] + ([Go] + [Go, Go, Go]);
      CountAndOwner(s, t);
      SleepsAgain(s, t, h, By(s, t, choices));
    }
  }

  lemma SameDevice(s: Device, s': Device, c: Cred)
    requires s'.count == s.count && s'.owner == s.owner
    ensures Available(s', c) == Available(s, c)
  {
  }

  lemma SleepsAgain(s: Device, t: Task, h: Handle, s': Device)
    requires At(s, t).Sleep? && s.waits && !Available(s, At(s, t).cred)
    requires (s.count == 0 <==> s.handles == map[]) && (s.count > 0 ==> s.owner == s.founder.uid) && s.count >= 0
    requires s' == Goto(s, t, Sleep(At(s, t).cred)).(queue := s.queue + {t}, woken := s.woken - {t})
    ensures OpenDoes(s, t, At(s, t).cred, false, h, s')
  {
  }

  /** The same open, seen from before and after its wait. */
  lemma OpenDoesSo(s: Device, t: Task, s3: Device, h: Handle, s': Device)
    requires At(s, t).Sleep?
    requires s3 == Retry(Goto(s.(queue := s.queue + {t}, woken := s.woken - {t}), t, LoadCount(At(s, t).cred)),
                         t, At(s, t).cred)
    requires OpenDoes(s3, t, At(s, t).cred, false, h, s')
    ensures OpenDoes(s, t, At(s, t).cred, false, h, s')
  {
    hide Matches;
  }

  // ------------------------------------------------------------------ main results

  /** In every run an open ends, by a step of its task, if and only if it has its handle, is
      interrupted asleep, or is refused and must not wait; in the first case the handle is open
      and the opener's, in the others the device is as before. It waits if and only if it is
      refused and may; and a waiting task leaves the queue for the lock, to try again, if and only
      if what it looks at says that it could open the device. */
  lemma WhatEndsAnOpen(waits: bool, schedule: Schedule, t: Task, c: Choice)
    requires Opens(At(Run(waits, schedule), t))
    ensures var s := Run(waits, schedule); s.waits == waits && OpenGoes(s, t, c, Next(s, t, c))
  {
    hide Next, OpenGoes, Sorted;
    SortedRun(waits, schedule);
    OpenGoesOn(Run(waits, schedule), t, c);
  }

  /** In every run an open that begins when the lock is free, and is left alone, comes to what it
      should. */
  lemma AnOpenAlone(waits: bool, schedule: Schedule, t: Task, cred: Cred, nonblock: bool, h: Handle)
    returns (choices: seq<Choice>)
    requires var s := Run(waits, schedule); At(s, t) == Idle && s.lock == None && h !in s.handles
    ensures var s := Run(waits, schedule);
            OpenDoes(s, t, cred, nonblock, h, By(s, t, [StartOpen(cred, nonblock)] + choices))
  {
    hide Next, Sorted, By;
    SortedRun(waits, schedule);
    var s := Run(waits, schedule);
    var start := [StartOpen(cred, nonblock)];
    BySorted(s, t, start);
    OneStep(s, t, start[0]);
    OpenStarts(s, t, cred, nonblock);
    choices := OpenGoesThrough(By(s, t, start), t, h);
    ByBoth(s, t, start, choices);
  }

  lemma OpenStarts(s: Device, t: Task, cred: Cred, nonblock: bool)
    requires At(s, t) == Idle
    ensures Next(s, t, StartOpen(cred, nonblock)) == Goto(s, t, OpenLock(cred, nonblock))
  {
  }

  /** And so does one that has been woken: it opens the device, or sleeps again. */
  lemma AWokenOpenGoesOn(schedule: Schedule, t: Task, h: Handle) returns (choices: seq<Choice>)
    requires var s := Run(true, schedule); At(s, t).Sleep? && t in s.woken && s.lock == None && h !in s.handles
    ensures var s := Run(true, schedule); OpenDoes(s, t, At(s, t).cred, false, h, By(s, t, choices))
  {
    hide Next, Sorted, By, OpenDoes;
    SortedRun(true, schedule);
    choices := WokenOpenGoesThrough(Run(true, schedule), t, h);
  }

  /** In every run a close that begins when the lock is free, and is left alone, takes its handle
      away and nothing else; on scullwuid the last one wakes everyone on the queue. */
  lemma ACloseAlone(waits: bool, schedule: Schedule, t: Task, h: Handle) returns (choices: seq<Choice>)
    requires var s := Run(waits, schedule);
             At(s, t) == Idle && s.lock == None && h in s.handles && forall u: Task :: !Closes(At(s, u), h)
    ensures var s := Run(waits, schedule);
            var s' := By(s, t, [StartClose(h)] + choices);
            && At(s', t) == Idle && (forall u: Task :: u != t ==> At(s', u) == At(s, u))
            && s' == s.(pcs := s'.pcs, count := s.count - 1, handles := s.handles - {h},
                        woken := if waits && s.handles.Keys == {h} then s.woken + s.queue else s.woken)
  {
    hide Next, Sorted, By;
    SortedRun(waits, schedule);
    var s := Run(waits, schedule);
    CountAndOwner(s, t);
    LastHandle(s, h);
    choices := CloseGoesThrough(s, t, h);
  }

  lemma LastHandle(s: Device, h: Handle)
    requires Sorted(s) && h in s.handles
    ensures s.count == 1 <==> s.handles.Keys == {h}
  {
    assert s.count == |s.handles| == |s.handles.Keys|;
    assert |s.handles.Keys - {h}| == |s.handles.Keys| - 1;
    if s.count == 1 {
      assert s.handles.Keys - {h} == {};
    }
  }

  lemma CloseGoesThrough(s: Device, t: Task, h: Handle) returns (choices: seq<Choice>)
    requires At(s, t) == Idle && s.lock == None && h in s.handles && forall u: Task :: !Closes(At(s, u), h)
    ensures By(s, t, [StartClose(h)] + choices)
         == Goto(s, t, Idle).(count := s.count - 1, handles := s.handles - {h},
                              woken := if s.waits && s.count == 1 then s.woken + s.queue else s.woken)
  {
    hide By, Next, Closes;
    var s1 := Goto(s, t, CloseLock(h));
    var s2 := Goto(s, t, CloseCount(h)).(lock := Some(t));
    CloseStarts(s, t, h);
    LocksAndUncounts(s, t, h);
    UnlocksAndWakes(s, t, h);
    OneStep(s, t, StartClose(h));
    ThreeSteps(s1, t, Go, Go, Go);
    ByBoth(s, t, [StartClose(h)], [Go, Go, Go]);
    choices := [Go, Go, Go];
    if s.waits && s.count == 1 {
      choices := [Go, Go, Go] + [Go];
      OneMore(s, t, [StartClose(h)] + [Go, Go, Go], Go);
      assert [StartClose(h)] + choices == [StartClose(h)] + [Go, Go, Go] + [Go];
    }
  }

  lemma UnlocksAndWakes(s: Device, t: Task, h: Handle)
    requires s.lock == None
    ensures var s3 := Goto(s, t, CloseUnlock(s.count - 1))
                      .(lock := Some(t), count := s.count - 1, handles := s.handles - {h});
            var done := Goto(s, t, Idle).(count := s.count - 1, handles := s.handles - {h});
            if s.waits && s.count == 1 then Next(Next(s3, t, Go), t, Go) == done.(woken := s.woken + s.queue)
            else Next(s3, t, Go) == done
  {
    hide OpenStep, WaitStep, Start;
    GotoTwice(s, t, CloseUnlock(s.count - 1), CloseWake);
    GotoTwice(s, t, CloseUnlock(s.count - 1), Idle);
    GotoTwice(s, t, CloseWake, Idle);
  }

  lemma CloseStarts(s: Device, t: Task, h: Handle)
    requires At(s, t) == Idle && h in s.handles && forall u: Task :: !Closes(At(s, u), h)
    ensures Next(s, t, StartClose(h)) == Goto(s, t, CloseLock(h))
  {
    hide Closes;
  }

  lemma LocksAndUncounts(s: Device, t: Task, h: Handle)
    requires s.lock == None
    ensures var s1, s2 := Goto(s, t, CloseLock(h)), Goto(s, t, CloseCount(h)).(lock := Some(t));
            && Next(s1, t, Go) == s2
            && Next(s2, t, Go) == Goto(s, t, CloseUnlock(s.count - 1))
                                  .(lock := Some(t), count := s.count - 1, handles := s.handles - {h})
  {
    GotoTwice(s, t, CloseLock(h), CloseCount(h));
    GotoTwice(s, t, CloseCount(h), CloseUnlock(s.count - 1));
  }
}
