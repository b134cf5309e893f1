/** What a call of ScullProtocol does when, from some point of a run on, only its own task takes
    steps: it is answered, as the same call would be made by itself. */
module ScullCalls {
  import opened Common
  import opened StoreAddress
  import opened Store
  import opened StoreHistory
  import opened ScullProtocol
  import opened ScullSerial
  import StoreBytes

  /** n steps of t. */
  ghost function Alone(s: System, t: Task, n: nat): System {
    if n == 0 then s else Next(Alone(s, t, n - 1), t, Go)
  }

  lemma {:induction false} AloneOn(s: System, t: Task, m: nat, n: nat)
    ensures Alone(Alone(s, t, m), t, n) == Alone(s, t, m + n)
  {
    hide Next;
    if n > 0 {
      AloneOn(s, t, m, n - 1);
    }
  }

  lemma OneStep(s: System, t: Task)
    ensures Alone(s, t, 1) == Next(s, t, Go)
  {
    hide Next;
    assert Alone(s, t, 0) == s;
  }

  lemma {:induction false} AloneIsSound(s: System, t: Task, n: nat)
    requires Sound(s)
    ensures Sound(Alone(s, t, n)) && Alone(s, t, n).params == s.params
  {
    hide Next, Serial;
    if n > 0 {
      AloneIsSound(s, t, n - 1);
      SoundStep(Alone(s, t, n - 1), t, Go);
      Discipline(Alone(s, t, n - 1), t, Go);
    }
  }

  /** After the call, its entry in the log. */
  ghost predicate Logged(s: System, t: Task, call: Call, s': System) {
    && At(s', t) == Idle && s'.sem == None
    && s'.calls == s.calls + [call] && s'.callers == s.callers + [t]
  }

  ghost predicate IsInside(s: System, t: Task) {
    s.sem == Some(t) && InCritical(At(s, t)) && !At(s, t).Lost?
  }

  /** The task inside gets out. */
  lemma {:induction false} HolderFinishes(s: System, t: Task, bound: nat) returns (n: nat)
    requires Sound(s) && IsInside(s, t) && HeldOk(s, At(s, t)) && StepsInside(s, At(s, t)) <= bound
    ensures Logged(s, t, CallOf(At(s, t)), Alone(s, t, n))
    decreases bound
  {
    hide Next, HeldOk, StepsInside, Sound, CallOf, Alone, InCritical;
    OneStep(s, t);
    if At(s, t).Leave? {
      n := 1;
      Leaves(s, t);
    } else {
      var s1 := Next(s, t, Go);
      MovesOn(s, t);
      SoundStep(s, t, Go);
      var m := HolderFinishes(s1, t, StepsInside(s1, At(s1, t)));
      n := 1 + m;
      AloneOn(s, t, 1, m);
    }
  }

  lemma Leaves(s: System, t: Task)
    requires At(s, t).Leave? && s.sem == Some(t)
    ensures Logged(s, t, CallOf(At(s, t)), Next(s, t, Go))
  {
  }

  lemma InsideIsHeld(s: System, t: Task)
    requires Sound(s) && IsInside(s, t)
    ensures s.locked && s.shape == s.params && HeldOk(s, At(s, t)) && LiveIs(s, At(s, t))
  {
    hide Run, Rest, Answer, CallOk, OutsideOk, HeldOk, LiveIs;
  }

  lemma MovesOn(s: System, t: Task)
    requires Sound(s) && IsInside(s, t) && !At(s, t).Leave?
    ensures var s' := Next(s, t, Go);
            && IsInside(s', t) && CallOf(At(s', t)) == CallOf(At(s, t))
            && s'.calls == s.calls && s'.callers == s.callers
            && HeldOk(s, At(s, t)) && HeldOk(s', At(s', t)) && StepsInside(s', At(s', t)) < StepsInside(s, At(s, t))
  {
    InsideIsHeld(s, t);
    assert Exclusive(s);
    hide Sound, Next, LiveIs, Rest, HeldOk, CallOf, StepsInside;
    HolderCarries(s, t);
    HeldMoves(s, t);
    Discipline(s, t, Go);
    LostIsNotHeld(Next(s, t, Go));
  }

  /** Logged, or as far as it gets without the semaphore. */
  ghost predicate InOrDone(s: System, t: Task, call: Call, s': System) {
    || Logged(s, t, call, s')
    || (IsInside(s', t) && CallOf(At(s', t)) == call && s'.calls == s.calls && s'.callers == s.callers)
  }

  lemma BeginsAndEnters(s: System, t: Task, call: Call) returns (n: nat)
    requires s.locked && At(s, t) == Idle && s.sem == None && CallOk(s.params, call)
    ensures InOrDone(s, t, call, Alone(Next(s, t, Begin(call)), t, n))
  {
    hide Next, CallOk, InOrDone;
    var s1 := Next(s, t, Begin(call));
    if call.Open? && !call.writeOnly {
      n := 0;
      AnsweredAtOnce(s, t, call);
    } else if call.Open? {
      n := 1;
      OneStep(s1, t);
      TrimEnters(s, t, call);
    } else {
      n := 2;
      OneStep(s1, t);
      OneStep(Next(s1, t, Go), t);
      AloneOn(s1, t, 1, 1);
      CallEnters(s, t, call);
    }
  }

  lemma AnsweredAtOnce(s: System, t: Task, call: Call)
    requires At(s, t) == Idle && s.sem == None && call.Open? && !call.writeOnly
    ensures InOrDone(s, t, call, Next(s, t, Begin(call)))
  {
    hide EnterStep, FollowStep, AccessStep, TrimStep;
  }

  lemma TrimEnters(s: System, t: Task, call: Call)
    requires At(s, t) == Idle && s.sem == None && s.locked && call.Open? && call.writeOnly
    ensures InOrDone(s, t, call, Next(Next(s, t, Begin(call)), t, Go))
  {
    hide EnterStep, FollowStep, AccessStep, TrimStep;
  }

  lemma CallEnters(s: System, t: Task, call: Call)
    requires At(s, t) == Idle && s.sem == None && !call.Open? && CallOk(s.params, call)
    ensures InOrDone(s, t, call, Next(Next(Next(s, t, Begin(call)), t, Go), t, Go))
  {
    hide FollowStep, AccessStep, TrimStep, CallOk, Start, EnterStep;
    var s1, s2 := Goto(s, t, LoadShape(call)), Goto(s, t, Enter(call, s.shape));
    assert Next(s, t, Begin(call)) == s1 by {
      Loads(s, t, call);
    }
    assert Next(s1, t, Go) == s2 by {
      Enters(s, t, call);
    }
    assert InOrDone(s, t, call, Next(s2, t, Go)) by {
      GetsIn(s, t, call);
    }
  }

  lemma Loads(s: System, t: Task, call: Call)
    requires At(s, t) == Idle && !call.Open? && CallOk(s.params, call)
    ensures Next(s, t, Begin(call)) == Goto(s, t, LoadShape(call))
  {
    hide CallOk;
  }

  lemma Enters(s: System, t: Task, call: Call)
    ensures Next(Goto(s, t, LoadShape(call)), t, Go) == Goto(s, t, Enter(call, s.shape))
  {
    hide Start, FollowStep, AccessStep, TrimStep;
    assert s.pcs[t := LoadShape(call)][t := Enter(call, s.shape)] == s.pcs[t := Enter(call, s.shape)];
  }

  lemma GetsIn(s: System, t: Task, call: Call)
    requires s.sem == None && !call.Open?
    ensures InOrDone(s, t, call, Next(Goto(s, t, Enter(call, s.shape)), t, Go))
  {
    hide Start, FollowStep, AccessStep, TrimStep;
  }

  /** A device on which nobody is inside before and after one call. */
  ghost predicate Answers(g: Shape, s: System, call: Call, s': System)
    requires CallOk(g, call)
  {
    && !s'.bad && StoreBytes.Valid(g, s.store) && s'.calls == s.calls + [call]
    && var (store, reply) := Answer(g, Scull, s.store, call);
       s'.store == store && s'.replies == s.replies + [reply]
  }

  lemma LoggedIsAnswered(s: System, t: Task, call: Call, s': System)
    requires Sound(s) && Sound(s') && s'.params == s.params && CallOk(s.params, call)
    requires s.sem == None && Logged(s, t, call, s')
    ensures Answers(s.params, s, call, s')
  {
    hide Answer, Run, HeldOk, LiveIs, OutsideOk, CallOk;
    RunMore(s.params, Scull, s.calls, call);
  }

  lemma CallGoesThrough(s: System, t: Task, call: Call) returns (n: nat)
    requires Sound(s) && At(s, t) == Idle && s.sem == None && CallOk(s.params, call)
    ensures var s' := Alone(Next(s, t, Begin(call)), t, n);
            Logged(s, t, call, s') && Sound(s') && Answers(s.params, s, call, s')
  {
    hide Sound, Next, Alone, CallOk, Answers, Logged;
    n := CallFinishes(s, t, call);
    LoggedIsAnswered(s, t, call, Alone(Next(s, t, Begin(call)), t, n));
  }

  lemma CallFinishes(s: System, t: Task, call: Call) returns (n: nat)
    requires Sound(s) && At(s, t) == Idle && s.sem == None && CallOk(s.params, call)
    ensures var s' := Alone(Next(s, t, Begin(call)), t, n);
            Logged(s, t, call, s') && Sound(s') && s'.params == s.params
  {
    hide Sound, Next, Alone, CallOk, InOrDone, Logged, At;
    SoundIsLocked(s);
    var s1 := Next(s, t, Begin(call));
    SoundStep(s, t, Begin(call));
    SameParams(s, t, Begin(call));
    var k := BeginsAndEnters(s, t, call);
    AloneIsSound(s1, t, k);
    var s2 := Alone(s1, t, k);
    var m := GetsOut(s, t, call, s2);
    AloneOn(s1, t, k, m);
    AloneIsSound(s2, t, m);
    n := k + m;
  }

  lemma SoundIsLocked(s: System)
    requires Sound(s)
    ensures s.locked
  {
  }

  lemma GetsOut(s: System, t: Task, call: Call, s2: System) returns (m: nat)
    requires InOrDone(s, t, call, s2) && Sound(s2)
    ensures Logged(s, t, call, Alone(s2, t, m))
  {
    hide Sound, Next, CallOf, StepsInside, HeldOk, LiveIs, InCritical;
    m := 0;
    if !Logged(s, t, call, s2) {
      InsideIsHeld(s2, t);
      m := HolderFinishes(s2, t, StepsInside(s2, At(s2, t)));
      hide Alone;
    }
  }

  lemma SameParams(s: System, t: Task, c: Choice)
    requires Sound(s)
    ensures Next(s, t, c).params == s.params
  {
    hide Next, Serial;
    Discipline(s, t, c);
  }

  /** In every run a call that begins when nobody is inside, and is left alone, returns; and it
      returns what the same call does to the store as it was, which it leaves as that call
      does. */
  lemma ACallAlone(g: Shape, schedule: Schedule, t: Task, call: Call) returns (n: nat)
    requires var s := RunFrom(g, true, schedule); At(s, t) == Idle && s.sem == None && CallOk(g, call)
    ensures var s := RunFrom(g, true, schedule);
            var s' := Alone(Next(s, t, Begin(call)), t, n);
            At(s', t) == Idle && s'.sem == None && Answers(g, s, call, s')
  {
    hide RunFrom, Sound, Next, Answers, Alone, CallOk;
    SoundRun(g, schedule);
    n := CallGoesThrough(RunFrom(g, true, schedule), t, call);
  }
}
