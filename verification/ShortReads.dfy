/** What the reader of ShortProtocol is given back and what its handlers print: when a read ends
    and how, what a read does when no handler interferes, and what all the handlers of a run have
    appended. */
module ShortReads {
  import opened Common
  import opened ShortText
  import opened ShortFormat
  import opened ShortProtocol

  // ------------------------------------------------------------------ how reads end

  /** What a choice makes the reader's call return, if it ends it. */
  ghost function Ending(s: Short, c: Choice): Option<Result> {
    match s.reader
    case Finish(_, signal) => if c == Signal || (c == ReaderGo && signal) then Some(Interrupted) else None
    case Copy(count, got) =>
      if c == Fault then Some(BadAddress) else if c == ReaderGo && |got| == count then Some(Done(count)) else None
    case _ => None
  }

  /** What a read that ends hands over. */
  ghost function Given(s: Short, c: Choice): string {
    if s.reader.Copy? && Ending(s, c).Some? && Ending(s, c).value.Done? then s.reader.got else ""
  }

  /** What a step of the reader does to the read that is under way. */
  ghost predicate ReadGoes(s: Short, c: Choice, s': Short)
    requires Valid(s.text) && Valid(s'.text)
  {
    var r, r', e, unread := s.reader, s'.reader, Ending(s, c), Unread(s.text);
    && (r' == Away <==> e.Some?)
    && s'.returned == s.returned + (if e.None? then [] else [e.value])
    && s'.delivered == s.delivered + Given(s, c) && s'.printed == s.printed
    && (!s.overrun ==> unread == Given(s, c) + Unread(s'.text))
    && (c == ReaderGo && r.Test? ==> if unread != "" then r' == Measure(r.want) else r' == Enqueue(r.want))
    && (c == ReaderGo && r.Retest? ==> if unread != "" then r' == Finish(r.want, false) else r' == Sleep(r.want))
    && (c == ReaderGo && r.Sleep? ==> if s.woken then r' == Finish(r.want, false) else r' == r)
    && (c == ReaderGo && r.Finish? && !r.signal ==> r' == Test(r.want) && !s'.queued)
    && (c == ReaderGo && r.Measure? ==>
          && r'.Copy? && r'.got == "" && r'.count <= r.want && r'.count <= |unread|
          && (r'.count == r.want || r'.count == |unread| || s.text.tail + r'.count == |s.text.page|))
  }

  /** Where the reader is, it has copied no more than it may. */
  ghost predicate CopiesOk(s: Short)
    requires Valid(s.text)
  {
    s.reader.Copy? ==> |s.reader.got| <= s.reader.count && s.text.tail + s.reader.count <= |s.text.page|
  }

  lemma CopiesOkStep(s: Short, c: Choice)
    requires Shaped(s) && CopiesOk(s)
    ensures Shaped(Next(s, c)) && CopiesOk(Next(s, c))
  {
    ShapedStep(s, c);
    if s.reader.Measure? {
      ReadableIsAll(s.text);
    }
    hide Unread, Readable, HandlerOk, LinesFor, HasRoom, Fits, Printed, Shaped;
    ShapedIsValid(s);
    if Handlers(c) {
      HandlersLeaveTheReader(s, c);
    }
  }

  lemma HandlersLeaveTheReader(s: Short, c: Choice)
    requires Shaped(s) && Handlers(c)
    ensures var s' := Next(s, c);
            && s'.reader == s.reader && s'.text.tail == s.text.tail && |s'.text.page| == |s.text.page|
            && s'.delivered == s.delivered && s'.returned == s.returned
  {
    hide Unread, LinesFor, HasRoom, Fits;
  }

  lemma {:induction false} CopiesOkRun(page: string, schedule: Schedule)
    requires |page| % LINE == 0 && |page| > LINE
    ensures CopiesOk(Run(page, schedule))
    decreases |schedule|
  {
    hide Next, CopiesOk, Shaped;
    if schedule == [] {
      CopiesNothing(page);
    } else {
      var n := |schedule| - 1;
      CopiesOkRun(page, schedule[..n]);
      CopiesOkStep(Run(page, schedule[..n]), schedule[n]);
    }
  }

  lemma CopiesNothing(page: string)
    requires |page| % LINE == 0 && |page| > LINE
    ensures Valid(Init(page).text) && CopiesOk(Init(page))
  {
  }

  lemma ReadGoesOn(s: Short, c: Choice)
    requires Shaped(s) && CopiesOk(s) && (!s.overrun ==> Conserved(s)) && !Handlers(c) && s.reader != Away
    ensures Shaped(Next(s, c)) && ReadGoes(s, c, Next(s, c))
  {
    ShapedStep(s, c);
    ReadableIffUnread(s.text);
    ReadableIsAll(s.text);
    if s.reader.Copy? {
      CopyGoesOn(s, c);
    } else {
      hide Unread, Readable, HandlerOk, HandlerStep, HasRoom, Fits, Shaped, Conserved;
      ShapedIsValid(s);
    }
  }

  lemma CopyGoesOn(s: Short, c: Choice)
    requires Shaped(s) && CopiesOk(s) && (!s.overrun ==> Conserved(s)) && s.reader.Copy? && !Handlers(c)
    ensures Shaped(Next(s, c)) && ReadGoes(s, c, Next(s, c))
  {
    ShapedStep(s, c);
    ShapedIsValid(s);
    if !s.overrun {
      CopiedIsUnread(s);
    }
    hide Shaped, Conserved, ReaderStep, HandlerStep, ReadGoes, Valid, HandlerOk;
    if c == ReaderGo && |s.reader.got| == s.reader.count {
      DeliverGoesOn(s);
    } else {
      CopyingGoesOn(s, c);
    }
  }

  lemma DeliverGoesOn(s: Short)
    requires Valid(s.text) && s.reader.Copy? && |s.reader.got| == s.reader.count && Valid(ReaderStep(s, ReaderGo).text)
    requires var n := |s.reader.got|;
             !s.overrun ==> n <= Readable(s.text) && n <= |Unread(s.text)| && s.reader.got == Unread(s.text)[..n]
    ensures ReadGoes(s, ReaderGo, ReaderStep(s, ReaderGo))
  {
    if !s.overrun {
      ReadTakesFront(s.text, |s.reader.got|);
      Rejoined(Unread(s.text), |s.reader.got|);
    }
    hide Unread, Readable, Valid;
  }

  lemma CopyingGoesOn(s: Short, c: Choice)
    requires Valid(s.text) && s.reader.Copy? && !Handlers(c) && |s.reader.got| <= s.reader.count
    requires s.text.tail + s.reader.count <= |s.text.page| && !(c == ReaderGo && |s.reader.got| == s.reader.count)
    requires Valid(ReaderStep(s, c).text)
    ensures ReadGoes(s, c, ReaderStep(s, c))
  {
    hide Unread, Readable, Valid;
  }

  lemma CopiedIsUnread(s: Short)
    requires Shaped(s) && Conserved(s) && s.reader.Copy?
    ensures var n := |s.reader.got|;
            n <= Readable(s.text) && n <= |Unread(s.text)| && s.reader.got == Unread(s.text)[..n]
  {
  }

  lemma Rejoined(u: string, n: nat)
    requires n <= |u|
    ensures u[..n] + u[n..] == u
  {
  }

  /** In every run a read ends if and only if one of these happens, and returns what is said
      there: -ERESTARTSYS, once out of the queue, if a signal is pending; -EFAULT if its copy
      fails; otherwise, when it has copied them all, the number of characters it is to have. That
      is as many as it wants, or all that is unread when it measures, or all up to the end of the
      page. It waits if and only if nothing is unread; woken, it looks again. */
  lemma WhatAReadReturns(page: string, schedule: Schedule, c: Choice)
    requires |page| % LINE == 0 && |page| > LINE
    requires !Handlers(c) && Run(page, schedule).reader != Away
    ensures Valid(Next(Run(page, schedule), c).text)
    ensures ReadGoes(Run(page, schedule), c, Next(Run(page, schedule), c))
  {
    hide Run, Next, ReadGoes, CopiesOk;
    CopiesOkRun(page, schedule);
    LinesAreConserved(page, schedule);
    ReadGoesOn(Run(page, schedule), c);
    ShapedIsValid(Next(Run(page, schedule), c));
  }

  // ------------------------------------------------------------------ undisturbed

  /** n steps of the reader alone. */
  ghost function Alone(s: Short, n: nat): (s': Short)
    requires Shaped(s)
    ensures Shaped(s')
  {
    if n == 0 then s
    else
      ShapedStep(Alone(s, n - 1), ReaderGo);
      Next(Alone(s, n - 1), ReaderGo)
  }

  lemma {:induction false} AloneOn(s: Short, m: nat, n: nat)
    requires Shaped(s)
    ensures Alone(Alone(s, m), n) == Alone(s, m + n)
  {
    hide Next, Shaped;
    if n > 0 {
      AloneOn(s, m, n - 1);
    }
  }

  lemma OneStep(s: Short)
    requires Shaped(s)
    ensures Valid(s.text) && Alone(s, 1) == ReaderStep(s, ReaderGo) && Shaped(ReaderStep(s, ReaderGo))
  {
    hide ReaderStep, HandlerStep;
    ShapedStep(s, ReaderGo);
    assert Alone(s, 0) == s;
  }

  /** What a read of `want` characters does that no handler interferes with: given something to
      read, it returns the front of it; otherwise it sleeps. Nothing else changes. */
  ghost predicate ReadDoes(s: Short, want: nat, s': Short, out: string)
    requires Shaped(s) && Shaped(s')
  {
    var kept := s.(reader := s'.reader, queued := s'.queued, woken := s'.woken);
    if Unread(s.text) != "" then
      && s'.reader == Away && (s'.queued ==> s.queued)
      && s' == kept.(text := s'.text, delivered := s.delivered + out, returned := s.returned + [Done(|out|)])
      && s'.text == s.text.(tail := s'.text.tail)
      && Unread(s.text) == out + Unread(s'.text) && |out| <= want && (want > 0 ==> out != "")
      && (|out| == want || Unread(s'.text) == "" || s.text.tail + |out| == |s.text.page|)
    else
      s'.reader == Sleep(want) && s'.queued && !s'.woken && s' == kept
  }

  lemma {:induction false} CopiesAlone(s: Short, k: nat)
    requires Shaped(s) && s.reader.Copy? && |s.reader.got| + k == s.reader.count
    requires s.text.tail + s.reader.count <= |s.text.page|
    ensures var at := s.text.tail;
            Alone(s, k) == s.(reader := Copy(s.reader.count,
                                             s.reader.got + s.text.page[at + |s.reader.got|..at + s.reader.count]))
    decreases k
  {
    hide Shaped, Alone;
    var at, n := s.text.tail + |s.reader.got|, s.text.tail + s.reader.count;
    if k == 0 {
      assert s.text.page[at..n] == "";
      NoStep(s);
    } else {
      var s1 := CopyOne(s);
      CopiesAlone(s1, k - 1);
      AloneOn(s, 1, k - 1);
      OneMoreCharacter(s.text.page, s.reader.got, at, n);
    }
  }

  lemma OneMoreCharacter(page: string, got: string, at: nat, n: nat)
    requires at < n <= |page|
    ensures got + page[at..n] == got + [page[at]] + page[at + 1..n]
  {
    assert page[at..n] == [page[at]] + page[at + 1..n];
  }

  lemma NoStep(s: Short)
    requires Shaped(s)
    ensures Alone(s, 0) == s
  {
  }

  lemma CopyOne(s: Short) returns (s1: Short)
    requires Shaped(s) && s.reader.Copy? && |s.reader.got| < s.reader.count
    requires s.text.tail + s.reader.count <= |s.text.page|
    ensures s1 == s.(reader := Copy(s.reader.count, s.reader.got + [s.text.page[s.text.tail + |s.reader.got|]]))
    ensures Shaped(s1) && Alone(s, 1) == s1
  {
    s1 := s.(reader := Copy(s.reader.count, s.reader.got + [s.text.page[s.text.tail + |s.reader.got|]]));
    OneStep(s);
    hide Unread, Shaped, Valid, Readable, Alone;
  }

  // The other steps.

  lemma Tests(s: Short)
    requires Shaped(s) && s.reader.Test?
    ensures var want := s.reader.want;
            var s1 := s.(reader := if s.text.head != s.text.tail then Measure(want) else Enqueue(want));
            Shaped(s1) && Alone(s, 1) == s1
  {
    hide Shaped, Valid, Unread, Alone;
    OneStep(s);
  }

  lemma Queues(s: Short)
    requires Shaped(s) && s.reader.Enqueue?
    ensures var s1 := s.(reader := Retest(s.reader.want), queued := true, woken := false);
            Shaped(s1) && Alone(s, 1) == s1
  {
    hide Shaped, Valid, Unread, Alone;
    OneStep(s);
  }

  lemma FallsAsleep(s: Short)
    requires Shaped(s) && s.reader.Retest? && s.text.head == s.text.tail
    ensures var s1 := s.(reader := Sleep(s.reader.want)); Shaped(s1) && Alone(s, 1) == s1
  {
    hide Shaped, Valid, Unread, Alone;
    OneStep(s);
  }

  lemma Measures(s: Short)
    requires Shaped(s) && s.reader.Measure?
    ensures var s1 := s.(reader := Copy(Min(s.reader.want, Readable(s.text)), "")); Shaped(s1) && Alone(s, 1) == s1
  {
    hide Shaped, Valid, Unread, Alone, Readable;
    OneStep(s);
  }

  lemma Delivers(s: Short)
    requires Shaped(s) && s.reader.Copy? && |s.reader.got| == s.reader.count
    ensures var s1 := s.(reader := Away, text := Taken(s.text, s.reader.count),
                         delivered := s.delivered + s.reader.got, returned := s.returned + [Done(s.reader.count)]);
            Shaped(s1) && Alone(s, 1) == s1
  {
    hide Shaped, Valid, Unread, Alone;
    OneStep(s);
  }

  lemma Wakes(s: Short)
    requires Shaped(s) && s.reader.Sleep? && s.woken
    ensures var s1 := s.(reader := Finish(s.reader.want, false)); Shaped(s1) && Alone(s, 1) == s1
  {
    hide Shaped, Valid, Unread, Alone;
    OneStep(s);
  }

  lemma Dequeues(s: Short)
    requires Shaped(s) && s.reader.Finish? && !s.reader.signal
    ensures var s1 := s.(reader := Test(s.reader.want), queued := false); Shaped(s1) && Alone(s, 1) == s1
  {
    hide Shaped, Valid, Unread, Alone;
    OneStep(s);
  }

  /** From the test on. */
  lemma ReadGoesThrough(s: Short) returns (n: nat, out: string)
    requires Shaped(s) && s.reader.Test?
    ensures ReadDoes(s, s.reader.want, Alone(s, n), out)
  {
    hide Alone, ReadDoes, Shaped;
    ShapedIsValid(s);
    ReadableIffUnread(s.text);
    var want := s.reader.want;
    if Unread(s.text) == "" {
      n, out := 3, "";
      FindsNothing(s);
      NothingDoes(s, Alone(s, 3));
    } else {
      ReadableIsAll(s.text);
      var count := Min(want, Readable(s.text));
      ReadTakesFront(s.text, count);
      out := Unread(s.text)[..count];
      n := 2 + count + 1;
      TakesIt(s, count);
      TakenDoes(s, count, Alone(s, n));
    }
  }

  lemma NothingDoes(s: Short, s': Short)
    requires Shaped(s) && Shaped(s') && s.reader.Test? && Unread(s.text) == ""
    requires s' == s.(reader := Sleep(s.reader.want), queued := true, woken := false)
    ensures ReadDoes(s, s.reader.want, s', "")
  {
    hide Unread, Valid, HandlerOk;
  }

  lemma TakenDoes(s: Short, count: nat, s': Short)
    requires Shaped(s) && Shaped(s') && s.reader.Test? && Unread(s.text) != ""
    requires count == Min(s.reader.want, Readable(s.text)) && count <= |Unread(s.text)|
    requires s' == s.(reader := Away, text := Taken(s.text, count),
                      delivered := s.delivered + Unread(s.text)[..count], returned := s.returned + [Done(count)])
    ensures ReadDoes(s, s.reader.want, s', Unread(s.text)[..count])
  {
    ShapedIsValid(s);
    hide Unread, Readable, Shaped;
    ReadableIffUnread(s.text);
    ReadableIsAll(s.text);
    ReadTakesFront(s.text, count);
    Rejoined(Unread(s.text), count);
  }

  lemma FindsNothing(s: Short)
    requires Shaped(s) && s.reader.Test? && s.text.head == s.text.tail
    ensures Alone(s, 3) == s.(reader := Sleep(s.reader.want), queued := true, woken := false)
  {
    var want := s.reader.want;
    hide Shaped, Alone;
    Tests(s);
    Queues(s.(reader := Enqueue(want)));
    FallsAsleep(s.(reader := Retest(want), queued := true, woken := false));
    AloneOn(s, 1, 1);
    AloneOn(s, 2, 1);
  }

  lemma TakesIt(s: Short, count: nat)
    requires Shaped(s) && s.reader.Test? && s.text.head != s.text.tail
    requires count == Min(s.reader.want, Readable(s.text)) && s.text.tail + count <= |s.text.page|
    ensures var out := s.text.page[s.text.tail..s.text.tail + count];
            Alone(s, 2 + count + 1) == s.(reader := Away, text := Taken(s.text, count),
                                          delivered := s.delivered + out, returned := s.returned + [Done(count)])
  {
    hide Shaped, Alone, Readable, Taken;
    TestsAndMeasures(s, count);
    AllCopied(s.(reader := Copy(count, "")), count, s.text.page[s.text.tail..s.text.tail + count]);
    AloneOn(s, 2, count + 1);
  }

  lemma TestsAndMeasures(s: Short, count: nat)
    requires Shaped(s) && s.reader.Test? && s.text.head != s.text.tail && count == Min(s.reader.want, Readable(s.text))
    ensures var s2 := s.(reader := Copy(count, "")); Shaped(s2) && Alone(s, 2) == s2
  {
    hide Shaped, Alone, Readable;
    Tests(s);
    Measures(s.(reader := Measure(s.reader.want)));
    AloneOn(s, 1, 1);
  }

  lemma AllCopied(s: Short, count: nat, out: string)
    requires Shaped(s) && s.reader == Copy(count, "") && s.text.tail + count <= |s.text.page|
    requires out == s.text.page[s.text.tail..s.text.tail + count]
    ensures Alone(s, count + 1) == s.(reader := Away, text := Taken(s.text, count),
                                      delivered := s.delivered + out, returned := s.returned + [Done(count)])
  {
    hide Shaped, Alone, Taken;
    CopiesAlone(s, count);
    assert "" + out == out;
    Delivers(s.(reader := Copy(count, out)));
    AloneOn(s, count, 1);
  }

  /** In every run a read that begins, and meets no handler, does what a read should. */
  lemma AReadAlone(page: string, schedule: Schedule, want: nat) returns (n: nat, out: string)
    requires |page| % LINE == 0 && |page| > LINE && Run(page, schedule).reader == Away
    ensures Shaped(Next(Run(page, schedule), Read(want)))
    ensures var s := Run(page, schedule); ReadDoes(s, want, Alone(Next(s, Read(want)), n), out)
  {
    var s := Run(page, schedule);
    ShapedStep(s, Read(want));
    hide Shaped, Run, Unread;
    assert Next(s, Read(want)) == s.(reader := Test(want));
    n, out := ReadGoesThrough(Next(s, Read(want)));
  }

  /** And a reader that has been woken and not interrupted, if it meets no handler, goes on to do
      just the same. */
  lemma AWokenReadGoesOn(page: string, schedule: Schedule) returns (n: nat, out: string)
    requires |page| % LINE == 0 && |page| > LINE
    requires Run(page, schedule).reader.Sleep? && Run(page, schedule).woken
    ensures var s := Run(page, schedule); ReadDoes(s, s.reader.want, Alone(s, n), out)
  {
    hide Run, Alone, Shaped, ReadDoes;
    var s := Run(page, schedule);
    WokenGoesThrough(s);
    var s2 := s.(reader := Test(s.reader.want), queued := false);
    var m;
    m, out := ReadGoesThrough(s2);
    n := 2 + m;
    AloneOn(s, 2, m);
    ReadDoesSo(s, s2, s.reader.want, Alone(s, n), out);
  }

  /** The same read, seen from before and after its wait. */
  lemma ReadDoesSo(s: Short, s2: Short, want: nat, s': Short, out: string)
    requires Shaped(s) && Shaped(s2) && Shaped(s') && s2 == s.(reader := s2.reader, queued := false)
    requires ReadDoes(s2, want, s', out)
    ensures ReadDoes(s, want, s', out)
  {
    hide Unread, Valid, HandlerOk;
  }

  lemma WokenGoesThrough(s: Short)
    requires Shaped(s) && s.reader.Sleep? && s.woken
    ensures var s2 := s.(reader := Test(s.reader.want), queued := false); Shaped(s2) && Alone(s, 2) == s2
  {
    hide Shaped, Alone;
    Wakes(s);
    Dequeues(s.(reader := Finish(s.reader.want, false)));
    AloneOn(s, 1, 1);
  }

  // ------------------------------------------------------------------ what handlers print

  /** What a handler has still to append. */
  ghost function InHand(h: Handler): string {
    match h
    case Ready(lines) => Concat(lines)
    case Printing(line, rest) => line + Concat(rest)
    case _ => ""
  }

  /** What a handler that starts will append: an interrupt its time, a bottom half its count and
      its times. */
  ghost function Starts(s: Short, c: Choice): string {
    if s.handler != Quiet then ""
    else if c.Interrupt? then LineOf(c.now)
    else if c.BottomHalf? && c.count < 1000000 then CountLine(c.count) + Concat(LinesOf(c.times))
    else ""
  }

  ghost function Started(page: string, schedule: Schedule): string
    requires |page| % LINE == 0 && |page| > LINE
    decreases |schedule|
  {
    if schedule == [] then ""
    else
      var n := |schedule| - 1;
      Started(page, schedule[..n]) + Starts(Run(page, schedule[..n]), schedule[n])
  }

  lemma {:induction false} FirstLine(line: string, lines: seq<string>)
    ensures Concat([line] + lines) == line + Concat(lines)
  {
    if lines == [] {
      assert ([line] + lines)[..0] == [];
    } else {
      var n := |lines| - 1;
      assert ([line] + lines)[..|lines|] == [line] + lines[..n];
      FirstLine(line, lines[..n]);
      assert line + Concat(lines[..n]) + lines[n] == line + (Concat(lines[..n]) + lines[n]);
    }
  }

  lemma PrintsOn(s: Short, c: Choice)
    requires Shaped(s)
    ensures var s' := Next(s, c); s'.printed + InHand(s'.handler) == s.printed + InHand(s.handler) + Starts(s, c)
  {
    ShapedIsValid(s);
    hide Shaped, Valid, HandlerStep, ReaderStep, InHand, Starts, HandlerOk;
    if Handlers(c) {
      HandlerPrintsOn(s, c);
    } else {
      ReaderKeepsPrinted(s, c);
      NothingStarts(s, c);
    }
  }

  lemma NothingStarts(s: Short, c: Choice)
    requires !Handlers(c)
    ensures Starts(s, c) == ""
  {
  }

  lemma HandlerPrintsOn(s: Short, c: Choice)
    requires Valid(s.text) && HandlerOk(s.handler) && Handlers(c)
    ensures var s' := HandlerStep(s, c); s'.printed + InHand(s'.handler) == s.printed + InHand(s.handler) + Starts(s, c)
  {
    hide Unread, HasRoom, Fits, Printed, CountLine, ShowsTime, Concat, LinesOf, LineOf;
    match s.handler
    case Ready(lines) =>
      FirstLine(lines[0], lines[1..]);
      assert [lines[0]] + lines[1..] == lines;
    case Printing(line, rest) =>
      assert s.printed + (line + Concat(rest)) == s.printed + line + Concat(rest);
      if rest == [] {
        NoLines();
      }
    case Quiet =>
      if c.Interrupt? {
        NoLines();
        FirstLine(LineOf(c.now), []);
        assert [LineOf(c.now)] + [] == [LineOf(c.now)];
      } else if c.BottomHalf? {
        FirstLine(CountLine(c.count), LinesOf(c.times));
      }
    case Waking =>
  }

  lemma NoLines()
    ensures Concat([]) == ""
  {
  }

  lemma ReaderKeepsPrinted(s: Short, c: Choice)
    requires Valid(s.text)
    ensures var s' := ReaderStep(s, c); s'.printed == s.printed && s'.handler == s.handler
  {
    hide Readable, Valid;
  }

  /** In every run what handlers have appended, and the one at work has still to append, are in
      order the lines of those that started: an interrupt's time, or a bottom half's count and
      times; and LineOf and CountLineReadsBack say that these lines show them. */
  lemma {:induction false} WhatIsPrinted(page: string, schedule: Schedule)
    requires |page| % LINE == 0 && |page| > LINE
    ensures var s := Run(page, schedule); s.printed + InHand(s.handler) == Started(page, schedule)
    decreases |schedule|
  {
    hide Next, Shaped, InHand, Starts;
    if schedule == [] {
      assert Init(page).printed + InHand(Quiet) == "" by {
        NothingInHand();
      }
    } else {
      var n := |schedule| - 1;
      WhatIsPrinted(page, schedule[..n]);
      PrintsOn(Run(page, schedule[..n]), schedule[n]);
    }
  }

  lemma NothingInHand()
    ensures InHand(Quiet) == ""
  {
  }
}
