/** A reader of the interrupt device and the handler that feeds it, step by step
    (IO_port/copy/short.c). A handler - an interrupt that prints one line, or a bottom half
    that prints several - prints a line, moves the head, and so on, and wakes the reader at
    the end; between any two of the reader's steps, and between any two characters it copies,
    it may do any of these. A run is any sequence of choices. */
module ShortProtocol {
  import opened Common
  import opened ShortText
  import opened ShortFormat

  datatype Reader =
    | Away
    | Test(want: nat)                      // short_head == short_tail ?
    | Enqueue(want: nat)                   // prepare_to_wait
    | Retest(want: nat)
    | Sleep(want: nat)                     // schedule()
    | Finish(want: nat, signal: bool)      // finish_wait, then signal_pending
    | Measure(want: nat)                   // how much can be read at once
    | Copy(count: nat, got: string)        // copy_to_user, character by character

  datatype Handler =
    | Quiet
    | Ready(lines: seq<string>)            // about to print the first of these
    | Printing(line: string, rest: seq<string>)   // printed, the head not yet moved
    | Waking                               // about to wake the reader

  datatype Choice =
    | Interrupt(now: Time)
    | BottomHalf(count: nat, times: seq<Time>)
    | HandlerGo
    | Read(want: nat)
    | ReaderGo
    | Signal                               // a signal is pending
    | Fault                                // the user copy fails

  datatype Short = Short(
    text: Text,
    reader: Reader,
    handler: Handler,
    queued: bool,                          // on short_queue
    woken: bool,                           // made runnable since
    printed: string,                       // history: all the handlers have appended
    delivered: string,                     // history: all the reader has been given
    overrun: bool,                         // history: a line overwrote one, or the head caught up
    returned: seq<Result>                  // history: what the reader's calls returned
  )

  ghost function Init(page: string): Short {
    Short(Text(page, 0, 0), Away, Quiet, false, false, "", "", false, [])
  }

  ghost predicate HasRoom(t: Text)
    requires Valid(t)
  {
    |Unread(t)| + LINE < |t.page|
  }

  /** Where a line printed now overwrites nothing unread. */
  ghost predicate Fits(t: Text)
    requires Valid(t)
  {
    |Unread(t)| + LINE <= |t.page|
  }

  /** Lines of the right length, in whatever a handler has in hand. */
  ghost predicate HandlerOk(h: Handler) {
    && (h.Ready? ==> h.lines != [] && Lines(h.lines))
    && (h.Printing? ==> |h.line| == LINE && Lines(h.rest))
  }

  /** What a handler that starts is going to print. */
  ghost function LinesFor(c: Choice): (lines: seq<string>)
    requires c.Interrupt? || (c.BottomHalf? && c.count < 1000000)
    ensures Lines(lines) && lines != []
  {
    if c.Interrupt? then [LineOf(c.now)]
    else
      CountLineIs16(c.count);
      [CountLine(c.count)] + LinesOf(c.times)
  }

  ghost function HandlerStep(s: Short, c: Choice): Short
    requires Valid(s.text) && HandlerOk(s.handler)
  {
    match s.handler
    case Quiet =>
      if c.Interrupt? || (c.BottomHalf? && c.count < 1000000) then s.(handler := Ready(LinesFor(c))) else s
    case Ready(lines) =>
      if c == HandlerGo then
        s.(text := ShortText.Printed(s.text, lines[0]), handler := Printing(lines[0], lines[1..]),
           overrun := s.overrun || !Fits(s.text))
      else s
    case Printing(line, rest) =>
      if c == HandlerGo then
        s.(text := Advanced(s.text), handler := if rest == [] then Waking else Ready(rest), printed := s.printed + line,
           overrun := s.overrun || !HasRoom(s.text))
      else s
    case Waking =>
      if c == HandlerGo then s.(handler := Quiet, woken := s.woken || s.queued) else s
  }

  /** The reader's call returns. */
  ghost function Ret(s: Short, result: Result): Short {
    s.(reader := Away, returned := s.returned + [result])
  }

  ghost function ReaderStep(s: Short, c: Choice): Short
    requires Valid(s.text)
  {
    match s.reader
    case Away => if c.Read? then s.(reader := Test(c.want)) else s
    case Test(want) =>
      if c != ReaderGo then s
      else s.(reader := if s.text.head != s.text.tail then Measure(want) else Enqueue(want))
    case Enqueue(want) => if c == ReaderGo then s.(reader := Retest(want), queued := true, woken := false) else s
    case Retest(want) =>
      if c != ReaderGo then s
      else s.(reader := if s.text.head == s.text.tail then Sleep(want) else Finish(want, false))
    case Sleep(want) =>
      if c == Signal || (c == ReaderGo && s.woken) then s.(reader := Finish(want, c == Signal)) else s
    case Finish(want, signal) =>
      if c == Signal || (c == ReaderGo && signal) then Ret(s, Interrupted).(queued := false)
      else if c == ReaderGo then s.(reader := Test(want), queued := false)
      else s
    case Measure(want) => if c == ReaderGo then s.(reader := Copy(Min(want, Readable(s.text)), "")) else s
    case Copy(count, got) =>
      if c == Fault then Ret(s, BadAddress)
      else if c != ReaderGo then s
      else if |got| < count then
        if s.text.tail + |got| < |s.text.page| then
          s.(reader := Copy(count, got + [s.text.page[s.text.tail + |got|]]))
        else s
      else Ret(s, Done(count)).(text := ShortText.Taken(s.text, count), delivered := s.delivered + got)
  }

  ghost predicate Handlers(c: Choice) {
    c.Interrupt? || c.BottomHalf? || c.HandlerGo?
  }

  ghost function Next(s: Short, c: Choice): Short
    requires Valid(s.text) && HandlerOk(s.handler)
  {
    if Handlers(c) then HandlerStep(s, c) else ReaderStep(s, c)
  }

  // ------------------------------------------------------------------ every state

  ghost predicate Shaped(s: Short) {
    && Valid(s.text) && HandlerOk(s.handler)
    && (s.reader.Retest? || s.reader.Sleep? ==> s.queued)
    && (s.reader.Sleep? && !s.woken ==> s.text.head == s.text.tail || !s.handler.Quiet?)
  }

  lemma ShapedStep(s: Short, c: Choice)
    requires Shaped(s)
    ensures Shaped(Next(s, c)) && |Next(s, c).text.page| == |s.text.page|
  {
    hide Next, ReaderStep, HandlerStep;
    if Handlers(c) {
      HandlerShaped(s, c);
    } else {
      ReaderShaped(s, c);
    }
    NextIs(s, c);
  }

  lemma NextIs(s: Short, c: Choice)
    requires Valid(s.text) && HandlerOk(s.handler)
    ensures Next(s, c) == if Handlers(c) then HandlerStep(s, c) else ReaderStep(s, c)
  {
  }

  lemma HandlerShaped(s: Short, c: Choice)
    requires Shaped(s)
    ensures Shaped(HandlerStep(s, c)) && |HandlerStep(s, c).text.page| == |s.text.page|
  {
    hide Unread, HasRoom, Fits, LinesFor, Printed;
    if s.handler.Ready? {
      AppendIsValid(s.text, s.handler.lines[0]);
      PrintedLength(s.text, s.handler.lines[0]);
    } else {
      AlignedFits(s.text.head, |s.text.page|);
    }
  }

  lemma PrintedLength(t: Text, line: string)
    requires Valid(t) && |line| == LINE
    ensures var t' := Printed(t, line); |t'.page| == |t.page| && t'.head == t.head && t'.tail == t.tail
  {
  }

  lemma ReaderShaped(s: Short, c: Choice)
    requires Shaped(s)
    ensures Shaped(ReaderStep(s, c)) && |ReaderStep(s, c).text.page| == |s.text.page|
  {
    hide Unread, HasRoom, Fits, HandlerOk, Readable;
  }

  // ------------------------------------------------------------------ without overruns

  ghost predicate Conserved(s: Short)
    requires Shaped(s)
  {
    && s.delivered + Unread(s.text) == s.printed
    && (s.handler.Printing? ==>
          Fits(s.text) && s.text.page[s.text.head..s.text.head + LINE] == s.handler.line)
    && (s.reader.Measure? ==> Unread(s.text) != "")
    && (s.reader.Copy? ==>
          && |s.reader.got| <= s.reader.count <= Readable(s.text)
          && s.reader.got == Unread(s.text)[..|s.reader.got|])
  }

  lemma PrintStep(s: Short, c: Choice)
    requires Shaped(s) && Conserved(s) && s.handler.Ready? && c.HandlerGo? && !Next(s, c).overrun
    ensures Shaped(Next(s, c)) && Conserved(Next(s, c))
  {
    ShapedStep(s, c);
    hide Unread, Readable, ReaderStep, HandlerOk;
    var line := s.handler.lines[0];
    AlignedFits(s.text.head, |s.text.page|);
    PrintingIsHarmless(s.text, line);
    ReadableSame(s.text, line);
    var page := Next(s, c).text.page;
    assert page[s.text.head..s.text.head + LINE] == line;
  }

  lemma ReadableSame(t: Text, line: string)
    requires Valid(t) && |line| == LINE
    ensures Readable(Printed(t, line)) == Readable(t)
  {
  }

  lemma AdvanceStep(s: Short, c: Choice)
    requires Shaped(s) && Conserved(s) && s.handler.Printing? && c.HandlerGo? && !Next(s, c).overrun
    ensures Shaped(Next(s, c)) && Conserved(Next(s, c))
  {
    ShapedStep(s, c);
    AlignedFits(s.text.head, |s.text.page|);
    AdvancingAdds(s.text, s.handler.line);
    ReadableGrows(s.text, s.handler.line);
    hide Unread, Readable, ReaderStep, HandlerOk;
    assert s.delivered + (Unread(s.text) + s.handler.line) == s.delivered + Unread(s.text) + s.handler.line;
    if s.reader.Copy? {
      var n := |s.reader.got|;
      ReadTakesFront(s.text, n);
      assert (Unread(s.text) + s.handler.line)[..n] == Unread(s.text)[..n];
    }
  }

  lemma ReadableGrows(t: Text, line: string)
    requires Valid(t) && |line| == LINE && t.head + LINE <= |t.page| && |Unread(t)| + LINE < |t.page|
    ensures Readable(t) <= Readable(Advanced(t))
  {
    UnreadLength(t);
  }

  /** One more character of a front. */
  lemma FrontGrows(u: string, n: nat, ch: char)
    requires n < |u| && u[..n + 1][n] == ch
    ensures u[..n + 1] == u[..n] + [ch]
  {
  }

  lemma CopyStep(s: Short, c: Choice)
    requires Shaped(s) && Conserved(s) && s.reader.Copy? && c == ReaderGo && |s.reader.got| < s.reader.count
    ensures Shaped(Next(s, c)) && Conserved(Next(s, c))
  {
    ShapedStep(s, c);
    hide Unread, Readable, Valid, HasRoom, Fits, HandlerStep, HandlerOk, Shaped;
    ShapedIsValid(s);
    var n := |s.reader.got|;
    ReadTakesFront(s.text, n + 1);
    FrontGrows(Unread(s.text), n, s.text.page[s.text.tail + n]);
  }

  lemma ShapedIsValid(s: Short)
    requires Shaped(s)
    ensures Valid(s.text) && HandlerOk(s.handler) && s.text.tail < |s.text.page|
  {
  }

  lemma DeliverStep(s: Short, c: Choice)
    requires Shaped(s) && Conserved(s) && s.reader.Copy? && c == ReaderGo && |s.reader.got| == s.reader.count
    ensures Shaped(Next(s, c)) && Conserved(Next(s, c))
  {
    ShapedStep(s, c);
    hide Unread, Readable, Valid, HasRoom, Fits, HandlerStep, HandlerOk, Shaped;
    ShapedIsValid(s);
    var n, u := s.reader.count, Unread(s.text);
    ReadTakesFront(s.text, n);
    Rejoin(s.delivered, u, n);
    TakingKeepsRoom(s.text, n);
  }

  lemma Rejoin(front: string, u: string, n: nat)
    requires n <= |u|
    ensures front + u[..n] + u[n..] == front + u
  {
  }

  /** The reader moves only the tail, so a line that fitted still does. */
  lemma TakingKeepsRoom(t: Text, n: nat)
    requires Valid(t) && n <= Readable(t)
    ensures Valid(Taken(t, n)) && (Fits(t) ==> Fits(Taken(t, n)))
  {
    ReadTakesFront(t, n);
  }

  /** The remaining steps leave the text as it is: a handler's, ... */
  lemma HandlerRestStep(s: Short, c: Choice)
    requires Shaped(s) && Conserved(s) && Handlers(c) && (c.HandlerGo? ==> s.handler.Quiet? || s.handler.Waking?)
    ensures Shaped(Next(s, c)) && Conserved(Next(s, c))
  {
    ShapedStep(s, c);
    hide Unread, Readable, Valid, HasRoom, Fits, LinesFor, HandlerOk, ReaderStep, Shaped;
    ShapedIsValid(s);
  }

  /** ... and the reader's. */
  lemma ReaderRestStep(s: Short, c: Choice)
    requires Shaped(s) && Conserved(s) && !Handlers(c) && !(s.reader.Copy? && c == ReaderGo)
    ensures Shaped(Next(s, c)) && Conserved(Next(s, c))
  {
    ShapedStep(s, c);
    ReadableIffUnread(s.text);
    hide Unread, Readable, Valid, HasRoom, Fits, HandlerOk, HandlerStep, ReaderStep, Shaped;
    ShapedIsValid(s);
    ReaderMoves(s, c);
  }

  /** How the reader gets to where it measures and copies. */
  lemma ReaderMoves(s: Short, c: Choice)
    requires Valid(s.text) && !(s.reader.Copy? && c == ReaderGo)
    ensures var s' := ReaderStep(s, c);
            && s' == s.(reader := s'.reader, queued := s'.queued, woken := s'.woken, returned := s'.returned)
            && (s'.reader.Measure? ==> s'.reader == s.reader || s.text.head != s.text.tail)
            && (s'.reader.Copy? ==>
                  || s'.reader == s.reader
                  || (s.reader.Measure? && s'.reader.got == "" && s'.reader.count <= Readable(s.text)))
  {
    hide Readable, Valid;
  }

  type Schedule = seq<Choice>

  ghost function Run(page: string, schedule: Schedule): (s: Short)
    requires |page| % LINE == 0 && |page| > LINE
    ensures Shaped(s) && |s.text.page| == |page|
    decreases |schedule|
  {
    if schedule == [] then Init(page)
    else
      var s := Run(page, schedule[..|schedule| - 1]);
      ShapedStep(s, schedule[|schedule| - 1]);
      Next(s, schedule[|schedule| - 1])
  }

  lemma OverrunStays(s: Short, c: Choice)
    requires Shaped(s) && s.overrun
    ensures Next(s, c).overrun
  {
    hide Unread;
  }

  /** In every run in which each line was printed with at most PAGE_SIZE - 16 characters
      unread, and the head moved past it with fewer, the characters given to the reader and
      those still to be read are the lines printed, in order; and the head is aligned and both
      pointers are inside the page in every run at all. */
  lemma {:induction false} LinesAreConserved(page: string, schedule: Schedule)
    requires |page| % LINE == 0 && |page| > LINE
    ensures var s := Run(page, schedule);
            && s.text.head % LINE == 0 && s.text.head < |s.text.page| && s.text.tail < |s.text.page|
            && (!s.overrun ==> Conserved(s) && s.delivered + Unread(s.text) == s.printed)
    decreases |schedule|
  {
    if schedule == [] {
    } else {
      var front, c := schedule[..|schedule| - 1], schedule[|schedule| - 1];
      LinesAreConserved(page, front);
      ConservedStep(Run(page, front), c);
    }
  }

  lemma ConservedStep(s: Short, c: Choice)
    requires Shaped(s) && (!s.overrun ==> Conserved(s))
    ensures Shaped(Next(s, c))
    ensures var s' := Next(s, c); !s'.overrun ==> Conserved(s') && s'.delivered + Unread(s'.text) == s'.printed
  {
    hide Conserved, ReaderStep, HandlerStep, Valid, HandlerOk;
    ShapedStep(s, c);
    if s.overrun {
      OverrunStays(s, c);
    } else if !Next(s, c).overrun {
      ConservedMeans(s);
      if s.handler.Ready? && c.HandlerGo? {
        PrintStep(s, c);
      } else if s.handler.Printing? && c.HandlerGo? {
        AdvanceStep(s, c);
      } else if s.reader.Copy? && c == ReaderGo {
        if |s.reader.got| < s.reader.count {
          CopyStep(s, c);
        } else {
          DeliverStep(s, c);
        }
      } else {
        if Handlers(c) {
          HandlerRestStep(s, c);
        } else {
          ReaderRestStep(s, c);
        }
      }
      ConservedMeans(Next(s, c));
    }
  }

  /** No character has been lost, repeated or put out of order. */
  ghost predicate Kept(s: Short)
    requires Valid(s.text)
  {
    s.delivered + Unread(s.text) == s.printed
  }

  /** And exactly that is needed. Moving the head with more unread loses text, ... */
  lemma WhenTheHeadCatchesUp(page: string, schedule: Schedule)
    requires |page| % LINE == 0 && |page| > LINE
    requires !Run(page, schedule).overrun && Run(page, schedule).handler.Printing?
    ensures Kept(Run(page, schedule)) && Shaped(Next(Run(page, schedule), HandlerGo))
    ensures Kept(Next(Run(page, schedule), HandlerGo)) <==> HasRoom(Run(page, schedule).text)
  {
    hide Next, Unread, HasRoom, Valid;
    LinesAreConserved(page, schedule);
    HeadMoves(Run(page, schedule));
  }

  lemma HeadMoves(s: Short)
    requires Shaped(s) && Conserved(s) && s.handler.Printing?
    ensures Shaped(Next(s, HandlerGo)) && (Kept(Next(s, HandlerGo)) <==> HasRoom(s.text))
  {
    hide ReaderStep, Unread, HasRoom;
    ShapedStep(s, HandlerGo);
    AlignedFits(s.text.head, |s.text.page|);
    AdvancingNeedsRoom(s.text, s.handler.line);
    SameFront(s.delivered, Unread(s.text), s.handler.line, Unread(Advanced(s.text)));
  }

  lemma SameFront(front: string, a: string, b: string, c: string)
    ensures front + c == front + a + b <==> c == a + b
  {
    assert (front + c)[|front|..] == c && (front + a + b)[|front|..] == a + b;
    assert front + (a + b) == front + a + b;
  }

  lemma AdvancingNeedsRoom(t: Text, line: string)
    requires Valid(t) && |line| == LINE && t.head + LINE <= |t.page| && t.page[t.head..t.head + LINE] == line
    ensures Valid(Advanced(t)) && (Unread(Advanced(t)) == Unread(t) + line <==> HasRoom(t))
  {
    UnreadLength(t);
    UnreadLength(Advanced(t));
    if HasRoom(t) {
      AdvancingAdds(t, line);
    }
    hide Unread;
  }

  /** ... and printing with more unread overwrites some of it, for some line. */
  lemma WhenPrintingOverwrites(t: Text)
    requires Valid(t)
    ensures (forall line: string :: |line| == LINE ==> Unread(Printed(t, line)) == Unread(t)) <==> Fits(t)
  {
    AlignedFits(t.head, |t.page|);
    UnreadLength(t);
    if Fits(t) {
      forall line: string | |line| == LINE
        ensures Unread(Printed(t, line)) == Unread(t)
      {
        PrintingIsHarmless(t, line);
      }
    } else {
      var ch := if t.page[t.tail] == 'a' then 'b' else 'a';
      var line := seq(LINE, _ => ch);
      assert Printed(t, line).page[t.tail] == ch;
      assert Unread(Printed(t, line))[0] == ch && Unread(t)[0] == t.page[t.tail];
    }
  }

  lemma ConservedMeans(s: Short)
    requires Shaped(s) && Conserved(s)
    ensures s.delivered + Unread(s.text) == s.printed
    ensures s.reader.Copy? ==> |s.reader.got| <= s.reader.count
  {
  }

  /** The reader does not sleep through a line: in every run, asleep and not woken, it has
      nothing to read or a handler is still at work, which will wake it when it is done. */
  lemma NoReaderIsLost(page: string, schedule: Schedule)
    requires |page| % LINE == 0 && |page| > LINE
    ensures var s := Run(page, schedule);
            s.reader.Sleep? && !s.woken ==> Unread(s.text) == "" || !s.handler.Quiet?
  {
    ReadableIffUnread(Run(page, schedule).text);
  }

  // ------------------------------------------------------------------ a page without a read

  /** n interrupts, each of which runs to its end. */
  ghost function Interrupts(now: Time, n: nat): Schedule {
    if n == 0 then [] else Interrupts(now, n - 1) + [Interrupt(now), HandlerGo, HandlerGo, HandlerGo]
  }

  lemma {:induction false} AfterInterrupts(page: string, now: Time, n: nat)
    requires |page| % LINE == 0 && |page| > LINE && LINE * n <= |page|
    ensures var s := Run(page, Interrupts(now, n));
            && s.handler.Quiet? && s.reader.Away? && s.delivered == "" && |s.printed| == LINE * n
            && s.text.tail == 0 && s.text.head == (if LINE * n == |page| then 0 else LINE * n)
            && (s.overrun <==> LINE * n == |page|)
  {
    if n > 0 {
      hide Run, Unread;
      AfterInterrupts(page, now, n - 1);
      UnreadLength(Run(page, Interrupts(now, n - 1)).text);
      OneInterrupt(page, Interrupts(now, n - 1), now);
    } else {
      EmptyRun(page);
    }
  }

  lemma EmptyRun(page: string)
    requires |page| % LINE == 0 && |page| > LINE
    ensures Run(page, []) == Init(page)
  {
  }

  lemma OneInterrupt(page: string, x: Schedule, now: Time)
    requires |page| % LINE == 0 && |page| > LINE
    requires Run(page, x).handler.Quiet? && Run(page, x).reader.Away?
    ensures var s, s' := Run(page, x), Run(page, x + [Interrupt(now), HandlerGo, HandlerGo, HandlerGo]);
            && s'.handler.Quiet? && s'.reader.Away? && s'.delivered == s.delivered
            && |s'.printed| == |s.printed| + LINE && (s'.overrun <==> s.overrun || !HasRoom(s.text))
            && s'.text.tail == s.text.tail && s'.text.head == IncrBp(s.text.head, LINE, |page|)
  {
    hide Run, Unread;
    var s := Run(page, x);
    Then(page, x, Interrupt(now));
    var x1 := x + [Interrupt(now)];
    assert Run(page, x1).handler == Ready([LineOf(now)]);
    Then(page, x1, HandlerGo);
    UnreadLength(s.text);
    UnreadLength(Printed(s.text, LineOf(now)));
    var x2 := x1 + [HandlerGo];
    assert Run(page, x2).handler == Printing(LineOf(now), []);
    Then(page, x2, HandlerGo);
    var x3 := x2 + [HandlerGo];
    Then(page, x3, HandlerGo);
    assert x3 + [HandlerGo] == x + [Interrupt(now), HandlerGo, HandlerGo, HandlerGo];
  }

  lemma Then(page: string, x: Schedule, c: Choice)
    requires |page| % LINE == 0 && |page| > LINE
    ensures Run(page, x + [c]) == Next(Run(page, x), c)
  {
    assert (x + [c])[..|x|] == x;
  }

  /** The promise that no line is lost fails on every page: PAGE_SIZE / 16 interrupts with no
      read leave nothing to be read. With fewer than that all is there. */
  lemma APageOfLinesIsLost(page: string, now: Time)
    requires |page| % LINE == 0 && |page| > LINE
    ensures var s := Run(page, Interrupts(now, |page| / LINE));
            |s.printed| == |page| && s.delivered == "" && Unread(s.text) == ""
    ensures forall n: nat :: LINE * n < |page| ==>
              var s := Run(page, Interrupts(now, n)); s.delivered == "" && Unread(s.text) == s.printed
  {
    forall n: nat | LINE * n < |page|
      ensures var s := Run(page, Interrupts(now, n)); s.delivered == "" && Unread(s.text) == s.printed
    {
      AfterInterrupts(page, now, n);
      LinesAreConserved(page, Interrupts(now, n));
    }
    AfterInterrupts(page, now, |page| / LINE);
    ReadableIffUnread(Run(page, Interrupts(now, |page| / LINE)).text);
  }
}
