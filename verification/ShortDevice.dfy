/** The short driver's text ring and time ring in memory, and the handlers that fill and
    empty them (IO_port/copy/short.c): one handler that prints at once, and one split into a
    top half that records the time and a bottom half that prints. */
module ShortDevice {
  import opened Common
  import opened ShortText
  import opened ShortFormat

  const NR_TIMEVAL := 512

  /** How many times the bottom half prints: from the tail round to the head, and once
      round when they meet. */
  function Drained(tail: nat, head: nat): (n: nat)
    requires tail < NR_TIMEVAL && head < NR_TIMEVAL
    ensures 1 <= n <= NR_TIMEVAL && (tail + n) % NR_TIMEVAL == head
  {
    if tail < head then head - tail else head + NR_TIMEVAL - tail
  }

  /** short_incr_tv */
  function IncrTv(i: nat): nat {
    if i == NR_TIMEVAL - 1 then 0 else i + 1
  }

  /** The entries from `tail` on, n of them. */
  ghost function Entries(data: seq<Time>, tail: nat, n: nat): (times: seq<Time>)
    requires |data| == NR_TIMEVAL
    ensures |times| == n
  {
    seq(n, i requires 0 <= i => data[(tail + i) % NR_TIMEVAL])
  }

  class ShortDev {
    const page: array<char>
    var head: nat
    var tail: nat
    const tvData: array<Time>
    var tvHead: nat
    var tvTail: nat
    var count: nat                // short_wq_count
    ghost var pending: seq<Time>  // the interrupts since the last bottom half

    ghost predicate Valid()
      reads this, page, tvData
    {
      && ShortText.Valid(Text())
      && tvData.Length == NR_TIMEVAL && tvHead < NR_TIMEVAL && tvTail < NR_TIMEVAL
      && count == |pending|
      && tvHead == (tvTail + |pending|) % NR_TIMEVAL
      && (|pending| <= NR_TIMEVAL ==> Entries(tvData[..], tvTail, |pending|) == pending)
    }

    ghost function Text(): Text
      reads this, page
    {
      ShortText.Text(page[..], head, tail)
    }

    constructor (size: PageSize, memory: string)
      requires |memory| == size
      ensures Valid() && Text() == ShortText.Text(memory, 0, 0) && pending == []
      ensures fresh(page) && fresh(tvData)
    {
      page := new char[size](i requires 0 <= i < size => memory[i]);
      tvData := new Time[NR_TIMEVAL](_ => TimeVal(0, 0));
      head, tail, tvHead, tvTail, count, pending := 0, 0, 0, 0, 0, [];
    }

    /** sprintf at short_head, and short_incr_bp. */
    method Print(line: string)
      requires ShortText.Valid(Text()) && |line| == LINE
      modifies page, `head
      ensures ShortText.Valid(Text()) && Text() == Append(old(Text()), line)
    {
      AlignedFits(head, page.Length);
      AppendIsValid(Text(), line);
      for i := 0 to LINE
        invariant head == old(head) && tail == old(tail)
        invariant forall k :: 0 <= k < page.Length ==>
                    page[k] == if head <= k < head + i then line[k - head] else old(page[k])
      {
        page[head + i] := line[i];
      }
      assert page[..] == Overlay(old(page[..]), head, line);
      head := IncrBp(head, LINE, page.Length);
    }

    /** short_interrupt */
    method Interrupt(now: Time)
      requires Valid()
      modifies page, `head
      ensures Valid() && Text() == Append(old(Text()), LineOf(now)) && pending == old(pending)
    {
      Print(LineOf(now));
    }

    /** short_i_read, where the ring is not empty and nothing happens meanwhile. */
    method Read(want: nat, fault: bool) returns (r: Result, out: string)
      requires Valid() && Unread(Text()) != ""
      modifies `tail
      ensures Valid() && pending == old(pending)
      ensures if fault then r == BadAddress && Text() == old(Text())
              else r == Done(|out|) && Text() == Taken(old(Text()), |out|)
      ensures !fault ==> out + Unread(Text()) == old(Unread(Text())) && (want > 0 ==> out != "")
      ensures !fault ==> |out| <= want
                         && (|out| == want || Unread(Text()) == "" || old(tail) + |out| == page.Length)
    {
      hide Unread, Entries;
      ReadableIffUnread(Text());
      ReadableIsAll(Text());
      var n := if head >= tail then head - tail else page.Length - tail;
      n := Min(want, n);
      if fault {
        return BadAddress, "";
      }
      ReadTakesFront(Text(), n);
      out := page[tail..tail + n];
      tail := IncrBp(tail, n, page.Length);
      r := Done(n);
    }

    /** short_wq_interrupt and short_tl_interrupt: the top half. */
    method TopHalf(now: Time)
      requires Valid()
      modifies this, tvData
      ensures Valid() && Text() == old(Text()) && pending == old(pending) + [now]
      ensures tvTail == old(tvTail)
    {
      ghost var before := tvData[..];
      tvData[tvHead] := now;
      TimeAdded(before, tvTail, pending, now);
      tvHead := IncrTv(tvHead);
      count := count + 1;
      pending := pending + [now];
    }

    /** The loop of short_do_tasklet, a do-while: it prints at least one time. */
    method PrintTimes()
      requires ShortText.Valid(Text()) && tvData.Length == NR_TIMEVAL && tvHead < NR_TIMEVAL && tvTail < NR_TIMEVAL
      modifies page, `head, `tvTail
      ensures ShortText.Valid(Text()) && tvTail == tvHead
      ensures var times := Entries(tvData[..], old(tvTail), Drained(old(tvTail), tvHead));
              Text() == AppendAll(old(Text()), LinesOf(times))
    {
      hide Entries, AppendAll, Append, LinesOf, LineOf, Drained, ShortText.Valid;
      ghost var total, n := Drained(tvTail, tvHead), 0;
      ghost var times := Entries(tvData[..], tvTail, total);
      NoLines(Text(), times);
      var again := true;
      while again
        invariant 0 <= n <= total && (again <==> n < total)
        invariant tvTail == (old(tvTail) + n) % NR_TIMEVAL
        invariant ShortText.Valid(Text())
        invariant Text() == AppendAll(old(Text()), LinesOf(times[..n]))
        decreases total - n
      {
        DrainNext(tvData[..], old(tvTail), tvHead, n);
        LinesMore(times, n);
        AppendOne(old(Text()), LinesOf(times[..n]), LineOf(times[n]));
        Print(LineOf(tvData[tvTail]));
        tvTail := IncrTv(tvTail);
        again := tvTail != tvHead;
        n := n + 1;
      }
      assert times[..n] == times;
    }

    /** short_do_tasklet: the bottom half. It prints the count and then the recorded times,
        which are the interrupts since the last time exactly when there were between 1 and
        512 of them. */
    method DoTasklet()
      requires Valid() && count < 1000000
      modifies this, page
      ensures Valid() && tvTail == tvHead == old(tvHead) && count == 0 && pending == []
      ensures |CountLine(old(count))| == LINE && ShowsCount(CountLine(old(count)), old(count))
      ensures var times := Entries(old(tvData[..]), old(tvTail), Drained(old(tvTail), old(tvHead)));
              && Text() == AppendAll(old(Text()), [CountLine(old(count))] + LinesOf(times))
              && (times == old(pending) <==> 1 <= |old(pending)| <= NR_TIMEVAL)
              && (Unread(Text()) == old(Unread(Text())) + Concat([CountLine(old(count))] + LinesOf(times))
                  <==> |old(Unread(Text()))| + LINE * (1 + |times|) < page.Length)
    {
      hide Entries, AppendAll, Append, LinesOf, LineOf, CountLine, ShowsCount, Drained, ShortText.Valid, Unread, Concat;
      DrainedIsPending(tvData[..], tvTail, pending);
      var savecount := count;
      count := 0;
      CountLineIs16(savecount);
      CountLineReadsBack(savecount);
      ghost var times := Entries(tvData[..], tvTail, Drained(tvTail, tvHead));
      AppendOne(Text(), [], CountLine(savecount));
      AppendMore(Text(), [CountLine(savecount)], LinesOf(times));
      AppendAllNeedsRoom(Text(), [CountLine(savecount)] + LinesOf(times));
      Print(CountLine(savecount));
      PrintTimes();
      pending := [];
      assert Entries(tvData[..], tvTail, 0) == [];
    }
  }

  lemma NoLines(t: Text, times: seq<Time>)
    requires ShortText.Valid(t)
    ensures AppendAll(t, LinesOf(times[..0])) == t
  {
  }

  lemma {:induction false} AppendMore(t: Text, lines: seq<string>, more: seq<string>)
    requires ShortText.Valid(t) && Lines(lines) && Lines(more)
    ensures AppendAll(t, lines + more) == AppendAll(AppendAll(t, lines), more)
    decreases |more|
  {
    if more == [] {
      assert lines + more == lines;
    } else {
      AppendMore(t, lines, more[..|more| - 1]);
      assert (lines + more)[..|lines + more| - 1] == lines + more[..|more| - 1];
    }
  }

  lemma AppendOne(t: Text, lines: seq<string>, line: string)
    requires ShortText.Valid(t) && Lines(lines) && |line| == LINE
    ensures AppendAll(t, lines + [line]) == Append(AppendAll(t, lines), line)
    ensures lines == [] ==> AppendAll(t, [line]) == Append(t, line)
  {
    assert (lines + [line])[..|lines|] == lines;
    assert lines == [] ==> lines + [line] == [line];
  }

  lemma LinesMore(times: seq<Time>, n: nat)
    requires n < |times|
    ensures LinesOf(times[..n + 1]) == LinesOf(times[..n]) + [LineOf(times[n])]
  {
  }

  /** Where the bottom half is after n times, and whether it is done. */
  lemma DrainNext(data: seq<Time>, tail: nat, head: nat, n: nat)
    requires |data| == NR_TIMEVAL && tail < NR_TIMEVAL && head < NR_TIMEVAL && n < Drained(tail, head)
    ensures var at := (tail + n) % NR_TIMEVAL;
            && Entries(data, tail, Drained(tail, head))[n] == data[at]
            && IncrTv(at) == (tail + n + 1) % NR_TIMEVAL
            && (IncrTv(at) == head <==> n + 1 == Drained(tail, head))
  {
  }

  lemma DrainedIsPending(data: seq<Time>, tail: nat, pending: seq<Time>)
    requires |data| == NR_TIMEVAL && tail < NR_TIMEVAL
    requires |pending| <= NR_TIMEVAL ==> Entries(data, tail, |pending|) == pending
    ensures var head := (tail + |pending|) % NR_TIMEVAL;
            Entries(data, tail, Drained(tail, head)) == pending <==> 1 <= |pending| <= NR_TIMEVAL
  {
    var head := (tail + |pending|) % NR_TIMEVAL;
    assert 1 <= Drained(tail, head) <= NR_TIMEVAL;
    if 1 <= |pending| <= NR_TIMEVAL {
      assert Drained(tail, head) == |pending|;
    }
  }

  lemma TimeAdded(data: seq<Time>, tail: nat, pending: seq<Time>, now: Time)
    requires |data| == NR_TIMEVAL && tail < NR_TIMEVAL
    requires |pending| <= NR_TIMEVAL ==> Entries(data, tail, |pending|) == pending
    ensures var head := (tail + |pending|) % NR_TIMEVAL;
            && IncrTv(head) == (tail + |pending| + 1) % NR_TIMEVAL
            && (|pending| < NR_TIMEVAL ==> Entries(data[head := now], tail, |pending| + 1) == pending + [now])
  {
  }
}
