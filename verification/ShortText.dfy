/** The short driver's text ring (IO_port/copy/short.c): a page that interrupt handlers fill
    in lines of 16 characters and readers drain in pieces of any size. No slot is kept
    free, so a ring that is exactly full looks empty. */
module ShortText {
  import opened Common
  import opened ShortFormat

  /** PAGE_SIZE: the driver assumes a multiple of 16. */
  type PageSize = n: nat | n % LINE == 0 && n > LINE witness 32

  /** Offsets stand for short_head and short_tail, less short_buffer. */
  datatype Text = Text(page: string, head: nat, tail: nat)

  ghost predicate Valid(t: Text) {
    && |t.page| % LINE == 0 && |t.page| > LINE
    && t.head < |t.page| && t.head % LINE == 0
    && t.tail < |t.page|
  }

  /** short_incr_bp */
  function IncrBp(index: nat, delta: nat, size: nat): nat {
    if index + delta >= size then 0 else index + delta
  }

  ghost function Unread(t: Text): string
    requires Valid(t)
  {
    if t.tail <= t.head then t.page[t.tail..t.head] else t.page[t.tail..] + t.page[..t.head]
  }

  /** What short_i_read may take at once: up to the head, or up to the end of the page. */
  function Readable(t: Text): nat
    requires t.tail <= |t.page|
  {
    if t.head >= t.tail then t.head - t.tail else |t.page| - t.tail
  }

  /** sprintf at the head, ... */
  ghost function Printed(t: Text, line: string): Text
    requires Valid(t) && |line| == LINE
  {
    AlignedFits(t.head, |t.page|);
    t.(page := Overlay(t.page, t.head, line))
  }

  /** ... and the head moves. */
  ghost function Advanced(t: Text): Text {
    t.(head := IncrBp(t.head, LINE, |t.page|))
  }

  ghost function Append(t: Text, line: string): Text
    requires Valid(t) && |line| == LINE
  {
    Advanced(Printed(t, line))
  }

  ghost function Taken(t: Text, n: nat): Text {
    t.(tail := IncrBp(t.tail, n, |t.page|))
  }

  lemma AlignedFits(head: nat, size: nat)
    requires head < size && head % LINE == 0 && size % LINE == 0
    ensures head + LINE <= size
  {
    assert head == LINE * (head / LINE) && size == LINE * (size / LINE);
  }

  lemma AppendIsValid(t: Text, line: string)
    requires Valid(t) && |line| == LINE
    ensures Valid(Printed(t, line)) && Valid(Append(t, line))
  {
    AlignedFits(t.head, |t.page|);
  }

  lemma UnreadLength(t: Text)
    requires Valid(t)
    ensures |Unread(t)| == if t.tail <= t.head then t.head - t.tail else |t.page| - t.tail + t.head
  {
  }

  /** With room, printing a line does not disturb what is there to be read. */
  lemma PrintingIsHarmless(t: Text, line: string)
    requires Valid(t) && |line| == LINE && |Unread(t)| + LINE <= |t.page|
    ensures Valid(Printed(t, line)) && Unread(Printed(t, line)) == Unread(t)
  {
    AlignedFits(t.head, |t.page|);
    var t' := Printed(t, line);
    UnreadLength(t);
    if t.tail <= t.head {
      assert t'.page[t.tail..t.head] == t.page[t.tail..t.head];
    } else {
      assert t'.page[t.tail..] == t.page[t.tail..];
      assert t'.page[..t.head] == t.page[..t.head];
    }
  }

  lemma AppendLength(t: Text, line: string)
    requires Valid(t) && |line| == LINE
    ensures Valid(Append(t, line))
    ensures var n := |Unread(t)| + LINE;
            |Unread(Append(t, line))| == if n < |t.page| then n else n - |t.page|
  {
    AppendIsValid(t, line);
    UnreadLength(t);
    UnreadLength(Append(t, line));
  }

  /** An append adds its line to what is there to be read exactly when fewer than
      PAGE_SIZE - 16 characters were. One line more, and the ring looks empty or shorter. */
  lemma AppendNeedsRoom(t: Text, line: string)
    requires Valid(t) && |line| == LINE
    ensures Valid(Append(t, line))
    ensures Unread(Append(t, line)) == Unread(t) + line <==> |Unread(t)| + LINE < |t.page|
  {
    AppendLength(t, line);
    if |Unread(t)| + LINE < |t.page| {
      PrintingIsHarmless(t, line);
      AlignedFits(t.head, |t.page|);
      assert Printed(t, line).page[t.head..t.head + LINE] == line;
      AdvancingAdds(Printed(t, line), line);
    }
  }

  /** Moving the head past a line that has been printed. */
  lemma AdvancingAdds(t: Text, line: string)
    requires Valid(t) && t.head + LINE <= |t.page| && t.page[t.head..t.head + LINE] == line
    requires |Unread(t)| + LINE < |t.page|
    ensures Valid(Advanced(t)) && Unread(Advanced(t)) == Unread(t) + line
  {
    UnreadLength(t);
    var t' := Advanced(t);
    if t'.head == 0 {
      assert 0 < t.tail <= t.head && t.head + LINE == |t.page|;
      assert t.page[t.tail..] == t.page[t.tail..t.head] + t.page[t.head..];
      assert t.page[t.head..] == line;
      assert t.page[..0] == "";
    } else if t.tail <= t.head {
      assert t.page[t.tail..t'.head] == t.page[t.tail..t.head] + line;
    } else {
      assert t.page[..t'.head] == t.page[..t.head] + line;
      assert t.page[t.tail..] + (t.page[..t.head] + line) == t.page[t.tail..] + t.page[..t.head] + line;
    }
  }

  /** What can be read at once is all that is unread, or all up to the end of the page. */
  lemma ReadableIsAll(t: Text)
    requires Valid(t)
    ensures Readable(t) <= |Unread(t)| && t.tail + Readable(t) <= |t.page|
    ensures Readable(t) == |Unread(t)| || t.tail + Readable(t) == |t.page|
  {
    UnreadLength(t);
  }

  /** A read takes from the front, as much as it may, and leaves the rest. */
  lemma ReadTakesFront(t: Text, n: nat)
    requires Valid(t) && n <= Readable(t)
    ensures n <= |Unread(t)| && t.tail + n <= |t.page|
    ensures t.page[t.tail..t.tail + n] == Unread(t)[..n]
    ensures Valid(Taken(t, n)) && Unread(Taken(t, n)) == Unread(t)[n..]
  {
    var t' := Taken(t, n);
    if t.tail <= t.head {
      assert t.page[t.tail..t.head][..n] == t.page[t.tail..t.tail + n];
    } else if t.tail + n == |t.page| {
      assert t'.page[0..t'.head] == Unread(t)[n..];
    } else {
      assert t'.page[t'.tail..] == t.page[t.tail..][n..];
    }
  }

  /** Something is there to be read exactly when something can be read at once. */
  lemma ReadableIffUnread(t: Text)
    requires Valid(t)
    ensures Readable(t) > 0 <==> Unread(t) != ""
    ensures t.head == t.tail <==> Unread(t) == ""
  {
    UnreadLength(t);
  }

  // ------------------------------------------------------------------ several lines

  ghost function AppendAll(t: Text, lines: seq<string>): (t': Text)
    requires Valid(t) && Lines(lines)
    ensures Valid(t') && |t'.page| == |t.page| && t'.tail == t.tail
    decreases |lines|
  {
    if lines == [] then t
    else
      AppendIsValid(AppendAll(t, lines[..|lines| - 1]), lines[|lines| - 1]);
      Append(AppendAll(t, lines[..|lines| - 1]), lines[|lines| - 1])
  }

  ghost function Concat(lines: seq<string>): string {
    if lines == [] then "" else Concat(lines[..|lines| - 1]) + lines[|lines| - 1]
  }

  lemma {:induction false} ConcatLength(lines: seq<string>)
    requires Lines(lines)
    ensures |Concat(lines)| == LINE * |lines|
  {
    if lines != [] {
      ConcatLength(lines[..|lines| - 1]);
    }
  }

  /** Lines appended together are all there to be read exactly when there was room for all. */
  lemma {:induction false} AppendAllNeedsRoom(t: Text, lines: seq<string>)
    requires Valid(t) && Lines(lines)
    ensures Unread(AppendAll(t, lines)) == Unread(t) + Concat(lines) <==> |Unread(t)| + LINE * |lines| < |t.page|
    decreases |lines|
  {
    hide Unread, Append;
    ConcatLength(lines);
    UnreadBelow(AppendAll(t, lines));
    UnreadBelow(t);
    if lines == [] {
      assert Unread(t) + "" == Unread(t);
    } else if |Unread(t)| + LINE * |lines| < |t.page| {
      var front, last := lines[..|lines| - 1], lines[|lines| - 1];
      AppendAllNeedsRoom(t, front);
      ConcatLength(front);
      AppendNeedsRoom(AppendAll(t, front), last);
      assert Unread(t) + Concat(front) + last == Unread(t) + (Concat(front) + last);
    }
  }

  lemma UnreadBelow(t: Text)
    requires Valid(t)
    ensures |Unread(t)| < |t.page|
  {
    UnreadLength(t);
  }
}
