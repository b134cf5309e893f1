/** A caller that loops over partial writes and reads of any file whose single calls stop at
    the end of a quantum. */
module LoopingCaller {
  import opened Common

  /** A file as such a caller sees it: states, bytes in them, and what its call number k
      does. `end` bounds the positions the caller touches. */
  datatype File<!S(!new)> = File(
    quantum: nat,
    end: nat,
    ok: S -> bool,
    size: S -> nat,
    byteAt: (S, nat) -> Option<Byte>,
    write: (S, nat, seq<Byte>, nat) -> (S, nat),
    read: (S, nat, nat, nat) -> (S, seq<Byte>)
  )

  ghost predicate Holds<S(!new)>(f: File<S>, s: S, pos: nat, data: seq<Byte>) {
    forall p: nat {:trigger f.byteAt(s, p)} :: pos <= p < pos + |data| ==> f.byteAt(s, p) == Some(data[p - pos])
  }

  /** Outside [from, until) no written byte changes. */
  ghost predicate Keeps<S(!new)>(f: File<S>, s: S, s': S, from: nat, until: nat) {
    forall p: nat {:trigger f.byteAt(s', p)} ::
      (p < from || until <= p) && f.byteAt(s, p).Some? ==> f.byteAt(s', p) == f.byteAt(s, p)
  }

  ghost predicate Wrote<S(!new)>(f: File<S>, s: S, pos: nat, data: seq<Byte>, s': S, n: nat)
    requires f.quantum > 0
  {
    && n == Span(f.quantum, pos, |data|) && f.ok(s') && f.size(s') == Max(f.size(s), pos + n)
    && Holds(f, s', pos, data[..n]) && Keeps(f, s, s', pos, pos + n)
  }

  /** A read of bytes that are there. */
  ghost predicate Got<S(!new)>(f: File<S>, s: S, pos: nat, data: seq<Byte>, s': S, out: seq<Byte>)
    requires f.quantum > 0
  {
    && f.ok(s') && f.size(s') == f.size(s) && Keeps(f, s, s', 0, 0)
    && out == data[..Span(f.quantum, pos, |data|)]
  }

  ghost predicate Serves<S(!new)>(f: File<S>) {
    && f.quantum > 0
    && (forall s: S, pos: nat, data: seq<Byte>, k: nat {:trigger f.write(s, pos, data, k)} ::
          f.ok(s) && pos + |data| <= f.end ==>
            Wrote(f, s, pos, data, f.write(s, pos, data, k).0, f.write(s, pos, data, k).1))
    && (forall s: S, pos: nat, data: seq<Byte>, k: nat {:trigger f.read(s, pos, |data|, k), Holds(f, s, pos, data)} ::
          f.ok(s) && data != [] && pos + |data| <= f.size(s) && Holds(f, s, pos, data) ==>
            Got(f, s, pos, data, f.read(s, pos, |data|, k).0, f.read(s, pos, |data|, k).1))
  }

  /** Write the rest of the data after each call, from call number k on; the result is the
      last state and the number of calls. A call that accepts nothing ends the loop. */
  ghost function WriteAll<S(!new)>(f: File<S>, s: S, pos: nat, data: seq<Byte>, k: nat): (S, nat)
    decreases |data|
  {
    if data == [] then (s, 0)
    else
      var (s', n) := f.write(s, pos, data, k);
      if !(0 < n <= |data|) then (s', 1)
      else
        var (last, calls) := WriteAll(f, s', pos + n, data[n..], k + 1);
        (last, calls + 1)
  }

  ghost function ReadAll<S(!new)>(f: File<S>, s: S, pos: nat, n: nat, k: nat): (seq<Byte>, nat)
    decreases n
  {
    if n == 0 then ([], 0)
    else
      var (s', out) := f.read(s, pos, n, k);
      if out == [] || |out| > n then ([], 1)
      else
        var (rest, calls) := ReadAll(f, s', pos + |out|, n - |out|, k + 1);
        (out + rest, calls + 1)
  }

  /** How many calls a loop makes whose every call goes to the end of its quantum. */
  function Calls(quantum: nat, pos: nat, n: nat): nat
    requires quantum > 0
    decreases n
  {
    if n == 0 then 0
    else 1 + Calls(quantum, pos + Span(quantum, pos, n), n - Span(quantum, pos, n))
  }

  lemma SpanBounds(quantum: nat, pos: nat, n: nat)
    requires quantum > 0 && n > 0
    ensures 0 < Span(quantum, pos, n) <= n
  {
  }

  lemma HoldsKept<S(!new)>(f: File<S>, s: S, s': S, pos: nat, data: seq<Byte>, from: nat, until: nat)
    requires Holds(f, s, pos, data) && Keeps(f, s, s', from, until)
    requires pos + |data| <= from || until <= pos
    ensures Holds(f, s', pos, data)
  {
    forall p: nat | pos <= p < pos + |data|
      ensures f.byteAt(s', p) == Some(data[p - pos])
    {
      assert f.byteAt(s, p) == Some(data[p - pos]);
    }
  }

  lemma KeepsBoth<S(!new)>(f: File<S>, s: S, s1: S, s': S, from: nat, mid: nat, until: nat)
    requires from <= mid <= until && Keeps(f, s, s1, from, mid) && Keeps(f, s1, s', mid, until)
    ensures Keeps(f, s, s', from, until)
  {
    forall p: nat | (p < from || until <= p) && f.byteAt(s, p).Some?
      ensures f.byteAt(s', p) == f.byteAt(s, p)
    {
      assert f.byteAt(s1, p) == f.byteAt(s, p);
    }
  }

  lemma HoldsSplit<S(!new)>(f: File<S>, s: S, pos: nat, data: seq<Byte>, n: nat)
    requires n <= |data|
    ensures Holds(f, s, pos, data) <==> Holds(f, s, pos, data[..n]) && Holds(f, s, pos + n, data[n..])
  {
  }

  /** The writing loop stores all the data, one call for each part, and disturbs no other
      written byte. */
  lemma {:induction false} WriteAllWrites<S(!new)>(f: File<S>, s: S, pos: nat, data: seq<Byte>, k: nat)
    requires Serves(f) && f.ok(s) && pos + |data| <= f.end
    ensures var (s', calls) := WriteAll(f, s, pos, data, k);
            && f.ok(s') && calls == Calls(f.quantum, pos, |data|)
            && Holds(f, s', pos, data)
            && (data != [] ==> f.size(s') == Max(f.size(s), pos + |data|))
            && Keeps(f, s, s', pos, pos + |data|)
    decreases |data|
  {
    if data != [] {
      var (s1, n) := f.write(s, pos, data, k);
      assert Wrote(f, s, pos, data, s1, n);
      SpanBounds(f.quantum, pos, |data|);
      WriteAllWrites(f, s1, pos + n, data[n..], k + 1);
      var (s', calls) := WriteAll(f, s1, pos + n, data[n..], k + 1);
      KeepsBoth(f, s, s1, s', pos, pos + n, pos + |data|);
      HoldsKept(f, s1, s', pos, data[..n], pos + n, pos + |data|);
      HoldsSplit(f, s', pos, data, n);
    }
  }

  /** The reading loop returns bytes that are there, in as many calls. */
  lemma {:induction false} ReadAllReads<S(!new)>(f: File<S>, s: S, pos: nat, data: seq<Byte>, k: nat)
    requires Serves(f) && f.ok(s) && (data == [] || pos + |data| <= f.size(s))
    requires Holds(f, s, pos, data)
    ensures ReadAll(f, s, pos, |data|, k) == (data, Calls(f.quantum, pos, |data|))
    decreases |data|
  {
    if data != [] {
      var (s', out) := f.read(s, pos, |data|, k);
      assert Got(f, s, pos, data, s', out);
      SpanBounds(f.quantum, pos, |data|);
      var n := |out|;
      HoldsSplit(f, s, pos, data, n);
      HoldsKept(f, s, s', pos + n, data[n..], 0, 0);
      ReadAllReads(f, s', pos + n, data[n..], k + 1);
      assert |data[n..]| == |data| - n;
      assert out + data[n..] == data;
    }
  }
}
