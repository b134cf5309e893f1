/** Vocabulary shared by every device: bytes, optional values, call results and the
    kernel's copy between user and kernel memory. */
module Common {

  newtype Byte = x: int | 0 <= x < 256

  datatype Option<+T> = None | Some(value: T)

  /** What a read or write system call returns: a byte count or one of the error codes. */
  datatype Result =
    | Done(count: nat)
    | NoMemory      // -ENOMEM
    | BadAddress    // -EFAULT
    | TryAgain      // -EAGAIN
    | Interrupted   // -ERESTARTSYS

  function Min(a: int, b: int): int {
    if a < b then a else b
  }

  function Max(a: int, b: int): int {
    if a < b then b else a
  }

  /** How many of `count` bytes at `pos` come before the end of its quantum. */
  function Span(quantum: nat, pos: nat, count: nat): nat
    requires quantum > 0
  {
    Min(count, quantum - pos % quantum)
  }

  /** `s` with `data` laid over it from index `at` on. */
  function Overlay<T>(s: seq<T>, at: nat, data: seq<T>): (r: seq<T>)
    requires at + |data| <= |s|
    ensures |r| == |s|
    ensures forall k :: 0 <= k < |s| ==> r[k] == if at <= k < at + |data| then data[k - at] else s[k]
  {
    s[..at] + data + s[at + |data|..]
  }

  /** copy_from_user, byte by byte, into kernel memory at `at`. */
  method CopyFromUser<T>(a: array<T>, at: nat, data: seq<T>)
    requires at + |data| <= a.Length
    modifies a
    ensures a[..] == Overlay(old(a[..]), at, data)
  {
    for i := 0 to |data|
      invariant forall k :: 0 <= k < a.Length ==>
                  a[k] == if at <= k < at + i then data[k - at] else old(a[k])
    {
      a[at + i] := data[i];
    }
  }
}
