/** The lines that the short driver's interrupt handlers print (IO_port/copy/short.c), with
    sprintf's conversions and the C types written out. */
module ShortFormat {

  /** What a line should come to: the driver assumes that PAGE_SIZE is a multiple of it. */
  const LINE := 16

  /** Decimal digits, without leading zeros. */
  function Digits(n: nat): (s: string)
    ensures |s| > 0
  {
    if n < 10 then [DigitChar(n)] else Digits(n / 10) + [DigitChar(n % 10)]
  }

  function DigitChar(d: nat): char
    requires d < 10
  {
    '0' + d as char
  }

  /** A field at least `width` wide, filled from the left. */
  function Pad(fill: char, width: nat, s: string): string
    decreases width - |s|
  {
    if |s| >= width then s else Pad(fill, width, [fill] + s)
  }

  /** What %u makes of an int: 32 bits, unsigned. */
  function Unsigned(x: int): nat
    requires -0x8000_0000 <= x < 0x8000_0000
  {
    if x >= 0 then x else x + 0x1_0000_0000
  }

  /** C's remainder, which has the sign of the dividend. */
  function Remainder(x: int, m: int): int
    requires m > 0
  {
    if x >= 0 then x % m else -((-x) % m)
  }

  const SECONDS := 100000000

  /** sprintf(..., "%08u.%06u\n", (int)(tv_sec % 100000000), (int)tv_usec) */
  function TimeLine(sec: int, usec: int): string
    requires -0x8000_0000 <= usec < 0x8000_0000
  {
    Pad('0', 8, Digits(Unsigned(Remainder(sec, SECONDS)))) + "." + Pad('0', 6, Digits(Unsigned(usec))) + "\n"
  }

  /** sprintf(..., "bh after %6i\n", savecount), for a count that is not negative */
  function CountLine(count: nat): string {
    "bh after " + Pad(' ', 6, Digits(count)) + "\n"
  }

  // ------------------------------------------------------------------ lengths

  function Pow10(k: nat): (p: nat)
    ensures p > 0
  {
    if k == 0 then 1 else 10 * Pow10(k - 1)
  }

  lemma {:induction false} DigitsFit(n: nat, k: nat)
    requires k > 0
    ensures |Digits(n)| <= k <==> n < Pow10(k)
  {
    if n < 10 {
      Pow10Grows(k);
    } else if k == 1 {
    } else {
      DigitsFit(n / 10, k - 1);
    }
  }

  lemma {:induction false} Pow10Grows(k: nat)
    requires k > 0
    ensures Pow10(k) >= 10
  {
    if k > 1 {
      Pow10Grows(k - 1);
    }
  }

  lemma {:induction false} PadLength(fill: char, width: nat, s: string)
    ensures |Pad(fill, width, s)| == if |s| < width then width else |s|
    decreases width - |s|
  {
    if |s| < width {
      PadLength(fill, width, [fill] + s);
    }
  }

  lemma FieldLength(fill: char, width: nat, n: nat)
    requires width > 0
    ensures |Pad(fill, width, Digits(n))| >= width
    ensures |Pad(fill, width, Digits(n))| == width <==> n < Pow10(width)
  {
    DigitsFit(n, width);
    PadLength(fill, width, Digits(n));
  }

  lemma Powers()
    ensures Pow10(6) == 1000000 && Pow10(8) == SECONDS
  {
    assert Pow10(3) == 1000;
  }

  /** A time line has the 16 characters that the handler insists on exactly when the seconds
      left over are not negative and the microseconds are below a million. */
  lemma TimeLineIs16(sec: int, usec: int)
    requires -0x8000_0000 <= usec < 0x8000_0000
    ensures |TimeLine(sec, usec)| == 16 <==> (sec >= 0 || Remainder(sec, SECONDS) == 0) && 0 <= usec < 1000000
  {
    Powers();
    FieldLength('0', 8, Unsigned(Remainder(sec, SECONDS)));
    FieldLength('0', 6, Unsigned(usec));
  }

  lemma CountLineIs16(count: nat)
    ensures |CountLine(count)| == 16 <==> count < 1000000
  {
    Powers();
    FieldLength(' ', 6, count);
  }

  // ------------------------------------------------------------------ reading a line back

  /** The number that digits stand for. */
  function Number(s: string): int {
    if s == [] then 0 else 10 * Number(s[..|s| - 1]) + (s[|s| - 1] as int - '0' as int)
  }

  lemma {:induction false} NumberOfDigits(n: nat)
    ensures Number(Digits(n)) == n
  {
    var s := Digits(n);
    if n < 10 {
      assert s[..0] == [];
    } else {
      NumberOfDigits(n / 10);
      assert s[..|s| - 1] == Digits(n / 10);
    }
  }

  lemma {:induction false} LeadingZero(s: string)
    ensures Number("0" + s) == Number(s)
  {
    var t := "0" + s;
    if s == [] {
      assert t[..0] == [];
    } else {
      LeadingZero(s[..|s| - 1]);
      assert t[..|t| - 1] == "0" + s[..|s| - 1];
    }
  }

  lemma {:induction false} NumberOfPadded(width: nat, s: string)
    ensures Number(Pad('0', width, s)) == Number(s)
    decreases width - |s|
  {
    if |s| < width {
      NumberOfPadded(width, "0" + s);
      LeadingZero(s);
    }
  }

  ghost predicate AllDigits(s: string) {
    forall i :: 0 <= i < |s| ==> '0' <= s[i] <= '9'
  }

  lemma {:induction false} DigitsAreDigits(n: nat)
    ensures AllDigits(Digits(n)) && (n > 0 ==> Digits(n)[0] != '0') && (n == 0 ==> |Digits(n)| == 1)
  {
    if n >= 10 {
      DigitsAreDigits(n / 10);
    }
  }

  /** A field is its fill characters, as many as are missing, and then what fills it. */
  lemma {:induction false} PadFills(fill: char, width: nat, s: string)
    ensures var p := Pad(fill, width, s);
            var k := |p| - |s|;
            && k == (if |s| < width then width - |s| else 0) && p[k..] == s && forall i :: 0 <= i < k ==> p[i] == fill
    decreases width - |s|
  {
    if |s| < width {
      PadFills(fill, width, [fill] + s);
      var p := Pad(fill, width, s);
      var k := |p| - |s|;
      assert p[k - 1..] == [fill] + s;
      assert p[k..] == p[k - 1..][1..];
    }
  }

  /** A field of decimal digits that stands for n. */
  ghost predicate IsNumber(s: string, n: nat) {
    AllDigits(s) && Number(s) == n
  }

  lemma {:induction false} ZeroesAreDigits(width: nat, s: string)
    requires AllDigits(s)
    ensures AllDigits(Pad('0', width, s))
    decreases width - |s|
  {
    if |s| < width {
      ZeroesAreDigits(width, ['0'] + s);
    }
  }

  lemma FieldIsNumber(width: nat, n: nat)
    ensures IsNumber(Pad('0', width, Digits(n)), n)
  {
    hide AllDigits, Pad, Digits, Number;
    DigitsAreDigits(n);
    ZeroesAreDigits(width, Digits(n));
    NumberOfPadded(width, Digits(n));
    NumberOfDigits(n);
  }

  /** A time, as a line of 16 characters shows it: eight digits of seconds, six of
      microseconds. */
  ghost predicate ShowsTime(s: string, sec: nat, usec: nat) {
    && |s| == LINE && s[8] == '.' && s[15] == '\n'
    && IsNumber(s[..8], sec % SECONDS) && IsNumber(s[9..15], usec)
  }

  /** A count, as a line shows it: right-aligned in six places or, if it needs more, in more;
      with no zero in front. */
  ghost predicate ShowsCount(s: string, count: nat) {
    |s| >= LINE && s[..9] == "bh after " && s[|s| - 1] == '\n' &&
    exists k ::
      && 9 <= k < |s| - 1 && (forall i :: 9 <= i < k ==> s[i] == ' ') && (k > 9 ==> |s| == LINE)
      && IsNumber(s[k..|s| - 1], count) && (s[k] == '0' ==> k == |s| - 2)
  }

  /** A time line determines the time, up to the seconds that wrapped. */
  lemma TimeLineReadsBack(sec: nat, usec: nat)
    requires usec < 1000000
    ensures ShowsTime(TimeLine(sec, usec), sec, usec)
  {
    TimeLineIs16(sec, usec);
    Powers();
    FieldLength('0', 8, sec % SECONDS);
    FieldLength('0', 6, usec);
    FieldIsNumber(8, sec % SECONDS);
    FieldIsNumber(6, usec);
    var s := TimeLine(sec, usec);
    assert s[..8] == Pad('0', 8, Digits(sec % SECONDS));
    assert s[9..15] == Pad('0', 6, Digits(usec));
  }

  /** And for any seconds and microseconds, what C makes of them: of a negative number, its
      distance to the next 2 to the 32nd. */
  lemma TimeLineShows(sec: int, usec: int) returns (a: string, b: string)
    requires -0x8000_0000 <= usec < 0x8000_0000
    ensures TimeLine(sec, usec) == a + "." + b + "\n" && |a| >= 8 && |b| >= 6
    ensures IsNumber(a, if sec >= 0 || -sec % SECONDS == 0 then sec % SECONDS else 0x1_0000_0000 - (-sec) % SECONDS)
    ensures IsNumber(b, if usec >= 0 then usec else 0x1_0000_0000 + usec)
  {
    var x, y := Unsigned(Remainder(sec, SECONDS)), Unsigned(usec);
    a, b := Pad('0', 8, Digits(x)), Pad('0', 6, Digits(y));
    FieldLength('0', 8, x);
    FieldLength('0', 6, y);
    FieldIsNumber(8, x);
    FieldIsNumber(6, y);
  }

  /** A count line determines the count. */
  lemma CountLineReadsBack(count: nat)
    ensures ShowsCount(CountLine(count), count)
  {
    hide Digits, Pad, AllDigits, Number, ShowsCount;
    PadFills(' ', 6, Digits(count));
    DigitsAreDigits(count);
    NumberOfDigits(count);
    FieldShows(Pad(' ', 6, Digits(count)), Digits(count), count);
  }

  lemma FieldShows(p: string, d: string, count: nat)
    requires IsNumber(d, count) && d != "" && (d[0] == '0' ==> |d| == 1) && |d| <= |p|
    requires |p| >= 6 && (|p| > |d| ==> |p| == 6)
    requires p[|p| - |d|..] == d && forall i :: 0 <= i < |p| - |d| ==> p[i] == ' '
    ensures ShowsCount("bh after " + p + "\n", count)
  {
    hide AllDigits, Number;
    var s := "bh after " + p + "\n";
    var k := 9 + |p| - |d|;
    assert s[9..|s| - 1] == p;
    assert s[k..|s| - 1] == s[9..|s| - 1][k - 9..] == d;
    assert s[..9] == "bh after ";
    assert forall i :: 9 <= i < k ==> s[i] == p[i - 9];
    assert s[k] == d[0];
  }

  // ------------------------------------------------------------------ lines of the clock

  ghost predicate Lines(lines: seq<string>) {
    forall i :: 0 <= i < |lines| ==> |lines[i]| == LINE
  }

  datatype TimeVal = TimeVal(sec: nat, usec: nat)

  /** What do_gettimeofday returns. */
  type Time = t: TimeVal | t.usec < 1000000 witness TimeVal(0, 0)

  function LineOf(t: Time): (s: string)
    ensures |s| == LINE && ShowsTime(s, t.sec, t.usec)
  {
    TimeLineIs16(t.sec, t.usec);
    TimeLineReadsBack(t.sec, t.usec);
    TimeLine(t.sec, t.usec)
  }

  ghost function LinesOf(times: seq<Time>): (lines: seq<string>)
    ensures |lines| == |times| && Lines(lines)
    ensures forall i :: 0 <= i < |times| ==> lines[i] == LineOf(times[i])
  {
    seq(|times|, i requires 0 <= i < |times| => LineOf(times[i]))
  }
}
