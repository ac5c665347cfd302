/**
  Timestamps and the elapsed-time text (script.js:93, script.js:207-211), and the
  text form a timestamp takes in stored JSON (script.js:105-106, 143-144, 223-224).
 */
module Clock {
  import opened Wrappers

  /**
    A JavaScript `Date`: an instant in milliseconds since the epoch, or the Invalid Date
    that `new Date(text)` yields for text it cannot read. Both are truthy objects.
   */
  datatype Date = At(millis: int) | InvalidDate

  /** What getTimeDiff reports: whole minutes and the whole seconds left over. */
  datatype Elapsed = Elapsed(minutes: nat, seconds: nat)

  /** The elapsed-time text: the placeholder "—", a minutes/seconds pair, or "NaN" when a date is invalid. */
  datatype TimeDisplay = Placeholder | Shown(elapsed: Elapsed) | NotANumber

  function Abs(x: int): (r: nat)
    ensures r == x || r == -x
  {
    if x < 0 then -x else x
  }

  /** Splitting a non-negative millisecond count into minutes and seconds loses only the sub-second part. */
  lemma SplitMillis(ms: nat)
    ensures (ms % 60000) / 1000 < 60
    ensures (ms / 60000) * 60 + (ms % 60000) / 1000 == ms / 1000
  {
    var m, r := ms / 60000, ms % 60000;
    var s, r2 := r / 1000, r % 1000;
    assert ms == 60000 * m + 1000 * s + r2;
    assert ms == 1000 * (60 * m + s) + r2;
  }

  /** getTimeDiff: the distance between two instants in whole minutes and seconds; floor equals Dafny's division on the non-negative delta. */
  function TimeDiff(start: int, end: int): (e: Elapsed)
    ensures e.seconds < 60
    ensures e.minutes * 60 + e.seconds == Abs(end - start) / 1000
  {
    var ms := Abs(end - start);
    SplitMillis(ms);
    Elapsed(ms / 60000, (ms % 60000) / 1000)
  }

  /** The time delta does not depend on the order of its arguments, and is zero for equal instants. */
  lemma TimeDiffSymmetric(a: int, b: int)
    ensures TimeDiff(a, b) == TimeDiff(b, a)
    ensures a == b ==> TimeDiff(a, b) == Elapsed(0, 0)
  {
    assert Abs(b - a) == Abs(a - b);
  }

  /** The time text of calculateDistance: shown only when both dates are present. */
  function ShownTime(startTime: Option<Date>, endTime: Option<Date>): (t: TimeDisplay)
    ensures t == Placeholder <==> startTime.None? || endTime.None?
    ensures t.Shown? <==> startTime.Some? && endTime.Some? && startTime.value.At? && endTime.value.At?
    ensures t.Shown? ==> t.elapsed == TimeDiff(startTime.value.millis, endTime.value.millis)
  {
    if startTime.None? || endTime.None? then Placeholder
    else if startTime.value.InvalidDate? || endTime.value.InvalidDate? then NotANumber
    else Shown(TimeDiff(startTime.value.millis, endTime.value.millis))
  }

  // Text form of an instant. toISOString's ISO-8601 text is abstracted as an injective
  // encoding: the signed decimal millisecond count, which `ParseDate` reads back.

  predicate IsDigit(c: char)
  {
    '0' <= c <= '9'
  }

  predicate AllDigits(s: string)
  {
    forall i :: 0 <= i < |s| ==> IsDigit(s[i])
  }

  function DigitChar(d: nat): (c: char)
    requires d < 10
    ensures IsDigit(c) && c as int - '0' as int == d
  {
    ('0' as int + d) as char
  }

  /** The decimal digits of `n`, most significant first. */
  function Decimal(n: nat): (s: string)
    ensures s != [] && AllDigits(s)
    decreases n
  {
    if n < 10 then [DigitChar(n)] else Decimal(n / 10) + [DigitChar(n % 10)]
  }

  /** The number a string of decimal digits denotes. */
  function DigitsValue(s: string): nat
    requires AllDigits(s)
  {
    if s == [] then 0
    else DigitsValue(s[..|s| - 1]) * 10 + (s[|s| - 1] as int - '0' as int)
  }

  lemma {:induction false} DecimalValue(n: nat)
    ensures DigitsValue(Decimal(n)) == n
    decreases n
  {
    if n >= 10 {
      var s := Decimal(n / 10);
      assert (s + [DigitChar(n % 10)])[..|s|] == s;
      DecimalValue(n / 10);
    }
  }

  /** toISOString, abstracted: never empty, so a stored timestamp is always truthy. */
  function IsoString(ms: int): (s: string)
    ensures s != []
  {
    if ms < 0 then "-" + Decimal(-ms) else Decimal(ms)
  }

  /** `new Date(text)`: the instant the text denotes, or the Invalid Date. */
  function ParseDate(s: string): (d: Date)
    ensures s == [] ==> d == InvalidDate
    ensures d.At? ==> IsDigit(s[0]) || (s[0] == '-' && |s| >= 2)
  {
    if s != [] && AllDigits(s) then At(DigitsValue(s))
    else if |s| >= 2 && s[0] == '-' && AllDigits(s[1..]) then At(0 - DigitsValue(s[1..]) as int)
    else InvalidDate
  }

  /** Reading back the text of an instant yields that instant. */
  lemma IsoStringRoundTrip(ms: int)
    ensures ParseDate(IsoString(ms)) == At(ms)
  {
    if ms < 0 {
      var d := Decimal(-ms);
      DecimalValue(-ms);
      assert ("-" + d)[1..] == d;
      assert !IsDigit(("-" + d)[0]);
    } else {
      DecimalValue(ms);
    }
  }

  /** Distinct instants have distinct texts. */
  lemma IsoStringInjective(a: int, b: int)
    requires IsoString(a) == IsoString(b)
    ensures a == b
  {
    IsoStringRoundTrip(a);
    IsoStringRoundTrip(b);
  }
}
