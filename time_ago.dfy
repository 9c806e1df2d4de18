/** The relative time shown next to a notification (the private `getTimeAgo`
    of NotificationsScreen.kt). The clock reading `now` is a parameter. Both
    times are Kotlin `Long`s, so their difference wraps around at 64 bits. */
module TimeAgo {
  import opened Text

  const MinuteMs: int := 60 * 1000
  const HourMs: int := 60 * 60 * 1000
  const DayMs: int := 24 * 60 * 60 * 1000

  const TwoTo63: int := 0x8000_0000_0000_0000
  const TwoTo64: int := 0x1_0000_0000_0000_0000

  predicate IsLong(x: int) {
    -TwoTo63 <= x < TwoTo63
  }

  /** Kotlin `a - b` on `Long`: the mathematical difference wrapped into the
      64-bit range. */
  function LongSub(a: int, b: int): (r: int)
    requires IsLong(a) && IsLong(b)
    ensures IsLong(r)
    ensures (a - b - r) % TwoTo64 == 0
    ensures IsLong(a - b) ==> r == a - b
  {
    (a - b + TwoTo63) % TwoTo64 - TwoTo63
  }

  /** Which of the four phrases a difference falls into, and the count of
      whole units it reports. */
  datatype Elapsed = JustNow | Minutes(n: nat) | Hours(n: nat) | Days(n: nat)

  function Classify(diff: int): (e: Elapsed)
    ensures e.JustNow? <==> diff < MinuteMs
    ensures e.Minutes? <==> MinuteMs <= diff < HourMs
    ensures e.Hours? <==> HourMs <= diff < DayMs
    ensures e.Days? <==> DayMs <= diff
    ensures e.Minutes? ==> 1 <= e.n <= 59 && e.n * MinuteMs <= diff < (e.n + 1) * MinuteMs
    ensures e.Hours? ==> 1 <= e.n <= 23 && e.n * HourMs <= diff < (e.n + 1) * HourMs
    ensures e.Days? ==> 1 <= e.n && e.n * DayMs <= diff < (e.n + 1) * DayMs
  {
    if diff < MinuteMs then JustNow
    else if diff < HourMs then Minutes(diff / MinuteMs)
    else if diff < DayMs then Hours(diff / HourMs)
    else Days(diff / DayMs)
  }

  predicate IsDigit(c: char) {
    '0' <= c <= '9'
  }

  predicate AllDigits(s: string) {
    forall i :: 0 <= i < |s| ==> IsDigit(s[i])
  }

  /** Kotlin's `"$n"` for a non-negative number. */
  function DecimalString(n: nat): (s: string)
    ensures |s| >= 1 && AllDigits(s)
  {
    if n < 10 then [('0' as int + n) as char]
    else DecimalString(n / 10) + [('0' as int + n % 10) as char]
  }

  /** The number a string of decimal digits denotes. */
  function DecimalValue(s: string): nat
    requires AllDigits(s)
  {
    if s == [] then 0
    else DecimalValue(s[..|s| - 1]) * 10 + (s[|s| - 1] as int - '0' as int)
  }

  lemma {:induction false} DecimalRoundTrip(n: nat)
    ensures DecimalValue(DecimalString(n)) == n
  {
    if n >= 10 {
      DecimalRoundTrip(n / 10);
      var s := DecimalString(n);
      assert s[..|s| - 1] == DecimalString(n / 10);
    }
  }

  /** The longest prefix of `s` made of digits. */
  function LeadingDigits(s: string): (d: string)
    ensures AllDigits(d)
  {
    if s == [] || !IsDigit(s[0]) then [] else [s[0]] + LeadingDigits(s[1..])
  }

  lemma {:induction false} LeadingDigitsOfConcat(d: string, rest: string)
    requires AllDigits(d)
    requires rest == [] || !IsDigit(rest[0])
    ensures LeadingDigits(d + rest) == d
  {
    if d != [] {
      assert (d + rest)[1..] == d[1..] + rest;
      LeadingDigitsOfConcat(d[1..], rest);
    }
  }

  /** The number a phrase starts with. */
  function ReadNumber(s: string): nat {
    DecimalValue(LeadingDigits(s))
  }

  predicate EndsWith(s: string, suffix: string) {
    |suffix| <= |s| && s[|s| - |suffix|..] == suffix
  }

  function Phrase(n: nat, unit: string): string {
    DecimalString(n) + " " + (if n == 1 then unit else unit + "s") + " ago"
  }

  /** The phrase for a bucket. It reads back as the bucket's count, and its
      unit is singular exactly when the count is 1. */
  function Render(e: Elapsed): (r: string)
    ensures e.JustNow? <==> r == "Just now"
    ensures !e.JustNow? ==> ReadNumber(r) == e.n
    ensures !e.JustNow? ==> (EndsWith(r, "s ago") <==> e.n != 1)
    ensures e.Minutes? ==> Contains(r, " minute")
    ensures e.Hours? ==> Contains(r, " hour")
    ensures e.Days? ==> Contains(r, " day")
  {
    match e
    case JustNow => "Just now"
    case Minutes(n) =>
      PhraseFacts(n, "minute");
      assert " " + "minute" == " minute";
      Phrase(n, "minute")
    case Hours(n) =>
      PhraseFacts(n, "hour");
      assert " " + "hour" == " hour";
      Phrase(n, "hour")
    case Days(n) =>
      PhraseFacts(n, "day");
      assert " " + "day" == " day";
      Phrase(n, "day")
  }

  lemma PhraseFacts(n: nat, unit: string)
    requires |unit| >= 1 && unit[|unit| - 1] != 's'
    ensures Phrase(n, unit) != "Just now"
    ensures ReadNumber(Phrase(n, unit)) == n
    ensures EndsWith(Phrase(n, unit), "s ago") <==> n != 1
    ensures Contains(Phrase(n, unit), " " + unit)
  {
    PhraseReadsBack(n, unit);
    PhrasePlural(n, unit);
    PhraseNamesUnit(n, unit);
  }

  lemma PhraseReadsBack(n: nat, unit: string)
    ensures Phrase(n, unit) != "Just now"
    ensures ReadNumber(Phrase(n, unit)) == n
  {
    var d := DecimalString(n);
    var rest := " " + (if n == 1 then unit else unit + "s") + " ago";
    assert Phrase(n, unit) == d + rest;
    assert IsDigit(Phrase(n, unit)[0]);
    LeadingDigitsOfConcat(d, rest);
    DecimalRoundTrip(n);
  }

  lemma PhrasePlural(n: nat, unit: string)
    requires |unit| >= 1 && unit[|unit| - 1] != 's'
    ensures EndsWith(Phrase(n, unit), "s ago") <==> n != 1
  {
    var p := Phrase(n, unit);
    if n == 1 {
      assert p[|p| - 5] == unit[|unit| - 1];
    } else {
      assert p == (DecimalString(n) + " " + unit) + "s ago";
    }
  }

  lemma PhraseNamesUnit(n: nat, unit: string)
    ensures Contains(Phrase(n, unit), " " + unit)
  {
    var tail := (if n == 1 then "" else "s") + " ago";
    assert Phrase(n, unit) == DecimalString(n) + (" " + unit) + tail;
    ContainsInConcat(DecimalString(n), " " + unit, tail);
  }

  /** `getTimeAgo(timestamp)` read at time `now`. */
  function GetTimeAgo(timestamp: int, now: int): (r: string)
    requires IsLong(timestamp) && IsLong(now)
    ensures r == "Just now" <==> LongSub(now, timestamp) < MinuteMs
    ensures r == Render(Classify(LongSub(now, timestamp)))
  {
    Render(Classify(LongSub(now, timestamp)))
  }
}
