/** The id and date helpers of src/lib/utils/message-helpers.ts. The clock
    (`Date.now()`, `new Date()`) and `Math.random().toString(36)` are
    parameters; a date is the local calendar day `toDateString` prints. */
module MessageHelpers {
  import opened Js

  const MessageIdLength: nat := 32

  /** The untruncated `msg_${timestamp}_${randomStr}`, where `random1` and
      `random2` stand for two `Math.random().toString(36)` results. */
  function MessageIdSource(now: nat, random1: string, random2: string): string {
    "msg_" + Radix(now, 36) + "_" + Substring(random1, 2, 15) + Substring(random2, 2, 15)
  }

  /** `generateMessageId`: the source cut to 32 characters. It is exactly 32
      long only when the source is; short random strings make it shorter. */
  function GenerateMessageId(now: nat, random1: string, random2: string): (id: string)
    ensures var full := MessageIdSource(now, random1, random2);
            && |id| == (if |full| <= MessageIdLength then |full| else MessageIdLength)
            && id == full[..|id|]
    ensures StartsWith(id, "msg_")
  {
    var full := MessageIdSource(now, random1, random2);
    SubstringPrefix(full, MessageIdLength);
    var id := Substring(full, 0, MessageIdLength);
    assert id[..4] == full[..4];
    id
  }

  /** The untruncated id holds the timestamp right after `msg_`, followed
      by `_`. */
  lemma MessageIdSourceShape(now: nat, random1: string, random2: string)
    ensures var full := MessageIdSource(now, random1, random2);
            var ts := Radix(now, 36);
            && |full| >= 5 + |ts|
            && full[4..4 + |ts|] == ts
            && full[4 + |ts|] == '_'
  {
    var ts := Radix(now, 36);
    var rest := Substring(random1, 2, 15) + Substring(random2, 2, 15);
    var full := MessageIdSource(now, random1, random2);
    assert full == "msg_" + ts + "_" + rest;
    assert full == "msg_" + (ts + ("_" + rest));
    assert full[4..] == ts + ("_" + rest);
  }

  /** A prefix agrees with the whole string on every slice inside it. */
  lemma PrefixAgrees(id: string, full: string, lo: nat, hi: nat)
    requires |id| <= |full| && id == full[..|id|] && lo <= hi < |id|
    ensures id[lo..hi] == full[lo..hi] && id[hi] == full[hi]
  {
  }

  /** The cut never reaches the timestamp while it has at most 27 base-36
      digits (any `Date.now()` before the year 10^30 or so): the id still
      carries the whole timestamp. */
  lemma MessageIdKeepsTimestamp(now: nat, random1: string, random2: string)
    requires |Radix(now, 36)| <= 27
    ensures var id := GenerateMessageId(now, random1, random2);
            var ts := Radix(now, 36);
            && |id| >= 5 + |ts|
            && id[4..4 + |ts|] == ts
            && id[4 + |ts|] == '_'
  {
    var full := MessageIdSource(now, random1, random2);
    var ts := Radix(now, 36);
    var id := GenerateMessageId(now, random1, random2);
    MessageIdSourceShape(now, random1, random2);
    PrefixAgrees(id, full, 4, 4 + |ts|);
  }

  /** Two strings that carry different digit strings at position 4, each
      followed by `_`, differ: either one digit string is shorter, and then
      a `_` faces a digit, or they are as long and differ inside. */
  lemma DigitFieldsDiffer(a: string, b: string, ta: string, tb: string)
    requires |a| >= 5 + |ta| && a[4..4 + |ta|] == ta && a[4 + |ta|] == '_'
    requires |b| >= 5 + |tb| && b[4..4 + |tb|] == tb && b[4 + |tb|] == '_'
    requires forall k :: 0 <= k < |ta| ==> IsDigit(ta[k], 36)
    requires forall k :: 0 <= k < |tb| ==> IsDigit(tb[k], 36)
    requires ta != tb
    ensures a != b
  {
    assert !IsDigit('_', 36);
    if |ta| < |tb| {
      assert b[4 + |ta|] == tb[|ta|];
    } else if |tb| < |ta| {
      assert a[4 + |tb|] == ta[|tb|];
    } else {
      assert a[4..4 + |ta|] != b[4..4 + |tb|];
    }
  }

  /** Two ids with different timestamps differ, whatever the random parts. */
  lemma MessageIdsOfDifferentTimes(now1: nat, now2: nat, r1: string, r2: string, r3: string, r4: string)
    requires |Radix(now1, 36)| <= 27 && |Radix(now2, 36)| <= 27
    requires now1 != now2
    ensures GenerateMessageId(now1, r1, r2) != GenerateMessageId(now2, r3, r4)
  {
    MessageIdKeepsTimestamp(now1, r1, r2);
    MessageIdKeepsTimestamp(now2, r3, r4);
    RadixRoundTrip(now1, 36);
    RadixRoundTrip(now2, 36);
    assert ParseRadix(Radix(now1, 36), 36) != ParseRadix(Radix(now2, 36), 36);
    DigitFieldsDiffer(GenerateMessageId(now1, r1, r2), GenerateMessageId(now2, r3, r4),
                      Radix(now1, 36), Radix(now2, 36));
  }

  /** `generateTraceId`: `trace_${Date.now()}_${random.substring(2)}`. */
  function GenerateTraceId(now: nat, random: string): (id: string)
    ensures StartsWith(id, "trace_" + Radix(now, 10) + "_")
    ensures id[|"trace_" + Radix(now, 10) + "_"|..] == SubstringFrom(random, 2)
  {
    var head := "trace_" + Radix(now, 10) + "_";
    var id := head + SubstringFrom(random, 2);
    assert id[..|head|] == head;
    id
  }

  /** A local calendar day. */
  datatype CalendarDate = CalendarDate(year: int, month: int, day: int)

  predicate IsLeapYear(y: int) {
    (y % 4 == 0 && y % 100 != 0) || y % 400 == 0
  }

  function DaysInMonth(y: int, m: int): nat
    requires 1 <= m <= 12
  {
    if m == 2 then (if IsLeapYear(y) then 29 else 28)
    else if m == 4 || m == 6 || m == 9 || m == 11 then 30
    else 31
  }

  predicate ValidDate(d: CalendarDate) {
    1 <= d.month <= 12 && 1 <= d.day <= DaysInMonth(d.year, d.month)
  }

  /** `yesterday.setDate(yesterday.getDate() - 1)`: the day before, rolling
      back over month and year ends. */
  function PreviousDay(d: CalendarDate): (p: CalendarDate)
    requires ValidDate(d)
    ensures ValidDate(p)
  {
    if d.day > 1 then d.(day := d.day - 1)
    else if d.month > 1 then CalendarDate(d.year, d.month - 1, DaysInMonth(d.year, d.month - 1))
    else CalendarDate(d.year - 1, 12, 31)
  }

  /** The day after, the independent reference for `PreviousDay`. */
  function NextDay(d: CalendarDate): (n: CalendarDate)
    requires ValidDate(d)
    ensures ValidDate(n)
  {
    if d.day < DaysInMonth(d.year, d.month) then d.(day := d.day + 1)
    else if d.month < 12 then CalendarDate(d.year, d.month + 1, 1)
    else CalendarDate(d.year + 1, 1, 1)
  }

  /** Stepping back a day and forward again returns to the same day, and so
      does stepping forward and back: `PreviousDay` is `NextDay`'s inverse. */
  lemma PreviousDayInvertsNextDay(d: CalendarDate)
    requires ValidDate(d)
    ensures NextDay(PreviousDay(d)) == d
    ensures PreviousDay(NextDay(d)) == d
  {
  }

  /** A day is never its own predecessor. */
  lemma PreviousDayDiffers(d: CalendarDate)
    requires ValidDate(d)
    ensures PreviousDay(d) != d
  {
  }

  const MonthAbbreviations: seq<string> :=
    ["Jan", "Feb", "Mar", "Apr", "May", "Jun", "Jul", "Aug", "Sep", "Oct", "Nov", "Dec"]

  /** The `en-US` `{ month: 'short', day: 'numeric' }` rendering, with
      `, <year>` when `year: 'numeric'` is requested. */
  function ShortDate(d: CalendarDate, showYear: bool): (s: string)
    requires ValidDate(d)
    ensures |s| > 0 && s[0] == MonthAbbreviations[d.month - 1][0]
  {
    var yearPart := if showYear then ", " + YearText(d.year) else "";
    MonthAbbreviations[d.month - 1] + " " + Radix(d.day, 10) + yearPart
  }

  /** A year the way `Intl` prints it in `en-US`: negative years are out of
      the range the application sees, and print as their magnitude here. */
  function YearText(y: int): string {
    if y >= 0 then Radix(y, 10) else Radix(-y, 10)
  }

  /** No month abbreviation starts with the `T` of "Today" or the `Y` of
      "Yesterday". */
  lemma MonthInitials(m: int)
    requires 1 <= m <= 12
    ensures MonthAbbreviations[m - 1][0] != 'T' && MonthAbbreviations[m - 1][0] != 'Y'
  {
  }

  /** `formatMessageDate(date)` on the day `today`. */
  function FormatMessageDate(date: CalendarDate, today: CalendarDate): (s: string)
    requires ValidDate(date) && ValidDate(today)
    ensures s == "Today" <==> date == today
    ensures s == "Yesterday" <==> date == PreviousDay(today)
    ensures s != "Today" && s != "Yesterday" ==>
              s == ShortDate(date, date.year != today.year)
  {
    if date == today then "Today"
    else if date == PreviousDay(today) then "Yesterday"
    else
      var s := ShortDate(date, date.year != today.year);
      MonthInitials(date.month);
      assert s[0] != "Today"[0] && s[0] != "Yesterday"[0];
      s
  }

  /** The year is printed exactly for dates of another year than today's. */
  lemma YearShownIffOtherYear(date: CalendarDate, today: CalendarDate)
    requires ValidDate(date) && ValidDate(today)
    requires date != today && date != PreviousDay(today)
    ensures FormatMessageDate(date, today) == ShortDate(date, date.year != today.year)
  {
  }

  /** On January 1st, yesterday is December 31st of the year before: the
      "Yesterday" label wins over showing the year. */
  lemma NewYearYesterday(y: int)
    ensures FormatMessageDate(CalendarDate(y - 1, 12, 31), CalendarDate(y, 1, 1)) == "Yesterday"
  {
  }
}
