/** Stored timestamps are compared as strings in SQL. The layout is fixed-width UTC, so for
    years 0 to 9999 string order is the order of the instants, and parsing inverts it. */
module Timestamps {
  import opened Common
  import opened Encoding

  datatype Stamp = Stamp(year: nat, month: nat, day: nat, hour: nat, minute: nat, second: nat, nanos: nat)

  predicate Leap(y: nat) {
    y % 4 == 0 && (y % 100 != 0 || y % 400 == 0)
  }

  function MonthDays(y: nat, m: nat): nat {
    if m == 2 then (if Leap(y) then 29 else 28)
    else if m in {4, 6, 9, 11} then 30
    else 31
  }

  predicate Valid(s: Stamp) {
    s.year <= 9999 && 1 <= s.month <= 12 && 1 <= s.day <= MonthDays(s.year, s.month)
    && s.hour < 24 && s.minute < 60 && s.second < 60 && s.nanos < 1_000_000_000
  }

  // ---- instants -----------------------------------------------------------------------

  function BeforeYear(y: nat): nat {
    if y == 0 then 0 else BeforeYear(y - 1) + (if Leap(y - 1) then 366 else 365)
  }

  function BeforeMonth(y: nat, m: nat): nat {
    if m <= 1 then 0 else BeforeMonth(y, m - 1) + MonthDays(y, m - 1)
  }

  /** Days since the first of January of year 0. */
  function DayNumber(s: Stamp): int {
    BeforeYear(s.year) + BeforeMonth(s.year, s.month) + s.day - 1
  }

  const DAY: int := 86_400_000_000_000

  function TimeOfDay(s: Stamp): int {
    ((s.hour * 60 + s.minute) * 60 + s.second) * 1_000_000_000 + s.nanos
  }

  function Instant(s: Stamp): Time {
    DayNumber(s) * DAY + TimeOfDay(s)
  }

  // ---- field order --------------------------------------------------------------------

  function Fields(s: Stamp): seq<nat> {
    [s.year, s.month, s.day, s.hour, s.minute, s.second, s.nanos]
  }

  /** The first field that differs decides. */
  predicate Earlier(a: seq<nat>, b: seq<nat>)
    requires |a| == |b|
  {
    a != [] && (a[0] < b[0] || (a[0] == b[0] && Earlier(a[1..], b[1..])))
  }

  /** The day count of the Gregorian calendar in closed form: one leap day for every fourth
      year before y, but none for whole centuries except every fourth. */
  lemma {:induction false} YearsCount(y: nat)
    ensures BeforeYear(y) == 365 * y + (y + 3) / 4 - (y + 99) / 100 + (y + 399) / 400
  {
    if y > 0 {
      YearsCount(y - 1);
      LeapDays(y - 1);
    }
  }

  lemma LeapDays(y: nat)
    ensures (y + 4) / 4 == (y + 3) / 4 + (if y % 4 == 0 then 1 else 0)
    ensures (y + 100) / 100 == (y + 99) / 100 + (if y % 100 == 0 then 1 else 0)
    ensures (y + 400) / 400 == (y + 399) / 400 + (if y % 400 == 0 then 1 else 0)
    ensures y % 400 == 0 ==> y % 100 == 0
    ensures y % 100 == 0 ==> y % 4 == 0
  {
    EveryFourth(y);
    EveryHundredth(y);
    EveryFourHundredth(y);
  }

  lemma EveryFourth(y: nat)
    ensures (y + 4) / 4 == (y + 3) / 4 + (if y % 4 == 0 then 1 else 0)
  {
  }

  lemma EveryHundredth(y: nat)
    ensures (y + 100) / 100 == (y + 99) / 100 + (if y % 100 == 0 then 1 else 0)
    ensures y % 100 == 0 ==> y % 4 == 0
  {
    assert y % 100 == 0 ==> y == 4 * (25 * (y / 100));
  }

  lemma EveryFourHundredth(y: nat)
    ensures (y + 400) / 400 == (y + 399) / 400 + (if y % 400 == 0 then 1 else 0)
    ensures y % 400 == 0 ==> y % 100 == 0
  {
    assert y % 400 == 0 ==> y == 100 * (4 * (y / 400));
  }

  const BEFORE_MONTH: seq<nat> := [0, 31, 59, 90, 120, 151, 181, 212, 243, 273, 304, 334]

  /** The days before each month of a common year, and one more from March in a leap year. */
  lemma MonthsCount(y: nat, m: nat)
    requires 1 <= m <= 12
    ensures BeforeMonth(y, m) == BEFORE_MONTH[m - 1] + (if m > 2 && Leap(y) then 1 else 0)
  {
    if m > 1 {
      MonthsCount(y, m - 1);
    }
  }

  /** 1970 starts 719528 days after year 0. */
  lemma EpochDay()
    ensures DayNumber(Stamp(1970, 1, 1, 0, 0, 0, 0)) == 719528
  {
    YearsCount(1970);
  }

  lemma {:induction false} YearsAdd(a: nat, b: nat)
    requires a < b
    ensures BeforeYear(a) + (if Leap(a) then 366 else 365) <= BeforeYear(b)
    decreases b
  {
    if a < b - 1 {
      YearsAdd(a, b - 1);
    }
  }

  lemma {:induction false} MonthsAdd(y: nat, a: nat, b: nat)
    requires 1 <= a < b
    ensures BeforeMonth(y, a) + MonthDays(y, a) <= BeforeMonth(y, b)
    decreases b
  {
    if a < b - 1 {
      MonthsAdd(y, a, b - 1);
    }
  }

  lemma YearIsTwelveMonths(y: nat)
    ensures BeforeMonth(y, 13) == if Leap(y) then 366 else 365
  {
    assert BeforeMonth(y, 2) == 31;
    assert BeforeMonth(y, 3) == 31 + MonthDays(y, 2);
    assert BeforeMonth(y, 5) == BeforeMonth(y, 3) + 61;
    assert BeforeMonth(y, 7) == BeforeMonth(y, 5) + 61;
    assert BeforeMonth(y, 9) == BeforeMonth(y, 7) + 62;
    assert BeforeMonth(y, 11) == BeforeMonth(y, 9) + 61;
  }

  lemma DayInYear(s: Stamp)
    requires Valid(s)
    ensures BeforeYear(s.year) <= DayNumber(s) < BeforeYear(s.year) + (if Leap(s.year) then 366 else 365)
  {
    MonthsAdd(s.year, s.month, 13);
    YearIsTwelveMonths(s.year);
  }

  function Date(s: Stamp): (nat, nat, nat) { (s.year, s.month, s.day) }

  predicate EarlierDate(a: Stamp, b: Stamp) {
    a.year < b.year || (a.year == b.year && (a.month < b.month || (a.month == b.month && a.day < b.day)))
  }

  lemma DatesAscend(a: Stamp, b: Stamp)
    requires Valid(a) && Valid(b) && EarlierDate(a, b)
    ensures DayNumber(a) < DayNumber(b)
  {
    if a.year < b.year {
      DayInYear(a);
      DayInYear(b);
      YearsAdd(a.year, b.year);
    } else if a.month < b.month {
      MonthsAdd(a.year, a.month, b.month);
    }
  }

  lemma UnfoldEarlier(a: Stamp, b: Stamp)
    ensures Earlier(Fields(a), Fields(b)) <==>
              || EarlierDate(a, b)
              || (Date(a) == Date(b) &&
                   (a.hour < b.hour || (a.hour == b.hour &&
                     (a.minute < b.minute || (a.minute == b.minute &&
                       (a.second < b.second || (a.second == b.second && a.nanos < b.nanos)))))))
  {
    var x, y := Fields(a), Fields(b);
    assert x[0..] == x && y[0..] == y;
    EarlierFrom(x, y, 0);
    EarlierFrom(x, y, 1);
    EarlierFrom(x, y, 2);
    EarlierFrom(x, y, 3);
    EarlierFrom(x, y, 4);
    EarlierFrom(x, y, 5);
    EarlierFrom(x, y, 6);
    hide Earlier;
  }

  lemma EarlierFrom(a: seq<nat>, b: seq<nat>, i: nat)
    requires i < |a| == |b|
    ensures Earlier(a[i..], b[i..]) <==> a[i] < b[i] || (a[i] == b[i] && Earlier(a[i + 1..], b[i + 1..]))
    ensures !Earlier(a[|a|..], b[|a|..])
  {
  }

  /** Calendar order is the order of the instants. */
  lemma FieldsOrderInstants(a: Stamp, b: Stamp)
    requires Valid(a) && Valid(b)
    ensures Earlier(Fields(a), Fields(b)) <==> Instant(a) < Instant(b)
  {
    UnfoldEarlier(a, b);
    if EarlierDate(a, b) {
      DatesAscend(a, b);
    } else if EarlierDate(b, a) {
      DatesAscend(b, a);
    }
  }

  // ---- text ---------------------------------------------------------------------------

  const WIDTHS: seq<nat> := [4, 2, 2, 2, 2, 2, 9]
  const SEPARATORS := "--T::.Z"

  /** Each value at its width, each followed by its separator. */
  function Render(vals: seq<nat>, widths: seq<nat>, seps: string): string
    requires |vals| == |widths| == |seps|
  {
    if vals == [] then "" else Encode(vals[0], widths[0], 10) + [seps[0]] + Render(vals[1..], widths[1..], seps[1..])
  }

  predicate Fit(vals: seq<nat>, widths: seq<nat>) {
    |vals| == |widths| && forall i :: 0 <= i < |vals| ==> vals[i] < Power(10, widths[i])
  }

  /** formatTime. */
  function Format(s: Stamp): string {
    Render(Fields(s), WIDTHS, SEPARATORS)
  }

  /** The layout of any stamp: year, month, day, hour, minute, second and nanoseconds at
      their widths, most significant first, between the separators of RFC 3339. */
  lemma LayoutIsFixed(s: Stamp)
    ensures Format(s) ==
              Encode(s.year, 4, 10) + ("-" + (Encode(s.month, 2, 10) + ("-" + (Encode(s.day, 2, 10) + ("T" +
              (Encode(s.hour, 2, 10) + (":" + (Encode(s.minute, 2, 10) + (":" + (Encode(s.second, 2, 10) + ("." +
              (Encode(s.nanos, 9, 10) + "Z"))))))))))))
  {
    hide Encode;
    RenderFrom(s, 6);
    RenderFrom(s, 5);
    RenderFrom(s, 4);
    RenderFrom(s, 3);
    RenderFrom(s, 2);
    RenderFrom(s, 1);
    RenderFrom(s, 0);
    hide Render;
    assert Fields(s)[0..] == Fields(s) && WIDTHS[0..] == WIDTHS && SEPARATORS[0..] == SEPARATORS;
    assert "Z" + "" == "Z";
  }

  lemma RenderFrom(s: Stamp, i: nat)
    requires i < 7
    ensures Render(Fields(s)[i..], WIDTHS[i..], SEPARATORS[i..])
            == Encode(Fields(s)[i], WIDTHS[i], 10)
               + ([SEPARATORS[i]] + Render(Fields(s)[i + 1..], WIDTHS[i + 1..], SEPARATORS[i + 1..]))
    ensures Render(Fields(s)[7..], WIDTHS[7..], SEPARATORS[7..]) == ""
  {
    var vals, widths, seps := Fields(s)[i..], WIDTHS[i..], SEPARATORS[i..];
    assert vals[1..] == Fields(s)[i + 1..] && widths[1..] == WIDTHS[i + 1..] && seps[1..] == SEPARATORS[i + 1..];
    var e, rest := Encode(vals[0], widths[0], 10), Render(vals[1..], widths[1..], seps[1..]);
    hide Encode;
    assert e + [seps[0]] + rest == e + ([seps[0]] + rest);
  }

  lemma {:induction false} RenderAscends(a: seq<nat>, b: seq<nat>, widths: seq<nat>, seps: string)
    requires Fit(a, widths) && Fit(b, widths) && |seps| == |widths|
    ensures StringLess(Render(a, widths, seps), Render(b, widths, seps)) <==> Earlier(a, b)
    ensures Render(a, widths, seps) == Render(b, widths, seps) <==> a == b
    ensures |Render(a, widths, seps)| == |Render(b, widths, seps)|
  {
    if a != [] {
      var w, sep := widths[0], [seps[0]];
      var x, y := Render(a[1..], widths[1..], seps[1..]), Render(b[1..], widths[1..], seps[1..]);
      var e, f := Encode(a[0], w, 10), Encode(b[0], w, 10);
      RenderAscends(a[1..], b[1..], widths[1..], seps[1..]);
      EncodeAscends(a[0], b[0], w, 10);
      StringLessIrreflexive(sep);
      assert e + sep + x == e + (sep + x) && f + sep + y == f + (sep + y);
      assert a == [a[0]] + a[1..] && b == [b[0]] + b[1..];
      hide StringLess, Encode, Power;
      StringLessConcat(e, f, sep + x, sep + y);
      StringLessConcat(sep, sep, x, y);
      assert (e + (sep + x))[..|e|] == e && (f + (sep + y))[..|f|] == f;
      assert (e + (sep + x))[|e| + 1..] == x && (f + (sep + y))[|f| + 1..] == y;
    }
  }

  lemma FieldsFit(s: Stamp)
    requires Valid(s)
    ensures Fit(Fields(s), WIDTHS)
  {
  }

  /** String comparison of stored timestamps is comparison of the instants, so the SQL
      conditions on next_retry_at and received_at select exactly the due and expired rows. */
  lemma StoredOrderIsTimeOrder(a: Stamp, b: Stamp)
    requires Valid(a) && Valid(b)
    ensures StringLess(Format(a), Format(b)) <==> Instant(a) < Instant(b)
    ensures Format(a) == Format(b) <==> a == b
  {
    FieldsFit(a);
    FieldsFit(b);
    RenderAscends(Fields(a), Fields(b), WIDTHS, SEPARATORS);
    FieldsOrderInstants(a, b);
    assert Fields(a) == Fields(b) ==> a == b by {
      var x, y := Fields(a), Fields(b);
      assert x[0] == a.year && x[1] == a.month && x[2] == a.day;
      assert x[3] == a.hour && x[4] == a.minute && x[5] == a.second && x[6] == a.nanos;
      assert y[0] == b.year && y[1] == b.month && y[2] == b.day;
      assert y[3] == b.hour && y[4] == b.minute && y[5] == b.second && y[6] == b.nanos;
    }
  }

  // ---- parsing ------------------------------------------------------------------------

  /** The numbers at the layout's positions. */
  function Parse(text: string, widths: seq<nat>): seq<nat> {
    if widths == [] || |text| <= widths[0] then []
    else [Decode(text[..widths[0]], 10)] + Parse(text[widths[0] + 1..], widths[1..])
  }

  lemma {:induction false} ParseRender(vals: seq<nat>, widths: seq<nat>, seps: string)
    requires Fit(vals, widths) && |seps| == |widths|
    ensures Parse(Render(vals, widths, seps), widths) == vals
  {
    if vals != [] {
      var w := widths[0];
      var rest := Render(vals[1..], widths[1..], seps[1..]);
      var text := Render(vals, widths, seps);
      ParseRender(vals[1..], widths[1..], seps[1..]);
      EncodeInverts(vals[0], w, 10);
      assert text[..w] == Encode(vals[0], w, 10) && text[w + 1..] == rest;
      assert vals == [vals[0]] + vals[1..];
    }
  }

  /** parseTime reads back what formatTime wrote. */
  lemma ParseInvertsFormat(s: Stamp)
    requires Valid(s)
    ensures Parse(Format(s), WIDTHS) == Fields(s)
  {
    FieldsFit(s);
    ParseRender(Fields(s), WIDTHS, SEPARATORS);
  }

  /** With trailing zeros trimmed, as the variable-width layout does, a tenth of a second
      sorts after fifteen hundredths. */
  lemma TrimmedStampsMisorder()
    ensures StringLess("00.15Z", "00.1Z")
  {
  }
}
