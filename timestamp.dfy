/** `datetime.fromisoformat` on the timestamp form the prompt asks for, and the `strftime`
    patterns the calendar writer uses. */
module Timestamp {

  import opened Wrappers
  import opened Decimal

  /** A naive (zone-less) date and time, as `datetime.fromisoformat` returns it. */
  datatype DateTime = DateTime(year: nat, month: nat, day: nat, hour: nat, minute: nat, second: nat)

  predicate IsLeapYear(y: nat)
  {
    y % 4 == 0 && (y % 100 != 0 || y % 400 == 0)
  }

  function DaysInMonth(y: nat, m: nat): nat
    requires 1 <= m <= 12
  {
    if m == 2 then (if IsLeapYear(y) then 29 else 28)
    else if m == 4 || m == 6 || m == 9 || m == 11 then 30
    else 31
  }

  /** The values `datetime` accepts: years 1 through 9999, a real calendar day, a time of day. */
  predicate Valid(dt: DateTime)
  {
    && 1 <= dt.year <= 9999
    && 1 <= dt.month <= 12
    && 1 <= dt.day <= DaysInMonth(dt.year, dt.month)
    && dt.hour < 24 && dt.minute < 60 && dt.second < 60
  }

  /** `YYYY-MM-DDTHH:MM:SS`: nineteen characters, digits and separators in place. */
  predicate SchemaShaped(s: string)
  {
    && |s| == 19
    && IsDigit(s[0]) && IsDigit(s[1]) && IsDigit(s[2]) && IsDigit(s[3]) && s[4] == '-'
    && IsDigit(s[5]) && IsDigit(s[6]) && s[7] == '-'
    && IsDigit(s[8]) && IsDigit(s[9]) && s[10] == 'T'
    && IsDigit(s[11]) && IsDigit(s[12]) && s[13] == ':'
    && IsDigit(s[14]) && IsDigit(s[15]) && s[16] == ':'
    && IsDigit(s[17]) && IsDigit(s[18])
  }

  /** The number written by the two digits at `s[i]` and `s[i + 1]`. */
  function Two(s: string, i: nat): nat
    requires i + 2 <= |s| && IsDigit(s[i]) && IsDigit(s[i + 1])
  {
    10 * DigitValue(s[i]) + DigitValue(s[i + 1])
  }

  /** The number written by the four digits starting at `s[i]`. */
  function Four(s: string, i: nat): nat
    requires i + 4 <= |s| && IsDigit(s[i]) && IsDigit(s[i + 1]) && IsDigit(s[i + 2]) && IsDigit(s[i + 3])
  {
    100 * Two(s, i) + Two(s, i + 2)
  }

  /** `%02d` (`%m`, `%d`, `%H`, `%M`, `%S`): the last two digits, zero-padded. */
  function Pad2(n: nat): (r: string)
    ensures |r| == 2 && IsDigit(r[0]) && IsDigit(r[1])
  {
    [DigitChar(n / 10 % 10), DigitChar(n % 10)]
  }

  /** `%Y`: the year as four digits, zero-padded. */
  function Pad4(n: nat): (r: string)
    ensures |r| == 4 && IsDigit(r[0]) && IsDigit(r[1]) && IsDigit(r[2]) && IsDigit(r[3])
  {
    Pad2(n / 100) + Pad2(n % 100)
  }

  /** The six numeric fields of a schema-shaped string. */
  function Fields(s: string): DateTime
    requires SchemaShaped(s)
  {
    DateTime(Four(s, 0), Two(s, 5), Two(s, 8), Two(s, 11), Two(s, 14), Two(s, 17))
  }

  /** `datetime.fromisoformat(s)` on the schema form; a failure (Python's `ValueError`) is `None`. */
  function ParseIso(s: string): Option<DateTime>
  {
    if SchemaShaped(s) && Valid(Fields(s)) then Some(Fields(s)) else None
  }

  /** `dt.strftime('%Y%m%dT%H%M%S')`: the compact local DATE-TIME of iCalendar. */
  function FormatCompact(dt: DateTime): string
  {
    Pad4(dt.year) + Pad2(dt.month) + Pad2(dt.day) + "T"
    + Pad2(dt.hour) + Pad2(dt.minute) + Pad2(dt.second)
  }

  /** `dt.strftime("%Y%m%dT%H%M%SZ")`, used for DTSTAMP. */
  function FormatStamp(dt: DateTime): string
  {
    FormatCompact(dt) + "Z"
  }

  /** `dt.isoformat()` for a value without microseconds: the schema form again. */
  function FormatIso(dt: DateTime): string
  {
    Pad4(dt.year) + "-" + Pad2(dt.month) + "-" + Pad2(dt.day) + "T"
    + Pad2(dt.hour) + ":" + Pad2(dt.minute) + ":" + Pad2(dt.second)
  }

  /** Parse, then reformat compactly; `None` when the parse fails. */
  function CompactTimestamp(s: string): Option<string>
  {
    match ParseIso(s)
    case None => None
    case Some(dt) => Some(FormatCompact(dt))
  }

  /** A padded field reads back as the value it was given, when the value fits. */
  lemma {:induction false} TwoOfPad2(n: nat, s: string, i: nat)
    requires n < 100 && i + 2 <= |s| && s[i..i + 2] == Pad2(n)
    ensures IsDigit(s[i]) && IsDigit(s[i + 1]) && Two(s, i) == n
  {
    assert s[i] == Pad2(n)[0] && s[i + 1] == Pad2(n)[1];
  }

  lemma {:induction false} FourOfPad4(n: nat, s: string, i: nat)
    requires n < 10000 && i + 4 <= |s| && s[i..i + 4] == Pad4(n)
    ensures IsDigit(s[i]) && IsDigit(s[i + 1]) && IsDigit(s[i + 2]) && IsDigit(s[i + 3]) && Four(s, i) == n
  {
    assert s[i..i + 2] == Pad4(n)[..2] == Pad2(n / 100);
    assert s[i + 2..i + 4] == Pad4(n)[2..] == Pad2(n % 100);
    TwoOfPad2(n / 100, s, i);
    TwoOfPad2(n % 100, s, i + 2);
  }

  /** Writing the value of a digit field back at the same width gives the same characters. */
  lemma {:induction false} Pad2OfTwo(s: string, i: nat)
    requires i + 2 <= |s| && IsDigit(s[i]) && IsDigit(s[i + 1])
    ensures Pad2(Two(s, i)) == s[i..i + 2]
  {
    var n := Two(s, i);
    assert n / 10 % 10 == DigitValue(s[i]) && n % 10 == DigitValue(s[i + 1]);
    DigitCharOfValue(s[i]);
    DigitCharOfValue(s[i + 1]);
  }

  lemma {:induction false} Pad4OfFour(s: string, i: nat)
    requires i + 4 <= |s| && IsDigit(s[i]) && IsDigit(s[i + 1]) && IsDigit(s[i + 2]) && IsDigit(s[i + 3])
    ensures Pad4(Four(s, i)) == s[i..i + 4]
  {
    var n := Four(s, i);
    assert n / 100 == Two(s, i) && n % 100 == Two(s, i + 2);
    Pad2OfTwo(s, i);
    Pad2OfTwo(s, i + 2);
  }

  /** Where the fields and separators of the schema form stand. */
  lemma {:induction false} IsoParts(y: string, mo: string, d: string, h: string, mi: string, se: string)
    requires |y| == 4 && |mo| == 2 && |d| == 2 && |h| == 2 && |mi| == 2 && |se| == 2
    ensures var s := y + "-" + mo + "-" + d + "T" + h + ":" + mi + ":" + se;
      && |s| == 19 && s[0..4] == y && s[5..7] == mo && s[8..10] == d && s[11..13] == h && s[14..16] == mi && s[17..19] == se
      && s[4] == '-' && s[7] == '-' && s[10] == 'T' && s[13] == ':' && s[16] == ':'
  {
    var s := y + "-" + mo + "-" + d + "T" + h + ":" + mi + ":" + se;
    assert forall k :: 0 <= k < 4 ==> s[k] == y[k];
    assert forall k :: 0 <= k < 2 ==> s[5 + k] == mo[k] && s[8 + k] == d[k] && s[11 + k] == h[k] && s[14 + k] == mi[k] && s[17 + k] == se[k];
  }

  /** The schema form of any date-time whose fields fit their widths reads back field by field;
      it parses exactly when the date-time is valid. */
  lemma {:induction false} ParseOfFormatIso(dt: DateTime)
    requires dt.year < 10000 && dt.month < 100 && dt.day < 100 && dt.hour < 100 && dt.minute < 100 && dt.second < 100
    ensures SchemaShaped(FormatIso(dt)) && Fields(FormatIso(dt)) == dt
    ensures ParseIso(FormatIso(dt)) == if Valid(dt) then Some(dt) else None
  {
    var s := FormatIso(dt);
    IsoParts(Pad4(dt.year), Pad2(dt.month), Pad2(dt.day), Pad2(dt.hour), Pad2(dt.minute), Pad2(dt.second));
    FourOfPad4(dt.year, s, 0);
    TwoOfPad2(dt.month, s, 5);
    TwoOfPad2(dt.day, s, 8);
    TwoOfPad2(dt.hour, s, 11);
    TwoOfPad2(dt.minute, s, 14);
    TwoOfPad2(dt.second, s, 17);
    assert SchemaShaped(s);
  }

  /** Every string that parses is the schema form of what it parses to: parsing loses nothing. */
  lemma {:induction false} FormatIsoOfParse(s: string)
    requires ParseIso(s).Some?
    ensures FormatIso(ParseIso(s).value) == s
  {
    Pad4OfFour(s, 0);
    Pad2OfTwo(s, 5);
    Pad2OfTwo(s, 8);
    Pad2OfTwo(s, 11);
    Pad2OfTwo(s, 14);
    Pad2OfTwo(s, 17);
    assert s == s[0..4] + [s[4]] + s[5..7] + [s[7]] + s[8..10] + [s[10]] + s[11..13] + [s[13]] + s[14..16] + [s[16]] + s[17..19];
  }

  /** A timestamp that parses is rewritten to the same digits with `-` and `:` removed. */
  lemma {:induction false} CompactDropsSeparators(s: string)
    requires ParseIso(s).Some?
    ensures CompactTimestamp(s) == Some(s[0..4] + s[5..7] + s[8..10] + "T" + s[11..13] + s[14..16] + s[17..19])
  {
    Pad4OfFour(s, 0);
    Pad2OfTwo(s, 5);
    Pad2OfTwo(s, 8);
    Pad2OfTwo(s, 11);
    Pad2OfTwo(s, 14);
    Pad2OfTwo(s, 17);
  }

  /** The compact form is fifteen characters, digits around a `T`, so it never holds a newline. */
  lemma {:induction false} CompactShape(dt: DateTime)
    ensures var c := FormatCompact(dt);
      |c| == 15 && c[8] == 'T' && (forall k :: 0 <= k < 15 && k != 8 ==> IsDigit(c[k])) && '\n' !in c
  {
    var c := FormatCompact(dt);
    assert c == Pad4(dt.year) + Pad2(dt.month) + Pad2(dt.day) + "T" + Pad2(dt.hour) + Pad2(dt.minute) + Pad2(dt.second);
    assert forall k :: 0 <= k < 15 && k != 8 ==> IsDigit(c[k]);
    assert c[8] == 'T';
  }

  /** The DTSTAMP form is the compact form and a `Z`: sixteen characters, no newline. */
  lemma {:induction false} StampShape(dt: DateTime)
    ensures var c := FormatStamp(dt); |c| == 16 && c[15] == 'Z' && c[..15] == FormatCompact(dt) && '\n' !in c
  {
    CompactShape(dt);
    var c := FormatStamp(dt);
    assert c[..15] == FormatCompact(dt);
    assert forall k :: 0 <= k < 15 ==> c[k] == FormatCompact(dt)[k];
  }

  /** The schema example `2024-01-01T09:00:00` parses to 1 January 2024, 09:00:00. */
  lemma ParseExample()
    ensures ParseIso("2024-01-01T09:00:00") == Some(DateTime(2024, 1, 1, 9, 0, 0))
  {
    var s := "2024-01-01T09:00:00";
    assert SchemaShaped(s);
    assert Fields(s) == DateTime(2024, 1, 1, 9, 0, 0);
  }

  /** ... and is written to the calendar as `20240101T090000`. */
  lemma CompactExample()
    ensures CompactTimestamp("2024-01-01T09:00:00") == Some("20240101T090000")
  {
    var s := "2024-01-01T09:00:00";
    ParseExample();
    CompactDropsSeparators(s);
    assert s[0..4] + s[5..7] + s[8..10] + "T" + s[11..13] + s[14..16] + s[17..19] == "20240101T090000";
  }

  /** The end of a one-hour event at that start, `2024-01-01T10:00:00`, is written as `20240101T100000`. */
  lemma CompactEndExample()
    ensures CompactTimestamp("2024-01-01T10:00:00") == Some("20240101T100000")
  {
    var s := "2024-01-01T10:00:00";
    assert SchemaShaped(s);
    assert Fields(s) == DateTime(2024, 1, 1, 10, 0, 0);
    CompactDropsSeparators(s);
    assert s[0..4] + s[5..7] + s[8..10] + "T" + s[11..13] + s[14..16] + s[17..19] == "20240101T100000";
  }

  /** A day that the month does not have is a parse failure ... */
  lemma RejectsMissingDay()
    ensures ParseIso("2023-02-29T09:00:00") == None
  {
    var s := "2023-02-29T09:00:00";
    assert SchemaShaped(s);
    assert Fields(s) == DateTime(2023, 2, 29, 9, 0, 0);
  }

  /** ... while 29 February of a leap year is accepted. */
  lemma AcceptsLeapDay()
    ensures ParseIso("2024-02-29T09:00:00") == Some(DateTime(2024, 2, 29, 9, 0, 0))
  {
    var s := "2024-02-29T09:00:00";
    assert SchemaShaped(s);
    assert Fields(s) == DateTime(2024, 2, 29, 9, 0, 0);
  }
}
