/**
 Calendar timestamps and the output file name derived from them with
 `strftime("%Y%m%d_%H%M%S")` followed by ".mp3".
 */
module Timestamp {
  import opened Wrappers
  import opened Decimal

  /** A `datetime` reading, down to the microsecond. */
  datatype DateTime = DateTime(
    year: int, month: int, day: int,
    hour: int, minute: int, second: int,
    microsecond: int)

  predicate IsLeapYear(y: int) {
    y % 4 == 0 && (y % 100 != 0 || y % 400 == 0)
  }

  function DaysInMonth(y: int, m: int): (d: int)
    requires 1 <= m <= 12
    ensures 28 <= d <= 31
  {
    if m == 2 then (if IsLeapYear(y) then 29 else 28)
    else if m == 4 || m == 6 || m == 9 || m == 11 then 30
    else 31
  }

  /** The ranges a `datetime` always lies in: years 1 to 9999, no leap seconds. */
  predicate Valid(t: DateTime) {
    && 1 <= t.year <= 9999
    && 1 <= t.month <= 12
    && 1 <= t.day <= DaysInMonth(t.year, t.month)
    && 0 <= t.hour < 24
    && 0 <= t.minute < 60
    && 0 <= t.second < 60
    && 0 <= t.microsecond < 1000000
  }

  /** The reading with its sub-second part dropped: all the file name can see. */
  function WholeSecond(t: DateTime): (w: DateTime)
    ensures Valid(t) ==> Valid(w)
    ensures w.microsecond == 0
  {
    t.(microsecond := 0)
  }

  const Extension := ".mp3"

  /** `YYYYMMDD_HHMMSS`: every field zero-padded, the year to four digits. */
  function Stamp(t: DateTime): (s: string)
    requires Valid(t)
    ensures |s| == 15
  {
    ZeroPad(t.year, 4) + ZeroPad(t.month, 2) + ZeroPad(t.day, 2) + "_"
    + ZeroPad(t.hour, 2) + ZeroPad(t.minute, 2) + ZeroPad(t.second, 2)
  }

  /** The output file of a capture that starts at `t`. */
  function FileName(t: DateTime): (name: string)
    requires Valid(t)
    ensures |name| == 19 && HasNameLayout(name)
  {
    Stamp(t) + Extension
  }

  /** The shape of every name `FileName` produces: 8 digits, '_', 6 digits, ".mp3". */
  predicate HasNameLayout(name: string) {
    && |name| == 19
    && (forall i :: 0 <= i < 15 && i != 8 ==> IsDigit(name[i]))
    && name[8] == '_'
    && name[15..] == Extension
  }

  /** The number written in positions `lo` to `hi` of a well-laid-out name. */
  function Field(name: string, lo: nat, hi: nat): (v: nat)
    requires HasNameLayout(name)
    requires lo <= hi <= 8 || 9 <= lo <= hi <= 15
  {
    DigitsValue(name[lo..hi])
  }

  /** Each field of the file name holds its part of `t`. */
  lemma FileNameFields(t: DateTime)
    requires Valid(t)
    ensures Field(FileName(t), 0, 4) == t.year && Field(FileName(t), 4, 6) == t.month
    ensures Field(FileName(t), 6, 8) == t.day && Field(FileName(t), 9, 11) == t.hour
    ensures Field(FileName(t), 11, 13) == t.minute && Field(FileName(t), 13, 15) == t.second
  {
    var name := FileName(t);
    var y, mo, d := ZeroPad(t.year, 4), ZeroPad(t.month, 2), ZeroPad(t.day, 2);
    var h, mi, se := ZeroPad(t.hour, 2), ZeroPad(t.minute, 2), ZeroPad(t.second, 2);
    SliceLayout(y, mo, d, h, mi, se, name);
    DigitsValueOfZeroPad(t.year, 4);
    DigitsValueOfZeroPad(t.month, 2);
    DigitsValueOfZeroPad(t.day, 2);
    DigitsValueOfZeroPad(t.hour, 2);
    DigitsValueOfZeroPad(t.minute, 2);
    DigitsValueOfZeroPad(t.second, 2);
  }

  /** Where each field of a name lands, and how the fields put back together give the name. */
  lemma SliceLayout(y: string, mo: string, d: string, h: string, mi: string, se: string, name: string)
    requires |y| == 4 && |mo| == 2 && |d| == 2 && |h| == 2 && |mi| == 2 && |se| == 2
    requires name == y + mo + d + "_" + h + mi + se + Extension
    ensures name[0..4] == y && name[4..6] == mo && name[6..8] == d && name[8] == '_'
    ensures name[9..11] == h && name[11..13] == mi && name[13..15] == se
    ensures name[15..] == Extension
  {
  }

  /** Recovers the whole-second start time from a file name, if it is one `FileName` can produce. */
  function ParseFileName(name: string): (r: Option<DateTime>)
    ensures r.Some? ==> Valid(r.value) && r.value.microsecond == 0
  {
    if HasNameLayout(name) then
      var t := DateTime(
        Field(name, 0, 4), Field(name, 4, 6), Field(name, 6, 8),
        Field(name, 9, 11), Field(name, 11, 13), Field(name, 13, 15), 0);
      if Valid(t) then Some(t) else None
    else
      None
  }

  /** Reading back a file name yields its start time truncated to the second. */
  lemma ParseFileNameRoundTrip(t: DateTime)
    requires Valid(t)
    ensures ParseFileName(FileName(t)) == Some(WholeSecond(t))
  {
    FileNameFields(t);
  }

  /** Every name that parses is exactly the name of the time it parses to. */
  lemma FileNameOfParsed(name: string)
    requires ParseFileName(name).Some?
    ensures FileName(ParseFileName(name).value) == name
  {
    var t := ParseFileName(name).value;
    var y, mo, d := name[0..4], name[4..6], name[6..8];
    var h, mi, se := name[9..11], name[11..13], name[13..15];
    assert t.year == DigitsValue(y) && t.month == DigitsValue(mo) && t.day == DigitsValue(d);
    assert t.hour == DigitsValue(h) && t.minute == DigitsValue(mi) && t.second == DigitsValue(se);
    ZeroPadOfDigitsValue(y);
    ZeroPadOfDigitsValue(mo);
    ZeroPadOfDigitsValue(d);
    ZeroPadOfDigitsValue(h);
    ZeroPadOfDigitsValue(mi);
    ZeroPadOfDigitsValue(se);
    assert Stamp(t) == y + mo + d + "_" + h + mi + se;
    Reassemble(name);
  }

  /** A well-laid-out name is the concatenation of its fields, separator and extension. */
  lemma Reassemble(name: string)
    requires HasNameLayout(name)
    ensures name == name[0..4] + name[4..6] + name[6..8] + "_"
                  + name[9..11] + name[11..13] + name[13..15] + Extension
  {
    assert name[0..8] == name[0..4] + name[4..6] + name[6..8];
    assert name[9..15] == name[9..11] + name[11..13] + name[13..15];
    assert name[8..9] == "_";
    assert name == name[0..8] + name[8..9] + name[9..15] + name[15..];
  }

  /**
   Two captures get the same file name exactly when they start within the
   same wall-clock second: the later one's output collides with the earlier.
   */
  lemma FileNameCollision(a: DateTime, b: DateTime)
    requires Valid(a) && Valid(b)
    ensures FileName(a) == FileName(b) <==> WholeSecond(a) == WholeSecond(b)
  {
    ParseFileNameRoundTrip(a);
    ParseFileNameRoundTrip(b);
  }
}
