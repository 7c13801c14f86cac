/** The name a log file gets when it is rotated away (server.ts, `renameFile`
    and `digit`): `<stem>_<date>-<time><ext>` in the same directory. */
module RotatedNames {
  import opened Common
  import opened Text

  /** `digit(value, length)`: the decimal string, left-padded with zeros to
      at least `length` characters and never cut; it reads back as `value`. */
  function Digit(v: nat, len: nat): (r: string)
    ensures |r| == Max(|DecimalString(v)|, len)
    ensures DecimalValue(r) == v
  {
    var s := DecimalString(v);
    DecimalRoundTrip(v);
    LeadingZerosIgnored(if |s| >= len then 0 else len - |s|, s);
    assert |s| >= len ==> Repeat('0', 0) + s == s;
    PadStart(s, len, '0')
  }

  /** The padding `digit` adds: zeros, then the decimal string. */
  lemma DigitLayout(v: nat, len: nat)
    ensures var r, s := Digit(v, len), DecimalString(v);
      && r[|r| - |s|..] == s
      && forall i :: 0 <= i < |r| - |s| ==> r[i] == '0'
  {
  }

  /** A value below 10^len fills exactly `len` characters. */
  lemma DigitWidth(v: nat, len: nat)
    requires 1 <= len && v < Pow10(len)
    ensures |Digit(v, len)| == len
  {
    DecimalWidth(v, len);
  }

  /** The readings of `new Date()` the name is built from. `utcMonth` is
      `getUTCMonth()` (January is 0), `utcDate` is `getUTCDate()` (the day of
      the month) and `utcWeekday` is `getUTCDay()` (Sunday is 0). */
  datatype Clock = Clock(
    localYear: nat,
    utcYear: nat,
    utcMonth: nat,
    utcDate: nat,
    utcWeekday: nat,
    utcHours: nat,
    utcMinutes: nat,
    utcSeconds: nat)

  /** Readings a real clock can give (for four-digit years). */
  predicate ValidClock(c: Clock) {
    && c.localYear < 10000 && c.utcYear < 10000
    && c.utcMonth < 12 && 1 <= c.utcDate <= 31 && c.utcWeekday < 7
    && c.utcHours < 24 && c.utcMinutes < 60 && c.utcSeconds < 60
  }

  /** The date stamp as the source builds it: local year, then the zero-based
      UTC month, then the UTC day of the WEEK. */
  function DateStampAsWritten(c: Clock): string {
    Digit(c.localYear, 4) + Digit(c.utcMonth, 2) + Digit(c.utcWeekday, 2) + "-"
      + Digit(c.utcHours, 2) + Digit(c.utcMinutes, 2) + Digit(c.utcSeconds, 2)
  }

  /** As written, two rotations a week apart at the same time of day get the
      same stamp: Monday 5 January 2026 and Monday 12 January 2026, both at
      12:00:00 UTC, are both stamped "20260001-120000". */
  lemma AsWrittenStampCollides()
    ensures var a := Clock(2026, 2026, 0, 5, 1, 12, 0, 0);
      var b := Clock(2026, 2026, 0, 12, 1, 12, 0, 0);
      && ValidClock(a) && ValidClock(b) && a != b
      && DateStampAsWritten(a) == DateStampAsWritten(b)
      && DateStamp(a) != DateStamp(b)
  {
    var a := Clock(2026, 2026, 0, 5, 1, 12, 0, 0);
    var b := Clock(2026, 2026, 0, 12, 1, 12, 0, 0);
    if DateStamp(a) == DateStamp(b) {
      DateStampInjective(a, b);
    }
  }

  /** The date stamp as intended: UTC year, calendar month (1 to 12), day of
      the month, then hours, minutes and seconds: `YYYYMMDD-HHMMSS`. */
  function DateStamp(c: Clock): string {
    Digit(c.utcYear, 4) + Digit(c.utcMonth + 1, 2) + Digit(c.utcDate, 2) + "-"
      + Digit(c.utcHours, 2) + Digit(c.utcMinutes, 2) + Digit(c.utcSeconds, 2)
  }

  lemma Pow10Facts()
    ensures Pow10(2) == 100 && Pow10(4) == 10000
  {
    assert Pow10(1) == 10;
    assert Pow10(3) == 1000;
  }

  /** A field of `n` digits reads back as its value. */
  lemma DigitField(v: nat, n: nat)
    requires 1 <= n && v < Pow10(n)
    ensures |Digit(v, n)| == n && DecimalValue(Digit(v, n)) == v
  {
    DigitWidth(v, n);
  }

  /** Each field of a stamp fills its width. */
  lemma StampWidths(c: Clock)
    requires ValidClock(c)
    ensures |Digit(c.utcYear, 4)| == 4 && |Digit(c.utcMonth + 1, 2)| == 2 && |Digit(c.utcDate, 2)| == 2
    ensures |Digit(c.utcHours, 2)| == 2 && |Digit(c.utcMinutes, 2)| == 2 && |Digit(c.utcSeconds, 2)| == 2
  {
    Pow10Facts();
    DigitWidth(c.utcYear, 4);
    DigitWidth(c.utcMonth + 1, 2);
    DigitWidth(c.utcDate, 2);
    DigitWidth(c.utcHours, 2);
    DigitWidth(c.utcMinutes, 2);
    DigitWidth(c.utcSeconds, 2);
  }

  /** The stamp's six fields, in order, with the dash after the date. */
  lemma StampParts(c: Clock)
    requires ValidClock(c)
    ensures var s := DateStamp(c);
      && |s| == 15 && s[8] == '-'
      && s[0..4] == Digit(c.utcYear, 4) && s[4..6] == Digit(c.utcMonth + 1, 2)
      && s[6..8] == Digit(c.utcDate, 2) && s[9..11] == Digit(c.utcHours, 2)
      && s[11..13] == Digit(c.utcMinutes, 2) && s[13..15] == Digit(c.utcSeconds, 2)
  {
    StampWidths(c);
    var y, mo, d := Digit(c.utcYear, 4), Digit(c.utcMonth + 1, 2), Digit(c.utcDate, 2);
    var h, mi, se := Digit(c.utcHours, 2), Digit(c.utcMinutes, 2), Digit(c.utcSeconds, 2);
    assert DateStamp(c) == y + mo + d + "-" + h + mi + se;
    Slices(y, mo, d, h, mi, se);
  }

  /** Where six fields of these widths sit once joined as a stamp. */
  lemma Slices(y: string, mo: string, d: string, h: string, mi: string, se: string)
    requires |y| == 4 && |mo| == 2 && |d| == 2 && |h| == 2 && |mi| == 2 && |se| == 2
    ensures var s := y + mo + d + "-" + h + mi + se;
      && |s| == 15 && s[8] == '-'
      && s[0..4] == y && s[4..6] == mo && s[6..8] == d
      && s[9..11] == h && s[11..13] == mi && s[13..15] == se
  {
  }

  /** A stamp is fifteen characters wide and reads back as the UTC date and
      time it was made from. */
  lemma DateStampRoundTrip(c: Clock)
    requires ValidClock(c)
    ensures var s := DateStamp(c);
      && |s| == 15
      && DecimalValue(s[0..4]) == c.utcYear && DecimalValue(s[4..6]) == c.utcMonth + 1
      && DecimalValue(s[6..8]) == c.utcDate && DecimalValue(s[9..11]) == c.utcHours
      && DecimalValue(s[11..13]) == c.utcMinutes && DecimalValue(s[13..15]) == c.utcSeconds
  {
    StampParts(c);
  }

  /** Distinct UTC seconds give distinct stamps. */
  lemma DateStampInjective(a: Clock, b: Clock)
    requires ValidClock(a) && ValidClock(b) && DateStamp(a) == DateStamp(b)
    ensures a.utcYear == b.utcYear && a.utcMonth == b.utcMonth && a.utcDate == b.utcDate
    ensures a.utcHours == b.utcHours && a.utcMinutes == b.utcMinutes && a.utcSeconds == b.utcSeconds
  {
    DateStampRoundTrip(a);
    DateStampRoundTrip(b);
  }

  /** The index of the last dot in `name`, if any. */
  function LastDot(name: string): (r: Option<nat>)
    ensures r.Some? ==> r.value < |name| && name[r.value] == '.'
    ensures r.Some? ==> forall i :: r.value < i < |name| ==> name[i] != '.'
    ensures r.None? ==> forall i :: 0 <= i < |name| ==> name[i] != '.'
  {
    if name == [] then None
    else if name[|name| - 1] == '.' then Some(|name| - 1)
    else LastDot(name[..|name| - 1])
  }

  /** `path.extname` of a file name, and the name without it (`path.basename`
      with that extension): the extension runs from the last dot, except when
      there is no dot, the dot is the first character, or the name is "..". */
  function SplitExt(name: string): (r: (string, string))
    ensures r.0 + r.1 == name
    ensures r.1 == "" || r.1[0] == '.'
  {
    var dot := LastDot(name);
    if dot.None? || dot.value == 0 || name == ".." then (name, "")
    else (name[..dot.value], name[dot.value..])
  }

  /** `${originalBaseName}_${dateString}${originalExt}`. */
  function RotatedName(name: string, stamp: string): (r: string)
    ensures |r| == |name| + 1 + |stamp|
  {
    var (stem, ext) := SplitExt(name);
    stem + "_" + stamp + ext
  }

  /** The rotated name keeps the stem and the extension and puts the stamp
      between them; it differs from the original, and distinct stamps of one
      width give distinct names. */
  lemma RotatedNameLayout(name: string, s1: string, s2: string)
    requires |s1| == |s2|
    ensures var (stem, ext) := SplitExt(name);
      && RotatedName(name, s1)[..|stem|] == stem
      && RotatedName(name, s1)[|stem|] == '_'
      && RotatedName(name, s1)[|stem| + 1..|stem| + 1 + |s1|] == s1
      && RotatedName(name, s1)[|stem| + 1 + |s1|..] == ext
    ensures RotatedName(name, s1) != name
    ensures s1 != s2 ==> RotatedName(name, s1) != RotatedName(name, s2)
  {
    var (stem, ext) := SplitExt(name);
    var r1, r2 := RotatedName(name, s1), RotatedName(name, s2);
    assert r1 == stem + "_" + s1 + ext;
    assert r2 == stem + "_" + s2 + ext;
    assert r1[|stem| + 1..|stem| + 1 + |s1|] == s1;
    assert r2[|stem| + 1..|stem| + 1 + |s2|] == s2;
  }

  /** The default file name rotates to `logfile_<stamp>.log`. */
  lemma DefaultNameRotation(stamp: string)
    ensures RotatedName("logfile.log", stamp) == "logfile_" + stamp + ".log"
  {
    var n := "logfile.log";
    var n10, n9, n8 := "logfile.lo", "logfile.l", "logfile.";
    assert n[..10] == n10 && n10[..9] == n9 && n9[..8] == n8;
    assert LastDot(n8) == Some(7);
    assert LastDot(n9) == Some(7);
    assert LastDot(n10) == Some(7);
    assert LastDot(n) == Some(7);
    assert n[..7] == "logfile" && n[7..] == ".log";
  }
}
