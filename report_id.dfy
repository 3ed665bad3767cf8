/**
 * The report id minted on a duplicate-key retry
 * (src/app/api/detect-deepfake/route.ts:85-89):
 * `DFVD-` + the UTC date as `YYYYMMDD` + `-` + the UTC time as `HHMMSS` + `-`
 * + up to six upper-case base-36 characters taken from `Math.random()`.
 *
 * The clock and the random source are inputs: a `DateTime` in UTC and the
 * string `Math.random().toString(36)` produced.
 */
module ReportId {
  import opened Text

  /** A UTC instant, as `toISOString` reads it. */
  datatype DateTime = DateTime(
    year: nat, month: nat, day: nat,
    hour: nat, minute: nat, second: nat, millisecond: nat)

  predicate ValidDateTime(t: DateTime)
  {
    && t.year <= 9999
    && 1 <= t.month <= 12 && 1 <= t.day <= 31
    && t.hour < 24 && t.minute < 60 && t.second < 60 && t.millisecond < 1000
  }

  /** `Date.prototype.toISOString`: `YYYY-MM-DDTHH:mm:ss.sssZ`. */
  function IsoString(t: DateTime): (s: string)
    ensures |s| == 24
  {
    Digits(t.year, 4) + "-" + Digits(t.month, 2) + "-" + Digits(t.day, 2)
    + "T" + Digits(t.hour, 2) + ":" + Digits(t.minute, 2) + ":" + Digits(t.second, 2)
    + "." + Digits(t.millisecond, 3) + "Z"
  }

  /** `now.toISOString().slice(0, 10).replace(/-/g, '')`. */
  function DateStr(t: DateTime): string
  {
    RemoveAll(JsSlice(IsoString(t), 0, 10), '-')
  }

  /** `now.toISOString().slice(11, 19).replace(/:/g, '')`. */
  function TimeStr(t: DateTime): string
  {
    RemoveAll(JsSlice(IsoString(t), 11, 19), ':')
  }

  lemma IsoParts(t: DateTime)
    ensures IsoString(t)[0..10] == Digits(t.year, 4) + "-" + Digits(t.month, 2) + "-" + Digits(t.day, 2)
    ensures IsoString(t)[11..19] == Digits(t.hour, 2) + ":" + Digits(t.minute, 2) + ":" + Digits(t.second, 2)
  {
    var date := Digits(t.year, 4) + "-" + Digits(t.month, 2) + "-" + Digits(t.day, 2);
    var time := Digits(t.hour, 2) + ":" + Digits(t.minute, 2) + ":" + Digits(t.second, 2);
    var tail := "." + Digits(t.millisecond, 3) + "Z";
    assert IsoString(t) == date + "T" + time + tail;
  }

  /** Dropping the separator from three digit groups joined by it leaves the groups run together. */
  lemma StripSeparator(x: string, y: string, z: string, sep: char)
    requires AllDigits(x) && AllDigits(y) && AllDigits(z) && !IsDigit(sep)
    ensures RemoveAll(x + [sep] + y + [sep] + z, sep) == x + y + z
    ensures AllDigits(x + y + z)
  {
    var s1 := x + [sep];
    var s2 := s1 + y;
    var s3 := s2 + [sep];
    assert RemoveAll([sep], sep) == [];
    RemoveNonDigit(x, sep);
    RemoveNonDigit(y, sep);
    RemoveNonDigit(z, sep);
    RemoveAllConcat(x, [sep], sep);
    assert RemoveAll(s1, sep) == x;
    RemoveAllConcat(s1, y, sep);
    assert RemoveAll(s2, sep) == x + y;
    RemoveAllConcat(s2, [sep], sep);
    assert RemoveAll(s3, sep) == x + y;
    RemoveAllConcat(s3, z, sep);
    AllDigitsConcat(x, y);
    AllDigitsConcat(x + y, z);
  }

  /** The date part of the id is the UTC year, month and day, eight digits. */
  lemma DateStrIsUtcDate(t: DateTime)
    ensures DateStr(t) == Digits(t.year, 4) + Digits(t.month, 2) + Digits(t.day, 2)
    ensures |DateStr(t)| == 8 && AllDigits(DateStr(t))
  {
    IsoParts(t);
    StripSeparator(Digits(t.year, 4), Digits(t.month, 2), Digits(t.day, 2), '-');
  }

  /** The time part of the id is the UTC hour, minute and second, six digits. */
  lemma TimeStrIsUtcTime(t: DateTime)
    ensures TimeStr(t) == Digits(t.hour, 2) + Digits(t.minute, 2) + Digits(t.second, 2)
    ensures |TimeStr(t)| == 6 && AllDigits(TimeStr(t))
  {
    IsoParts(t);
    StripSeparator(Digits(t.hour, 2), Digits(t.minute, 2), Digits(t.second, 2), ':');
  }

  /**
   * What `Math.random().toString(36)` can print for a value in [0, 1): `0`,
   * or `0.` followed by lower-case base-36 digits.
   */
  predicate Base36Fraction(r: string)
  {
    || r == "0"
    || (|r| >= 3 && r[0] == '0' && r[1] == '.' && forall i :: 2 <= i < |r| ==> IsLowerBase36(r[i]))
  }

  /** `Math.random().toString(36).substring(2, 8).toUpperCase()`. */
  function RandomSuffix(r: string): string
  {
    ToUpper(JsSubstring(r, 2, 8))
  }

  /** The suffix has at most six characters, all upper-case base 36; six whenever there are enough digits. */
  lemma RandomSuffixShape(r: string)
    requires Base36Fraction(r)
    ensures |RandomSuffix(r)| <= 6
    ensures |r| >= 8 ==> |RandomSuffix(r)| == 6
    ensures forall i :: 0 <= i < |RandomSuffix(r)| ==> IsUpperBase36(RandomSuffix(r)[i])
  {
    var cut := JsSubstring(r, 2, 8);
    if r == "0" {
      assert cut == "";
    } else {
      var e := if |r| < 8 then |r| else 8;
      assert cut == r[2..e];
      forall i | 0 <= i < |cut| ensures IsUpperBase36(RandomSuffix(r)[i]) {
        assert cut[i] == r[i + 2];
      }
    }
  }

  /** The id written into the log and the response on a retry. */
  function MintReportId(t: DateTime, r: string): string
  {
    "DFVD-" + DateStr(t) + "-" + TimeStr(t) + "-" + RandomSuffix(r)
  }

  /** `DFVD-`, eight digits, `-`, six digits, `-`, at most six upper-case base-36 characters. */
  predicate WellFormedReportId(id: string)
  {
    && 21 <= |id| <= 27
    && id[..5] == "DFVD-"
    && AllDigits(id[5..13]) && id[13] == '-'
    && AllDigits(id[14..20]) && id[20] == '-'
    && forall i :: 21 <= i < |id| ==> IsUpperBase36(id[i])
  }

  /** Where the fields of `DFVD-<date>-<time>-<suffix>` sit. */
  lemma IdLayout(date: string, time: string, suffix: string)
    requires |date| == 8 && |time| == 6
    ensures var id := "DFVD-" + date + "-" + time + "-" + suffix;
            && |id| == 21 + |suffix|
            && id[..5] == "DFVD-" && id[5..13] == date && id[13] == '-'
            && id[14..20] == time && id[20] == '-' && id[21..] == suffix
  {
  }

  /** A minted id is well formed, and its date and time fields are the UTC clock reading. */
  lemma MintedIdWellFormed(t: DateTime, r: string)
    requires Base36Fraction(r)
    ensures WellFormedReportId(MintReportId(t, r))
    ensures MintReportId(t, r)[5..13] == Digits(t.year, 4) + Digits(t.month, 2) + Digits(t.day, 2)
    ensures MintReportId(t, r)[14..20] == Digits(t.hour, 2) + Digits(t.minute, 2) + Digits(t.second, 2)
    ensures MintReportId(t, r)[21..] == RandomSuffix(r)
  {
    DateStrIsUtcDate(t);
    TimeStrIsUtcTime(t);
    RandomSuffixShape(r);
    var suffix := RandomSuffix(r);
    IdLayout(DateStr(t), TimeStr(t), suffix);
    var id := MintReportId(t, r);
    forall i | 21 <= i < |id| ensures IsUpperBase36(id[i]) {
      assert id[i] == id[21..][i - 21];
    }
  }

  /**
   * Two minted ids are equal only when the clock readings agree to the second
   * and the suffixes agree: ids minted in different seconds never collide.
   */
  lemma MintedIdDeterminesClock(t1: DateTime, r1: string, t2: DateTime, r2: string)
    requires ValidDateTime(t1) && ValidDateTime(t2)
    requires Base36Fraction(r1) && Base36Fraction(r2)
    requires MintReportId(t1, r1) == MintReportId(t2, r2)
    ensures t1.year == t2.year && t1.month == t2.month && t1.day == t2.day
    ensures t1.hour == t2.hour && t1.minute == t2.minute && t1.second == t2.second
    ensures RandomSuffix(r1) == RandomSuffix(r2)
  {
    MintedIdWellFormed(t1, r1);
    MintedIdWellFormed(t2, r2);
    var id := MintReportId(t1, r1);
    var date1 := Digits(t1.year, 4) + Digits(t1.month, 2) + Digits(t1.day, 2);
    var date2 := Digits(t2.year, 4) + Digits(t2.month, 2) + Digits(t2.day, 2);
    var time1 := Digits(t1.hour, 2) + Digits(t1.minute, 2) + Digits(t1.second, 2);
    var time2 := Digits(t2.hour, 2) + Digits(t2.minute, 2) + Digits(t2.second, 2);
    assert date1 == date2 && time1 == time2;
    assert date1[..4] == Digits(t1.year, 4) && date2[..4] == Digits(t2.year, 4);
    assert date1[4..6] == Digits(t1.month, 2) && date2[4..6] == Digits(t2.month, 2);
    assert date1[6..] == Digits(t1.day, 2) && date2[6..] == Digits(t2.day, 2);
    assert time1[..2] == Digits(t1.hour, 2) && time2[..2] == Digits(t2.hour, 2);
    assert time1[2..4] == Digits(t1.minute, 2) && time2[2..4] == Digits(t2.minute, 2);
    assert time1[4..] == Digits(t1.second, 2) && time2[4..] == Digits(t2.second, 2);
    assert Pow10(2) == 100 && Pow10(4) == 10000;
    DigitsInjective(t1.year, t2.year, 4);
    DigitsInjective(t1.month, t2.month, 2);
    DigitsInjective(t1.day, t2.day, 2);
    DigitsInjective(t1.hour, t2.hour, 2);
    DigitsInjective(t1.minute, t2.minute, 2);
    DigitsInjective(t1.second, t2.second, 2);
  }
}
