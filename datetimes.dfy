/**
 * Python `datetime` values to the second, with the text forms the data layout
 * uses: `isoformat()` / `fromisoformat()` for JSON files, `"%Y%m%dT%H%M%S"`
 * for session keys and the `datetime` column of sessions.tsv, and the
 * `"%Y-%m-%d %H:%M"` / `"%Y-%m-%d"` display forms of the viewers.
 */
module DateTimes {
  import opened Util

  /**
   * A calendar datetime. `offset` is the UTC offset in minutes of an aware
   * datetime (Strava start dates are aware, in UTC) and None for a naive one.
   */
  datatype DateTime = DateTime(year: nat, month: nat, day: nat,
                               hour: nat, minute: nat, second: nat,
                               offset: Option<int>)

  predicate IsLeapYear(y: nat) { y % 4 == 0 && (y % 100 != 0 || y % 400 == 0) }

  function DaysInMonth(y: nat, m: nat): nat
  {
    if m == 2 then (if IsLeapYear(y) then 29 else 28)
    else if m == 4 || m == 6 || m == 9 || m == 11 then 30
    else 31
  }

  /** The values Python's `datetime` constructor accepts (offsets within a day). */
  predicate Valid(d: DateTime)
  {
    && 1 <= d.year <= 9999 && 1 <= d.month <= 12 && 1 <= d.day <= DaysInMonth(d.year, d.month)
    && d.hour < 24 && d.minute < 60 && d.second < 60
    && (d.offset.Some? ==> -1440 < d.offset.value < 1440)
  }

  // ---------------------------------------------------------------- instants

  /** Days since 0001-01-01 of the first day of year `y`. */
  function DaysBeforeYear(y: nat): nat
  {
    var p := if y >= 1 then y - 1 else 0;
    365 * p + p / 4 - p / 100 + p / 400
  }

  function DaysBeforeMonth(y: nat, m: nat): nat
    decreases m
  {
    if m <= 1 then 0 else DaysBeforeMonth(y, m - 1) + DaysInMonth(y, m - 1)
  }

  /** Seconds since 0001-01-01T00:00:00 of the wall-clock reading of `d`. */
  function WallSeconds(d: DateTime): int
  {
    var days := DaysBeforeYear(d.year) + DaysBeforeMonth(d.year, d.month) + d.day - 1;
    ((days * 24 + d.hour) * 60 + d.minute) * 60 + d.second
  }

  /** 1970-01-01 in seconds since 0001-01-01. */
  const EpochSeconds: int := 62135596800

  /**
   * The instant of `d` in seconds since 1970, reading a naive datetime as
   * UTC: what orders datetimes of the same kind.
   */
  function Timestamp(d: DateTime): int
  {
    WallSeconds(d) - EpochSeconds - (if d.offset.Some? then d.offset.value * 60 else 0)
  }

  /** The local time zone: the UTC offset, in minutes, in force at a naive wall-clock reading. */
  type Zone = DateTime -> int

  /**
   * Python's `d.timestamp()` truncated to whole seconds: a naive datetime is
   * read in the local zone, an aware one by its own offset.
   */
  function PosixTimestamp(d: DateTime, zone: Zone): (t: int)
    ensures d.offset.Some? ==> t == Timestamp(d)
    ensures d.offset.None? ==> t == WallSeconds(d) - EpochSeconds - zone(d) * 60
  {
    if d.offset.Some? then Timestamp(d) else Timestamp(d) - zone(d) * 60
  }

  /** Python's `a < b` on datetimes of the same kind: earlier instant. */
  predicate Before(a: DateTime, b: DateTime)
  {
    Timestamp(a) < Timestamp(b)
  }

  // ---------------------------------------------------------------- text forms

  function DatePart(d: DateTime, sep: string): string
    requires Valid(d)
  {
    Pad4(d.year) + sep + Pad2(d.month) + sep + Pad2(d.day)
  }

  function OffsetText(o: Option<int>): string
    requires o.Some? ==> -1440 < o.value < 1440
  {
    match o
    case None => ""
    case Some(m) =>
      var a := if m < 0 then -m else m;
      (if m < 0 then "-" else "+") + Pad2(a / 60) + ":" + Pad2(a % 60)
  }

  /** `d.isoformat()`: "YYYY-MM-DDTHH:MM:SS" followed by "+HH:MM" for an aware datetime. */
  function IsoFormat(d: DateTime): string
    requires Valid(d)
  {
    DatePart(d, "-") + "T" + Pad2(d.hour) + ":" + Pad2(d.minute) + ":" + Pad2(d.second)
    + OffsetText(d.offset)
  }

  /** `d.strftime("%Y%m%dT%H%M%S")`: the session key of an activity starting at `d`. */
  function SessionKey(d: DateTime): string
    requires Valid(d)
  {
    DatePart(d, "") + "T" + Pad2(d.hour) + Pad2(d.minute) + Pad2(d.second)
  }

  /** `d.strftime("%Y-%m-%d %H:%M")`. */
  function MinuteText(d: DateTime): string
    requires Valid(d)
  {
    DatePart(d, "-") + " " + Pad2(d.hour) + ":" + Pad2(d.minute)
  }

  /** `d.strftime("%Y-%m-%d")`. */
  function DateText(d: DateTime): string
    requires Valid(d)
  {
    DatePart(d, "-")
  }

  /** The number in `s[i..i+n]`, when those characters are all digits. */
  function FieldAt(s: string, i: nat, n: nat): Option<nat>
  {
    if i + n <= |s| && AllDigits(s[i..i + n]) then Some(DigitsValue(s[i..i + n])) else None
  }

  function Build(y: Option<nat>, mo: Option<nat>, d: Option<nat>, h: Option<nat>, mi: Option<nat>,
                 se: Option<nat>, off: Option<int>): (r: Option<DateTime>)
    ensures r.Some? ==> Valid(r.value)
  {
    if y.Some? && mo.Some? && d.Some? && h.Some? && mi.Some? && se.Some?
       && Valid(DateTime(y.value, mo.value, d.value, h.value, mi.value, se.value, off))
    then Some(DateTime(y.value, mo.value, d.value, h.value, mi.value, se.value, off))
    else None
  }

  /** The "+HH:MM" / "-HH:MM" offset at `s[i..i+6]`, in minutes. */
  function OffsetAt(s: string, i: nat): Option<int>
  {
    if i + 6 <= |s| && (s[i] == '+' || s[i] == '-') && s[i + 3] == ':' then
      match (FieldAt(s, i + 1, 2), FieldAt(s, i + 4, 2))
      case (Some(h), Some(m)) =>
        if m < 60 && h * 60 + m < 1440 then Some(if s[i] == '-' then -(h * 60 + m) else h * 60 + m)
        else None
      case _ => None
    else None
  }

  /**
   * `datetime.fromisoformat(s)` for the forms `isoformat()` writes
   * ("YYYY-MM-DDTHH:MM:SS", optionally followed by "+HH:MM"); None where it
   * raises ValueError.
   */
  function FromIsoFormat(s: string): (r: Option<DateTime>)
    ensures r.Some? ==> Valid(r.value)
  {
    if (|s| == 19 || |s| == 25) && s[4] == '-' && s[7] == '-' && s[10] == 'T' && s[13] == ':' && s[16] == ':'
    then
      var off := if |s| == 25 then OffsetAt(s, 19) else None;
      if |s| == 25 && off.None? then None
      else Build(FieldAt(s, 0, 4), FieldAt(s, 5, 2), FieldAt(s, 8, 2),
                 FieldAt(s, 11, 2), FieldAt(s, 14, 2), FieldAt(s, 17, 2), off)
    else None
  }

  /** `datetime.strptime(s, "%Y%m%dT%H%M%S")` for a session key; None where it raises ValueError. */
  function ParseSessionKey(s: string): Option<DateTime>
  {
    if |s| == 15 && s[8] == 'T' then
      Build(FieldAt(s, 0, 4), FieldAt(s, 4, 2), FieldAt(s, 6, 2),
            FieldAt(s, 9, 2), FieldAt(s, 11, 2), FieldAt(s, 13, 2), None)
    else None
  }

  // ---------------------------------------------------------------- round trips

  lemma OffsetRoundTrip(s: string, o: Option<int>, i: nat)
    requires o.Some? && -1440 < o.value < 1440
    requires i + 6 <= |s| && s[i..i + 6] == OffsetText(o)
    ensures OffsetAt(s, i) == o
  {
    var a := if o.value < 0 then -o.value else o.value;
    var t := s[i..i + 6];
    assert t == (if o.value < 0 then "-" else "+") + Pad2(a / 60) + ":" + Pad2(a % 60);
    var hh, mm := Pad2(a / 60), Pad2(a % 60);
    assert t[1] == hh[0] && t[2] == hh[1] && t[4] == mm[0] && t[5] == mm[1];
    assert s[i + 1..i + 3] == t[1..3] == [hh[0], hh[1]] == hh;
    assert s[i + 4..i + 6] == t[4..6] == [mm[0], mm[1]] == mm;
    assert s[i] == t[0] && s[i + 3] == t[3];
  }

  /** `fromisoformat(d.isoformat()) == d`. */
  lemma IsoFormatRoundTrip(d: DateTime)
    requires Valid(d)
    ensures FromIsoFormat(IsoFormat(d)) == Some(d)
  {
    var s := IsoFormat(d);
    assert s[..19] == DatePart(d, "-") + "T" + Pad2(d.hour) + ":" + Pad2(d.minute) + ":" + Pad2(d.second);
    assert s[0..4] == Pad4(d.year);
    assert s[5..7] == Pad2(d.month);
    assert s[8..10] == Pad2(d.day);
    assert s[11..13] == Pad2(d.hour);
    assert s[14..16] == Pad2(d.minute);
    assert s[17..19] == Pad2(d.second);
    if d.offset.Some? {
      assert s[19..25] == OffsetText(d.offset);
      OffsetRoundTrip(s, d.offset, 19);
    }
  }

  /** Reading a session key back gives the naive datetime it was formatted from. */
  lemma SessionKeyRoundTrip(d: DateTime)
    requires Valid(d)
    ensures ParseSessionKey(SessionKey(d)) == Some(d.(offset := None))
  {
    var s := SessionKey(d);
    assert s[0..4] == Pad4(d.year);
    assert s[4..6] == Pad2(d.month);
    assert s[6..8] == Pad2(d.day);
    assert s[9..11] == Pad2(d.hour);
    assert s[11..13] == Pad2(d.minute);
    assert s[13..15] == Pad2(d.second);
  }

  /** The isoformat text never holds a "Z", so `replace("Z", "+00:00")` leaves it alone. */
  lemma IsoFormatHasNoZ(d: DateTime)
    requires Valid(d)
    ensures !Contains(IsoFormat(d), "Z")
  {
    var s := IsoFormat(d);
    forall k | 0 <= k < |s| ensures s[k] != 'Z' {
      assert IsDigit(s[k]) || s[k] in "-T:+";
    }
    ContainsChar(s, 'Z');
  }
}
