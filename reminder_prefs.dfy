/**
 * util/ReminderPrefs.kt: the stored daily-reminder time (hour and minute,
 * 20:00 when never set) and its 12-hour rendering "h:mm AM|PM".
 */
module ReminderPrefs {
  import opened Text

  const KeyHour := "reminder_hour"
  const KeyMinute := "reminder_minute"
  const DefaultHour := 20
  const DefaultMinute := 0

  /** The hour on a 12-hour clock face: 0 shows as 12, afternoon hours lose 12. */
  function Hour12(hour: int): (h: int)
    ensures 0 <= hour <= 23 ==> 1 <= h <= 12 && h % 12 == hour % 12
    ensures hour == 0 ==> h == 12
    ensures 13 <= hour <= 23 ==> h == hour - 12
  {
    if hour == 0 then 12 else if hour > 12 then hour - 12 else hour
  }

  function Suffix(hour: int): (s: string)
    ensures s == "PM" <==> hour >= 12
    ensures s == "AM" || s == "PM"
  {
    if hour >= 12 then "PM" else "AM"
  }

  /** The minute, padded with a leading zero below 10. */
  function MinuteText(minute: int): (s: string)
    ensures 0 <= minute <= 59 ==> |s| == 2 && IsDigits(s) && DecimalValue(s) == minute
  {
    NatToStringValueFor(minute);
    if minute < 10 then "0" + IntToString(minute) else IntToString(minute)
  }

  lemma NatToStringValueFor(minute: int)
    ensures minute >= 0 ==> DecimalValue(NatToString(minute)) == minute
    ensures 0 <= minute < 10 ==> DecimalValue("0" + NatToString(minute)) == minute
  {
    if minute >= 0 {
      NatToStringValue(minute);
      if minute < 10 {
        var s := "0" + NatToString(minute);
        assert s[..|s| - 1] == "0";
        assert DecimalValue("0") == 0 by {
          assert "0"[..0] == [];
        }
      }
    }
  }

  /**
   * getFormattedReminderTime for a given hour and minute: "<h>:<mm> <AM|PM>",
   * where <h> is the 12-hour clock's hour, a valid minute reads back from the
   * two digits after the colon, and the suffix follows the hour.
   */
  function FormatTime(hour: int, minute: int): (r: string)
    ensures |r| >= 6 && r[|r| - 3] == ' ' && (r[|r| - 2..] == "PM" <==> hour >= 12)
    ensures r[|r| - 2..] == "AM" || r[|r| - 2..] == "PM"
    ensures 0 <= minute <= 59 ==>
      r[|r| - 6] == ':' && IsDigits(r[|r| - 5..|r| - 3]) && DecimalValue(r[|r| - 5..|r| - 3]) == minute
    ensures 0 <= minute <= 59 ==> r[..|r| - 6] == IntToString(Hour12(hour))
  {
    var h, m, s := IntToString(Hour12(hour)), MinuteText(minute), Suffix(hour);
    var r := h + ":" + m + " " + s;
    assert r[|r| - 2..] == s && r[|r| - 3] == ' ';
    assert |m| == 2 ==> r[|r| - 5..|r| - 3] == m && r[|r| - 6] == ':' && r[..|r| - 6] == h;
    r
  }

  /** With nothing stored the reminder reads "8:00 PM". */
  lemma DefaultTimeText()
    ensures FormatTime(DefaultHour, DefaultMinute) == "8:00 PM"
  {
    assert IntToString(8) == "8";
    assert IntToString(0) == "0";
  }

  /** Two valid times that render the same are the same time. */
  lemma {:induction false} FormatTimeInjective(h1: int, m1: int, h2: int, m2: int)
    requires 0 <= h1 <= 23 && 0 <= m1 <= 59 && 0 <= h2 <= 23 && 0 <= m2 <= 59
    requires FormatTime(h1, m1) == FormatTime(h2, m2)
    ensures h1 == h2 && m1 == m2
  {
    SplitFormatted(IntToString(Hour12(h1)), MinuteText(m1), Suffix(h1), IntToString(Hour12(h2)), MinuteText(m2), Suffix(h2));
    IntToStringInjective(Hour12(h1), Hour12(h2));
    HourFromParts(h1, h2);
  }

  /** "<a>:<b> <c>" with two-character `b` and `c` determines its three parts. */
  lemma SplitFormatted(a1: string, b1: string, c1: string, a2: string, b2: string, c2: string)
    requires |b1| == 2 && |b2| == 2 && |c1| == 2 && |c2| == 2
    requires a1 + ":" + b1 + " " + c1 == a2 + ":" + b2 + " " + c2
    ensures a1 == a2 && b1 == b2 && c1 == c2
  {
    var r1, r2 := a1 + ":" + b1 + " " + c1, a2 + ":" + b2 + " " + c2;
    assert |a1| == |a2|;
    assert a1 == r1[..|a1|] && a2 == r2[..|a2|];
    assert b1 == r1[|a1| + 1..|a1| + 3] && b2 == r2[|a2| + 1..|a2| + 3];
    assert c1 == r1[|a1| + 4..] && c2 == r2[|a2| + 4..];
  }

  /** The 12-hour value and the suffix together determine the hour. */
  lemma HourFromParts(h1: int, h2: int)
    requires 0 <= h1 <= 23 && 0 <= h2 <= 23
    requires Hour12(h1) == Hour12(h2) && Suffix(h1) == Suffix(h2)
    ensures h1 == h2
  {
  }

  /** The reminder-time store. */
  class ReminderPrefs {
    var entries: map<string, int>

    constructor (persisted: map<string, int>)
      ensures entries == persisted
    {
      entries := persisted;
    }

    function GetReminderHour(): (h: int)
      reads this
      ensures KeyHour !in entries ==> h == DefaultHour
      ensures KeyHour in entries ==> h == entries[KeyHour]
    {
      if KeyHour in entries then entries[KeyHour] else DefaultHour
    }

    function GetReminderMinute(): (m: int)
      reads this
      ensures KeyMinute !in entries ==> m == DefaultMinute
      ensures KeyMinute in entries ==> m == entries[KeyMinute]
    {
      if KeyMinute in entries then entries[KeyMinute] else DefaultMinute
    }

    function GetFormattedReminderTime(): string
      reads this
    {
      FormatTime(GetReminderHour(), GetReminderMinute())
    }

    method SetReminderTime(hour: int, minute: int)
      modifies this
      ensures entries == old(entries)[KeyHour := hour][KeyMinute := minute]
      ensures GetReminderHour() == hour && GetReminderMinute() == minute
      ensures GetFormattedReminderTime() == FormatTime(hour, minute)
    {
      entries := entries[KeyHour := hour][KeyMinute := minute];
    }
  }
}
