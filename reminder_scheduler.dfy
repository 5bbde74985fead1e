/**
 * notification/ReminderScheduler.kt: arms the daily-reminder alarm. The
 * alarm manager is a table of alarms keyed by request code; the reminder
 * always uses code 123, so arming it again replaces the previous entry. The
 * exact alarm is tried first and a daily repeating alarm is the fallback.
 */
module ReminderScheduling {
  const RequestCode := 123
  const OneMinute := 60000
  /** AlarmManager.INTERVAL_DAY, in milliseconds. */
  const IntervalDay := 86400000
  /** Build.VERSION_CODES.M and Build.VERSION_CODES.S. */
  const ApiM := 23
  const ApiS := 31

  /** An armed alarm: a one-shot exact alarm (with or without the idle allowance) or a repeating one. */
  datatype Alarm =
    | Exact(trigger: int, allowWhileIdle: bool)
    | Repeating(trigger: int, interval: int)

  /** How a call into the alarm manager ends: normally, or with an exception. */
  datatype Thrown = NoException | SecurityException | OtherException

  /**
   * The alarm manager as the scheduler sees it. How each kind of call ends
   * on this device is fixed by the two `...Outcome` constants.
   */
  class AlarmManager {
    var alarms: map<int, Alarm>
    const sdk: int
    /** canScheduleExactAlarms, consulted from API 31 on. */
    const canScheduleExact: bool
    const exactOutcome: Thrown
    const repeatingOutcome: Thrown

    constructor (sdk: int, canScheduleExact: bool, exactOutcome: Thrown, repeatingOutcome: Thrown)
      ensures alarms == map[] && this.sdk == sdk && this.canScheduleExact == canScheduleExact
      ensures this.exactOutcome == exactOutcome && this.repeatingOutcome == repeatingOutcome
    {
      alarms := map[];
      this.sdk := sdk;
      this.canScheduleExact := canScheduleExact;
      this.exactOutcome := exactOutcome;
      this.repeatingOutcome := repeatingOutcome;
    }

    /** setExact / setExactAndAllowWhileIdle: arms a one-shot alarm unless the call throws. */
    method SetExact(code: int, trigger: int, allowWhileIdle: bool) returns (e: Thrown)
      modifies this
      ensures e == exactOutcome
      ensures e == NoException ==> alarms == old(alarms)[code := Exact(trigger, allowWhileIdle)]
      ensures e != NoException ==> alarms == old(alarms)
    {
      e := exactOutcome;
      if e == NoException {
        alarms := alarms[code := Exact(trigger, allowWhileIdle)];
      }
    }

    /** scheduleInexactAlarm: a repeating alarm every day from the trigger, unless setRepeating throws. */
    method ScheduleInexactAlarm(code: int, trigger: int) returns (e: Thrown)
      modifies this
      ensures e == repeatingOutcome
      ensures e == NoException ==> alarms == old(alarms)[code := Repeating(trigger, IntervalDay)]
      ensures e != NoException ==> alarms == old(alarms)
    {
      e := repeatingOutcome;
      if e == NoException {
        alarms := alarms[code := Repeating(trigger, IntervalDay)];
      }
    }

    /** Whether the first attempt is the repeating alarm: API 31 and up without the exact-alarm permission. */
    predicate FirstIsRepeating()
    {
      sdk >= ApiS && !canScheduleExact
    }

    /** How the first attempt ends. */
    function FirstOutcome(): Thrown
    {
      if FirstIsRepeating() then repeatingOutcome else exactOutcome
    }

    /** The alarm the first attempt arms when it succeeds. */
    function FirstAlarm(trigger: int): Alarm
    {
      if FirstIsRepeating() then Repeating(trigger, IntervalDay)
      else Exact(trigger, sdk >= ApiM)
    }

    /**
     * scheduleDailyReminder. The trigger is one minute after `now`; `hour`
     * and `minute` are not used. A SecurityException from the first attempt
     * leads to the repeating alarm, whose own exception is not caught; any
     * other exception leads to one more try of the repeating alarm, whose
     * failure is swallowed.
     */
    method ScheduleDailyReminder(now: int, hour: int, minute: int) returns (escaped: Thrown)
      modifies this
      ensures forall k :: k in alarms && k != RequestCode ==> k in old(alarms) && alarms[k] == old(alarms)[k]
      ensures forall k :: k in old(alarms) && k != RequestCode ==> k in alarms
      ensures FirstOutcome() == NoException ==>
        alarms == old(alarms)[RequestCode := FirstAlarm(now + OneMinute)] && escaped == NoException
      ensures FirstOutcome() != NoException && repeatingOutcome == NoException ==>
        alarms == old(alarms)[RequestCode := Repeating(now + OneMinute, IntervalDay)] && escaped == NoException
      ensures FirstOutcome() != NoException && repeatingOutcome != NoException ==> alarms == old(alarms)
      ensures escaped != NoException <==> FirstOutcome() == SecurityException && repeatingOutcome != NoException
      ensures escaped != NoException ==> escaped == repeatingOutcome
    {
      var trigger := now + OneMinute;
      var e: Thrown;
      if sdk >= ApiS {
        if canScheduleExact {
          e := SetExact(RequestCode, trigger, true);
        } else {
          e := ScheduleInexactAlarm(RequestCode, trigger);
        }
      } else if sdk >= ApiM {
        e := SetExact(RequestCode, trigger, true);
      } else {
        e := SetExact(RequestCode, trigger, false);
      }
      escaped := NoException;
      if e == SecurityException {
        escaped := ScheduleInexactAlarm(RequestCode, trigger);
      } else if e == OtherException {
        var ignored := ScheduleInexactAlarm(RequestCode, trigger);
      }
    }

    /** cancelDailyReminder: the entry for code 123 is removed, whether or not one was armed. */
    method CancelDailyReminder()
      modifies this
      ensures alarms == old(alarms) - {RequestCode}
      ensures RequestCode !in alarms
    {
      alarms := alarms - {RequestCode};
    }
  }

  /**
   * Arming twice and then cancelling, on any alarm manager: the second arming
   * replaces the first under code 123 and leaves every other entry alone, and
   * the cancel leaves the table as it was before, without code 123.
   */
  method RescheduleReplaces(manager: AlarmManager, now1: int, now2: int)
    returns (second: map<int, Alarm>, cancelled: map<int, Alarm>)
    modifies manager
    ensures manager.FirstOutcome() == NoException ==>
      second == old(manager.alarms)[RequestCode := manager.FirstAlarm(now2 + OneMinute)]
    ensures manager.FirstOutcome() != NoException && manager.repeatingOutcome == NoException ==>
      second == old(manager.alarms)[RequestCode := Repeating(now2 + OneMinute, IntervalDay)]
    ensures forall k :: k in second && k != RequestCode ==> k in old(manager.alarms) && second[k] == old(manager.alarms)[k]
    ensures forall k :: k in old(manager.alarms) && k != RequestCode ==> k in second
    ensures cancelled == old(manager.alarms) - {RequestCode}
  {
    var e := manager.ScheduleDailyReminder(now1, 20, 0);
    e := manager.ScheduleDailyReminder(now2, 20, 0);
    second := manager.alarms;
    manager.CancelDailyReminder();
    cancelled := manager.alarms;
  }
}
