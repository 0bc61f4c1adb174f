/** The window scheduler of src/utils/scheduler.ts: an inclusive window of hours in which
    a task runs every `intervalMs`, the computation of the next window start and of the
    next top of the hour, and the rendering of durations. The clock is a set of integer
    fields; timers are recorded as effects that the environment later fires by calling
    the matching callback method. */
module Scheduler {
  import opened Wrappers
  import opened Decimal
  import opened Text

  const HourMs := 3600000
  const DayMs := 86400000

  /** A local time: a day number and the time of day on a 24-hour clock. */
  datatype Instant = Instant(day: int, hour: int, minute: int, second: int, ms: int)

  predicate ValidInstant(t: Instant) {
    0 <= t.hour < 24 && 0 <= t.minute < 60 && 0 <= t.second < 60 && 0 <= t.ms < 1000
  }

  /** `getTime()`: milliseconds since day 0 at midnight. */
  function Millis(t: Instant): int {
    t.day * DayMs + t.hour * HourMs + t.minute * 60000 + t.second * 1000 + t.ms
  }

  predicate Before(a: Instant, b: Instant) {
    a.day < b.day
    || (a.day == b.day && (a.hour < b.hour
    || (a.hour == b.hour && (a.minute < b.minute
    || (a.minute == b.minute && (a.second < b.second
    || (a.second == b.second && a.ms < b.ms)))))))
  }

  /** On valid instants the millisecond count orders time as the fields read. */
  lemma MillisOrder(a: Instant, b: Instant)
    requires ValidInstant(a) && ValidInstant(b)
    ensures Millis(a) < Millis(b) <==> Before(a, b)
  {
  }

  /** `Math.max(0, date.getTime() - Date.now())`. */
  function MsUntil(target: int, now: int): (r: int)
    ensures r >= 0 && r >= target - now
    ensures r == target - now || (r == 0 && target < now)
  {
    if target - now > 0 then target - now else 0
  }

  /** The inclusive window test used on entry and on every tick. */
  predicate InWindow(startHour: int, endHour: int, hour: int) {
    !(hour < startHour || hour > endHour)
  }

  predicate ValidWindow(startHour: int, endHour: int) {
    0 <= startHour <= endHour <= 23
  }

  /** `setHours(h)` with the minutes, seconds and milliseconds already zero: hour 24
      rolls over to midnight of the next day. */
  function AtHour(day: int, h: int): (t: Instant)
    requires 0 <= h <= 24
    ensures ValidInstant(t) && t.minute == 0 && t.second == 0 && t.ms == 0
  {
    if h == 24 then Instant(day + 1, 0, 0, 0, 0) else Instant(day, h, 0, 0, 0)
  }

  /** `getNextWindowStart`: the top of the next hour, moved to the window start on the
      same day when it is still before the window, or on the next day when it is past
      the window. */
  function NextWindowStart(now: Instant, startHour: int, endHour: int): (r: Instant)
    requires ValidInstant(now) && ValidWindow(startHour, endHour)
    ensures ValidInstant(r)
  {
    var candidate := AtHour(now.day, now.hour + 1);
    if candidate.hour < startHour then AtHour(candidate.day, startHour)
    else if candidate.hour > endHour then AtHour(candidate.day + 1, startHour)
    else candidate
  }

  /** Outside the window the next start is `startHour:00:00.000`, on the same day when
      the hour is before the window and on the next day when it is after; it is strictly
      later than now, and no instant in between lies in the window. */
  lemma NextWindowStartIsNextEntry(now: Instant, startHour: int, endHour: int)
    requires ValidInstant(now) && ValidWindow(startHour, endHour)
    requires !InWindow(startHour, endHour, now.hour)
    ensures var r := NextWindowStart(now, startHour, endHour);
      && r.hour == startHour && r.minute == 0 && r.second == 0 && r.ms == 0
      && (now.hour < startHour ==> r.day == now.day)
      && (now.hour > endHour ==> r.day == now.day + 1)
      && Millis(now) < Millis(r)
      && forall t :: ValidInstant(t) && Millis(now) < Millis(t) < Millis(r) ==>
           !InWindow(startHour, endHour, t.hour)
  {
    var r := NextWindowStart(now, startHour, endHour);
    MillisOrder(now, r);
    forall t | ValidInstant(t) && Millis(now) < Millis(t) < Millis(r)
      ensures !InWindow(startHour, endHour, t.hour)
    {
      MillisOrder(now, t);
      MillisOrder(t, r);
    }
  }

  /** The example of a window 7-22 entered at 23:xx: the next start is 07:00 the next day. */
  lemma LateEveningExample(day: int, minute: int)
    requires 0 <= minute < 60
    ensures NextWindowStart(Instant(day, 23, minute, 0, 0), 7, 22) == Instant(day + 1, 7, 0, 0, 0)
  {
  }

  /** The aligned start: the current hour with minutes, seconds and milliseconds zeroed,
      pushed one hour on when that is not after now. */
  function NextTopOfHour(now: Instant): (r: Instant)
    requires ValidInstant(now)
    ensures ValidInstant(r) && r.minute == 0 && r.second == 0 && r.ms == 0
    ensures Millis(now) < Millis(r) <= Millis(now) + HourMs
  {
    var top := AtHour(now.day, now.hour);
    if Millis(top) <= Millis(now) then AtHour(top.day, top.hour + 1) else top
  }

  /** `msToNextTop` lies in (0, 3600000]. */
  function MsToNextTop(now: Instant): (r: int)
    requires ValidInstant(now)
    ensures 0 < r <= HourMs
  {
    MsUntil(Millis(NextTopOfHour(now)), Millis(now))
  }

  /** The hours, minutes and seconds `formatDuration` splits a duration into. */
  datatype Duration = Duration(h: nat, m: nat, sec: nat)

  function Split(ms: nat): (d: Duration)
    ensures d.h * 3600 + d.m * 60 + d.sec == ms / 1000
    ensures d.m < 60 && d.sec < 60
  {
    var s := ms / 1000;
    Duration(s / 3600, (s % 3600) / 60, s % 60)
  }

  /** The three labelled parts a duration can show. */
  function HoursPart(d: Duration): string { NatToString(d.h) + " 小時" }
  function MinutesPart(d: Duration): string { NatToString(d.m) + " 分鐘" }
  function SecondsPart(d: Duration): string { NatToString(d.sec) + " 秒" }

  function DurationParts(d: Duration): seq<string> {
    var parts := (if d.h != 0 then [HoursPart(d)] else [])
      + (if d.m != 0 then [MinutesPart(d)] else []);
    parts + (if d.sec != 0 || |parts| == 0 then [SecondsPart(d)] else [])
  }

  /** `formatDuration`: the non-zero parts joined by a space; the seconds appear whenever
      they are non-zero or nothing else would be shown, so the text is never empty. */
  function FormatDuration(ms: nat): (r: string)
    ensures |r| > 0
  {
    var parts := DurationParts(Split(ms));
    JoinNonEmpty(parts);
    Join(parts, " ")
  }

  lemma JoinNonEmpty(parts: seq<string>)
    requires parts != [] && forall k :: 0 <= k < |parts| ==> parts[k] != []
    ensures |Join(parts, " ")| > 0
  {
  }

  /** The position of a part's unit in the order hours, minutes, seconds, read from
      the unit's last character. */
  function UnitRank(part: string): nat {
    if part == [] then 3
    else if part[|part| - 1] == '時' then 0
    else if part[|part| - 1] == '鐘' then 1
    else if part[|part| - 1] == '秒' then 2
    else 3
  }

  /** Which parts are shown and in what order: hours exactly when non-zero, minutes
      exactly when non-zero, seconds exactly when non-zero or when both others are
      zero; nothing else is shown, and the units come hours, then minutes, then
      seconds. */
  lemma DurationPartsShown(ms: nat)
    ensures var d := Split(ms); var parts := DurationParts(d);
      && (HoursPart(d) in parts <==> d.h != 0)
      && (MinutesPart(d) in parts <==> d.m != 0)
      && (SecondsPart(d) in parts <==> d.sec != 0 || (d.h == 0 && d.m == 0))
      && (forall k :: 0 <= k < |parts| ==>
            parts[k] in {HoursPart(d), MinutesPart(d), SecondsPart(d)})
      && (forall i, j :: 0 <= i < j < |parts| ==> UnitRank(parts[i]) < UnitRank(parts[j]))
  {
    var d := Split(ms);
    assert UnitRank(HoursPart(d)) == 0 && UnitRank(MinutesPart(d)) == 1
      && UnitRank(SecondsPart(d)) == 2;
  }

  /** Read on the rendered text: the hour unit appears exactly when the hours are
      non-zero, the minute unit exactly when the minutes are, and the second unit
      exactly when the seconds are non-zero or both others are zero. */
  lemma FormatDurationUnits(ms: nat)
    ensures var d := Split(ms); var r := FormatDuration(ms);
      && ('時' in r <==> d.h != 0)
      && ('鐘' in r <==> d.m != 0)
      && ('秒' in r <==> d.sec != 0 || (d.h == 0 && d.m == 0))
  {
    var d := Split(ms);
    var parts := DurationParts(d);
    DurationPartsShown(ms);
    UnitCharIn(NatToString(d.h), " 小時", '時');
    UnitCharIn(NatToString(d.m), " 分鐘", '鐘');
    UnitCharIn(NatToString(d.sec), " 秒", '秒');
    UnitCharIn(NatToString(d.h), " 小時", '鐘');
    UnitCharIn(NatToString(d.m), " 分鐘", '時');
    UnitCharIn(NatToString(d.sec), " 秒", '時');
    UnitCharIn(NatToString(d.h), " 小時", '秒');
    UnitCharIn(NatToString(d.m), " 分鐘", '秒');
    UnitCharIn(NatToString(d.sec), " 秒", '鐘');
    JoinChars(parts, " ", '時');
    JoinChars(parts, " ", '鐘');
    JoinChars(parts, " ", '秒');
  }

  /** A character that is not a digit is in a number followed by a suffix exactly when
      it is in the suffix. */
  lemma UnitCharIn(digits: string, suffix: string, c: char)
    requires AllDigits(digits) && !IsDigit(c)
    ensures c in digits + suffix <==> c in suffix
  {
  }

  /** The options after destructuring: `immediate` defaults to true, `alignToTop` to false. */
  datatype Config = Config(startHour: int, endHour: int, intervalMs: int, immediate: bool, alignToTop: bool)

  function WithDefaults(startHour: int, endHour: int, intervalMs: int,
                        immediate: Option<bool>, alignToTop: Option<bool>): (c: Config)
    ensures c.startHour == startHour && c.endHour == endHour && c.intervalMs == intervalMs
    ensures c.immediate <==> (immediate.None? || immediate.value)
    ensures c.alignToTop <==> (alignToTop.Some? && alignToTop.value)
  {
    Config(startHour, endHour, intervalMs,
           if immediate.Some? then immediate.value else true,
           if alignToTop.Some? then alignToTop.value else false)
  }

  /** The callbacks a timeout can be armed with: re-entering `startWindow`, or the aligned
      start that runs the task and then starts the interval. */
  datatype Callback = Reenter | AlignedStart

  /** What the scheduler asks of the outside world, in order. */
  datatype Effect =
    | RunTask
    | ArmTimeout(delay: int, callback: Callback)
    | ArmInterval(id: nat, period: int)
    | ClearInterval(id: nat)

  /** What `startWindow` does at `now`, with `id` the handle the next interval gets. */
  function EntryEffects(c: Config, now: Instant, id: nat): seq<Effect>
    requires ValidInstant(now) && ValidWindow(c.startHour, c.endHour)
  {
    if !InWindow(c.startHour, c.endHour, now.hour) then
      [ArmTimeout(MsUntil(Millis(NextWindowStart(now, c.startHour, c.endHour)), Millis(now)), Reenter)]
    else if !c.alignToTop then
      (if c.immediate then [RunTask] else []) + [ArmInterval(id, c.intervalMs)]
    else
      (if c.immediate then [RunTask] else []) + [ArmTimeout(MsToNextTop(now), AlignedStart)]
  }

  /** Entering outside the window runs nothing and re-arms `startWindow` for the next
      window start. Inside it and unaligned, the task runs first exactly when `immediate`
      holds and an interval of `intervalMs` follows. Aligned, the task runs first exactly
      when `immediate` holds and the aligned start is armed 0 < delay <= one hour later. */
  lemma EntryDecisions(c: Config, now: Instant, id: nat)
    requires ValidInstant(now) && ValidWindow(c.startHour, c.endHour)
    ensures var e := EntryEffects(c, now, id);
      && (RunTask in e <==> InWindow(c.startHour, c.endHour, now.hour) && c.immediate)
      && (!InWindow(c.startHour, c.endHour, now.hour) ==>
            |e| == 1 && e[0].ArmTimeout? && e[0].callback == Reenter
            && Millis(now) + e[0].delay == Millis(NextWindowStart(now, c.startHour, c.endHour)))
      && (InWindow(c.startHour, c.endHour, now.hour) ==>
            |e| == (if c.immediate then 2 else 1)
            && (c.immediate ==> e[0] == RunTask)
            && (!c.alignToTop ==> e[|e| - 1] == ArmInterval(id, c.intervalMs))
            && (c.alignToTop ==> e[|e| - 1].ArmTimeout? && e[|e| - 1].callback == AlignedStart
                                 && 0 < e[|e| - 1].delay <= HourMs))
  {
    if !InWindow(c.startHour, c.endHour, now.hour) {
      NextWindowStartIsNextEntry(now, c.startHour, c.endHour);
    }
  }

  /** The timer state of `scheduleTaskWithWindow`. `iv` is the interval handle of the
      current window entry, `live` the intervals registered and not yet cleared, and
      `effects` everything asked of the outside world so far. */
  class WindowScheduler {
    const config: Config
    var iv: Option<nat>
    var live: set<nat>
    var nextId: nat
    var effects: seq<Effect>

    /** At most one interval is ever live, and it is the one `iv` holds. */
    ghost predicate Valid()
      reads this
    {
      && ValidWindow(config.startHour, config.endHour)
      && live == (if iv.Some? then {iv.value} else {})
      && (iv.Some? ==> iv.value < nextId)
    }

    constructor (c: Config)
      requires ValidWindow(c.startHour, c.endHour)
      ensures Valid() && config == c
      ensures iv == None && live == {} && effects == []
    {
      config := c;
      iv := None;
      live := {};
      nextId := 0;
      effects := [];
    }

    /** `startInterval`: clears this entry's interval if there is one, then registers a
        new one. */
    method StartInterval()
      requires Valid()
      modifies this
      ensures Valid() && iv == Some(old(nextId)) && nextId == old(nextId) + 1
      ensures effects == old(effects)
        + (if old(iv).Some? then [ClearInterval(old(iv).value)] else [])
        + [ArmInterval(old(nextId), config.intervalMs)]
    {
      if iv.Some? {
        effects := effects + [ClearInterval(iv.value)];
        live := live - {iv.value};
      }
      iv := Some(nextId);
      live := live + {nextId};
      effects := effects + [ArmInterval(nextId, config.intervalMs)];
      nextId := nextId + 1;
    }

    /** `startWindow`: a fresh entry with no interval of its own. It is entered when
        nothing is live: at start-up, from its own timeout, and from a tick that has just
        cleared the interval. */
    method StartWindow(now: Instant)
      requires ValidWindow(config.startHour, config.endHour) && ValidInstant(now) && live == {}
      modifies this
      ensures Valid()
      ensures effects == old(effects) + EntryEffects(config, now, old(nextId))
      ensures InWindow(config.startHour, config.endHour, now.hour) && !config.alignToTop ==>
        iv == Some(old(nextId)) && nextId == old(nextId) + 1
      ensures !(InWindow(config.startHour, config.endHour, now.hour) && !config.alignToTop) ==>
        iv == None && live == {} && nextId == old(nextId)
    {
      iv := None;
      if !InWindow(config.startHour, config.endHour, now.hour) {
        var next := NextWindowStart(now, config.startHour, config.endHour);
        effects := effects + [ArmTimeout(MsUntil(Millis(next), Millis(now)), Reenter)];
        return;
      }
      if !config.alignToTop {
        if config.immediate {
          effects := effects + [RunTask];
          StartInterval();
        } else {
          StartInterval();
        }
        return;
      }
      var msToNextTop := MsToNextTop(now);
      if config.immediate {
        effects := effects + [RunTask];
        effects := effects + [ArmTimeout(msToNextTop, AlignedStart)];
      } else {
        effects := effects + [ArmTimeout(msToNextTop, AlignedStart)];
      }
    }

    /** The aligned start: the task runs and the interval starts. */
    method TopReached()
      requires Valid()
      modifies this
      ensures Valid() && iv == Some(old(nextId))
      ensures effects == old(effects) + [RunTask]
        + (if old(iv).Some? then [ClearInterval(old(iv).value)] else [])
        + [ArmInterval(old(nextId), config.intervalMs)]
    {
      effects := effects + [RunTask];
      StartInterval();
    }

    /** A tick of the live interval. Inside the window the task runs and nothing else
        changes; outside it the interval is cleared and `startWindow` is entered again
        without running the task. */
    method Tick(now: Instant)
      requires Valid() && ValidInstant(now) && iv.Some?
      modifies this
      ensures Valid()
      ensures InWindow(config.startHour, config.endHour, now.hour) ==>
        effects == old(effects) + [RunTask] && iv == old(iv) && live == old(live) && nextId == old(nextId)
      ensures !InWindow(config.startHour, config.endHour, now.hour) ==>
        && effects == old(effects) + [ClearInterval(old(iv).value)] + EntryEffects(config, now, old(nextId))
        && RunTask !in effects[|old(effects)|..]
        && iv == None && live == {}
    {
      if !InWindow(config.startHour, config.endHour, now.hour) {
        effects := effects + [ClearInterval(iv.value)];
        live := live - {iv.value};
        StartWindow(now);
        EntryDecisions(config, now, old(nextId));
        assert effects[|old(effects)|..] == [ClearInterval(old(iv).value)] + EntryEffects(config, now, old(nextId));
        return;
      }
      effects := effects + [RunTask];
    }
  }
}
