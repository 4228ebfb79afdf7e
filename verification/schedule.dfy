/**
 The appointment slot policy the date-time picker is configured with: weekends
 are filtered out, the time list runs in 30-minute steps from midnight, and
 only the times inside the selected service's window (both ends included) can
 be picked. Times are minutes since midnight.
 */
module Schedule {

  /** The one service with an afternoon clinic. */
  const ChildDevelopment: string := "พัฒนาการเด็ก"

  /** `timeIntervals` */
  const SlotMinutes: int := 30

  const MinutesPerDay: int := 24 * 60

  /** An inclusive range of minutes since midnight: the picker's `minTime`..`maxTime`. */
  datatype Window = Window(open: int, close: int)

  /** 13:00-15:30 for child development, 09:00-11:30 for any other value, including none. */
  function WindowFor(service: string): (w: Window)
    ensures w.open % SlotMinutes == 0 && w.close % SlotMinutes == 0
    ensures 0 <= w.open <= w.close < MinutesPerDay
  {
    if service == ChildDevelopment then Window(13 * 60, 15 * 60 + 30)
    else Window(9 * 60, 11 * 60 + 30)
  }

  /** `filterDate`: `getDay()` is neither 0 (Sunday) nor 6 (Saturday), so exactly Monday to
      Friday pass. */
  function DayAllowed(weekday: int): (ok: bool)
    requires 0 <= weekday < 7
    ensures ok <==> 1 <= weekday <= 5
  {
    weekday != 0 && weekday != 6
  }

  /** An hour and minute of the day, as `getHours()` and `getMinutes()` return them. */
  predicate ValidClock(hour: int, minute: int) {
    0 <= hour < 24 && 0 <= minute < 60
  }

  /** A time the picker lists: on the 30-minute grid counted from midnight, and inside the
      service's window. On the clock: on the hour or the half hour, from 13:00 to 15:30 for
      child development and from 09:00 to 11:30 for any other service. */
  function TimeAllowed(hour: int, minute: int, service: string): (ok: bool)
    requires ValidClock(hour, minute)
    ensures service == ChildDevelopment ==>
              (ok <==> 13 <= hour <= 15 && (minute == 0 || minute == 30))
    ensures service != ChildDevelopment ==>
              (ok <==> 9 <= hour <= 11 && (minute == 0 || minute == 30))
  {
    var t := hour * 60 + minute;
    var w := WindowFor(service);
    t % SlotMinutes == 0 && w.open <= t <= w.close
  }

  /** A weekday, hour and minute the picker lets the user choose for `service`: a weekday
      and one of the service's slots. */
  function Admissible(weekday: int, hour: int, minute: int, service: string): (ok: bool)
    requires 0 <= weekday < 7 && ValidClock(hour, minute)
    ensures ok <==> 1 <= weekday <= 5 && hour * 60 + minute in Slots(service)
  {
    DayAllowed(weekday) && TimeAllowed(hour, minute, service)
  }

  /** The times from `lo` to `hi`, stepping by the slot length. */
  function Steps(lo: int, hi: int): (r: seq<int>)
    ensures forall t :: t in r <==> lo <= t <= hi && (t - lo) % SlotMinutes == 0
    ensures |r| == if lo > hi then 0 else (hi - lo) / SlotMinutes + 1
    ensures forall i, j :: 0 <= i < j < |r| ==> r[i] < r[j]
    decreases hi - lo
  {
    if lo > hi then []
    else
      var rest := Steps(lo + SlotMinutes, hi);
      var r := [lo] + rest;
      assert forall t :: t in r <==> lo <= t <= hi && (t - lo) % SlotMinutes == 0 by {
        forall t ensures t in r <==> lo <= t <= hi && (t - lo) % SlotMinutes == 0 {
          assert (t - lo) % SlotMinutes == (t - (lo + SlotMinutes)) % SlotMinutes;
        }
      }
      assert forall i, j :: 0 <= i < j < |r| ==> r[i] < r[j] by {
        forall i, j | 0 <= i < j < |r| ensures r[i] < r[j] {
          if i == 0 {
            assert r[j] == rest[j - 1] && rest[j - 1] in rest;
          } else {
            assert r[i] == rest[i - 1] && r[j] == rest[j - 1];
          }
        }
      }
      assert hi - lo < SlotMinutes ==> (hi - lo) / SlotMinutes == 0;
      assert hi - lo >= SlotMinutes ==> (hi - lo) / SlotMinutes == (hi - lo - SlotMinutes) / SlotMinutes + 1;
      r
  }

  /** The slots offered for a service, earliest first, counted from the window's opening. */
  function Slots(service: string): seq<int> {
    var w := WindowFor(service);
    Steps(w.open, w.close)
  }

  /** Each service offers exactly six slots, in increasing order. */
  lemma SixSlotsPerService(service: string)
    ensures |Slots(service)| == 6
    ensures forall i, j :: 0 <= i < j < |Slots(service)| ==> Slots(service)[i] < Slots(service)[j]
  {
  }

  /** The slots counted from the window's opening are exactly the times the picker allows. */
  lemma SlotsAreTheAllowedTimes(service: string, hour: int, minute: int)
    requires ValidClock(hour, minute)
    ensures TimeAllowed(hour, minute, service) <==> hour * 60 + minute in Slots(service)
  {
  }

  /** Weekends are never admissible, whatever the service or time. */
  lemma WeekendsNeverAdmissible(weekday: int, hour: int, minute: int, service: string)
    requires weekday == 0 || weekday == 6
    requires ValidClock(hour, minute)
    ensures !Admissible(weekday, hour, minute, service)
  {
  }

  /** The two windows do not overlap: a child-development time is never a morning-service
      time and vice versa. */
  lemma WindowsDisjoint(hour: int, minute: int, service: string)
    requires ValidClock(hour, minute) && service != ChildDevelopment
    ensures !(TimeAllowed(hour, minute, ChildDevelopment) && TimeAllowed(hour, minute, service))
  {
  }

  /** Another service the form offers: antenatal care. */
  const Antenatal: string := "ฝากครรภ์"

  /** Worked examples (weekdays as `getDay()` numbers them: 2 Tuesday, 3 Wednesday, 6 Saturday):
      child development at 14:00 on a Wednesday is admissible and at 16:00 it is not; nothing is
      admissible at 10:00 on a Saturday; antenatal care at 10:00 on a Tuesday is admissible and
      at 12:00 it is not. */
  lemma WorkedExamples(service: string)
    ensures Admissible(3, 14, 0, ChildDevelopment)
    ensures !Admissible(3, 16, 0, ChildDevelopment)
    ensures !Admissible(6, 10, 0, service)
    ensures Admissible(2, 10, 0, Antenatal)
    ensures !Admissible(2, 12, 0, Antenatal)
  {
  }

}
