/**
 * The public booking form's availability calculator (`AppointmentForm`): the daily slot window,
 * the date -> booked-times index built from the appointment snapshot, the bookable dates over a
 * 60-day horizon and the bookable times of the selected date, plus the phone-field key filter.
 *
 * The platform's `Date` behaviour is not modelled; it enters through `Platform`, and the current
 * instant `now` is a parameter. Dates are keyed as `toISOString` renders them (the UTC calendar
 * date) while booked times are rendered as the local wall clock; the two conversions are kept
 * apart so that the model says exactly which one each step uses.
 */
module Availability {
  import opened Base
  import Seqs
  import Text

  /** Milliseconds since the epoch. */
  type Instant = int
  /** A `YYYY-MM-DD` string as produced by `toISOString().split('T')[0]` or the date input. */
  type DateKey = string
  /** An `HH:MM` string. */
  type ClockLabel = string

  datatype Status = Pending | Confirmed | Cancelled | Completed

  /** The fields of an appointment record the calculator reads. */
  datatype Appointment = Appointment(preferredDateTime: Instant, status: Status)

  /** The conversions the component obtains from the platform's `Date`. */
  datatype Platform = Platform(
    // `new Date(t).toISOString().split('T')[0]`: the UTC calendar date of an instant
    isoDate: Instant -> DateKey,
    // `new Date(t).toLocaleTimeString('es-MX', {hour: '2-digit', minute: '2-digit', hour12: false})`
    localClock: Instant -> ClockLabel,
    // milliseconds elapsed since local midnight of the instant's local day
    localMsOfDay: Instant -> nat,
    // local midnight of the day `i` days after the local day of the instant (`setHours(0,0,0,0)`, `setDate(+i)`)
    localDayStart: (Instant, nat) -> Instant
  )

  const MsPerMinute := 60000
  const StartHour := 16
  const StartMinute := 30
  const EndHour := 20
  const EndMinute := 0
  const StepMinutes := 30
  const HorizonDays := 60
  /** Slots from 16:30 to 20:00 inclusive, every 30 minutes. */
  const SlotCount := 8
  const FetchErrorText := "No se pudieron cargar los horarios disponibles. Por favor, intente de nuevo más tarde."

  // ---------------------------------------------------------------------------------------------
  // Slot labels

  /** `${String(hour).padStart(2, '0')}:${String(minute).padStart(2, '0')}` */
  function Label(hour: nat, minute: nat): ClockLabel
    requires hour < 100 && minute < 100
  {
    Text.Pad2(hour) + ":" + Text.Pad2(minute)
  }

  /**
   * `const [hour, minute] = time.split(':').map(Number)` read as minutes since midnight;
   * `None` when either part is not a number (the comparison with `now` is then false).
   */
  function SlotMinutes(slot: ClockLabel): Option<nat> {
    var parts := Text.SplitOn(slot, ':');
    if |parts| < 2 then None
    else match (Text.NumberOf(parts[0]), Text.NumberOf(parts[1]))
      case (Some(h), Some(m)) => Some(h * 60 + m)
      case _ => None
  }

  /** A rendered label reads back as the time it was rendered from. */
  lemma LabelRoundTrip(hour: nat, minute: nat)
    requires hour < 100 && minute < 100
    ensures SlotMinutes(Label(hour, minute)) == Some(hour * 60 + minute)
  {
    var h, m := Text.Pad2(hour), Text.Pad2(minute);
    assert ':' !in h && ':' !in m;
    assert Label(hour, minute) == h + [':'] + m;
    Text.SplitOnFirst(h, m, ':');
    Text.SplitOnNone(m, ':');
    Text.Pad2RoundTrip(hour);
    Text.Pad2RoundTrip(minute);
  }

  /** The `k`-th slot of the day, `k` steps of 30 minutes after 16:30. */
  function SlotAt(k: nat): ClockLabel
    requires k < SlotCount
  {
    var t := StartHour * 60 + StartMinute + StepMinutes * k;
    Label(t / 60, t % 60)
  }

  lemma SlotAtClock(k: nat, hour: nat, minute: nat)
    requires k < SlotCount && minute < 60
    requires hour * 60 + minute == StartHour * 60 + StartMinute + StepMinutes * k
    ensures hour < 100 && SlotAt(k) == Label(hour, minute)
  {
    var t := StartHour * 60 + StartMinute + StepMinutes * k;
    assert t / 60 == hour && t % 60 == minute;
  }

  /** The daily window the clinic offers. */
  function Window(): seq<ClockLabel> {
    seq(SlotCount, k requires 0 <= k < SlotCount => SlotAt(k))
  }

  /** The `k`-th slot reads back as 16:30 plus `k` half-hours, in minutes after midnight. */
  lemma SlotMinutesAt(k: nat)
    requires k < SlotCount
    ensures SlotMinutes(SlotAt(k)) == Some(990 + 30 * k)
  {
    var t := 990 + 30 * k;
    var h, m := t / 60, t % 60;
    assert h * 60 + m == t;
    LabelRoundTrip(h, m);
  }

  /** The window has eight slots, one every 30 minutes from 16:30. */
  lemma WindowShape()
    ensures |Window()| == 8
    ensures forall k :: 0 <= k < |Window()| ==> SlotMinutes(Window()[k]) == Some(990 + 30 * k)
  {
    forall k | 0 <= k < |Window()|
      ensures SlotMinutes(Window()[k]) == Some(990 + 30 * k)
    {
      SlotMinutesAt(k);
    }
  }

  /** The window starts at 16:30 and ends at 20:00. */
  lemma WindowEnds()
    ensures Window()[0] == "16:30" && Window()[SlotCount - 1] == "20:00"
  {
    assert Window()[0] == Label(16, 30);
    assert Window()[SlotCount - 1] == Label(20, 0);
  }

  /** No slot is offered twice. */
  lemma WindowDistinct()
    ensures forall i, j :: 0 <= i < j < |Window()| ==> Window()[i] != Window()[j]
  {
    WindowShape();
  }

  // ---------------------------------------------------------------------------------------------
  // Booked-slot index

  predicate Blocks(a: Appointment) {
    a.status != Cancelled
  }

  /**
   * The times booked on date `d`, in snapshot order with duplicates kept: the local clock of every
   * appointment that is not cancelled and whose UTC date is `d`.
   */
  function TimesBookedOn(apps: seq<Appointment>, p: Platform, d: DateKey): seq<ClockLabel>
    decreases |apps|
  {
    if apps == [] then []
    else
      var a := apps[|apps| - 1];
      TimesBookedOn(apps[..|apps| - 1], p, d)
        + if Blocks(a) && p.isoDate(a.preferredDateTime) == d then [p.localClock(a.preferredDateTime)] else []
  }

  /** Some appointment that is not cancelled falls on `d`. */
  predicate HasBookingOn(apps: seq<Appointment>, p: Platform, d: DateKey) {
    exists i :: 0 <= i < |apps| && Blocks(apps[i]) && p.isoDate(apps[i].preferredDateTime) == d
  }

  /** `booked` indexes the snapshot: its keys are the dates with a booking, each mapped to its booked times. */
  ghost predicate IsIndexOf(booked: map<DateKey, seq<ClockLabel>>, apps: seq<Appointment>, p: Platform) {
    && (forall d :: d in booked <==> HasBookingOn(apps, p, d))
    && (forall d :: d in booked ==> booked[d] == TimesBookedOn(apps, p, d))
  }

  /** The index of a concatenated snapshot is the concatenation of the indexes. */
  lemma {:induction false} TimesBookedOnAppend(a: seq<Appointment>, b: seq<Appointment>, p: Platform, d: DateKey)
    ensures TimesBookedOn(a + b, p, d) == TimesBookedOn(a, p, d) + TimesBookedOn(b, p, d)
    decreases |b|
  {
    if b == [] {
      assert a + b == a;
    } else {
      var b' := b[..|b| - 1];
      assert (a + b)[..|a + b| - 1] == a + b';
      assert (a + b)[|a + b| - 1] == b[|b| - 1];
      TimesBookedOnAppend(a, b', p, d);
    }
  }

  /** The times one appointment books: its local time on its own UTC date when it is not cancelled. */
  lemma TimesBookedOnSingle(a: Appointment, p: Platform, d: DateKey)
    ensures TimesBookedOn([a], p, d)
            == if Blocks(a) && p.isoDate(a.preferredDateTime) == d then [p.localClock(a.preferredDateTime)] else []
  {
    assert [a][..0] == [];
  }

  /** The times booked around one appointment: those before it, its own, and those after it. */
  lemma TimesBookedAround(apps: seq<Appointment>, p: Platform, i: nat, d: DateKey)
    requires i < |apps|
    ensures TimesBookedOn(apps, p, d)
            == TimesBookedOn(apps[..i], p, d) + TimesBookedOn([apps[i]], p, d) + TimesBookedOn(apps[i + 1..], p, d)
  {
    var pre, post := apps[..i], apps[i + 1..];
    assert apps == pre + ([apps[i]] + post);
    TimesBookedOnAppend(pre, [apps[i]] + post, p, d);
    TimesBookedOnAppend([apps[i]], post, p, d);
  }

  /** Every appointment that is not cancelled blocks its own (UTC date, local time) slot. */
  lemma BookingRecorded(apps: seq<Appointment>, p: Platform, i: nat)
    requires i < |apps| && Blocks(apps[i])
    ensures p.localClock(apps[i].preferredDateTime) in TimesBookedOn(apps, p, p.isoDate(apps[i].preferredDateTime))
  {
    var d := p.isoDate(apps[i].preferredDateTime);
    TimesBookedAround(apps, p, i, d);
    TimesBookedOnSingle(apps[i], p, d);
  }

  /** A cancelled appointment contributes nothing: dropping it leaves every date's times as they were. */
  lemma CancelledIgnored(apps: seq<Appointment>, p: Platform, i: nat, d: DateKey)
    requires i < |apps| && apps[i].status == Cancelled
    ensures TimesBookedOn(apps[..i] + apps[i + 1..], p, d) == TimesBookedOn(apps, p, d)
  {
    TimesBookedAround(apps, p, i, d);
    TimesBookedOnSingle(apps[i], p, d);
    TimesBookedOnAppend(apps[..i], apps[i + 1..], p, d);
  }

  /** Every booked time of `d` comes from an appointment that is not cancelled and falls on `d`. */
  lemma {:induction false} BookedTimesHaveSource(apps: seq<Appointment>, p: Platform, d: DateKey, t: ClockLabel)
    requires t in TimesBookedOn(apps, p, d)
    ensures exists i :: 0 <= i < |apps| && Blocks(apps[i]) && p.isoDate(apps[i].preferredDateTime) == d
                        && p.localClock(apps[i].preferredDateTime) == t
    decreases |apps|
  {
    var n := |apps| - 1;
    var a := apps[n];
    if t in TimesBookedOn(apps[..n], p, d) {
      BookedTimesHaveSource(apps[..n], p, d, t);
      var i :| 0 <= i < n && Blocks(apps[..n][i]) && p.isoDate(apps[..n][i].preferredDateTime) == d
               && p.localClock(apps[..n][i].preferredDateTime) == t;
      assert apps[..n][i] == apps[i];
    } else {
      assert Blocks(a) && p.isoDate(a.preferredDateTime) == d && p.localClock(a.preferredDateTime) == t;
    }
  }

  /** One more appointment of the snapshot: the dates with a booking and the times of each date grow by it alone. */
  lemma IndexStep(apps: seq<Appointment>, p: Platform, i: nat)
    requires i < |apps|
    ensures forall d :: HasBookingOn(apps[..i + 1], p, d)
                        <==> HasBookingOn(apps[..i], p, d) || (Blocks(apps[i]) && p.isoDate(apps[i].preferredDateTime) == d)
    ensures forall d :: TimesBookedOn(apps[..i + 1], p, d)
                        == TimesBookedOn(apps[..i], p, d)
                           + if Blocks(apps[i]) && p.isoDate(apps[i].preferredDateTime) == d
                             then [p.localClock(apps[i].preferredDateTime)] else []
  {
    var app := apps[i];
    assert apps[..i + 1][..i] == apps[..i];
    assert apps[..i + 1][i] == app;
    forall d
      ensures HasBookingOn(apps[..i + 1], p, d) <==> HasBookingOn(apps[..i], p, d) || (Blocks(app) && p.isoDate(app.preferredDateTime) == d)
    {
      if HasBookingOn(apps[..i + 1], p, d) {
        var k :| 0 <= k < i + 1 && Blocks(apps[..i + 1][k]) && p.isoDate(apps[..i + 1][k].preferredDateTime) == d;
        if k < i {
          assert apps[..i][k] == apps[..i + 1][k];
        }
      }
      if HasBookingOn(apps[..i], p, d) {
        var k :| 0 <= k < i && Blocks(apps[..i][k]) && p.isoDate(apps[..i][k].preferredDateTime) == d;
        assert apps[..i + 1][k] == apps[..i][k];
      }
      if Blocks(app) && p.isoDate(app.preferredDateTime) == d {
        assert Blocks(apps[..i + 1][i]);
      }
    }
  }

  /** The index after one more appointment: its time appended under its date when it is not cancelled. */
  function Extend(booked: map<DateKey, seq<ClockLabel>>, a: Appointment, p: Platform): map<DateKey, seq<ClockLabel>> {
    if Blocks(a) then
      var date := p.isoDate(a.preferredDateTime);
      booked[date := BookedOn(booked, date) + [p.localClock(a.preferredDateTime)]]
    else booked
  }

  /** Extending the index of a prefix by the next appointment gives the index of the longer prefix. */
  lemma ExtendIndex(booked: map<DateKey, seq<ClockLabel>>, apps: seq<Appointment>, p: Platform, i: nat)
    requires i < |apps| && IsIndexOf(booked, apps[..i], p)
    ensures IsIndexOf(Extend(booked, apps[i], p), apps[..i + 1], p)
  {
    IndexStep(apps, p, i);
    var a := apps[i];
    if Blocks(a) {
      var date := p.isoDate(a.preferredDateTime);
      if date !in booked {
        NoBookingNoTimes(apps[..i], p, date);
      }
    }
  }

  /** The index built from empty by extending it with each appointment of the snapshot in turn. */
  function IndexOf(apps: seq<Appointment>, p: Platform): map<DateKey, seq<ClockLabel>>
    decreases |apps|
  {
    if apps == [] then map[]
    else Extend(IndexOf(apps[..|apps| - 1], p), apps[|apps| - 1], p)
  }

  /** The index built from a snapshot has exactly the dates with a booking as keys, each with its booked times. */
  lemma {:induction false} IndexOfSpec(apps: seq<Appointment>, p: Platform)
    ensures IsIndexOf(IndexOf(apps, p), apps, p)
    decreases |apps|
  {
    if apps != [] {
      var n := |apps| - 1;
      IndexOfSpec(apps[..n], p);
      ExtendIndex(IndexOf(apps[..n], p), apps, p, n);
      assert apps[..n + 1] == apps;
    }
  }

  /** A date on which nothing is booked has no booked times. */
  lemma NoBookingNoTimes(apps: seq<Appointment>, p: Platform, d: DateKey)
    requires !HasBookingOn(apps, p, d)
    ensures TimesBookedOn(apps, p, d) == []
  {
    var ts := TimesBookedOn(apps, p, d);
    if ts != [] {
      BookedTimesHaveSource(apps, p, d, ts[0]);
    }
  }

  // ---------------------------------------------------------------------------------------------
  // Bookable dates and times

  /** `this.bookedSlots[date] || []` */
  function BookedOn(booked: map<DateKey, seq<ClockLabel>>, d: DateKey): seq<ClockLabel> {
    if d in booked then booked[d] else []
  }

  /** The slot, placed on today's local date, lies strictly after `now`. */
  predicate LaterThanNow(p: Platform, now: Instant, slot: ClockLabel) {
    match SlotMinutes(slot)
    case Some(m) => m * MsPerMinute > p.localMsOfDay(now)
    case None => false
  }

  /** The per-slot test shared by the date list and the time list. */
  predicate Bookable(p: Platform, now: Instant, slot: ClockLabel, taken: seq<ClockLabel>, isToday: bool) {
    (isToday ==> LaterThanNow(p, now, slot)) && slot !in taken
  }

  /** `allPossibleTimes.some(...)` for the date `d`, where `today` is the key that counts as today. */
  predicate HasAvailableTime(
    times: seq<ClockLabel>, booked: map<DateKey, seq<ClockLabel>>, d: DateKey, today: DateKey, p: Platform, now: Instant)
  {
    exists t :: t in times && Bookable(p, now, t, BookedOn(booked, d), d == today)
  }

  /** The date key of the `i`-th day of the horizon. */
  function Candidate(p: Platform, now: Instant, i: nat): DateKey {
    p.isoDate(p.localDayStart(now, i))
  }

  /** The day offsets below `n` whose date has an available time, in ascending order. */
  function AvailableOffsets(
    times: seq<ClockLabel>, booked: map<DateKey, seq<ClockLabel>>, today: DateKey, p: Platform, now: Instant, n: nat)
    : seq<nat>
    decreases n
  {
    if n == 0 then []
    else
      AvailableOffsets(times, booked, today, p, now, n - 1)
        + if HasAvailableTime(times, booked, Candidate(p, now, n - 1), today, p, now) then [n - 1] else []
  }

  /** Offsets are strictly ascending and below `n`, and an offset is kept exactly when its date has a time. */
  lemma {:induction false} AvailableOffsetsSpec(
    times: seq<ClockLabel>, booked: map<DateKey, seq<ClockLabel>>, today: DateKey, p: Platform, now: Instant, n: nat)
    ensures var offs := AvailableOffsets(times, booked, today, p, now, n);
      && |offs| <= n
      && (forall j :: 0 <= j < |offs| ==> offs[j] < n)
      && (forall j, k :: 0 <= j < k < |offs| ==> offs[j] < offs[k])
      && (forall i: nat :: i in offs <==> i < n && HasAvailableTime(times, booked, Candidate(p, now, i), today, p, now))
    decreases n
  {
    if n > 0 {
      AvailableOffsetsSpec(times, booked, today, p, now, n - 1);
    }
  }

  /** The dates for the offsets, in the same order. */
  function DatesAt(p: Platform, now: Instant, offs: seq<nat>): (r: seq<DateKey>)
    ensures |r| == |offs|
    ensures forall j :: 0 <= j < |offs| ==> r[j] == Candidate(p, now, offs[j])
  {
    seq(|offs|, j requires 0 <= j < |offs| => Candidate(p, now, offs[j]))
  }

  /** The bookable times of `selected`, as `onDateChange` computes them. */
  function TimesFor(
    times: seq<ClockLabel>, booked: map<DateKey, seq<ClockLabel>>, selected: DateKey, p: Platform, now: Instant)
    : seq<ClockLabel>
  {
    if selected == "" then []
    else
      var taken := BookedOn(booked, selected);
      var isToday := selected == p.isoDate(now);
      Seqs.Filter(times, t => Bookable(p, now, t, taken, isToday))
  }

  /**
   * The time list is an order-preserving sub-list of the window that offers no booked time and,
   * for today, no slot at or before `now`; every slot meeting those conditions is offered.
   */
  lemma TimesForSpec(
    times: seq<ClockLabel>, booked: map<DateKey, seq<ClockLabel>>, selected: DateKey, p: Platform, now: Instant)
    ensures var r := TimesFor(times, booked, selected, p, now);
      && Seqs.IsSubsequence(r, times)
      && (selected == "" ==> r == [])
      && (forall t :: t in r ==> t !in BookedOn(booked, selected))
      && (selected == p.isoDate(now) ==> forall t :: t in r ==> LaterThanNow(p, now, t))
      && (forall t :: t in times && selected != "" && Bookable(p, now, t, BookedOn(booked, selected), selected == p.isoDate(now)) ==> t in r)
  {
    if selected == "" {
      Seqs.SubsequenceOfSelf<ClockLabel>([]);
    } else {
      var taken := BookedOn(booked, selected);
      var isToday := selected == p.isoDate(now);
      Seqs.FilterIsSubsequence(times, t => Bookable(p, now, t, taken, isToday));
    }
  }

  /** A slot exactly at `now` is not offered for today; an unbooked slot one minute later is. */
  lemma TodayBoundary(
    times: seq<ClockLabel>, booked: map<DateKey, seq<ClockLabel>>, p: Platform, now: Instant, slot: ClockLabel, m: nat)
    requires p.isoDate(now) != "" && slot in times && SlotMinutes(slot) == Some(m)
    ensures p.localMsOfDay(now) == m * MsPerMinute ==> slot !in TimesFor(times, booked, p.isoDate(now), p, now)
    ensures p.localMsOfDay(now) + MsPerMinute == m * MsPerMinute && slot !in BookedOn(booked, p.isoDate(now))
            ==> slot in TimesFor(times, booked, p.isoDate(now), p, now)
  {
    TimesForSpec(times, booked, p.isoDate(now), p, now);
  }

  /** A non-empty date has a time iff `some` slot passes the per-slot test. */
  lemma TimesForNonEmpty(
    times: seq<ClockLabel>, booked: map<DateKey, seq<ClockLabel>>, d: DateKey, p: Platform, now: Instant)
    requires d != ""
    ensures TimesFor(times, booked, d, p, now) != [] <==> HasAvailableTime(times, booked, d, p.isoDate(now), p, now)
  {
    TimesForSpec(times, booked, d, p, now);
    var r := TimesFor(times, booked, d, p, now);
    if r != [] {
      assert r[0] in r;
    }
  }

  /**
   * The date list agrees with the time list: a date of the horizon is listed iff selecting it
   * offers at least one time, provided both steps agree on whether it is today (the date list
   * compares with `minDate`, the time list with the date of `now`).
   */
  lemma DatesAgreeWithTimes(
    times: seq<ClockLabel>, booked: map<DateKey, seq<ClockLabel>>, minDate: DateKey, p: Platform, now: Instant, i: nat)
    requires i < HorizonDays
    requires Candidate(p, now, i) != ""
    requires Candidate(p, now, i) == minDate <==> Candidate(p, now, i) == p.isoDate(now)
    ensures Candidate(p, now, i) in DatesAt(p, now, AvailableOffsets(times, booked, minDate, p, now, HorizonDays))
            <==> TimesFor(times, booked, Candidate(p, now, i), p, now) != []
  {
    var d := Candidate(p, now, i);
    var offs := AvailableOffsets(times, booked, minDate, p, now, HorizonDays);
    var dates := DatesAt(p, now, offs);
    AvailableOffsetsSpec(times, booked, minDate, p, now, HorizonDays);
    TimesForNonEmpty(times, booked, d, p, now);
    assert HasAvailableTime(times, booked, d, minDate, p, now) <==> HasAvailableTime(times, booked, d, p.isoDate(now), p, now);
    if d in dates {
      var j :| 0 <= j < |dates| && dates[j] == d;
      assert offs[j] in offs;
    }
    if HasAvailableTime(times, booked, d, minDate, p, now) {
      assert i in offs;
      var j :| 0 <= j < |offs| && offs[j] == i;
      assert dates[j] == d;
    }
  }

  // ---------------------------------------------------------------------------------------------
  // Phone field key filter

  /** Backspace, Delete, Left, Right, Tab. */
  predicate IsControlKey(keyCode: int) {
    keyCode == 8 || keyCode == 46 || keyCode == 37 || keyCode == 39 || keyCode == 9
  }

  /** `/^[0-9]$/.test(String.fromCharCode(charCode))`; `fromCharCode` keeps the low 16 bits. */
  predicate IsNumericChar(charCode: int) {
    '0' as int <= charCode % 0x1_0000 <= '9' as int
  }

  /** Whether `onPhoneKeyPress` calls `preventDefault` for a key press on a field holding `current`. */
  function PhoneKeyBlocked(charCode: int, keyCode: int, current: string): (blocked: bool)
    ensures !IsNumericChar(charCode) && !IsControlKey(keyCode) ==> blocked
    ensures !IsNumericChar(charCode) && IsControlKey(keyCode) ==> !blocked
    ensures IsNumericChar(charCode) ==> (blocked <==> |current| >= 10)
  {
    if !IsNumericChar(charCode) && !IsControlKey(keyCode) then true
    else IsNumericChar(charCode) && |current| >= 10
  }

  // ---------------------------------------------------------------------------------------------
  // The component

  // ---------------------------------------------------------------------------------------------
  // UTC date keys against local clocks

  const DayMs := 86_400_000
  const HourMs := 3_600_000
  /** 2025-03-10T00:00:00.000Z */
  const March10Utc := 1_741_564_800_000
  /** The offset of a fixed UTC-6 zone. */
  const UtcMinus6 := 21_600_000

  /**
   * A platform in a fixed UTC-6 zone. Its UTC calendar only tells 10 March 2025 from the days
   * after it, which is all the two examples below look at.
   */
  function UtcMinus6March(): Platform {
    Platform(
      t => if t < March10Utc + DayMs then "2025-03-10" else "2025-03-11",
      t => var m := ((t - UtcMinus6) % DayMs) / MsPerMinute; Label(m / 60, m % 60),
      t => (t - UtcMinus6) % DayMs,
      (t, i) => t - (t - UtcMinus6) % DayMs + i * DayMs)
  }

  /**
   * An evening booking is filed under the next UTC date, so its slot stays offered on its own
   * local day: a booking at 19:00 local time on 10 March (01:00Z on 11 March) leaves 19:00 bookable
   * on 10 March for a visitor at 09:00 that morning.
   */
  lemma EveningBookingNotBlocked()
    ensures var p := UtcMinus6March();
      var booking := March10Utc + 25 * HourMs;
      && p.localClock(booking) == Label(19, 0)
      && p.isoDate(booking) == "2025-03-11"
      && Label(19, 0) in TimesFor(Window(), IndexOf([Appointment(booking, Pending)], p), "2025-03-10", p, March10Utc + 15 * HourMs)
  {
    var p := UtcMinus6March();
    var booking := March10Utc + 25 * HourMs;
    var now := March10Utc + 15 * HourMs;
    var apps := [Appointment(booking, Pending)];
    assert p.localClock(booking) == Label(19, 0) by {
      assert (booking - UtcMinus6) % DayMs == 19 * HourMs;
    }
    assert "2025-03-10"[9] != "2025-03-11"[9];
    IndexOfSpec(apps, p);
    assert !HasBookingOn(apps, p, "2025-03-10");
    SlotAtClock(5, 19, 0);
    assert Window()[5] == Label(19, 0);
    LabelRoundTrip(19, 0);
    assert p.localMsOfDay(now) == 9 * HourMs;
    TimesForSpec(Window(), IndexOf(apps, p), "2025-03-10", p, now);
  }

  /**
   * After 18:00 local time the UTC date of `now` is already tomorrow: at 19:00 local on 10 March
   * the past 16:30 slot of 10 March is offered, and 16:30 of 11 March is hidden as if it had passed.
   */
  lemma EveningTodayShift()
    ensures var p := UtcMinus6March();
      var now := March10Utc + 25 * HourMs;
      && p.localMsOfDay(now) == 19 * HourMs
      && Label(16, 30) in TimesFor(Window(), map[], "2025-03-10", p, now)
      && Label(16, 30) !in TimesFor(Window(), map[], "2025-03-11", p, now)
  {
    var p := UtcMinus6March();
    var now := March10Utc + 25 * HourMs;
    assert p.localMsOfDay(now) == 19 * HourMs;
    assert "2025-03-10"[9] != "2025-03-11"[9];
    SlotAtClock(0, 16, 30);
    assert Window()[0] == Label(16, 30);
    LabelRoundTrip(16, 30);
    TimesForSpec(Window(), map[], "2025-03-10", p, now);
    TimesForSpec(Window(), map[], "2025-03-11", p, now);
  }

  class AppointmentForm {
    const platform: Platform
    /** The UTC date of the instant the component was created (`minDate`). */
    const minDate: DateKey

    var allPossibleTimes: seq<ClockLabel>
    var bookedSlots: map<DateKey, seq<ClockLabel>>
    var availableDates: seq<DateKey>
    var availableTimesForSelectedDate: seq<ClockLabel>
    /** Values of the `preferredDate` and `preferredTime` form controls ('' when empty or null). */
    var preferredDate: string
    var preferredTime: string
    var submissionError: bool
    var errorMessage: string

    constructor(platform: Platform, created: Instant)
      ensures this.platform == platform && minDate == platform.isoDate(created)
      ensures allPossibleTimes == [] && bookedSlots == map[] && availableDates == []
      ensures availableTimesForSelectedDate == [] && preferredDate == "" && preferredTime == ""
      ensures !submissionError && errorMessage == ""
    {
      this.platform := platform;
      minDate := platform.isoDate(created);
      allPossibleTimes := [];
      bookedSlots := map[];
      availableDates := [];
      availableTimesForSelectedDate := [];
      preferredDate := "";
      preferredTime := "";
      submissionError := false;
      errorMessage := "";
    }

    /** Rebuilds the daily window from 16:30 to 20:00 in 30-minute steps; the old list is discarded. */
    method GenerateAllPossibleTimes()
      modifies this`allPossibleTimes
      ensures allPossibleTimes == Window()
    {
      allPossibleTimes := [];
      var currentHour := StartHour;
      var currentMinute := StartMinute;
      ghost var n := 0;
      while true
        invariant 0 <= n < SlotCount
        invariant currentHour * 60 + currentMinute == StartHour * 60 + StartMinute + StepMinutes * n
        invariant 0 <= currentMinute < 60
        invariant |allPossibleTimes| == n
        invariant forall k :: 0 <= k < n ==> allPossibleTimes[k] == SlotAt(k)
        decreases EndHour * 60 + EndMinute - (currentHour * 60 + currentMinute)
      {
        var time := Label(currentHour, currentMinute);
        SlotAtClock(n, currentHour, currentMinute);
        allPossibleTimes := allPossibleTimes + [time];
        n := n + 1;
        currentMinute := currentMinute + StepMinutes;
        if currentMinute >= 60 {
          currentMinute := currentMinute - 60;
          currentHour := currentHour + 1;
        }
        if currentHour > EndHour || (currentHour == EndHour && currentMinute > EndMinute) {
          break;
        }
      }
      assert n == SlotCount;
    }

    /**
     * The lists shown agree with the index at `now`: the date list is the horizon's bookable
     * dates, and when a date is selected its time list is that date's bookable times and the
     * selected time is one of them or ''.
     */
    ghost predicate ViewAgrees(now: Instant)
      reads this
    {
      && availableDates == DatesAt(platform, now, AvailableOffsets(allPossibleTimes, bookedSlots, minDate, platform, now, HorizonDays))
      && (preferredDate != "" ==> availableTimesForSelectedDate == TimesFor(allPossibleTimes, bookedSlots, preferredDate, platform, now))
      && (preferredDate == "" || preferredTime == "" || preferredTime in availableTimesForSelectedDate)
    }

    /** The subscriber of the snapshot fetch: index the snapshot, then refresh dates and times. */
    method OnAppointmentsFetched(apps: seq<Appointment>, now: Instant)
      modifies this`bookedSlots, this`availableDates, this`availableTimesForSelectedDate, this`preferredTime
      ensures IsIndexOf(bookedSlots, apps, platform)
      ensures ViewAgrees(now)
      ensures preferredDate != "" ==>
                preferredTime == if old(preferredTime) in availableTimesForSelectedDate then old(preferredTime) else ""
      ensures preferredDate == "" ==>
                availableTimesForSelectedDate == old(availableTimesForSelectedDate) && preferredTime == old(preferredTime)
    {
      ghost var time := preferredTime;
      RebuildBookedSlots(apps);
      IndexOfSpec(apps, platform);
      ghost var index := bookedSlots;
      UpdateAvailableDates(now);
      ghost var dates := availableDates;
      assert bookedSlots == index && preferredTime == time;
      if preferredDate != "" {
        OnDateChange(preferredDate, now);
        assert bookedSlots == index && availableDates == dates;
      }
    }

    /** The error path of the snapshot fetch. */
    method OnFetchError()
      modifies this`errorMessage, this`submissionError
      ensures submissionError
      ensures errorMessage == FetchErrorText
    {
      errorMessage := FetchErrorText;
      submissionError := true;
    }

    /** `bookedSlots` rebuilt from empty: each non-cancelled appointment's local time appended under its UTC date. */
    method RebuildBookedSlots(apps: seq<Appointment>)
      modifies this`bookedSlots
      ensures bookedSlots == IndexOf(apps, platform)
    {
      bookedSlots := map[];
      var i := 0;
      while i < |apps|
        invariant 0 <= i <= |apps|
        invariant bookedSlots == IndexOf(apps[..i], platform)
      {
        var app := apps[i];
        if Blocks(app) {
          var date := platform.isoDate(app.preferredDateTime);
          var time := platform.localClock(app.preferredDateTime);
          if date !in bookedSlots {
            assert [] + [time] == [time];
            bookedSlots := bookedSlots[date := [time]];
          } else {
            bookedSlots := bookedSlots[date := bookedSlots[date] + [time]];
          }
        }
        assert apps[..i + 1][..i] == apps[..i];
        i := i + 1;
      }
      assert apps[..i] == apps;
    }

    /** `availableDates` rebuilt: the horizon's dates, in order, that have at least one bookable time. */
    method UpdateAvailableDates(now: Instant)
      modifies this`availableDates
      ensures availableDates == DatesAt(platform, now, AvailableOffsets(allPossibleTimes, bookedSlots, minDate, platform, now, HorizonDays))
    {
      availableDates := [];
      for i := 0 to HorizonDays
        invariant availableDates == DatesAt(platform, now, AvailableOffsets(allPossibleTimes, bookedSlots, minDate, platform, now, i))
      {
        var dateString := Candidate(platform, now, i);
        var bookedTimesForDate := BookedOn(bookedSlots, dateString);
        var hasAvailableTime := exists t :: t in allPossibleTimes && Bookable(platform, now, t, bookedTimesForDate, dateString == minDate);
        if hasAvailableTime {
          availableDates := availableDates + [dateString];
        }
      }
    }

    /**
     * Recomputes the times of `selectedDate`; an empty date clears the list and the selected time,
     * and a selected time that is no longer offered is cleared.
     */
    method OnDateChange(selectedDate: DateKey, now: Instant)
      modifies this`availableTimesForSelectedDate, this`preferredTime
      ensures availableTimesForSelectedDate == TimesFor(allPossibleTimes, bookedSlots, selectedDate, platform, now)
      ensures selectedDate == "" ==> preferredTime == ""
      ensures selectedDate != "" ==>
                preferredTime == if old(preferredTime) in availableTimesForSelectedDate then old(preferredTime) else ""
      ensures preferredTime == "" || preferredTime in availableTimesForSelectedDate
    {
      if selectedDate == "" {
        availableTimesForSelectedDate := [];
        preferredTime := "";
        return;
      }
      var bookedTimesForSelectedDate := BookedOn(bookedSlots, selectedDate);
      var todayString := platform.isoDate(now);
      availableTimesForSelectedDate :=
        Seqs.Filter(allPossibleTimes, t => Bookable(platform, now, t, bookedTimesForSelectedDate, selectedDate == todayString));
      if preferredTime != "" && preferredTime !in availableTimesForSelectedDate {
        preferredTime := "";
      }
    }

    /** The user picks a date: the control's value changes and `onDateChange` runs. */
    method SelectDate(selectedDate: DateKey, now: Instant)
      modifies this`preferredDate, this`availableTimesForSelectedDate, this`preferredTime
      ensures preferredDate == selectedDate
      ensures availableTimesForSelectedDate == TimesFor(allPossibleTimes, bookedSlots, selectedDate, platform, now)
      ensures selectedDate == "" ==> preferredTime == ""
      ensures selectedDate != "" ==>
                preferredTime == if old(preferredTime) in availableTimesForSelectedDate then old(preferredTime) else ""
    {
      preferredDate := selectedDate;
      OnDateChange(selectedDate, now);
    }
  }
}
