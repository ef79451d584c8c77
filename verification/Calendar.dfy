/** The demo calendar: slots moved to the first time that fits hours, exceptions, staff and pets. */
module Calendar {
  import opened Names
  import opened Results

  // Times are minutes of the business's wall clock; day 0 is a Monday.

  const DAY := 1440
  const QUARTER := 15
  const OPENING := 9 * 60
  const CLOSING := 17 * 60
  const ATTEMPTS := 2000
  const USUAL_LENGTH := 60

  /** A time of day. */
  type Minute = m: int | 0 <= m < DAY witness 0

  datatype Basis = OnDate | Recurring | Exception

  /** A row of opening hours: a window of a date or a weekday, or an exception to all of them. */
  datatype Hours = Hours(
    staff: Option<string>,
    basis: Basis,
    date: Option<int>,
    weekday: Option<int>,
    available: bool,
    opens: Option<Minute>,
    closes: Option<Minute>,
    startsAt: Option<int>,
    endsAt: Option<int>
  )

  datatype Item = Item(duration: Option<nat>, before: Option<nat>, after: Option<nat>)

  /** What a slot asks for. */
  datatype Request = Request(
    staff: string,
    pets: set<string>,
    length: nat,
    before: nat,
    after: nat,
    past: bool,
    canceled: bool,
    weekday: Option<int>,
    first: int
  )

  /** A placed slot with its buffers. */
  datatype Visit = Visit(staff: string, pets: set<string>, start: int, end: int, before: nat, after: nat)

  // ---------------------------------------------------------------- what a time must meet

  function Day(t: int): int { t / DAY }

  function MinuteOf(t: int): int { t % DAY }

  function WeekdayOf(t: int): int { Day(t) % 7 }

  predicate IsDated(h: Hours, staff: string, t: int) {
    h.staff == Some(staff) && h.basis.OnDate? && h.date == Some(Day(t))
  }

  predicate IsRecurring(h: Hours, staff: string, t: int) {
    h.staff == Some(staff) && h.basis.Recurring? && h.weekday == Some(WeekdayOf(t))
  }

  /** The windows of a time: those of its date, or else those of its weekday. */
  predicate IsWindow(h: Hours, hours: seq<Hours>, staff: string, t: int) {
    if exists d <- hours :: IsDated(d, staff, t) then IsDated(h, staff, t) else IsRecurring(h, staff, t)
  }

  predicate FitsWindow(r: Request, h: Hours, start: int) {
    h.available && h.opens.Some? && h.closes.Some?
    && MinuteOf(start - r.before) >= h.opens.value && MinuteOf(start + r.length + r.after) <= h.closes.value
  }

  predicate Fits(r: Request, hours: seq<Hours>, start: int) {
    exists h <- hours :: IsWindow(h, hours, r.staff, start) && FitsWindow(r, h, start)
  }

  predicate Blocks(h: Hours, r: Request, start: int) {
    h.basis.Exception? && h.staff in {None, Some(r.staff)} && h.startsAt.Some? && h.endsAt.Some?
    && start < h.endsAt.value && start + r.length > h.startsAt.value
  }

  predicate Blocked(r: Request, hours: seq<Hours>, start: int) { exists h <- hours :: Blocks(h, r, start) }

  predicate Shares(v: Visit, w: Visit) { v.staff == w.staff || v.pets * w.pets != {} }

  /** They share staff or a pet, and their buffered times overlap. */
  predicate Conflict(v: Visit, w: Visit) {
    Shares(v, w) && v.start - v.before < w.end + w.after && v.end + v.after > w.start - w.before
  }

  predicate InTime(r: Request, now: int, start: int) { if r.past then start + r.length < now else start > now }

  function VisitAt(r: Request, start: int): Visit { Visit(r.staff, r.pets, start, start + r.length, r.before, r.after) }

  predicate Acceptable(r: Request, hours: seq<Hours>, occupied: seq<Visit>, now: int, start: int) {
    && Fits(r, hours, start)
    && !Blocked(r, hours, start)
    && (forall w <- occupied :: !Conflict(VisitAt(r, start), w))
    && InTime(r, now, start)
  }

  // ---------------------------------------------------------------- the times tried

  /** Moved on to the fixed weekday, if there is one. */
  function Aligned(t: int, weekday: Option<int>): int {
    match weekday
    case None => t
    case Some(w) => t + DAY * ((w - WeekdayOf(t)) % 7)
  }

  function FirstTime(starts: int, past: bool, weekday: Option<int>, now: int): int {
    Aligned(if !past && starts <= now then (Day(now) + 1) * DAY + MinuteOf(starts) else starts, weekday)
  }

  function NextTime(r: Request, now: int, t: int): int {
    var later := t + QUARTER;
    if MinuteOf(later) >= CLOSING || (r.past && later >= now)
    then Aligned((Day(later) + if r.past then -1 else 1) * DAY + OPENING, r.weekday)
    else later
  }

  function TimeTried(r: Request, now: int, attempt: nat): int {
    if attempt == 0 then r.first else NextTime(r, now, TimeTried(r, now, attempt - 1))
  }

  /** The first acceptable time of those still to try. */
  function FirstFit(r: Request, hours: seq<Hours>, occupied: seq<Visit>, now: int, attempt: nat): Option<int>
    decreases ATTEMPTS - attempt
  {
    if attempt >= ATTEMPTS then None
    else if Acceptable(r, hours, occupied, now, TimeTried(r, now, attempt)) then Some(TimeTried(r, now, attempt))
    else FirstFit(r, hours, occupied, now, attempt + 1)
  }

  /** None of these tries is acceptable. */
  ghost predicate NoneFits(r: Request, hours: seq<Hours>, occupied: seq<Visit>, now: int, from: nat, to: nat) {
    forall k :: from <= k < to ==> !Acceptable(r, hours, occupied, now, TimeTried(r, now, k))
  }

  /** The time is the first acceptable one from a try on. */
  ghost predicate IsFirst(r: Request, hours: seq<Hours>, occupied: seq<Visit>, now: int, from: nat, start: int) {
    && Acceptable(r, hours, occupied, now, start)
    && exists k :: from <= k < ATTEMPTS && start == TimeTried(r, now, k) && NoneFits(r, hours, occupied, now, from, k)
  }

  /** It is an acceptable time, none tried before it was; there is none exactly when all tries fail. */
  lemma {:induction false} FirstFitIsFirst(r: Request, hours: seq<Hours>, occupied: seq<Visit>, now: int, attempt: nat)
    requires attempt <= ATTEMPTS
    ensures match FirstFit(r, hours, occupied, now, attempt)
            case None => NoneFits(r, hours, occupied, now, attempt, ATTEMPTS)
            case Some(start) => IsFirst(r, hours, occupied, now, attempt, start)
    decreases ATTEMPTS - attempt
  {
    hide Acceptable, TimeTried;
    if attempt < ATTEMPTS {
      if Acceptable(r, hours, occupied, now, TimeTried(r, now, attempt)) {
        assert NoneFits(r, hours, occupied, now, attempt, attempt);
      } else {
        FirstFitIsFirst(r, hours, occupied, now, attempt + 1);
        var found := FirstFit(r, hours, occupied, now, attempt + 1);
        if found.Some? {
          var k :| attempt + 1 <= k < ATTEMPTS && found.value == TimeTried(r, now, k)
                && NoneFits(r, hours, occupied, now, attempt + 1, k);
          assert NoneFits(r, hours, occupied, now, attempt, k);
        }
      }
    }
  }

  method FindTime(r: Request, hours: seq<Hours>, occupied: seq<Visit>, now: int) returns (found: Option<int>)
    ensures found == FirstFit(r, hours, occupied, now, 0)
  {
    hide Acceptable;
    var candidate := r.first;
    for attempt := 0 to ATTEMPTS
      invariant candidate == TimeTried(r, now, attempt)
      invariant FirstFit(r, hours, occupied, now, 0) == FirstFit(r, hours, occupied, now, attempt)
    {
      if Acceptable(r, hours, occupied, now, candidate) {
        return Some(candidate);
      }
      candidate := candidate + QUARTER;
      if MinuteOf(candidate) >= CLOSING || (r.past && candidate >= now) {
        candidate := (Day(candidate) + if r.past then -1 else 1) * DAY + OPENING;
        if r.weekday.Some? {
          candidate := candidate + DAY * ((r.weekday.value - WeekdayOf(candidate)) % 7);
        }
      }
    }
    found := None;
  }

  // ---------------------------------------------------------------- fixed weekdays

  lemma DayAndMinute(day: int, minute: int)
    requires 0 <= minute < DAY
    ensures Day(day * DAY + minute) == day && MinuteOf(day * DAY + minute) == minute
  {
  }

  lemma ByDay(t: int)
    ensures t == Day(t) * DAY + MinuteOf(t) && 0 <= MinuteOf(t) < DAY
  {
  }

  /** Alignment lands on the weekday, less than a week on, at the same time of day. */
  lemma AlignedLands(t: int, w: int)
    requires 0 <= w < 7
    ensures WeekdayOf(Aligned(t, Some(w))) == w && MinuteOf(Aligned(t, Some(w))) == MinuteOf(t)
    ensures Day(Aligned(t, Some(w))) == Day(t) + (w - WeekdayOf(t)) % 7
  {
    ByDay(t);
    var days := (w - WeekdayOf(t)) % 7;
    assert Aligned(t, Some(w)) == (Day(t) + days) * DAY + MinuteOf(t);
    DayAndMinute(Day(t) + days, MinuteOf(t));
    SumMod(Day(t), w);
  }

  lemma SumMod(day: int, w: int)
    requires 0 <= w < 7
    ensures (day + (w - day % 7) % 7) % 7 == w
  {
    var q := day / 7;
    assert day == 7 * q + day % 7;
  }

  /** The quarter of an hour later is on the same day unless it is the last. */
  lemma LaterToday(t: int)
    ensures MinuteOf(t) < DAY - QUARTER ==> Day(t + QUARTER) == Day(t) && MinuteOf(t + QUARTER) == MinuteOf(t) + QUARTER
    ensures MinuteOf(t) >= DAY - QUARTER ==> Day(t + QUARTER) == Day(t) + 1 && MinuteOf(t + QUARTER) < QUARTER
  {
    ByDay(t);
    if MinuteOf(t) < DAY - QUARTER {
      DayAndMinute(Day(t), MinuteOf(t) + QUARTER);
    } else {
      DayAndMinute(Day(t) + 1, MinuteOf(t) + QUARTER - DAY);
    }
  }

  /** Whether the next try starts a day's hours over. */
  predicate StartsOver(r: Request, now: int, t: int) {
    MinuteOf(t + QUARTER) >= CLOSING || (r.past && t + QUARTER >= now)
  }

  /** Where a fixed weekday's next try falls when the hours start over. */
  lemma StartsOverOn(r: Request, now: int, t: int, w: int)
    requires r.weekday == Some(w) && 0 <= w < 7 && StartsOver(r, now, t)
    ensures MinuteOf(NextTime(r, now, t)) == OPENING && WeekdayOf(NextTime(r, now, t)) == w
    ensures var day := Day(t + QUARTER) + if r.past then -1 else 1;
            Day(NextTime(r, now, t)) == day + (w - day % 7) % 7
  {
    var day := Day(t + QUARTER) + if r.past then -1 else 1;
    DayAndMinute(day, OPENING);
    AlignedLands(day * DAY + OPENING, w);
  }

  /** In the last quarter of an hour of a day, the next is on another date. */
  predicate Late(t: int) { MinuteOf(t) >= DAY - QUARTER }

  /**
   * Where a slot on its weekday is tried next: on its own date again if it is past and its hours start over, a week on
   * if it is to come, and otherwise a quarter of an hour on, which is the next date only for a late one.
   */
  lemma FixedTriesItsOwnDate(r: Request, now: int, t: int, w: int)
    requires r.weekday == Some(w) && 0 <= w < 7 && WeekdayOf(t) == w
    ensures StartsOver(r, now, t) ==> Day(NextTime(r, now, t)) == Day(t) + if r.past then 0 else 7
    ensures !StartsOver(r, now, t) ==> Day(NextTime(r, now, t)) == Day(t) + if Late(t) then 1 else 0
    ensures MinuteOf(NextTime(r, now, t)) < CLOSING
    ensures WeekdayOf(NextTime(r, now, t)) == w <==> StartsOver(r, now, t) || !Late(t)
  {
    LaterToday(t);
    if StartsOver(r, now, t) {
      StartsOverOn(r, now, t, w);
      DayAround(Day(t), w);
    }
  }

  lemma DayAround(day: int, w: int)
    requires 0 <= w < 7 && day % 7 == w
    ensures (w - (day - 1) % 7) % 7 == 1 && (w - day % 7) % 7 == 0 && (w - (day + 1) % 7) % 7 == 6
    ensures (day + 1) % 7 == (w + 1) % 7 && (w + 1) % 7 != w
  {
  }

  /** A step keeps the weekday exactly before the day's last quarter, or when a past slot starts over. */
  lemma WeekdayKeptIff(r: Request, now: int, t: int, w: int)
    requires r.weekday == Some(w) && 0 <= w < 7 && WeekdayOf(t) == w
    ensures WeekdayOf(NextTime(r, now, t)) == w <==> !Late(t) || (r.past && t + QUARTER >= now)
  {
    LaterToday(t);
    FixedTriesItsOwnDate(r, now, t, w);
  }

  /** The first time is on the weekday, at the time of day asked for. */
  lemma FirstTimeOnWeekday(asked: int, past: bool, w: int, now: int)
    requires 0 <= w < 7
    ensures WeekdayOf(FirstTime(asked, past, Some(w), now)) == w
    ensures MinuteOf(FirstTime(asked, past, Some(w), now)) == MinuteOf(asked)
    ensures past || FirstTime(asked, past, Some(w), now) > now
  {
    ByDay(asked);
    ByDay(now);
    DayAndMinute(Day(now) + 1, MinuteOf(asked));
    AlignedLands(if !past && asked <= now then (Day(now) + 1) * DAY + MinuteOf(asked) else asked, w);
  }

  /** Asked for before a day's last quarter, or past with no time to end in after it. */
  predicate KeepsWeekday(r: Request, now: int) { !Late(r.first) || (r.past && r.first + QUARTER + r.length >= now) }

  /** A try on the fixed weekday, and for a past slot on the date of its first. */
  predicate OnWeekday(r: Request, t: int, w: int) {
    WeekdayOf(t) == w && if r.past then Day(t) == Day(r.first) else Day(t) >= Day(r.first)
  }

  /** A try of the date after, which a past slot that keeps its weekday can only reach too late. */
  predicate TooLate(r: Request, t: int) {
    r.past && Late(r.first) && Day(t) == Day(r.first) + 1 && MinuteOf(t) < CLOSING && t >= r.first + QUARTER
  }

  /** Where a slot that keeps its weekday is tried. */
  lemma {:induction false} TriedOnWeekday(r: Request, now: int, w: int, attempt: nat)
    requires r.weekday == Some(w) && 0 <= w < 7 && WeekdayOf(r.first) == w && KeepsWeekday(r, now)
    ensures var t := TimeTried(r, now, attempt);
            t == r.first || (OnWeekday(r, t, w) && !Late(t)) || TooLate(r, t)
  {
    if attempt > 0 {
      TriedOnWeekday(r, now, w, attempt - 1);
      NextOnWeekday(r, now, TimeTried(r, now, attempt - 1), w);
    }
  }

  lemma NextOnWeekday(r: Request, now: int, t: int, w: int)
    requires r.weekday == Some(w) && 0 <= w < 7 && WeekdayOf(r.first) == w && KeepsWeekday(r, now)
    requires t == r.first || (OnWeekday(r, t, w) && !Late(t)) || TooLate(r, t)
    ensures (OnWeekday(r, NextTime(r, now, t), w) && !Late(NextTime(r, now, t))) || TooLate(r, NextTime(r, now, t))
  {
    LaterToday(t);
    if WeekdayOf(t) == w {
      FixedTriesItsOwnDate(r, now, t, w);
    } else if StartsOver(r, now, t) {
      StartsOverOn(r, now, t, w);
      DayAround(Day(r.first), w);
    }
  }

  lemma DayOrder(t: int, u: int)
    requires Day(t) < Day(u)
    ensures t < u
  {
    ByDay(t);
    ByDay(u);
  }

  /** A slot to come never tries a time twice: each try is later than the last. */
  lemma TriesMoveOn(r: Request, now: int, t: int)
    requires !r.past && (r.weekday.Some? ==> 0 <= r.weekday.value < 7)
    ensures NextTime(r, now, t) > t
  {
    LaterToday(t);
    if StartsOver(r, now, t) {
      var day := Day(t + QUARTER) + 1;
      DayAndMinute(day, OPENING);
      if r.weekday.Some? {
        StartsOverOn(r, now, t, r.weekday.value);
      }
      DayOrder(t, NextTime(r, now, t));
    }
  }

  predicate IsWeekday(weekday: Option<int>) { weekday.Some? ==> 0 <= weekday.value < 7 }

  /** So a slot to come is never tried before its first time, nor that before the time asked for. */
  lemma {:induction false} TriedLater(r: Request, now: int, attempt: nat)
    requires !r.past && IsWeekday(r.weekday)
    ensures TimeTried(r, now, attempt) >= r.first
  {
    if attempt > 0 {
      TriedLater(r, now, attempt - 1);
      TriesMoveOn(r, now, TimeTried(r, now, attempt - 1));
    }
  }

  lemma FirstTimeLater(asked: int, weekday: Option<int>, now: int)
    ensures FirstTime(asked, false, weekday, now) >= asked
  {
    ByDay(asked);
    ByDay(now);
  }

  /** A past slot without a fixed weekday goes back a day when its hours start over, from where it stood a quarter on. */
  lemma PastTriesGoBack(r: Request, now: int, t: int)
    requires r.past && r.weekday == None
    ensures Day(NextTime(r, now, t)) == Day(t) + (if Late(t) then 1 else 0) - if StartsOver(r, now, t) then 1 else 0
    ensures StartsOver(r, now, t) ==> MinuteOf(NextTime(r, now, t)) == OPENING
  {
    LaterToday(t);
    DayAndMinute(Day(t + QUARTER) - 1, OPENING);
  }

  // ---------------------------------------------------------------- what acceptance means

  /** The slot with its buffers stays within one day. */
  predicate WithinOneDay(r: Request, start: int) {
    Day(start - r.before) == Day(start) == Day(start + r.length + r.after)
  }

  /** The slot lies with its buffers inside an available window of its date. */
  ghost predicate LiesInWindow(r: Request, hours: seq<Hours>, start: int) {
    exists h <- hours ::
      IsWindow(h, hours, r.staff, start) && h.available && h.opens.Some? && h.closes.Some?
      && Day(start) * DAY + h.opens.value <= start - r.before
      && start + r.length + r.after <= Day(start) * DAY + h.closes.value
  }

  /** To lie in a window is to fit and to stay within one day: the times of day alone are compared. */
  lemma LiesInWindowIff(r: Request, hours: seq<Hours>, start: int)
    ensures LiesInWindow(r, hours, start) <==> Fits(r, hours, start) && WithinOneDay(r, start)
  {
    ByDay(start);
    ByDay(start - r.before);
    ByDay(start + r.length + r.after);
    if LiesInWindow(r, hours, start) {
      var h :| h in hours && IsWindow(h, hours, r.staff, start) && h.available && h.opens.Some? && h.closes.Some?
            && Day(start) * DAY + h.opens.value <= start - r.before
            && start + r.length + r.after <= Day(start) * DAY + h.closes.value;
      SameDay(Day(start - r.before), Day(start), start - r.before);
      SameDay(Day(start + r.length + r.after), Day(start), start + r.length + r.after);
      assert FitsWindow(r, h, start);
    }
    if Fits(r, hours, start) && WithinOneDay(r, start) {
      var h :| h in hours && IsWindow(h, hours, r.staff, start) && FitsWindow(r, h, start);
      assert Day(start) * DAY + h.opens.value <= start - r.before;
    }
  }

  lemma SameDay(day: int, other: int, t: int)
    requires day == Day(t) && other * DAY <= t < (other + 1) * DAY
    ensures day == other
  {
    DayAndMinute(other, t - other * DAY);
  }

  /** One window, from the first minute of every such weekday to the last. */
  function OpenAllDay(staff: string, weekday: int): Hours {
    Hours(Some(staff), Recurring, None, Some(weekday), true, Some(0), Some(DAY - 1), None, None)
  }

  lemma FitsAllDay(r: Request, weekday: int, start: int)
    ensures Fits(r, [OpenAllDay(r.staff, weekday)], start) <==> WeekdayOf(start) == weekday
  {
    var h := OpenAllDay(r.staff, weekday);
    ByDay(start - r.before);
    ByDay(start + r.length + r.after);
    assert h in [h];
    assert IsWindow(h, [h], r.staff, start) <==> WeekdayOf(start) == weekday;
  }

  /** A visit lies in a window whenever it fits, whatever the hours, exactly when it stays within one day. */
  lemma FittingLiesInWindowIff(r: Request, start: int)
    ensures (forall hours :: Fits(r, hours, start) ==> LiesInWindow(r, hours, start)) <==> WithinOneDay(r, start)
  {
    hide Fits, LiesInWindow, WithinOneDay;
    forall hours
      ensures LiesInWindow(r, hours, start) <==> Fits(r, hours, start) && WithinOneDay(r, start)
    {
      LiesInWindowIff(r, hours, start);
    }
    FitsAllDay(r, WeekdayOf(start), start);
  }

  /** The slot is over before, or starts after, every exception of its staff or of all. */
  predicate ClearOfExceptions(r: Request, hours: seq<Hours>, start: int) {
    forall h <- hours :: h.basis.Exception? && (h.staff == None || h.staff == Some(r.staff))
                         && h.startsAt.Some? && h.endsAt.Some? ==>
      start + r.length <= h.startsAt.value || h.endsAt.value <= start
  }

  lemma UnblockedIsClear(r: Request, hours: seq<Hours>, start: int)
    ensures !Blocked(r, hours, start) <==> ClearOfExceptions(r, hours, start)
  {
  }

  /** Without a conflict, visits that share staff or a pet are apart with their buffers. */
  predicate Apart(v: Visit, w: Visit) { v.end + v.after <= w.start - w.before || w.end + w.after <= v.start - v.before }

  lemma NoConflictIsApart(v: Visit, w: Visit)
    ensures Conflict(v, w) <==> Shares(v, w) && !Apart(v, w)
    ensures Conflict(v, w) == Conflict(w, v)
  {
    assert v.pets * w.pets == w.pets * v.pets;
  }

  // ---------------------------------------------------------------- all slots, in order

  /** The visits of the slots placed so far that are not canceled. */
  function Occupied(reqs: seq<Request>, starts: seq<int>): seq<Visit>
    requires |reqs| == |starts|
  {
    if reqs == [] then []
    else
      var n := |reqs| - 1;
      var before := Occupied(reqs[..n], starts[..n]);
      if reqs[n].canceled then before else before + [VisitAt(reqs[n], starts[n])]
  }

  /** The times of all slots, or the first slot without one. */
  function PlaceAll(reqs: seq<Request>, hours: seq<Hours>, now: int): (placed: Result<seq<int>, nat>)
    ensures placed.Ok? ==> |placed.value| == |reqs|
  {
    if reqs == [] then Ok([])
    else
      var n := |reqs| - 1;
      var before := PlaceAll(reqs[..n], hours, now);
      if before.Err? then before
      else
        match FirstFit(reqs[n], hours, Occupied(reqs[..n], before.value), now, 0)
        case None => Err(n)
        case Some(start) => Ok(before.value + [start])
  }

  lemma {:induction false} OccupiedHolds(reqs: seq<Request>, starts: seq<int>, i: nat)
    requires |reqs| == |starts| && i < |reqs| && !reqs[i].canceled
    ensures VisitAt(reqs[i], starts[i]) in Occupied(reqs, starts)
    decreases |reqs|
  {
    var n := |reqs| - 1;
    if i < n {
      OccupiedHolds(reqs[..n], starts[..n], i);
    }
  }

  /** Each slot is at its own first acceptable time, given those before it. */
  lemma {:induction false} PlacedFirst(reqs: seq<Request>, hours: seq<Hours>, now: int, i: nat)
    requires PlaceAll(reqs, hours, now).Ok? && i < |reqs|
    ensures var starts := PlaceAll(reqs, hours, now).value;
            FirstFit(reqs[i], hours, Occupied(reqs[..i], starts[..i]), now, 0) == Some(starts[i])
    decreases |reqs|
  {
    hide FirstFit;
    var n := |reqs| - 1;
    var starts := PlaceAll(reqs, hours, now).value;
    var before := PlaceAll(reqs[..n], hours, now).value;
    assert starts[..n] == before;
    if i < n {
      PlacedFirst(reqs[..n], hours, now, i);
      assert reqs[..n][..i] == reqs[..i] && before[..i] == starts[..i];
    }
  }

  /** Slots first in order are placed as if the others were not there: one-off visits fit around series. */
  lemma {:induction false} FirstPlacedAlone(reqs: seq<Request>, hours: seq<Hours>, now: int, n: nat)
    requires n <= |reqs| && PlaceAll(reqs, hours, now).Ok?
    ensures PlaceAll(reqs[..n], hours, now) == Ok(PlaceAll(reqs, hours, now).value[..n])
    decreases |reqs|
  {
    hide FirstFit, Occupied;
    if n == |reqs| {
      assert reqs[..n] == reqs && PlaceAll(reqs, hours, now).value[..n] == PlaceAll(reqs, hours, now).value;
    } else {
      var init := reqs[..|reqs| - 1];
      FirstPlacedAlone(init, hours, now, n);
      assert init[..n] == reqs[..n];
      var starts, before := PlaceAll(reqs, hours, now).value, PlaceAll(init, hours, now).value;
      assert starts == before + [starts[|reqs| - 1]];
      assert starts[..n] == before[..n];
    }
  }

  /** Every slot fits its hours, is clear of exceptions, and is on its side of now. */
  lemma PlacedAcceptably(reqs: seq<Request>, hours: seq<Hours>, now: int, i: nat)
    requires PlaceAll(reqs, hours, now).Ok? && i < |reqs|
    ensures var start := PlaceAll(reqs, hours, now).value[i];
            Fits(reqs[i], hours, start) && !Blocked(reqs[i], hours, start) && InTime(reqs[i], now, start)
  {
    hide FirstFit, PlaceAll, Occupied;
    var starts := PlaceAll(reqs, hours, now).value;
    PlacedFirst(reqs, hours, now, i);
    FirstFitIsFirst(reqs[i], hours, Occupied(reqs[..i], starts[..i]), now, 0);
  }

  /** Two slots that are not canceled and share staff or a pet are apart with their buffers. */
  lemma PlacedApart(reqs: seq<Request>, hours: seq<Hours>, now: int, i: nat, j: nat)
    requires PlaceAll(reqs, hours, now).Ok? && i < j < |reqs| && !reqs[i].canceled && !reqs[j].canceled
    ensures var starts := PlaceAll(reqs, hours, now).value;
            var v, w := VisitAt(reqs[i], starts[i]), VisitAt(reqs[j], starts[j]);
            Shares(v, w) ==> Apart(v, w)
  {
    hide FirstFit, PlaceAll, Occupied, Fits, Blocked;
    var starts := PlaceAll(reqs, hours, now).value;
    PlacedFirst(reqs, hours, now, j);
    FirstFitIsFirst(reqs[j], hours, Occupied(reqs[..j], starts[..j]), now, 0);
    OccupiedHolds(reqs[..j], starts[..j], i);
    NoConflictIsApart(VisitAt(reqs[j], starts[j]), VisitAt(reqs[i], starts[i]));
    NoConflictIsApart(VisitAt(reqs[i], starts[i]), VisitAt(reqs[j], starts[j]));
  }

  /** A time found for a slot that keeps its weekday is on it, and for a past one on its very date. */
  lemma FoundOnWeekday(r: Request, hours: seq<Hours>, occupied: seq<Visit>, now: int, w: int)
    requires r.weekday == Some(w) && 0 <= w < 7 && WeekdayOf(r.first) == w
    requires KeepsWeekday(r, now) && FirstFit(r, hours, occupied, now, 0).Some?
    ensures OnWeekday(r, FirstFit(r, hours, occupied, now, 0).value, w)
  {
    hide FirstFit, Fits, Blocked, Conflict;
    FirstFitIsFirst(r, hours, occupied, now, 0);
    var start := FirstFit(r, hours, occupied, now, 0).value;
    var k :| 0 <= k < ATTEMPTS && start == TimeTried(r, now, k);
    TriedOnWeekday(r, now, w, k);
  }

  /** Any other is taken off it when the next weekday is the only one with hours. */
  lemma FoundOffWeekday(r: Request, now: int, w: int, asked: int)
    requires r.weekday == Some(w) && 0 <= w < 7 && r.first == FirstTime(asked, r.past, Some(w), now)
    requires !KeepsWeekday(r, now)
    ensures var found := FirstFit(r, [OpenAllDay(r.staff, (w + 1) % 7)], [], now, 0);
            found == Some(r.first + QUARTER) && WeekdayOf(r.first + QUARTER) != w
  {
    hide Fits, FirstTime;
    var hours := [OpenAllDay(r.staff, (w + 1) % 7)];
    var later := r.first + QUARTER;
    FirstTimeOnWeekday(asked, r.past, w, now);
    FitsAllDay(r, (w + 1) % 7, r.first);
    FitsAllDay(r, (w + 1) % 7, later);
    LaterToday(r.first);
    DayAround(Day(r.first), w);
    assert TimeTried(r, now, 0) == r.first && TimeTried(r, now, 1) == later;
    assert Acceptable(r, hours, [], now, later);
    assert FirstFit(r, hours, [], now, 1) == Some(later);
  }

  /** Whatever the hours and the slots before it, a fixed slot keeps its weekday exactly under that condition. */
  lemma WeekdayKeptByAllHoursIff(r: Request, now: int, w: int, asked: int)
    requires r.weekday == Some(w) && 0 <= w < 7 && r.first == FirstTime(asked, r.past, Some(w), now)
    ensures (forall hours, occupied :: var found := FirstFit(r, hours, occupied, now, 0);
               found.Some? ==> WeekdayOf(found.value) == w)
       <==> MinuteOf(asked) < DAY - QUARTER || (r.past && r.first + QUARTER + r.length >= now)
  {
    hide FirstFit, FirstTime;
    FirstTimeOnWeekday(asked, r.past, w, now);
    if KeepsWeekday(r, now) {
      forall hours, occupied | FirstFit(r, hours, occupied, now, 0).Some?
        ensures WeekdayOf(FirstFit(r, hours, occupied, now, 0).value) == w
      {
        FoundOnWeekday(r, hours, occupied, now, w);
      }
    } else {
      FoundOffWeekday(r, now, w, asked);
    }
  }

  /** So a fixed slot that keeps its weekday is placed on it, a past one on its very date. */
  lemma PlacedOnWeekday(reqs: seq<Request>, hours: seq<Hours>, now: int, i: nat, w: int, asked: int)
    requires PlaceAll(reqs, hours, now).Ok? && i < |reqs|
    requires reqs[i].weekday == Some(w) && 0 <= w < 7
    requires reqs[i].first == FirstTime(asked, reqs[i].past, Some(w), now)
    ensures KeepsWeekday(reqs[i], now) ==> OnWeekday(reqs[i], PlaceAll(reqs, hours, now).value[i], w)
  {
    hide FirstFit, PlaceAll, Occupied, OnWeekday, KeepsWeekday, FirstTime;
    var starts := PlaceAll(reqs, hours, now).value;
    PlacedFirst(reqs, hours, now, i);
    FirstTimeOnWeekday(asked, reqs[i].past, w, now);
    if KeepsWeekday(reqs[i], now) {
      FoundOnWeekday(reqs[i], hours, Occupied(reqs[..i], starts[..i]), now, w);
    }
  }

  /** A slot to come is placed no earlier than its first time. */
  lemma PlacedLater(reqs: seq<Request>, hours: seq<Hours>, now: int, i: nat)
    requires PlaceAll(reqs, hours, now).Ok? && i < |reqs| && !reqs[i].past && IsWeekday(reqs[i].weekday)
    ensures PlaceAll(reqs, hours, now).value[i] >= reqs[i].first
  {
    hide FirstFit, PlaceAll, Occupied, Acceptable;
    var starts := PlaceAll(reqs, hours, now).value;
    PlacedFirst(reqs, hours, now, i);
    FirstFitIsFirst(reqs[i], hours, Occupied(reqs[..i], starts[..i]), now, 0);
    var k :| 0 <= k < ATTEMPTS && starts[i] == TimeTried(reqs[i], now, k);
    TriedLater(reqs[i], now, k);
  }

  // ---------------------------------------------------------------- slots and bookings

  datatype BookingStatus = Pending | Confirmed | Waitlisted | Completed | NoShow | BookingCanceled

  class Slot {
    const id: string
    const staff: string
    const item: string
    const recurrence: Option<string>
    const capacity: int
    const canceled: bool
    var startsAt: int
    var endsAt: int

    constructor (id: string, staff: string, item: string, recurrence: Option<string>, capacity: int, canceled: bool,
                 startsAt: int, endsAt: int)
      ensures this.id == id && this.staff == staff && this.item == item && this.recurrence == recurrence
      ensures this.capacity == capacity && this.canceled == canceled
      ensures this.startsAt == startsAt && this.endsAt == endsAt
    {
      this.id, this.staff, this.item, this.recurrence := id, staff, item, recurrence;
      this.capacity, this.canceled, this.startsAt, this.endsAt := capacity, canceled, startsAt, endsAt;
    }
  }

  class Booking {
    const slot: string
    const subject: Option<string>
    const status: BookingStatus
    var startsAt: int
    var staff: Option<string>

    constructor (slot: string, subject: Option<string>, status: BookingStatus, startsAt: int, staff: Option<string>)
      ensures this.slot == slot && this.subject == subject && this.status == status
      ensures this.startsAt == startsAt && this.staff == staff
    {
      this.slot, this.subject, this.status, this.startsAt, this.staff := slot, subject, status, startsAt, staff;
    }
  }

  function Pets(bookings: seq<Booking>, slot: string): set<string> {
    set b <- bookings | b.slot == slot && b.subject.Some? && b.subject.value != "" :: b.subject.value
  }

  /** The slot is over: a visit to it was completed or missed, or it was canceled before now. */
  predicate IsPast(bookings: seq<Booking>, slot: string, canceled: bool, endsAt: int, now: int) {
    (exists b <- bookings :: b.slot == slot && (b.status.Completed? || b.status.NoShow?)) || (canceled && endsAt < now)
  }

  function Length(item: Item): nat {
    if item.duration.Some? && item.duration.value != 0 then item.duration.value else USUAL_LENGTH
  }

  function OrNone(minutes: Option<nat>): nat { if minutes.Some? then minutes.value else 0 }

  function FixedWeekday(fixed: map<string, int>, recurrence: Option<string>): Option<int> {
    var key := if recurrence.Some? then recurrence.value else "";
    if key in fixed then Some(fixed[key]) else None
  }

  /** What a slot asks for, as it stands. */
  function RequestOf(slot: Slot, bookings: seq<Booking>, items: map<string, Item>, fixed: map<string, int>, now: int): Request
    requires slot.item in items
    reads slot
  {
    var item := items[slot.item];
    var past := IsPast(bookings, slot.id, slot.canceled, slot.endsAt, now);
    var weekday := FixedWeekday(fixed, slot.recurrence);
    Request(slot.staff, Pets(bookings, slot.id), Length(item), OrNone(item.before), OrNone(item.after),
            past, slot.canceled, weekday, FirstTime(slot.startsAt, past, weekday, now))
  }

  predicate Itemized(slots: seq<Slot>, items: map<string, Item>) { forall slot <- slots :: slot.item in items }

  function RequestsOf(
      slots: seq<Slot>, bookings: seq<Booking>, items: map<string, Item>, fixed: map<string, int>, now: int): (reqs: seq<Request>)
    requires Itemized(slots, items)
    reads slots
    ensures |reqs| == |slots|
    ensures forall i :: 0 <= i < |slots| ==> reqs[i] == RequestOf(slots[i], bookings, items, fixed, now)
  {
    seq(|slots|, i requires 0 <= i < |slots| reads slots => RequestOf(slots[i], bookings, items, fixed, now))
  }

  function Objects(slots: seq<Slot>): set<Slot> { set slot <- slots }

  /** Slots are told apart by their ids. */
  predicate Distinct(slots: seq<Slot>) {
    forall i, j :: 0 <= i < j < |slots| ==> slots[i].id != slots[j].id
  }

  /** The first slots stand at these times, and so do their bookings. */
  ghost predicate Moved(slots: seq<Slot>, reqs: seq<Request>, bookings: seq<Booking>, starts: seq<int>)
    requires |starts| <= |reqs| == |slots|
    reads slots, bookings
  {
    forall i :: 0 <= i < |starts| ==>
      slots[i].startsAt == starts[i] && slots[i].endsAt == starts[i] + reqs[i].length
      && forall b <- bookings :: b.slot == slots[i].id ==> b.startsAt == starts[i] && b.staff == Some(slots[i].staff)
  }

  /** Where the slots stand. */
  function Starts(slots: seq<Slot>): (starts: seq<int>)
    reads slots
    ensures |starts| == |slots|
    ensures forall i :: 0 <= i < |slots| ==> starts[i] == slots[i].startsAt
  {
    seq(|slots|, i requires 0 <= i < |slots| reads slots => slots[i].startsAt)
  }

  /** The slots before this one stand at their times, and beside them no time tried for this one is acceptable. */
  ghost predicate Stuck(slots: seq<Slot>, reqs: seq<Request>, bookings: seq<Booking>, hours: seq<Hours>, now: int, i: int)
    requires |reqs| == |slots|
    reads slots, bookings
  {
    && 0 <= i < |slots|
    && var starts := Starts(slots[..i]);
       Moved(slots, reqs, bookings, starts)
       && NoneFits(reqs[i], hours, Occupied(reqs[..i], starts), now, 0, ATTEMPTS)
  }

  /** One slot and its bookings moved to a time. */
  method MoveSlot(slot: Slot, bookings: seq<Booking>, start: int, length: nat)
    modifies slot, bookings
    ensures slot.startsAt == start && slot.endsAt == start + length
    ensures forall b <- bookings ::
              if b.slot == slot.id then b.startsAt == start && b.staff == Some(slot.staff)
              else b.startsAt == old(b.startsAt) && b.staff == old(b.staff)
  {
    slot.startsAt, slot.endsAt := start, start + length;
    for n := 0 to |bookings|
      invariant slot.startsAt == start && slot.endsAt == start + length
      invariant forall b <- bookings[..n] :: b.slot == slot.id ==> b.startsAt == start && b.staff == Some(slot.staff)
      invariant forall b <- bookings :: b.slot != slot.id ==> b.startsAt == old(b.startsAt) && b.staff == old(b.staff)
    {
      var booking := bookings[n];
      if booking.slot == slot.id {
        booking.startsAt, booking.staff := start, Some(slot.staff);
      }
      assert bookings[..n + 1] == bookings[..n] + [booking];
    }
    assert bookings[..|bookings|] == bookings;
  }

  /** The slots from this one on still ask for what they asked at first. */
  ghost predicate Unmoved(slots: seq<Slot>, reqs: seq<Request>, bookings: seq<Booking>, items: map<string, Item>,
                          fixed: map<string, int>, now: int, n: nat)
    requires Itemized(slots, items) && |reqs| == |slots|
    reads slots
  {
    forall i :: n <= i < |slots| ==> RequestOf(slots[i], bookings, items, fixed, now) == reqs[i]
  }

  /** A slot's turn: the slots and bookings, what was asked at first, and the times given so far. */
  datatype Turn = Turn(
    slots: seq<Slot>,
    bookings: seq<Booking>,
    items: map<string, Item>,
    fixed: map<string, int>,
    now: int,
    reqs: seq<Request>,
    starts: seq<int>
  )

  /** Moving one slot leaves those before it where they were and those after it as they were. */
  twostate lemma OneMoreMoved(t: Turn)
    requires |t.starts| < |t.reqs| == |t.slots| && Distinct(t.slots) && Itemized(t.slots, t.items)
    requires old(Moved(t.slots, t.reqs, t.bookings, t.starts))
    requires old(Unmoved(t.slots, t.reqs, t.bookings, t.items, t.fixed, t.now, |t.starts|))
    requires forall i :: 0 <= i < |t.slots| && i != |t.starts| ==>
               t.slots[i].startsAt == old(t.slots[i].startsAt) && t.slots[i].endsAt == old(t.slots[i].endsAt)
    requires var slot := t.slots[|t.starts|];
             slot.endsAt == slot.startsAt + t.reqs[|t.starts|].length
             && forall b <- t.bookings ::
                  if b.slot == slot.id then b.startsAt == slot.startsAt && b.staff == Some(slot.staff)
                  else b.startsAt == old(b.startsAt) && b.staff == old(b.staff)
    ensures Moved(t.slots, t.reqs, t.bookings, t.starts + [t.slots[|t.starts|].startsAt])
    ensures Unmoved(t.slots, t.reqs, t.bookings, t.items, t.fixed, t.now, |t.starts| + 1)
  {
    var n := |t.starts|;
    forall i | 0 <= i < n
      ensures t.slots[i].startsAt == t.starts[i] && t.slots[i].endsAt == t.starts[i] + t.reqs[i].length
      ensures forall b <- t.bookings ::
                b.slot == t.slots[i].id ==> b.startsAt == t.starts[i] && b.staff == Some(t.slots[i].staff)
    {
      assert t.slots[i].id != t.slots[n].id;
    }
  }

  /** One slot to its first acceptable time, its bookings with it. */
  method AllocateNext(slots: seq<Slot>, bookings: seq<Booking>, hours: seq<Hours>, items: map<string, Item>,
                      fixed: map<string, int>, now: int, n: nat, occupied: seq<Visit>,
                      ghost reqs: seq<Request>, ghost starts: seq<int>)
    returns (found: Option<int>, taken: seq<Visit>)
    requires Itemized(slots, items) && Distinct(slots) && |starts| == n < |reqs| == |slots|
    requires PlaceAll(reqs[..n], hours, now) == Ok(starts) && occupied == Occupied(reqs[..n], starts)
    requires Moved(slots, reqs, bookings, starts) && Unmoved(slots, reqs, bookings, items, fixed, now, n)
    modifies slots[n], bookings
    ensures found == None ==>
              PlaceAll(reqs[..n + 1], hours, now) == Err(n) && Stuck(slots, reqs, bookings, hours, now, n)
    ensures found.Some? ==>
              PlaceAll(reqs[..n + 1], hours, now) == Ok(starts + [found.value])
              && taken == Occupied(reqs[..n + 1], starts + [found.value])
              && Moved(slots, reqs, bookings, starts + [found.value])
              && Unmoved(slots, reqs, bookings, items, fixed, now, n + 1)
  {
    hide RequestOf, FirstFit, Distinct, PlaceAll, Occupied, Moved, Unmoved, Itemized;
    assert slots[n].item in items by { ItemOf(slots, items, n); }
    var slot := slots[n];
    var request := RequestOf(slot, bookings, items, fixed, now);
    UnmovedAt(slots, reqs, bookings, items, fixed, now, n);
    PlaceOneMore(reqs, hours, now, n, starts);
    taken := occupied;
    found := FindTime(request, hours, occupied, now);
    if found == None {
      StuckAt(slots, reqs, bookings, hours, now, starts);
    } else {
      OthersDiffer(slots, n);
      MoveSlot(slot, bookings, found.value, request.length);
      OneMoreMoved(Turn(slots, bookings, items, fixed, now, reqs, starts));
      if !slot.canceled {
        taken := taken + [VisitAt(request, found.value)];
      }
    }
  }

  /** Every slot in order to its first acceptable time, its bookings with it. */
  method AllocateInOrder(slots: seq<Slot>, bookings: seq<Booking>, hours: seq<Hours>, items: map<string, Item>,
                         fixed: map<string, int>, now: int)
    returns (failed: Option<string>)
    requires Itemized(slots, items) && Distinct(slots)
    modifies Objects(slots), bookings
    ensures var reqs := old(RequestsOf(slots, bookings, items, fixed, now));
            match PlaceAll(reqs, hours, now)
            case Err(i) => Stuck(slots, reqs, bookings, hours, now, i) && failed == Some(slots[i].id)
            case Ok(starts) => failed == None && Moved(slots, reqs, bookings, starts)
  {
    hide RequestOf, FirstFit, Distinct;
    ghost var reqs := RequestsOf(slots, bookings, items, fixed, now);
    ghost var starts: seq<int> := [];
    var occupied: seq<Visit> := [];
    for n := 0 to |slots|
      invariant |starts| == n
      invariant PlaceAll(reqs[..n], hours, now) == Ok(starts) && occupied == Occupied(reqs[..n], starts)
      invariant Moved(slots, reqs, bookings, starts) && Unmoved(slots, reqs, bookings, items, fixed, now, n)
    {
      hide PlaceAll, Occupied, Moved, Unmoved, Itemized, Stuck;
      var found, taken := AllocateNext(slots, bookings, hours, items, fixed, now, n, occupied, reqs, starts);
      if found == None {
        PlaceFails(reqs, hours, now, n);
        return Some(slots[n].id);
      }
      occupied := taken;
      starts := starts + [found.value];
    }
    assert reqs[..|slots|] == reqs;
    failed := None;
  }

  /** Without a first acceptable time, the slot is stuck. */
  lemma StuckAt(slots: seq<Slot>, reqs: seq<Request>, bookings: seq<Booking>, hours: seq<Hours>, now: int, starts: seq<int>)
    requires |starts| < |reqs| == |slots| && Moved(slots, reqs, bookings, starts)
    requires FirstFit(reqs[|starts|], hours, Occupied(reqs[..|starts|], starts), now, 0) == None
    ensures Stuck(slots, reqs, bookings, hours, now, |starts|)
  {
    hide FirstFit, Occupied, NoneFits;
    FirstFitIsFirst(reqs[|starts|], hours, Occupied(reqs[..|starts|], starts), now, 0);
    assert Starts(slots[..|starts|]) == starts;
  }

  lemma ItemOf(slots: seq<Slot>, items: map<string, Item>, n: nat)
    requires n < |slots| && Itemized(slots, items)
    ensures slots[n].item in items
  {
  }

  lemma OthersDiffer(slots: seq<Slot>, n: nat)
    requires n < |slots| && Distinct(slots)
    ensures forall i :: 0 <= i < |slots| && i != n ==> slots[i] != slots[n]
  {
  }

  lemma UnmovedAt(slots: seq<Slot>, reqs: seq<Request>, bookings: seq<Booking>, items: map<string, Item>,
                  fixed: map<string, int>, now: int, n: nat)
    requires Itemized(slots, items) && n < |reqs| == |slots| && Unmoved(slots, reqs, bookings, items, fixed, now, n)
    ensures RequestOf(slots[n], bookings, items, fixed, now) == reqs[n] && reqs[n].canceled == slots[n].canceled
  {
  }

  /** One slot more is placed at its first acceptable time, if it has one. */
  lemma PlaceOneMore(reqs: seq<Request>, hours: seq<Hours>, now: int, n: nat, starts: seq<int>)
    requires n < |reqs| && PlaceAll(reqs[..n], hours, now) == Ok(starts)
    ensures match FirstFit(reqs[n], hours, Occupied(reqs[..n], starts), now, 0)
            case None => PlaceAll(reqs[..n + 1], hours, now) == Err(n)
            case Some(start) =>
              PlaceAll(reqs[..n + 1], hours, now) == Ok(starts + [start])
              && Occupied(reqs[..n + 1], starts + [start])
                 == if reqs[n].canceled then Occupied(reqs[..n], starts)
                    else Occupied(reqs[..n], starts) + [VisitAt(reqs[n], start)]
  {
    hide FirstFit;
    assert reqs[..n + 1][..n] == reqs[..n];
    assert forall start: int :: (starts + [start])[..n] == starts;
  }

  /** A slot that has no time ends the whole allocation. */
  lemma {:induction false} PlaceFails(reqs: seq<Request>, hours: seq<Hours>, now: int, n: nat)
    requires n < |reqs| && PlaceAll(reqs[..n + 1], hours, now) == Err(n)
    ensures PlaceAll(reqs, hours, now) == Err(n)
    decreases |reqs|
  {
    hide FirstFit, Occupied;
    if n + 1 == |reqs| {
      assert reqs[..n + 1] == reqs;
    } else {
      assert reqs[..|reqs| - 1][..n + 1] == reqs[..n + 1];
      PlaceFails(reqs[..|reqs| - 1], hours, now, n);
    }
  }

  // ---------------------------------------------------------------- the order of the slots

  /** One-off visits fit around series and class sessions. */
  predicate Flexible(slot: Slot) { slot.recurrence == None && slot.capacity <= 1 }

  /** Fixed slots first, then by start, then by id. */
  predicate NotAfter(a: Slot, b: Slot)
    reads a, b
  {
    if Flexible(a) != Flexible(b) then Flexible(b)
    else a.startsAt < b.startsAt || (a.startsAt == b.startsAt && !NameLess(b.id, a.id))
  }

  lemma NotAfterTotal(a: Slot, b: Slot)
    ensures NotAfter(a, b) || NotAfter(b, a)
  {
    NameLessTotal(a.id, b.id);
  }

  lemma NotAfterTransitive(a: Slot, b: Slot, c: Slot)
    requires NotAfter(a, b) && NotAfter(b, c)
    ensures NotAfter(a, c)
  {
    if NameLess(c.id, a.id) {
      NameLessTotal(a.id, b.id);
      NameLessTotal(b.id, c.id);
      if a.id != b.id && b.id != c.id && NameLess(a.id, b.id) && NameLess(b.id, c.id) {
        NameLessTransitive(a.id, b.id, c.id);
      }
      NameLessTotal(a.id, c.id);
    }
  }

  ghost predicate InOrder(order: seq<Slot>)
    reads order
  {
    forall i, j :: 0 <= i < j < |order| ==> NotAfter(order[i], order[j])
  }

  /** Of two slots in order the first is of a series or a class if the other is; alike, it starts earlier, or has the lower id. */
  lemma OrderIs(order: seq<Slot>, i: nat, j: nat)
    requires InOrder(order) && i < j < |order|
    ensures var a, b := order[i], order[j];
            && ((b.recurrence.Some? || b.capacity > 1) ==> a.recurrence.Some? || a.capacity > 1)
            && ((a.recurrence.Some? || a.capacity > 1) == (b.recurrence.Some? || b.capacity > 1) ==>
                  a.startsAt < b.startsAt || (a.startsAt == b.startsAt && (a.id == b.id || NameLess(a.id, b.id))))
  {
    assert NotAfter(order[i], order[j]);
    NameLessTotal(order[i].id, order[j].id);
  }

  method SortedSlots(slots: seq<Slot>) returns (order: seq<Slot>)
    ensures multiset(order) == multiset(slots) && InOrder(order)
  {
    order := [];
    for n := 0 to |slots|
      invariant multiset(order) == multiset(slots[..n]) && InOrder(order)
    {
      var slot := slots[n];
      var k := 0;
      while k < |order| && NotAfter(order[k], slot)
        invariant 0 <= k <= |order|
        invariant forall i :: 0 <= i < k ==> NotAfter(order[i], slot)
      {
        k := k + 1;
      }
      hide InOrder, NotAfter;
      InsertKeepsOrder(order, slot, k);
      assert order == order[..k] + order[k..];
      assert slots[..n + 1] == slots[..n] + [slot];
      order := order[..k] + [slot] + order[k..];
    }
    assert slots[..|slots|] == slots;
  }

  lemma InsertKeepsOrder(order: seq<Slot>, slot: Slot, k: nat)
    requires InOrder(order) && k <= |order|
    requires forall i :: 0 <= i < k ==> NotAfter(order[i], slot)
    requires k < |order| ==> !NotAfter(order[k], slot)
    ensures InOrder(order[..k] + [slot] + order[k..])
  {
    forall i | k <= i < |order|
      ensures NotAfter(slot, order[i])
    {
      NotAfterTotal(slot, order[k]);
      if i > k {
        NotAfterTransitive(slot, order[k], order[i]);
      }
    }
  }

  // ---------------------------------------------------------------- the whole calendar

  /** Where a slot is placed, by what it asks for. */
  ghost predicate PlacedAsAsked(slot: Slot, asked: Request, bookings: seq<Booking>, hours: seq<Hours>, now: int)
    reads slot, bookings
  {
    && Fits(asked, hours, slot.startsAt)
    && ClearOfExceptions(asked, hours, slot.startsAt)
    && InTime(asked, now, slot.startsAt)
    && (!asked.past && IsWeekday(asked.weekday) ==> slot.startsAt >= asked.first)
    && (asked.weekday.Some? && IsWeekday(asked.weekday) && WeekdayOf(asked.first) == asked.weekday.value && KeepsWeekday(asked, now)
        ==> OnWeekday(asked, slot.startsAt, asked.weekday.value))
    && slot.endsAt == slot.startsAt + asked.length
    && forall b <- bookings :: b.slot == slot.id ==> b.startsAt == slot.startsAt && b.staff == Some(slot.staff)
  }

  /** Unless one is canceled, the slots share nothing or are apart with their buffers. */
  ghost predicate ApartAsAsked(s: Slot, asked: Request, t: Slot, other: Request)
    reads s, t
  {
    asked.canceled || other.canceled
    || (Shares(VisitAt(asked, s.startsAt), VisitAt(other, t.startsAt)) ==>
          Apart(VisitAt(asked, s.startsAt), VisitAt(other, t.startsAt)))
  }

  lemma MovedAsAsked(slots: seq<Slot>, reqs: seq<Request>, bookings: seq<Booking>, hours: seq<Hours>, now: int)
    requires |reqs| == |slots| && PlaceAll(reqs, hours, now).Ok?
    requires Moved(slots, reqs, bookings, PlaceAll(reqs, hours, now).value)
    ensures forall i :: 0 <= i < |slots| ==> PlacedAsAsked(slots[i], reqs[i], bookings, hours, now)
    ensures forall i, j :: 0 <= i < |slots| && 0 <= j < |slots| && i != j ==>
              ApartAsAsked(slots[i], reqs[i], slots[j], reqs[j])
  {
    hide PlaceAll, Fits, Blocked, InTime, ClearOfExceptions, OnWeekday, KeepsWeekday, IsWeekday;
    forall i | 0 <= i < |slots|
      ensures PlacedAsAsked(slots[i], reqs[i], bookings, hours, now)
    {
      PlacedAcceptably(reqs, hours, now, i);
      UnblockedIsClear(reqs[i], hours, slots[i].startsAt);
      PlacedOnItsDays(reqs, hours, now, i);
    }
    forall i, j | 0 <= i < |slots| && 0 <= j < |slots| && i != j
      ensures ApartAsAsked(slots[i], reqs[i], slots[j], reqs[j])
    {
      var v, w := VisitAt(reqs[i], slots[i].startsAt), VisitAt(reqs[j], slots[j].startsAt);
      NoConflictIsApart(v, w);
      NoConflictIsApart(w, v);
      if !reqs[i].canceled && !reqs[j].canceled {
        if i < j {
          PlacedApart(reqs, hours, now, i, j);
        } else {
          PlacedApart(reqs, hours, now, j, i);
        }
      }
    }
  }

  lemma PlacedOnItsDays(reqs: seq<Request>, hours: seq<Hours>, now: int, i: nat)
    requires PlaceAll(reqs, hours, now).Ok? && i < |reqs|
    ensures var r, start := reqs[i], PlaceAll(reqs, hours, now).value[i];
            && (!r.past && IsWeekday(r.weekday) ==> start >= r.first)
            && (r.weekday.Some? && IsWeekday(r.weekday) && WeekdayOf(r.first) == r.weekday.value && KeepsWeekday(r, now)
                ==> OnWeekday(r, start, r.weekday.value))
  {
    hide FirstFit, PlaceAll, Occupied, OnWeekday, KeepsWeekday;
    var r, starts := reqs[i], PlaceAll(reqs, hours, now).value;
    if !r.past && IsWeekday(r.weekday) {
      PlacedLater(reqs, hours, now, i);
    }
    if r.weekday.Some? && IsWeekday(r.weekday) && WeekdayOf(r.first) == r.weekday.value && KeepsWeekday(r, now) {
      PlacedFirst(reqs, hours, now, i);
      FoundOnWeekday(r, hours, Occupied(reqs[..i], starts[..i]), now, r.weekday.value);
    }
  }

  // ---------------------------------------------------------------- the calendar as its slots and bookings have it

  /** The slot is over: one of its bookings was completed or missed, or it was canceled and had ended. */
  ghost predicate IsOver(slot: Slot, bookings: seq<Booking>, now: int)
    reads slot
  {
    (exists b <- bookings :: b.slot == slot.id && (b.status == Completed || b.status == NoShow))
    || (slot.canceled && slot.endsAt < now)
  }

  /**
   * The slot takes its item's minutes, an hour if that says none; with the item's buffers it is inside an available
   * window of its staff: of its date if there are any, else of its weekday. By times of day across midnight, and by the
   * clock within a day.
   */
  ghost predicate InHours(slot: Slot, item: Item, hours: seq<Hours>)
    reads slot
  {
    var from := slot.startsAt - if item.before.Some? then item.before.value else 0;
    var to := slot.endsAt + if item.after.Some? then item.after.value else 0;
    var day := slot.startsAt / DAY;
    && (item.duration in {None, Some(0)} ==> slot.endsAt == slot.startsAt + 60)
    && (item.duration.Some? && item.duration.value > 0 ==> slot.endsAt == slot.startsAt + item.duration.value)
    && exists h <- hours ::
         h.staff == Some(slot.staff) && h.available && h.opens.Some? && h.closes.Some?
         && (if exists d <- hours :: d.staff == Some(slot.staff) && d.basis == OnDate && d.date == Some(day)
             then h.basis == OnDate && h.date == Some(day) else h.basis == Recurring && h.weekday == Some(day % 7))
         && h.opens.value <= from % DAY && to % DAY <= h.closes.value
         && (from / DAY == day == to / DAY ==> day * DAY + h.opens.value <= from && to <= day * DAY + h.closes.value)
  }

  /** Every exception of its staff, or of all, is over before it starts or starts after it ends. */
  ghost predicate OutsideExceptions(slot: Slot, hours: seq<Hours>)
    reads slot
  {
    forall h <- hours :: h.basis == Exception && (h.staff == None || h.staff == Some(slot.staff))
                         && h.startsAt.Some? && h.endsAt.Some? ==>
      slot.endsAt <= h.startsAt.value || h.endsAt.value <= slot.startsAt
  }

  /** A slot over stays before now, any other comes after it and no earlier than it was. */
  ghost predicate OnItsSide(slot: Slot, over: bool, was: int, fixed: map<string, int>, now: int)
    reads slot
  {
    if over then slot.endsAt < now
    else slot.startsAt > now && ((forall key <- fixed :: 0 <= fixed[key] < 7) ==> slot.startsAt >= was)
  }

  /** A slot of a series asked for before the day's last quarter is on the series' weekday; one that is over on its date. */
  ghost predicate OnSeriesDay(slot: Slot, over: bool, was: int, fixed: map<string, int>)
    reads slot
  {
    slot.recurrence.Some? && slot.recurrence.value in fixed ==>
      var w := fixed[slot.recurrence.value];
      0 <= w < 7 && was % DAY < DAY - QUARTER ==>
        slot.startsAt / DAY % 7 == w && (over ==> slot.startsAt / DAY == was / DAY + (w - was / DAY % 7) % 7)
  }

  ghost predicate BookingsWith(slot: Slot, bookings: seq<Booking>)
    reads slot, bookings
  {
    forall b <- bookings :: b.slot == slot.id ==> b.startsAt == slot.startsAt && b.staff == Some(slot.staff)
  }

  /** They have one staff member, or bookings for one pet. */
  ghost predicate HaveInCommon(s: Slot, t: Slot, bookings: seq<Booking>) {
    s.staff == t.staff
    || exists b <- bookings, c <- bookings ::
         b.slot == s.id && c.slot == t.id && b.subject == c.subject && b.subject.Some? && b.subject != Some("")
  }

  /** With the one's buffer after it and the other's before it, the one is over when the other starts. */
  ghost predicate OverBefore(s: Slot, item: Item, t: Slot, other: Item)
    reads s, t
  {
    s.endsAt + (if item.after.Some? then item.after.value else 0)
      <= t.startsAt - if other.before.Some? then other.before.value else 0
  }

  /** Where and when a slot is to be, by its own fields, its item and its bookings. */
  ghost predicate PlacedWell(slot: Slot, item: Item, bookings: seq<Booking>, hours: seq<Hours>, fixed: map<string, int>,
                             over: bool, was: int, now: int)
    reads slot, bookings
  {
    && InHours(slot, item, hours) && OutsideExceptions(slot, hours) && BookingsWith(slot, bookings)
    && OnItsSide(slot, over, was, fixed, now) && OnSeriesDay(slot, over, was, fixed)
  }

  /** The request says what the slot's item and bookings say. */
  ghost predicate Reads(r: Request, slot: Slot, item: Item, bookings: seq<Booking>, fixed: map<string, int>, over: bool, was: int,
                        now: int)
  {
    && r.staff == slot.staff && r.canceled == slot.canceled && r.past == over
    && r.before == (if item.before.Some? then item.before.value else 0)
    && r.after == (if item.after.Some? then item.after.value else 0)
    && (item.duration in {None, Some(0)} ==> r.length == 60)
    && (item.duration.Some? && item.duration.value > 0 ==> r.length == item.duration.value)
    && (forall b <- bookings :: b.slot == slot.id && b.subject.Some? && b.subject != Some("") ==> b.subject.value in r.pets)
    && (slot.recurrence.Some? && slot.recurrence.value in fixed ==> r.weekday == Some(fixed[slot.recurrence.value]))
    && ((forall key <- fixed :: 0 <= fixed[key] < 7) ==> IsWeekday(r.weekday))
    && r.first == FirstTime(was, over, r.weekday, now)
  }

  lemma AsksFor(slot: Slot, bookings: seq<Booking>, items: map<string, Item>, fixed: map<string, int>, now: int)
    requires slot.item in items
    ensures Reads(RequestOf(slot, bookings, items, fixed, now), slot, items[slot.item], bookings, fixed,
                  IsOver(slot, bookings, now), slot.startsAt, now)
  {
    hide FirstTime;
  }

  lemma StandsInHours(slot: Slot, asked: Request, item: Item, bookings: seq<Booking>, hours: seq<Hours>,
                      fixed: map<string, int>, over: bool, was: int, now: int)
    requires Reads(asked, slot, item, bookings, fixed, over, was, now) && slot.endsAt == slot.startsAt + asked.length
    requires Fits(asked, hours, slot.startsAt)
    ensures InHours(slot, item, hours)
  {
    hide FirstTime;
    var start := slot.startsAt;
    var h :| h in hours && IsWindow(h, hours, asked.staff, start) && FitsWindow(asked, h, start);
    ByDay(start - asked.before);
    ByDay(start + asked.length + asked.after);
  }

  lemma StandsOnItsDays(slot: Slot, asked: Request, item: Item, bookings: seq<Booking>, hours: seq<Hours>,
                        fixed: map<string, int>, over: bool, was: int, now: int)
    requires Reads(asked, slot, item, bookings, fixed, over, was, now) && PlacedAsAsked(slot, asked, bookings, hours, now)
    ensures OnItsSide(slot, over, was, fixed, now) && OnSeriesDay(slot, over, was, fixed)
  {
    hide Fits, ClearOfExceptions, FirstTime;
    FirstTimeLater(was, asked.weekday, now);
    if slot.recurrence.Some? && slot.recurrence.value in fixed && 0 <= fixed[slot.recurrence.value] < 7 {
      var w := fixed[slot.recurrence.value];
      FirstTimeOnWeekday(was, over, w, now);
      FirstTimeOnDate(was, w, now);
    }
  }

  lemma FirstTimeOnDate(was: int, w: int, now: int)
    requires 0 <= w < 7
    ensures Day(FirstTime(was, true, Some(w), now)) == Day(was) + (w - WeekdayOf(was)) % 7
  {
    AlignedLands(was, w);
  }

  /** A slot placed as it asks is placed well. */
  lemma PlacedMeansWell(slot: Slot, asked: Request, item: Item, bookings: seq<Booking>, hours: seq<Hours>,
                        fixed: map<string, int>, over: bool, was: int, now: int)
    requires Reads(asked, slot, item, bookings, fixed, over, was, now) && PlacedAsAsked(slot, asked, bookings, hours, now)
    ensures PlacedWell(slot, item, bookings, hours, fixed, over, was, now)
  {
    StandsInHours(slot, asked, item, bookings, hours, fixed, over, was, now);
    StandsOnItsDays(slot, asked, item, bookings, hours, fixed, over, was, now);
    hide InHours, OnItsSide, OnSeriesDay, Fits, FirstTime, InTime, OnWeekday;
  }

  /** Slots apart as they ask do not overlap with their buffers if they have staff or a pet in common. */
  lemma ApartMeansOver(s: Slot, asked: Request, item: Item, t: Slot, other: Request, otherItem: Item, bookings: seq<Booking>,
                       fixed: map<string, int>, a: (bool, int), b: (bool, int), now: int)
    requires Reads(asked, s, item, bookings, fixed, a.0, a.1, now) && Reads(other, t, otherItem, bookings, fixed, b.0, b.1, now)
    requires s.endsAt == s.startsAt + asked.length && t.endsAt == t.startsAt + other.length
    requires ApartAsAsked(s, asked, t, other) && !s.canceled && !t.canceled && HaveInCommon(s, t, bookings)
    ensures OverBefore(s, item, t, otherItem) || OverBefore(t, otherItem, s, item)
  {
    hide FirstTime;
    if s.staff != t.staff {
      var x, y :| x in bookings && y in bookings && x.slot == s.id && y.slot == t.id && x.subject == y.subject
               && x.subject.Some? && x.subject != Some("");
      assert x.subject.value in asked.pets * other.pets;
    }
  }

  /** The permutation of slots with ids of their own has ids of their own. */
  lemma DistinctInOrder(slots: seq<Slot>, order: seq<Slot>)
    requires multiset(order) == multiset(slots) && Distinct(slots)
    ensures Distinct(order)
  {
    forall i, j | 0 <= i < j < |order|
      ensures order[i].id != order[j].id
    {
      if order[i].id == order[j].id {
        assert order[i] in multiset(slots) && order[j] in multiset(slots);
        SameIdSameSlot(slots, order[i], order[j]);
        assert order == order[..i] + [order[i]] + order[i + 1..j] + [order[j]] + order[j + 1..];
        assert multiset(order)[order[i]] >= 2;
        DistinctOnce(slots, order[i]);
        assert false;
      }
    }
  }

  lemma SameIdSameSlot(slots: seq<Slot>, s: Slot, t: Slot)
    requires Distinct(slots) && s in slots && t in slots && s.id == t.id
    ensures s == t
  {
  }

  lemma {:induction false} DistinctOnce(slots: seq<Slot>, s: Slot)
    requires Distinct(slots)
    ensures multiset(slots)[s] <= 1
  {
    if slots != [] {
      var n := |slots| - 1;
      DistinctOnce(slots[..n], s);
      assert slots == slots[..n] + [slots[n]];
      if slots[n] == s {
        assert forall t <- slots[..n] :: t.id != s.id;
        assert s !in slots[..n];
      }
    }
  }

  /** An order of the slots has the same slots. */
  lemma SameSlots(slots: seq<Slot>, order: seq<Slot>)
    requires multiset(order) == multiset(slots)
    ensures Objects(order) == Objects(slots)
    ensures forall slot :: slot in order <==> slot in slots
  {
    assert forall slot :: slot in order <==> slot in multiset(order);
    assert forall slot :: slot in slots <==> slot in multiset(slots);
  }

  /** The slots in their order, each to its first acceptable time. */
  method AllocateAsAsked(order: seq<Slot>, bookings: seq<Booking>, hours: seq<Hours>, items: map<string, Item>,
                      fixed: map<string, int>, now: int)
    returns (failed: Option<string>)
    requires InOrder(order) && Itemized(order, items) && Distinct(order)
    modifies Objects(order), bookings
    ensures failed == None <==> PlaceAll(old(RequestsOf(order, bookings, items, fixed, now)), hours, now).Ok?
    ensures failed.Some? ==>
              exists i :: Stuck(order, old(RequestsOf(order, bookings, items, fixed, now)), bookings, hours, now, i)
                          && failed == Some(order[i].id)
    ensures failed == None ==>
              forall slot <- order :: PlacedAsAsked(slot, old(RequestOf(slot, bookings, items, fixed, now)), bookings, hours, now)
    ensures failed == None ==>
              forall s <- order, t <- order :: s != t ==>
                ApartAsAsked(s, old(RequestOf(s, bookings, items, fixed, now)),
                             t, old(RequestOf(t, bookings, items, fixed, now)))
  {
    hide RequestOf, PlaceAll, PlacedAsAsked, ApartAsAsked, Moved, Objects, Distinct, Occupied, NoneFits;
    ghost var reqs := RequestsOf(order, bookings, items, fixed, now);
    failed := AllocateInOrder(order, bookings, hours, items, fixed, now);
    if failed == None {
      MovedAsAsked(order, reqs, bookings, hours, now);
    }
  }

  /** So all of them are placed well, and over before one another if they have something in common. */
  method AllocateWell(order: seq<Slot>, bookings: seq<Booking>, hours: seq<Hours>, items: map<string, Item>,
                      fixed: map<string, int>, now: int)
    returns (failed: Option<string>)
    requires InOrder(order) && Itemized(order, items) && Distinct(order)
    modifies Objects(order), bookings
    ensures failed.Some? ==>
              exists i :: Stuck(order, old(RequestsOf(order, bookings, items, fixed, now)), bookings, hours, now, i)
                          && failed == Some(order[i].id)
    ensures failed == None ==>
              forall slot <- order ::
                PlacedWell(slot, items[slot.item], bookings, hours, fixed, old(IsOver(slot, bookings, now)), old(slot.startsAt), now)
    ensures failed == None ==>
              forall s <- order, t <- order ::
                s != t && !s.canceled && !t.canceled && HaveInCommon(s, t, bookings) ==>
                  OverBefore(s, items[s.item], t, items[t.item]) || OverBefore(t, items[t.item], s, items[s.item])
  {
    ghost var asked: map<Slot, Request> := map slot | slot in order :: RequestOf(slot, bookings, items, fixed, now);
    ghost var over: map<Slot, bool> := map slot | slot in order :: IsOver(slot, bookings, now);
    ghost var was: map<Slot, int> := map slot | slot in order :: slot.startsAt;
    forall slot | slot in order { AsksFor(slot, bookings, items, fixed, now); }
    hide RequestOf, PlaceAll, PlacedWell, PlacedAsAsked, ApartAsAsked, Objects, InOrder, Distinct, Stuck, Reads, IsOver;
    hide HaveInCommon, OverBefore;
    failed := AllocateAsAsked(order, bookings, hours, items, fixed, now);
    if failed == None {
      AllPlacedWell(order, asked, over, was, bookings, hours, items, fixed, now);
    }
  }

  /** The whole calendar: fixed slots first, each to its first acceptable time; or the slot for which no try is one. */
  method Allocate(slots: seq<Slot>, bookings: seq<Booking>, hours: seq<Hours>, items: map<string, Item>,
                  fixed: map<string, int>, now: int)
    returns (failed: Option<string>, ghost order: seq<Slot>)
    requires Itemized(slots, items) && Distinct(slots)
    modifies Objects(slots), bookings
    ensures multiset(order) == multiset(slots) && (forall i :: 0 <= i < |order| ==> order[i] in slots)
    ensures old(InOrder(order))
    ensures failed.Some? ==>
              exists i :: Stuck(order, old(RequestsOf(order, bookings, items, fixed, now)), bookings, hours, now, i)
                          && failed == Some(order[i].id)
    ensures failed == None ==>
              forall slot <- slots ::
                PlacedWell(slot, items[slot.item], bookings, hours, fixed, old(IsOver(slot, bookings, now)), old(slot.startsAt), now)
    ensures failed == None ==>
              forall s <- slots, t <- slots ::
                s != t && !s.canceled && !t.canceled && HaveInCommon(s, t, bookings) ==>
                  OverBefore(s, items[s.item], t, items[t.item]) || OverBefore(t, items[t.item], s, items[s.item])
  {
    hide RequestOf, RequestsOf, PlaceAll, PlacedWell, Objects, InOrder, Distinct, Stuck, IsOver, HaveInCommon, OverBefore;
    var sorted := SortedSlots(slots);
    order := sorted;
    DistinctInOrder(slots, order);
    SameSlots(slots, order);
    failed := AllocateWell(sorted, bookings, hours, items, fixed, now);
  }

  /** All slots placed as they ask are placed well, and over before one another if they have something in common. */
  lemma AllPlacedWell(slots: seq<Slot>, asked: map<Slot, Request>, over: map<Slot, bool>, was: map<Slot, int>,
                      bookings: seq<Booking>, hours: seq<Hours>, items: map<string, Item>, fixed: map<string, int>, now: int)
    requires forall slot <- slots :: slot in asked && slot in over && slot in was && slot.item in items
    requires forall slot <- slots ::
               Reads(asked[slot], slot, items[slot.item], bookings, fixed, over[slot], was[slot], now)
               && PlacedAsAsked(slot, asked[slot], bookings, hours, now)
    requires forall s <- slots, t <- slots :: s != t ==> ApartAsAsked(s, asked[s], t, asked[t])
    ensures forall slot <- slots ::
              PlacedWell(slot, items[slot.item], bookings, hours, fixed, over[slot], was[slot], now)
    ensures forall s <- slots, t <- slots ::
              s != t && !s.canceled && !t.canceled && HaveInCommon(s, t, bookings) ==>
                OverBefore(s, items[s.item], t, items[t.item]) || OverBefore(t, items[t.item], s, items[s.item])
  {
    hide PlacedWell, PlacedAsAsked, ApartAsAsked, Reads, HaveInCommon, OverBefore;
    forall slot | slot in slots
      ensures PlacedWell(slot, items[slot.item], bookings, hours, fixed, over[slot], was[slot], now)
    {
      PlacedMeansWell(slot, asked[slot], items[slot.item], bookings, hours, fixed, over[slot], was[slot], now);
    }
    forall s, t | s in slots && t in slots && s != t && !s.canceled && !t.canceled && HaveInCommon(s, t, bookings)
      ensures OverBefore(s, items[s.item], t, items[t.item]) || OverBefore(t, items[t.item], s, items[s.item])
    {
      TakesLength(s, asked[s], bookings, hours, now);
      TakesLength(t, asked[t], bookings, hours, now);
      ApartMeansOver(s, asked[s], items[s.item], t, asked[t], items[t.item], bookings, fixed,
                     (over[s], was[s]), (over[t], was[t]), now);
    }
  }

  lemma TakesLength(slot: Slot, asked: Request, bookings: seq<Booking>, hours: seq<Hours>, now: int)
    requires PlacedAsAsked(slot, asked, bookings, hours, now)
    ensures slot.endsAt == slot.startsAt + asked.length
  {
  }
}
