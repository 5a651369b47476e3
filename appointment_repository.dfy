/** The booking rules: which start times a barber still offers on a day, the
    guards on creating an appointment and the guard on cancelling one. */
module AppointmentRepository {
  import opened Wrappers
  import opened AppointmentEntity
  import opened AppointmentDao

  datatype AppointmentError = PastDate | SlotTaken | NotFound | NotCancellable {
    /** The message the failure carries. */
    function Message(): (r: string) {
      match this
      case PastDate => "No puedes agendar citas en el pasado"
      case SlotTaken => "Este horario ya está ocupado"
      case NotFound => "Cita no encontrada"
      case NotCancellable => "Esta cita ya no se puede cancelar"
    }
  }

  const MillisPerMinute := 60 * 1000
  const MillisPerHour := 60 * MillisPerMinute
  /** Opening at 09:00 and closing at 20:00, as offsets from the day's base instant. */
  const OpeningOffset := 9 * MillisPerHour
  const ClosingOffset := 20 * MillisPerHour
  /** Slots are 30 minutes apart. */
  const SlotStep := 30 * MillisPerMinute
  /** (20:00 - 09:00) / 30 minutes. */
  const SlotsPerDay := 22

  /** `base` is the chosen date's instant with hour, minute and second zeroed;
      its milliseconds are kept, as the source only sets hour, minute and second. */
  function Opening(base: int): (r: int) { base + OpeningOffset }
  function Closing(base: int): (r: int) { base + ClosingOffset }

  /** The half-open intervals [slot, slot + dur) and [a.start, a.start + a.dur) intersect. */
  predicate Overlaps(slot: int, durationMinutes: int, a: Appointment) {
    slot < a.dateTime + a.durationMinutes * MillisPerMinute &&
    slot + durationMinutes * MillisPerMinute > a.dateTime
  }

  predicate Within(t: int, start: int, durationMinutes: int) {
    start <= t < start + durationMinutes * MillisPerMinute
  }

  /** For non-empty durations the overlap test says exactly that some instant lies
      in both intervals; touching endpoints therefore never conflict. */
  lemma OverlapsIffSharedInstant(slot: int, durationMinutes: int, a: Appointment)
    requires durationMinutes > 0 && a.durationMinutes > 0
    ensures Overlaps(slot, durationMinutes, a) <==>
      exists t :: Within(t, slot, durationMinutes) && Within(t, a.dateTime, a.durationMinutes)
  {
    if Overlaps(slot, durationMinutes, a) {
      var t := if slot < a.dateTime then a.dateTime else slot;
      assert Within(t, slot, durationMinutes) && Within(t, a.dateTime, a.durationMinutes);
    }
  }

  /** The `any { ... }` over the fetched appointments. */
  function AnyOverlap(existing: seq<Appointment>, slot: int, durationMinutes: int): (r: bool)
    ensures r <==> exists a :: a in existing && Overlaps(slot, durationMinutes, a)
  {
    if existing == [] then false
    else Overlaps(slot, durationMinutes, existing[0]) || AnyOverlap(existing[1..], slot, durationMinutes)
  }

  /** `s` is `opening + 30 min * k` for some k >= 0. */
  ghost predicate OnGrid(opening: int, s: int) {
    s >= opening && (s - opening) % SlotStep == 0
  }

  /** Some active appointment of the barber that starts within the day's
      opening hours overlaps a slot of this length starting at `s`. */
  ghost predicate Blocked(rows: seq<Appointment>, barberId: int, base: int, durationMinutes: int, s: int) {
    exists a :: a in rows && InBarberDay(a, barberId, Opening(base), Closing(base)) && Overlaps(s, durationMinutes, a)
  }

  /** A start time the day's slot list offers: on the grid, before closing
      (its end is not compared with closing), strictly after `now`, not blocked. */
  ghost predicate Offered(rows: seq<Appointment>, barberId: int, base: int, durationMinutes: int, now: int, s: int) {
    OnGrid(Opening(base), s) && s < Closing(base) && s > now && !Blocked(rows, barberId, base, durationMinutes, s)
  }

  ghost predicate StrictlyAscending(s: seq<int>) {
    forall i, j :: 0 <= i < j < |s| ==> s[i] < s[j]
  }

  /** `slots` holds exactly the offered start times, in strictly ascending order. */
  ghost predicate IsAvailableSlotList(slots: seq<int>, rows: seq<Appointment>, barberId: int, base: int,
                                      durationMinutes: int, now: int) {
    && (forall s :: s in slots <==> Offered(rows, barberId, base, durationMinutes, now, s))
    && StrictlyAscending(slots)
  }

  /** Two strictly ascending lists with the same elements are the same list. */
  lemma {:induction false} AscendingSameElements(s: seq<int>, t: seq<int>)
    requires StrictlyAscending(s) && StrictlyAscending(t)
    requires forall x :: x in s <==> x in t
    ensures s == t
  {
    assert s != [] ==> s[0] in s;
    assert t != [] ==> t[0] in t;
    if s != [] && t != [] {
      assert s[0] in t && t[0] in s;
      forall x ensures x in s[1..] <==> x in t[1..] {
        if x in s[1..] {
          var i :| 1 <= i < |s| && s[i] == x;
          assert x in t && x != t[0];
        }
        if x in t[1..] {
          var i :| 1 <= i < |t| && t[i] == x;
          assert x in s && x != s[0];
        }
      }
      AscendingSameElements(s[1..], t[1..]);
      assert s == [s[0]] + s[1..] && t == [t[0]] + t[1..];
    }
  }

  /** The slot list is determined by the store: two answers for the same rows,
      barber, day, duration and `now` are identical. */
  lemma SlotListIsDetermined(slots1: seq<int>, slots2: seq<int>, rows: seq<Appointment>, barberId: int,
                             base: int, durationMinutes: int, now: int)
    requires IsAvailableSlotList(slots1, rows, barberId, base, durationMinutes, now)
    requires IsAvailableSlotList(slots2, rows, barberId, base, durationMinutes, now)
    ensures slots1 == slots2
  {
    AscendingSameElements(slots1, slots2);
  }

  /** A confirmed 45-minute appointment at 10:00 blocks the 10:00 and 10:30
      slots of a 30-minute service, but not 09:00, 09:30 or 11:00. */
  lemma ConfirmedAtTenBlocksTwoSlots(base: int, barberId: int, a: Appointment, now: int)
    requires a.barberId == Some(barberId) && a.status == Confirmed
    requires a.dateTime == base + 10 * MillisPerHour && a.durationMinutes == 45
    requires now < Opening(base)
    ensures !Offered([a], barberId, base, 30, now, base + 10 * MillisPerHour)
    ensures !Offered([a], barberId, base, 30, now, base + 10 * MillisPerHour + SlotStep)
    ensures Offered([a], barberId, base, 30, now, Opening(base))
    ensures Offered([a], barberId, base, 30, now, Opening(base) + SlotStep)
    ensures Offered([a], barberId, base, 30, now, base + 11 * MillisPerHour)
  {
    assert InBarberDay(a, barberId, Opening(base), Closing(base));
    assert a in [a];
  }

  /** The last slot starts 30 minutes before closing and is offered whatever the
      service's length: the slot's end is never compared with closing time. */
  lemma LastSlotIgnoresClosing(rows: seq<Appointment>, barberId: int, base: int, durationMinutes: int, now: int)
    requires forall a :: a in rows ==> !InBarberDay(a, barberId, Opening(base), Closing(base))
    requires now < Closing(base) - SlotStep
    ensures Offered(rows, barberId, base, durationMinutes, now, Closing(base) - SlotStep)
    ensures Closing(base) - SlotStep + durationMinutes * MillisPerMinute > Closing(base) <==> durationMinutes > 30
  {
  }

  /** Between two consecutive grid points there is no other grid point. */
  lemma GridGap(opening: int, k: nat, s: int)
    requires OnGrid(opening, s) && opening + k * SlotStep <= s < opening + (k + 1) * SlotStep
    ensures s == opening + k * SlotStep
  {
    var m := (s - opening) / SlotStep;
    assert s - opening == m * SlotStep;
  }

  /** The loop's invariant: `slots` lists, in ascending order, exactly the
      free start times on the grid below `current` that are after `now`. */
  ghost predicate ScannedUpTo(slots: seq<int>, existing: seq<Appointment>, opening: int, current: int,
                              durationMinutes: int, now: int) {
    && StrictlyAscending(slots)
    && (forall s :: s in slots ==> s < current)
    && (forall s :: s in slots <==>
          OnGrid(opening, s) && s < current && s > now && !AnyOverlap(existing, s, durationMinutes))
  }

  /** One turn of the loop: the grid point `opening + k * 30 min` is appended
      exactly when it is free and after `now`. */
  lemma ScanStep(before: seq<int>, after: seq<int>, existing: seq<Appointment>, opening: int, k: nat,
                 durationMinutes: int, now: int)
    requires ScannedUpTo(before, existing, opening, opening + k * SlotStep, durationMinutes, now)
    requires var c := opening + k * SlotStep;
      after == if !AnyOverlap(existing, c, durationMinutes) && c > now then before + [c] else before
    ensures ScannedUpTo(after, existing, opening, opening + (k + 1) * SlotStep, durationMinutes, now)
  {
    var c := opening + k * SlotStep;
    assert OnGrid(opening, c);
    assert forall i :: 0 <= i < |before| ==> before[i] in before;
    forall s | OnGrid(opening, s) && c <= s < c + SlotStep
      ensures s == c
    {
      GridGap(opening, k, s);
    }
  }

  /** Before the first turn of the loop nothing below opening has been scanned. */
  lemma ScanStart(existing: seq<Appointment>, opening: int, durationMinutes: int, now: int)
    ensures ScannedUpTo([], existing, opening, opening, durationMinutes, now)
  {
  }

  /** After the last turn the scanned slots are the day's slot list. */
  lemma ScanFinish(slots: seq<int>, existing: seq<Appointment>, rows: seq<Appointment>, barberId: int, base: int,
                   durationMinutes: int, now: int)
    requires ScannedUpTo(slots, existing, Opening(base), Closing(base), durationMinutes, now)
    requires forall a :: a in existing <==> a in rows && InBarberDay(a, barberId, Opening(base), Closing(base))
    ensures IsAvailableSlotList(slots, rows, barberId, base, durationMinutes, now)
  {
    FetchedDayDecidesBlocking(existing, rows, barberId, base, durationMinutes);
  }

  /** The rows fetched for the day's window decide blocking as `Blocked` states it over the whole table. */
  lemma FetchedDayDecidesBlocking(existing: seq<Appointment>, rows: seq<Appointment>, barberId: int, base: int,
                                  durationMinutes: int)
    requires forall a :: a in existing <==> a in rows && InBarberDay(a, barberId, Opening(base), Closing(base))
    ensures forall s :: AnyOverlap(existing, s, durationMinutes) == Blocked(rows, barberId, base, durationMinutes, s)
  {
  }

  class AppointmentRepository {
    const dao: AppointmentTable

    constructor (dao: AppointmentTable)
      ensures this.dao == dao
    {
      this.dao := dao;
    }

    /** Rejects a start before `now` (a start equal to `now` is accepted), then,
        when a barber is named, a pending or confirmed appointment of that barber at
        exactly the same instant; otherwise stores a new pending appointment and
        returns its id. A failure leaves the table as it was. */
    method CreateAppointment(userId: int, barberId: Option<int>, serviceId: int, dateTime: int,
                             durationMinutes: int, notes: Option<string>, now: int)
      returns (r: Result<int, AppointmentError>)
      requires dao.Valid()
      modifies dao
      ensures dao.Valid()
      ensures dateTime < now ==> r == Failure(PastDate) && unchanged(dao)
      ensures dateTime >= now && barberId.Some? && old(dao.CountConflictingAppointments(barberId.value, dateTime)) > 0 ==>
        r == Failure(SlotTaken) && unchanged(dao)
      ensures dateTime >= now && (barberId.None? || old(dao.CountConflictingAppointments(barberId.value, dateTime)) == 0) ==>
        && r == Success(old(dao.nextId))
        && dao.rows == old(dao.rows) +
             [NewAppointment(userId, barberId, serviceId, dateTime, durationMinutes, Pending, notes, now).(id := old(dao.nextId))]
        && dao.nextId == old(dao.nextId) + 1
    {
      if dateTime < now {
        return Failure(PastDate);
      }
      if barberId.Some? {
        var conflicts := dao.CountConflictingAppointments(barberId.value, dateTime);
        if conflicts > 0 {
          return Failure(SlotTaken);
        }
      }
      var appointment := NewAppointment(userId, barberId, serviceId, dateTime, durationMinutes, Pending, notes, now);
      var inserted := dao.Insert(appointment);
      r := Success(inserted.value);
    }

    /** All of the user's appointments, newest first. */
    function GetUserAppointments(userId: int): (r: seq<Appointment>)
      reads this, dao
      ensures r == dao.GetByUserId(userId)
      ensures forall a :: multiset(r)[a] == if a.userId == userId then multiset(dao.rows)[a] else 0
      ensures forall i, j :: 0 <= i < j < |r| ==> r[i].dateTime >= r[j].dateTime
    {
      dao.GetByUserId(userId)
    }

    /** The user's pending and confirmed appointments, soonest first. */
    function GetUpcomingAppointments(userId: int): (r: seq<Appointment>)
      reads this, dao
      ensures r == dao.GetUpcomingByUserId(userId)
      ensures forall a ::
                multiset(r)[a] == if a.userId == userId && IsActive(a.status) then multiset(dao.rows)[a] else 0
      ensures forall i, j :: 0 <= i < j < |r| ==> r[i].dateTime <= r[j].dateTime
    {
      dao.GetUpcomingByUserId(userId)
    }

    /** The appointment with that id, or none when there is no such appointment. */
    function GetAppointmentById(id: int): (r: Option<Appointment>)
      reads this, dao
      requires dao.Valid()
      ensures r == dao.GetById(id)
      ensures r.Some? <==> dao.HasId(id)
      ensures forall i :: 0 <= i < |dao.rows| && dao.rows[i].id == id ==> r == Some(dao.rows[i])
    {
      dao.GetById(id)
    }

    /** Fails for an unknown id and for an appointment already cancelled or
        completed, changing nothing; otherwise marks only that row cancelled. */
    method CancelAppointment(id: int, now: int) returns (r: Result<(), AppointmentError>)
      requires dao.Valid()
      modifies dao
      ensures dao.Valid()
      ensures !old(dao.HasId(id)) ==> r == Failure(NotFound) && unchanged(dao)
      ensures old(dao.HasId(id)) && !IsActive(old(dao.GetById(id)).value.status) ==>
        r == Failure(NotCancellable) && unchanged(dao)
      ensures old(dao.HasId(id)) && IsActive(old(dao.GetById(id)).value.status) ==>
        r == Success(()) && dao.rows == WithStatus(old(dao.rows), id, Cancelled, now) && dao.nextId == old(dao.nextId)
    {
      var appointment := dao.GetById(id);
      if appointment.None? {
        return Failure(NotFound);
      }
      if appointment.value.status == Cancelled || appointment.value.status == Completed {
        return Failure(NotCancellable);
      }
      dao.CancelAppointment(id, now);
      r := Success(());
    }

    /** The 30-minute grid from opening up to (not including) closing, minus the
        slots that overlap an active appointment of the barber fetched for that
        window and the slots not strictly after `now`. */
    method GetAvailableTimeSlotsForDay(barberId: int, base: int, serviceDurationMinutes: int, now: int)
      returns (slots: seq<int>)
      ensures IsAvailableSlotList(slots, dao.rows, barberId, base, serviceDurationMinutes, now)
      ensures |slots| <= SlotsPerDay
    {
      var startOfDay := Opening(base);
      var endOfDay := Closing(base);
      var existing := dao.GetBarberAppointmentsForDay(barberId, startOfDay, endOfDay);
      slots := [];
      var currentSlot := startOfDay;
      ghost var k: nat := 0;
      ScanStart(existing, startOfDay, serviceDurationMinutes, now);
      while currentSlot < endOfDay
        invariant currentSlot == startOfDay + k * SlotStep
        invariant k <= SlotsPerDay
        invariant |slots| <= k
        invariant ScannedUpTo(slots, existing, startOfDay, currentSlot, serviceDurationMinutes, now)
        decreases endOfDay - currentSlot
      {
        var hasConflict := AnyOverlap(existing, currentSlot, serviceDurationMinutes);
        ghost var before := slots;
        if !hasConflict && currentSlot > now {
          slots := slots + [currentSlot];
        }
        ScanStep(before, slots, existing, startOfDay, k, serviceDurationMinutes, now);
        currentSlot := currentSlot + SlotStep;
        k := k + 1;
      }
      assert k == SlotsPerDay && currentSlot == endOfDay;
      ScanFinish(slots, existing, dao.rows, barberId, base, serviceDurationMinutes, now);
    }
  }
}
