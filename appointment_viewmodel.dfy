/** The booking form and the appointment lists shown to a user or a barber.
    Every handler rewrites the form record in one step; the slot load and the
    repository calls the source launches on a coroutine complete before the
    handler returns. */
module AppointmentViewModel {
  import opened Wrappers
  import opened AppointmentEntity
  import opened AppointmentDao
  import opened AppointmentRepository
  import Seqs

  /** The booking form. The selected date is the day's base instant. */
  datatype BookAppointmentUiState = BookAppointmentUiState(
    selectedServiceId: Option<int> := None,
    selectedBarberId: Option<int> := None,
    selectedDate: Option<int> := None,
    selectedTimeSlot: Option<int> := None,
    availableTimeSlots: seq<int> := [],
    notes: string := "",
    isLoadingSlots: bool := false,
    isSubmitting: bool := false,
    canSubmit: bool := false,
    success: bool := false,
    errorMsg: Option<string> := None)

  datatype MyAppointmentsUiState = MyAppointmentsUiState(
    upcomingAppointments: seq<Appointment> := [],
    allAppointments: seq<Appointment> := [],
    isLoading: bool := true,
    errorMsg: Option<string> := None)

  /** Service, barber, date and time slot are all chosen. */
  predicate AllSelected(s: BookAppointmentUiState) {
    s.selectedServiceId.Some? && s.selectedBarberId.Some? && s.selectedDate.Some? && s.selectedTimeSlot.Some?
  }

  /** Kotlin's `Char.isWhitespace`: Java whitespace or a Unicode space separator. */
  predicate IsWhitespace(c: char) {
    || c == '\t' || c == '\n' || c == '\U{000B}' || c == '\U{000C}' || c == '\r'
    || ('\U{001C}' <= c <= '\U{001F}')
    || c == ' ' || c == '\U{00A0}' || c == '\U{1680}' || ('\U{2000}' <= c <= '\U{200A}')
    || c == '\U{2028}' || c == '\U{2029}' || c == '\U{202F}' || c == '\U{205F}' || c == '\U{3000}'
  }

  predicate IsBlank(s: string) {
    forall i :: 0 <= i < |s| ==> IsWhitespace(s[i])
  }

  /** `notes.ifBlank { null }`: blank notes (empty or only whitespace) are sent
      as no notes, any other text unchanged. */
  function NotesOrNull(notes: string): (r: Option<string>)
    ensures r == None <==> IsBlank(notes)
    ensures r != None ==> r == Some(notes)
  {
    if IsBlank(notes) then None else Some(notes)
  }

  /** The barber view's upcoming list: the pending and confirmed appointments, in order. */
  function ActiveOnly(appointments: seq<Appointment>): (r: seq<Appointment>)
    ensures forall a :: a in r <==> a in appointments && IsActive(a.status)
    ensures forall a :: multiset(r)[a] == if IsActive(a.status) then multiset(appointments)[a] else 0
  {
    Seqs.Filter(appointments, (a: Appointment) => IsActive(a.status))
  }

  class AppointmentViewModel {
    const repository: AppointmentRepository
    const userId: int
    var bookState: BookAppointmentUiState
    var myAppointmentsState: MyAppointmentsUiState

    /** `canSubmit` is always the conjunction of the four selections. */
    ghost predicate Valid()
      reads this, repository, repository.dao
    {
      bookState.canSubmit == AllSelected(bookState) && repository.dao.Valid()
    }

    /** The form's slot list is the repository's answer for this barber, day, length and instant. */
    ghost predicate SlotsLoaded(s: BookAppointmentUiState, barberId: int, date: int, durationMinutes: int, now: int)
      reads repository, repository.dao
    {
      IsAvailableSlotList(s.availableTimeSlots, repository.dao.rows, barberId, date, durationMinutes, now) &&
      |s.availableTimeSlots| <= SlotsPerDay && !s.isLoadingSlots
    }

    constructor (repository: AppointmentRepository, userId: int)
      requires repository.dao.Valid()
      ensures Valid()
      ensures this.repository == repository && this.userId == userId
      ensures bookState == BookAppointmentUiState()
      ensures myAppointmentsState == MyAppointmentsUiState(
        upcomingAppointments := repository.GetUpcomingAppointments(userId),
        allAppointments := repository.GetUserAppointments(userId),
        isLoading := false)
    {
      this.repository := repository;
      this.userId := userId;
      bookState := BookAppointmentUiState();
      myAppointmentsState := MyAppointmentsUiState();
      new;
      LoadUserAppointments();
    }

    /** A snapshot of the two lists the user's Room flows emit. */
    method LoadUserAppointments()
      modifies this
      ensures bookState == old(bookState)
      ensures myAppointmentsState == old(myAppointmentsState).(
        upcomingAppointments := repository.GetUpcomingAppointments(userId),
        allAppointments := repository.GetUserAppointments(userId),
        isLoading := false,
        errorMsg := None)
    {
      myAppointmentsState := myAppointmentsState.(isLoading := true, errorMsg := None);
      myAppointmentsState := myAppointmentsState.(upcomingAppointments := repository.GetUpcomingAppointments(userId));
      myAppointmentsState := myAppointmentsState.(allAppointments := repository.GetUserAppointments(userId), isLoading := false);
    }

    method LoadAvailableTimeSlots(barberId: int, date: int, durationMinutes: int, now: int)
      modifies this
      ensures myAppointmentsState == old(myAppointmentsState)
      ensures bookState == old(bookState).(availableTimeSlots := bookState.availableTimeSlots, isLoadingSlots := false)
      ensures SlotsLoaded(bookState, barberId, date, durationMinutes, now)
    {
      bookState := bookState.(isLoadingSlots := true);
      var slots := repository.GetAvailableTimeSlotsForDay(barberId, date, durationMinutes, now);
      bookState := bookState.(availableTimeSlots := slots, isLoadingSlots := false);
    }

    method RecomputeCanSubmit()
      modifies this
      ensures myAppointmentsState == old(myAppointmentsState)
      ensures bookState == old(bookState).(canSubmit := AllSelected(old(bookState)))
    {
      var s := bookState;
      var can := s.selectedServiceId.Some? && s.selectedBarberId.Some? && s.selectedDate.Some? && s.selectedTimeSlot.Some?;
      bookState := bookState.(canSubmit := can);
    }

    /** Chooses the service and clears the chosen slot and the slot list; the
        slots are reloaded only when a date and a barber are already chosen. */
    method OnSelectService(serviceId: int, durationMinutes: int, now: int)
      requires Valid()
      modifies this
      ensures Valid() && myAppointmentsState == old(myAppointmentsState)
      ensures bookState.selectedServiceId == Some(serviceId) && bookState.selectedTimeSlot == None && !bookState.canSubmit
      ensures bookState == old(bookState).(selectedServiceId := Some(serviceId), selectedTimeSlot := None, canSubmit := false,
                                           availableTimeSlots := bookState.availableTimeSlots,
                                           isLoadingSlots := bookState.isLoadingSlots)
      ensures old(bookState.selectedDate.Some? && bookState.selectedBarberId.Some?) ==>
        SlotsLoaded(bookState, old(bookState.selectedBarberId.value), old(bookState.selectedDate.value), durationMinutes, now)
      ensures !old(bookState.selectedDate.Some? && bookState.selectedBarberId.Some?) ==>
        bookState.availableTimeSlots == [] && bookState.isLoadingSlots == old(bookState.isLoadingSlots)
    {
      bookState := bookState.(selectedServiceId := Some(serviceId), selectedTimeSlot := None, availableTimeSlots := []);
      var state := bookState;
      if state.selectedDate.Some? && state.selectedBarberId.Some? {
        LoadAvailableTimeSlots(state.selectedBarberId.value, state.selectedDate.value, durationMinutes, now);
      }
      RecomputeCanSubmit();
    }

    /** Chooses the barber (None for "any barber") and clears the chosen slot and
        the slot list, without reloading slots. */
    method OnSelectBarber(barberId: Option<int>)
      requires Valid()
      modifies this
      ensures Valid() && myAppointmentsState == old(myAppointmentsState)
      ensures !bookState.canSubmit
      ensures bookState == old(bookState).(selectedBarberId := barberId, selectedTimeSlot := None,
                                           availableTimeSlots := [], canSubmit := false)
    {
      bookState := bookState.(selectedBarberId := barberId, selectedTimeSlot := None, availableTimeSlots := []);
      RecomputeCanSubmit();
    }

    /** Chooses the date and clears the chosen slot and the slot list; the slots
        are reloaded only when a barber is chosen. */
    method OnSelectDate(date: int, serviceDurationMinutes: int, now: int)
      requires Valid()
      modifies this
      ensures Valid() && myAppointmentsState == old(myAppointmentsState)
      ensures bookState.selectedDate == Some(date) && bookState.selectedTimeSlot == None && !bookState.canSubmit
      ensures bookState == old(bookState).(selectedDate := Some(date), selectedTimeSlot := None, canSubmit := false,
                                           availableTimeSlots := bookState.availableTimeSlots,
                                           isLoadingSlots := bookState.isLoadingSlots)
      ensures old(bookState.selectedBarberId.Some?) ==>
        SlotsLoaded(bookState, old(bookState.selectedBarberId.value), date, serviceDurationMinutes, now)
      ensures old(bookState.selectedBarberId.None?) ==>
        bookState.availableTimeSlots == [] && bookState.isLoadingSlots == old(bookState.isLoadingSlots)
    {
      bookState := bookState.(selectedDate := Some(date), selectedTimeSlot := None, availableTimeSlots := []);
      var barberId := bookState.selectedBarberId;
      if barberId.Some? {
        LoadAvailableTimeSlots(barberId.value, date, serviceDurationMinutes, now);
      }
      RecomputeCanSubmit();
    }

    /** Chooses the slot (not checked against the offered list) and recomputes `canSubmit`. */
    method OnSelectTimeSlot(timeSlot: int)
      requires Valid()
      modifies this
      ensures Valid() && myAppointmentsState == old(myAppointmentsState)
      ensures bookState.canSubmit <==>
        old(bookState.selectedServiceId.Some? && bookState.selectedBarberId.Some? && bookState.selectedDate.Some?)
      ensures bookState == old(bookState).(selectedTimeSlot := Some(timeSlot), canSubmit := bookState.canSubmit)
    {
      bookState := bookState.(selectedTimeSlot := Some(timeSlot));
      RecomputeCanSubmit();
    }

    /** Changes only the notes; `canSubmit` is not recomputed (and does not depend on them). */
    method OnNotesChange(notes: string)
      requires Valid()
      modifies this
      ensures Valid() && myAppointmentsState == old(myAppointmentsState)
      ensures bookState == old(bookState).(notes := notes)
    {
      bookState := bookState.(notes := notes);
    }

    /** Does nothing unless the form can be submitted and no submission is in
        flight; otherwise creates the appointment for the chosen service, barber
        and slot and records the outcome. */
    method SubmitBooking(serviceDurationMinutes: int, now: int)
      requires Valid()
      modifies this, repository.dao
      ensures Valid() && myAppointmentsState == old(myAppointmentsState)
      ensures !old(bookState.canSubmit) || old(bookState.isSubmitting) ==>
        bookState == old(bookState) && unchanged(repository.dao)
      ensures old(bookState.canSubmit) && !old(bookState.isSubmitting) ==>
        var s := old(bookState);
        var slot := s.selectedTimeSlot.value;
        var accepted := slot >= now && old(repository.dao.CountConflictingAppointments(s.selectedBarberId.value, slot)) == 0;
        && bookState == s.(isSubmitting := false, success := accepted,
                           errorMsg := if accepted then None
                                       else if slot < now then Some(PastDate.Message())
                                       else Some(SlotTaken.Message()))
        && (accepted ==>
              repository.dao.rows == old(repository.dao.rows) +
                [NewAppointment(userId, s.selectedBarberId, s.selectedServiceId.value, slot, serviceDurationMinutes,
                                Pending, NotesOrNull(s.notes), now).(id := old(repository.dao.nextId))] &&
              repository.dao.nextId == old(repository.dao.nextId) + 1)
        && (!accepted ==> unchanged(repository.dao))
    {
      var s := bookState;
      if !s.canSubmit || s.isSubmitting {
        return;
      }
      bookState := bookState.(isSubmitting := true, errorMsg := None);
      var result := repository.CreateAppointment(userId, s.selectedBarberId, s.selectedServiceId.value,
                                                 s.selectedTimeSlot.value, serviceDurationMinutes,
                                                 NotesOrNull(s.notes), now);
      if result.Success? {
        bookState := bookState.(isSubmitting := false, success := true, errorMsg := None);
      } else {
        bookState := bookState.(isSubmitting := false, success := false, errorMsg := Some(result.error.Message()));
      }
    }

    /** Returns the form to its all-default record. */
    method ClearBookingResult()
      requires Valid()
      modifies this
      ensures Valid() && myAppointmentsState == old(myAppointmentsState)
      ensures bookState == BookAppointmentUiState()
    {
      bookState := BookAppointmentUiState();
    }

    /** Cancels through the repository; on failure records its message. */
    method CancelAppointment(appointmentId: int, now: int)
      requires Valid()
      modifies this, repository.dao
      ensures Valid() && bookState == old(bookState)
      ensures old(repository.dao.HasId(appointmentId)) &&
              IsActive(old(repository.dao.GetById(appointmentId)).value.status) ==>
        && myAppointmentsState == old(myAppointmentsState)
        && repository.dao.rows == WithStatus(old(repository.dao.rows), appointmentId, Cancelled, now)
        && repository.dao.nextId == old(repository.dao.nextId)
      ensures !old(repository.dao.HasId(appointmentId)) ==>
        myAppointmentsState == old(myAppointmentsState).(errorMsg := Some(NotFound.Message())) &&
        unchanged(repository.dao)
      ensures old(repository.dao.HasId(appointmentId)) &&
              !IsActive(old(repository.dao.GetById(appointmentId)).value.status) ==>
        myAppointmentsState == old(myAppointmentsState).(errorMsg := Some(NotCancellable.Message())) &&
        unchanged(repository.dao)
    {
      var result := repository.CancelAppointment(appointmentId, now);
      if result.Failure? {
        myAppointmentsState := myAppointmentsState.(errorMsg := Some(result.error.Message()));
      }
    }

    /** Shows a barber's appointments: all of them, and as upcoming exactly the
        pending and confirmed ones, in the order given. */
    method LoadBarberAppointments(appointments: seq<Appointment>)
      requires Valid()
      modifies this
      ensures Valid() && bookState == old(bookState)
      ensures myAppointmentsState == MyAppointmentsUiState(
        upcomingAppointments := ActiveOnly(appointments),
        allAppointments := appointments,
        isLoading := false,
        errorMsg := None)
    {
      myAppointmentsState := myAppointmentsState.(isLoading := true, errorMsg := None);
      myAppointmentsState := myAppointmentsState.(
        allAppointments := appointments,
        upcomingAppointments := ActiveOnly(appointments),
        isLoading := false);
    }
  }
}
