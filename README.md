# DangerBook booking core in Dafny

A verified model of the booking core of DangerBook, an Android app for a barbershop.
Clients pick a service, a barber, a day and one of the free 30-minute start times,
and submit a booking. Appointments then move through the statuses pending, confirmed,
completed and cancelled. The model covers three parts:

- **Appointment store and booking rules.**
  - `appointment_entity.dfy` models the `appointments` row, its four statuses and what its foreign keys do on delete.
  - `appointment_dao.dfy` models the table as a class. It holds the rows and the AUTOINCREMENT counter, and it has the queries and the status updates.
  - `appointment_repository.dfy` holds the slot calculation, the guards on creating an appointment and the guard on cancelling one.
- **Booking form.** `appointment_viewmodel.dfy` models the form record and its handlers on a class whose methods rewrite the record.
- **User accounts.**
  - `user_entity.dfy` models the user row and the role parser.
  - `user_dao.dfy` models the users table.
  - `user_repository.dfy` holds login, registration and photo updates.

`seqs.dfy` gives every query its WHERE clause (`Filter`) and its ORDER BY (`SortBy`, a stable insertion sort). `wrappers.dfy` holds `Option` and `Result`.

Conventions:
- Time is an integer count of milliseconds.
- The current instant `now` is a parameter.
- A chosen day is its *base* instant: the picked calendar date with hour, minute and second set to zero. Its milliseconds are kept, because the source never clears them.
- Opening is `base + 9 h` and closing is `base + 20 h`.
- Integers are unbounded.
- The source stores the status as a free string. The model's `Status` datatype has exactly the four values the code ever writes. `ParseStatus` links each value to its stored string.

Some behaviours of the code that the contracts spell out:
- A start time equal to `now` is accepted.
- The conflict guard at creation is an exact-timestamp check, and it is skipped when no barber is named.
- Confirm and complete overwrite the status whatever it was. Only cancellation is guarded.
- A slot's end is never compared with closing time. The slot at 19:30 is offered for a service of any length.
- Only appointments that start inside the opening hours are fetched, so only those can block a slot.
- Choosing a barber clears the slot list without reloading it.
- `canSubmit` needs a concrete barber. The form therefore never submits an "any barber" booking.

## Model

| member | source | states |
|---|---|---|
| AppointmentEntity.ParseStatus | app/src/main/java/com/example/DangerBook/data/local/appointment/AppointmentEntity.kt:54 | a stored status string names a status exactly when it is one of pending, confirmed, completed, cancelled, and each status has its own distinct string |
| AppointmentEntity.NewAppointment | app/src/main/java/com/example/DangerBook/data/local/appointment/AppointmentEntity.kt:44-58 | a new row has id 0 ("not yet assigned"), the given fields, and createdAt = updatedAt = the creation instant |
| AppointmentEntity.AfterUserDeleted | app/src/main/java/com/example/DangerBook/data/local/appointment/AppointmentEntity.kt:23-28 | deleting a user removes exactly that user's appointments and keeps every other row with its multiplicity |
| AppointmentEntity.AfterBarberDeleted | app/src/main/java/com/example/DangerBook/data/local/appointment/AppointmentEntity.kt:29-34 | deleting a barber keeps every appointment; each of that barber's appointments gets no barber (null), every other column stays as it was, and rows of other barbers are untouched |
| AppointmentEntity.AfterServiceDeleted | app/src/main/java/com/example/DangerBook/data/local/appointment/AppointmentEntity.kt:35-40 | deleting a service removes exactly that service's appointments |
| AppointmentDao.FindById | app/src/main/java/com/example/DangerBook/data/local/appointment/AppointmentDao.kt:35-37 | a row is found exactly when some row has that id, and the row found has it |
| AppointmentDao.FindByIdUnique | app/src/main/java/com/example/DangerBook/data/local/appointment/AppointmentDao.kt:35-37 | with unique ids, the row found for an id is the row that holds it |
| AppointmentDao.WithStatus | app/src/main/java/com/example/DangerBook/data/local/appointment/AppointmentDao.kt:60-69 | a status UPDATE gives the row with that id the new status and timestamp, whatever its old status, and changes no other column and no other row |
| AppointmentDao.WithRowReplaced | app/src/main/java/com/example/DangerBook/data/local/appointment/AppointmentDao.kt:18-20 | an update by primary key replaces the matching row and keeps every id |
| AppointmentDao.AppointmentTable.Insert | app/src/main/java/com/example/DangerBook/data/local/appointment/AppointmentDao.kt:15-16 | id 0 gets the next generated id, which is returned, and exactly one row is added; an explicit taken id aborts with nothing changed; unique ids and the counter are kept |
| AppointmentDao.AppointmentTable.Update | app/src/main/java/com/example/DangerBook/data/local/appointment/AppointmentDao.kt:18-20 | the table becomes the rows with the matching row replaced |
| AppointmentDao.AppointmentTable.GetById | app/src/main/java/com/example/DangerBook/data/local/appointment/AppointmentDao.kt:35-37 | returns a row exactly when the id is in the table, and then the row with that id |
| AppointmentDao.AppointmentTable.GetByUserId | app/src/main/java/com/example/DangerBook/data/local/appointment/AppointmentDao.kt:22-24 | exactly the user's rows, each as often as stored, newest dateTime first |
| AppointmentDao.AppointmentTable.GetUpcomingByUserId | app/src/main/java/com/example/DangerBook/data/local/appointment/AppointmentDao.kt:26-33 | exactly the user's pending and confirmed rows, by ascending dateTime |
| AppointmentDao.AppointmentTable.CountConflictingAppointments | app/src/main/java/com/example/DangerBook/data/local/appointment/AppointmentDao.kt:39-46 | the number of rows of that barber that are pending or confirmed and start at exactly that instant; so zero exactly when there is none, and at most the table size |
| AppointmentDao.AppointmentTable.GetBarberAppointmentsForDay | app/src/main/java/com/example/DangerBook/data/local/appointment/AppointmentDao.kt:48-57 | exactly the barber's pending and confirmed rows with start <= dateTime < end, by ascending dateTime |
| AppointmentDao.AppointmentTable.CancelAppointment | app/src/main/java/com/example/DangerBook/data/local/appointment/AppointmentDao.kt:59-61 | only the row with that id becomes cancelled with the given updatedAt, with no guard on its old status |
| AppointmentDao.AppointmentTable.ConfirmAppointment | app/src/main/java/com/example/DangerBook/data/local/appointment/AppointmentDao.kt:63-65 | only the row with that id becomes confirmed, whatever its old status |
| AppointmentDao.AppointmentTable.CompleteAppointment | app/src/main/java/com/example/DangerBook/data/local/appointment/AppointmentDao.kt:67-69 | only the row with that id becomes completed, whatever its old status |
| AppointmentDao.AppointmentTable.GetByBarberId | app/src/main/java/com/example/DangerBook/data/local/appointment/AppointmentDao.kt:71-73 | exactly the barber's rows, newest dateTime first |
| AppointmentDao.AppointmentTable.Count | app/src/main/java/com/example/DangerBook/data/local/appointment/AppointmentDao.kt:75-77 | the number of rows in the table |
| AppointmentRepository.OverlapsIffSharedInstant | app/src/main/java/com/example/DangerBook/data/repository/AppointmentRepository.kt:129-135 | for positive durations the overlap test holds exactly when some instant lies in both half-open intervals, so touching endpoints do not conflict |
| AppointmentRepository.AnyOverlap | app/src/main/java/com/example/DangerBook/data/repository/AppointmentRepository.kt:129-135 | true exactly when some fetched appointment overlaps the slot |
| AppointmentRepository.AppointmentRepository.GetAvailableTimeSlotsForDay | app/src/main/java/com/example/DangerBook/data/repository/AppointmentRepository.kt:98-146 | a slot is returned exactly when it is opening + 30 min * k for some k >= 0, before closing, strictly after now, and no pending or confirmed appointment of the barber starting in opening hours overlaps it; strictly ascending; at most 22 slots |
| AppointmentRepository.SlotListIsDetermined | app/src/main/java/com/example/DangerBook/data/repository/AppointmentRepository.kt:98-146 | the slot list is a function of the table, barber, day, duration and now: two answers for the same inputs are identical |
| AppointmentRepository.AscendingSameElements | app/src/main/java/com/example/DangerBook/data/repository/AppointmentRepository.kt:122-145 | two strictly ascending slot lists with the same elements are equal |
| AppointmentRepository.ConfirmedAtTenBlocksTwoSlots | app/src/main/java/com/example/DangerBook/data/repository/AppointmentRepository.kt:114-139 | a confirmed 45-minute booking at 10:00 removes 10:00 and 10:30 from a 30-minute service's slots, and leaves 09:00, 09:30 and 11:00 |
| AppointmentRepository.LastSlotIgnoresClosing | app/src/main/java/com/example/DangerBook/data/repository/AppointmentRepository.kt:125-139 | the 19:30 slot is offered whatever the service's length, even when it ends after closing |
| AppointmentRepository.AppointmentRepository.CreateAppointment | app/src/main/java/com/example/DangerBook/data/repository/AppointmentRepository.kt:20-59 | a start before now fails and changes nothing; a start equal to now is accepted; with a barber, an active row at exactly that instant fails and changes nothing; with no barber the guard is skipped; otherwise exactly one pending row with the given fields is added and its new id returned |
| AppointmentRepository.AppointmentRepository.GetUserAppointments | app/src/main/java/com/example/DangerBook/data/repository/AppointmentRepository.kt:61-64 | the table's answer for the user's appointments: exactly the user's rows, newest first |
| AppointmentRepository.AppointmentRepository.GetUpcomingAppointments | app/src/main/java/com/example/DangerBook/data/repository/AppointmentRepository.kt:66-69 | the table's answer for the user's upcoming appointments: exactly the pending and confirmed ones, soonest first |
| AppointmentRepository.AppointmentRepository.GetAppointmentById | app/src/main/java/com/example/DangerBook/data/repository/AppointmentRepository.kt:71-74 | the table's lookup: an appointment exactly when the id is stored, and then the row with that id |
| AppointmentRepository.AppointmentRepository.CancelAppointment | app/src/main/java/com/example/DangerBook/data/repository/AppointmentRepository.kt:77-95 | an unknown id fails; a cancelled or completed appointment fails; both change nothing; otherwise only that row becomes cancelled |
| AppointmentViewModel.NotesOrNull | app/src/main/java/com/example/DangerBook/ui/viewmodel/AppointmentViewModel.kt:191 | blank notes, empty or only whitespace, are sent as no notes; other notes are sent unchanged |
| AppointmentViewModel.ActiveOnly | app/src/main/java/com/example/DangerBook/ui/viewmodel/AppointmentViewModel.kt:277-279 | exactly the pending and confirmed appointments of the list |
| AppointmentViewModel.AppointmentViewModel.constructor | app/src/main/java/com/example/DangerBook/ui/viewmodel/AppointmentViewModel.kt:38-54 | starts from the default form, with canSubmit consistent, and the user's upcoming and full lists loaded |
| AppointmentViewModel.AppointmentViewModel.LoadUserAppointments | app/src/main/java/com/example/DangerBook/ui/viewmodel/AppointmentViewModel.kt:57-84 | the lists become the user's upcoming and all appointments, loading ends and the error is cleared |
| AppointmentViewModel.AppointmentViewModel.LoadAvailableTimeSlots | app/src/main/java/com/example/DangerBook/ui/viewmodel/AppointmentViewModel.kt:141-164 | the form's slot list becomes the repository's slot list, loading ends, and nothing else changes |
| AppointmentViewModel.AppointmentViewModel.RecomputeCanSubmit | app/src/main/java/com/example/DangerBook/ui/viewmodel/AppointmentViewModel.kt:167-174 | canSubmit becomes true exactly when service, barber, date and time slot are all chosen |
| AppointmentViewModel.AppointmentViewModel.OnSelectService | app/src/main/java/com/example/DangerBook/ui/viewmodel/AppointmentViewModel.kt:88-102 | sets the service, clears the slot, makes canSubmit false; reloads the slots only when date and barber are both set, and otherwise leaves them empty |
| AppointmentViewModel.AppointmentViewModel.OnSelectBarber | app/src/main/java/com/example/DangerBook/ui/viewmodel/AppointmentViewModel.kt:104-113 | sets the barber, clears the slot and the slot list, and makes canSubmit false; nothing else changes |
| AppointmentViewModel.AppointmentViewModel.OnSelectDate | app/src/main/java/com/example/DangerBook/ui/viewmodel/AppointmentViewModel.kt:115-129 | sets the date, clears the slot, makes canSubmit false; loads the slots only when a barber is set |
| AppointmentViewModel.AppointmentViewModel.OnSelectTimeSlot | app/src/main/java/com/example/DangerBook/ui/viewmodel/AppointmentViewModel.kt:131-134 | changes only the slot; canSubmit is then true exactly when service, barber and date are set |
| AppointmentViewModel.AppointmentViewModel.OnNotesChange | app/src/main/java/com/example/DangerBook/ui/viewmodel/AppointmentViewModel.kt:136-138 | changes only the notes; canSubmit stays consistent without being recomputed |
| AppointmentViewModel.AppointmentViewModel.SubmitBooking | app/src/main/java/com/example/DangerBook/ui/viewmodel/AppointmentViewModel.kt:177-215 | when canSubmit is false or a submission is in flight, nothing changes; otherwise the form's choices become a repository booking, with blank notes sent as none; afterwards isSubmitting is false; on success the flag is set, there is no error, and the table gains exactly the new row with the id counter one higher; on failure the flag is cleared, the error message is set and the table is unchanged |
| AppointmentViewModel.AppointmentViewModel.ClearBookingResult | app/src/main/java/com/example/DangerBook/ui/viewmodel/AppointmentViewModel.kt:218-220 | the form becomes the all-default record |
| AppointmentViewModel.AppointmentViewModel.CancelAppointment | app/src/main/java/com/example/DangerBook/ui/viewmodel/AppointmentViewModel.kt:223-239 | a successful cancellation only marks that row cancelled and keeps the id counter; a failed one changes nothing but the error message, which is the repository's |
| AppointmentViewModel.AppointmentViewModel.LoadBarberAppointments | app/src/main/java/com/example/DangerBook/ui/viewmodel/AppointmentViewModel.kt:268-290 | all appointments are shown; as upcoming, exactly the pending and confirmed ones; loading ends and the error is cleared |
| UserEntity.NewUser | app/src/main/java/com/example/DangerBook/data/local/user/UserEntity.kt:7-24 | a new user has id 0, role "user" and no photo |
| UserEntity.FindRole | app/src/main/java/com/example/DangerBook/data/local/user/UserEntity.kt:34 | finds a listed role with that name, or reports that none has it |
| UserEntity.EveryRoleListed | app/src/main/java/com/example/DangerBook/data/local/user/UserEntity.kt:27-31 | the entries list every role |
| UserEntity.FromString | app/src/main/java/com/example/DangerBook/data/local/user/UserEntity.kt:33-35 | a role's own name parses to that role; any other string parses to USER |
| UserEntity.FromStringRoundTrip | app/src/main/java/com/example/DangerBook/data/local/user/UserEntity.kt:27-36 | the names "user", "barber" and "admin" each read back as their own role, so they are distinct |
| UserDao.LexLeTotal | app/src/main/java/com/example/DangerBook/data/local/user/UserDao.kt:34-35 | the name order compares every two names |
| UserDao.LexLeTransitive | app/src/main/java/com/example/DangerBook/data/local/user/UserDao.kt:34-35 | the name order is transitive |
| UserDao.FindByEmail | app/src/main/java/com/example/DangerBook/data/local/user/UserDao.kt:22-23 | none exactly when no user has that email; otherwise a stored user with it |
| UserDao.FindById | app/src/main/java/com/example/DangerBook/data/local/user/UserDao.kt:26-27 | none exactly when no user has that id; otherwise a stored user with it |
| UserDao.FindByEmailAppended | app/src/main/java/com/example/DangerBook/data/local/user/UserDao.kt:22-23 | a user appended with an email nobody else has is the one found for it |
| UserDao.WithPhoto | app/src/main/java/com/example/DangerBook/data/local/user/UserDao.kt:46-47 | the photo UPDATE sets photoUri on the matching id only; every other field and row is unchanged |
| UserDao.WithRowReplaced | app/src/main/java/com/example/DangerBook/data/local/user/UserDao.kt:18-19 | an update by primary key replaces the matching row and keeps every id |
| UserDao.UserTable.Insert | app/src/main/java/com/example/DangerBook/data/local/user/UserDao.kt:14-15 | id 0 gets the next generated id, which is returned, and one row is added; a taken explicit id aborts with nothing changed; emails are not checked |
| UserDao.UserTable.Update | app/src/main/java/com/example/DangerBook/data/local/user/UserDao.kt:18-19 | the table becomes the rows with the matching row replaced |
| UserDao.UserTable.GetByEmail | app/src/main/java/com/example/DangerBook/data/local/user/UserDao.kt:22-23 | a user with that email, or none exactly when nobody has it; with unique emails, that very user |
| UserDao.UserTable.GetById | app/src/main/java/com/example/DangerBook/data/local/user/UserDao.kt:26-27 | the user with that id, or none exactly when no user has it |
| UserDao.UserTable.GetAll | app/src/main/java/com/example/DangerBook/data/local/user/UserDao.kt:30-31 | every user, each as often as stored, by ascending id |
| UserDao.UserTable.GetUsersByRole | app/src/main/java/com/example/DangerBook/data/local/user/UserDao.kt:34-35 | exactly the users with that role, sorted by name |
| UserDao.UserTable.GetAllBarbers | app/src/main/java/com/example/DangerBook/data/local/user/UserDao.kt:38-39 | the same list as the users with role "barber" |
| UserDao.UserTable.Count | app/src/main/java/com/example/DangerBook/data/local/user/UserDao.kt:42-43 | the number of users in the table |
| UserDao.UserTable.UpdatePhoto | app/src/main/java/com/example/DangerBook/data/local/user/UserDao.kt:46-47 | the table becomes the rows with that user's photo replaced |
| UserRepository.LoginOver | app/src/main/java/com/example/DangerBook/data/repository/UserRepository.kt:13-20 | success returns a stored user with that email and password; failure is "invalid credentials"; with unique emails, success exactly when such a user exists |
| UserRepository.RegisteredUserCanLogIn | app/src/main/java/com/example/DangerBook/data/repository/UserRepository.kt:13-46 | appending a user with a new email keeps emails unique, and login with that email and password then returns that user |
| UserRepository.UserRepository.Login | app/src/main/java/com/example/DangerBook/data/repository/UserRepository.kt:13-20 | succeeds exactly when a user with that email is found and their password equals the one given, returning that user |
| UserRepository.UserRepository.Register | app/src/main/java/com/example/DangerBook/data/repository/UserRepository.kt:23-47 | a registered email fails and inserts nothing; otherwise exactly one user is inserted with the given fields, the role defaulting to "user", and the new id is returned; login then succeeds; unique emails are kept |
| UserRepository.UserRepository.GetUserById | app/src/main/java/com/example/DangerBook/data/repository/UserRepository.kt:49-52 | the table's lookup: none exactly when no user has that id, otherwise a stored user with it |
| UserRepository.UserRepository.GetAllBarbers | app/src/main/java/com/example/DangerBook/data/repository/UserRepository.kt:74-77 | the table's barber list: exactly the users with role "barber" |
| UserRepository.UserRepository.GetUsersByRole | app/src/main/java/com/example/DangerBook/data/repository/UserRepository.kt:79-82 | the table's answer: exactly the users with that role, sorted by name |
| UserRepository.UserRepository.UpdateUser | app/src/main/java/com/example/DangerBook/data/repository/UserRepository.kt:55-62 | replaces the row with the same id and reports success |
| UserRepository.UserRepository.UpdateUserPhoto | app/src/main/java/com/example/DangerBook/data/repository/UserRepository.kt:65-72 | changes only that user's photoUri and reports success |

## Left out

- Coroutines and Room flows. Each handler runs to completion in one step. The lists a Room flow keeps pushing are read once, when the view model loads them; later re-emissions are not modelled.
- Store failures. The `catch` blocks of `createAppointment`, `cancelAppointment`, `updateUser` and `updateUserPhoto`, and of the slot, list and booking loads in the view model, turn storage exceptions into failures. SQLite errors are not part of this model, so those paths are absent. The one constraint failure the model has, an insert with a taken explicit id, can never happen on the paths the repositories use, because they always insert with id 0.
- Concurrency. `createAppointment` counts conflicts and then inserts in two separate calls. Nothing makes that pair atomic, and the model claims no mutual exclusion.
- `Calendar`, time zones and daylight-saving changes. They are replaced by the day's base instant in milliseconds.
- Repeated clock reads. `System.currentTimeMillis()` is read more than once in the source; the model uses one fixed `now` per operation. The same instant fills createdAt/updatedAt when a row is built.
- AppointmentRepository.AppointmentRepository.GetAvailableTimeSlotsForDay: does not model 32-bit wrap-around of `durationMinutes * 60 * 1000`, which overflows a Kotlin `Int` for durations above 35791 minutes. The model computes with unbounded integers.
- Confirm, complete and barber listing in the view model. `confirmAppointment`, `completeAppointment` and `loadBarberAppointments` call `confirmAppointment`, `completeAppointment` and `getBarberAppointments` on the repository. None of these is defined in AppointmentRepository.kt, so the first two are not part of this model. `loadBarberAppointments` is modelled with the barber's list passed in. No transition guard is invented for confirm or complete; the table's updates are unconditional.
- Duration check. No code checks that durations are positive, and the model does not either.
- Query tie order. SQL leaves the order of rows with equal sort keys open. The model sorts stably, and its contracts promise only "exactly these rows, in this order".
- `getByEmail`. With `LIMIT 1` and no `ORDER BY`, the row returned when several share an email is unspecified. The model returns the first in table order, and its contract promises only "a user with that email".
- Status as a string. The status column is a free string in the source. The model restricts it to the four values the code writes.
- Foreign-key rules. The users, barbers and services tables are not part of this model, so the delete rules are modelled as functions over the appointment rows.
- User interface and glue. Compose screens, navigation, notifications (the repository's `context` is never used), DataStore session storage, camera files, the database builder and its seeding, the view-model factories, and the service and barber repositories are not part of this model.
