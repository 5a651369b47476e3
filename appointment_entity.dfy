/** The `appointments` table row, its status domain and the effect of the
    table's foreign-key deletion rules on the rows. */
module AppointmentEntity {
  import opened Wrappers
  import Seqs

  /** The four values the `status` column takes. */
  datatype Status = Pending | Confirmed | Completed | Cancelled {
    /** The string the row stores for this status. */
    function Name(): (r: string) {
      match this
      case Pending => "pending"
      case Confirmed => "confirmed"
      case Completed => "completed"
      case Cancelled => "cancelled"
    }
  }

  /** The stored string of a status names exactly that status. */
  function ParseStatus(name: string): (r: Option<Status>)
    ensures forall st: Status :: r == Some(st) <==> st.Name() == name
  {
    if name == "pending" then Some(Pending)
    else if name == "confirmed" then Some(Confirmed)
    else if name == "completed" then Some(Completed)
    else if name == "cancelled" then Some(Cancelled)
    else None
  }

  /** Pending and confirmed appointments occupy the barber's calendar. */
  predicate IsActive(st: Status) {
    st == Pending || st == Confirmed
  }

  /** One row. `id == 0` means the store has not assigned an id yet;
      `barberId == None` means "any barber". */
  datatype Appointment = Appointment(
    id: int := 0,
    userId: int,
    barberId: Option<int>,
    serviceId: int,
    dateTime: int,
    durationMinutes: int,
    status: Status,
    notes: Option<string> := None,
    createdAt: int,
    updatedAt: int)

  /** A row built the way the entity's defaults build it at instant `now`. */
  function NewAppointment(userId: int, barberId: Option<int>, serviceId: int, dateTime: int,
                          durationMinutes: int, status: Status, notes: Option<string>, now: int): (a: Appointment)
    ensures a.id == 0 && a.createdAt == now && a.updatedAt == now
    ensures a.userId == userId && a.barberId == barberId && a.serviceId == serviceId
    ensures a.dateTime == dateTime && a.durationMinutes == durationMinutes
    ensures a.status == status && a.notes == notes
  {
    Appointment(userId := userId, barberId := barberId, serviceId := serviceId, dateTime := dateTime,
                durationMinutes := durationMinutes, status := status, notes := notes,
                createdAt := now, updatedAt := now)
  }

  /** ON DELETE CASCADE on userId: deleting a user deletes their appointments. */
  function AfterUserDeleted(rows: seq<Appointment>, userId: int): (r: seq<Appointment>)
    ensures forall a :: a in r <==> a in rows && a.userId != userId
    ensures forall a :: multiset(r)[a] == if a.userId != userId then multiset(rows)[a] else 0
  {
    Seqs.Filter(rows, (a: Appointment) => a.userId != userId)
  }

  /** ON DELETE CASCADE on serviceId: deleting a service deletes its appointments. */
  function AfterServiceDeleted(rows: seq<Appointment>, serviceId: int): (r: seq<Appointment>)
    ensures forall a :: a in r <==> a in rows && a.serviceId != serviceId
    ensures forall a :: multiset(r)[a] == if a.serviceId != serviceId then multiset(rows)[a] else 0
  {
    Seqs.Filter(rows, (a: Appointment) => a.serviceId != serviceId)
  }

  /** ON DELETE SET NULL on barberId: deleting a barber keeps the appointments
      but forgets which barber they were with. */
  function AfterBarberDeleted(rows: seq<Appointment>, barberId: int): (r: seq<Appointment>)
    ensures |r| == |rows|
    ensures forall a :: a in r ==> a.barberId != Some(barberId)
    ensures forall i :: 0 <= i < |r| && rows[i].barberId == Some(barberId) ==> r[i].barberId == None
    ensures forall i :: 0 <= i < |r| ==> r[i].(barberId := rows[i].barberId) == rows[i]
    ensures forall i :: 0 <= i < |r| && rows[i].barberId != Some(barberId) ==> r[i] == rows[i]
  {
    seq(|rows|, i requires 0 <= i < |rows| =>
      if rows[i].barberId == Some(barberId) then rows[i].(barberId := None) else rows[i])
  }
}
