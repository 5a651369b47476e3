/** The `appointments` table and the queries and updates of its data-access
    object. The table is a sequence of rows in insertion order plus the
    AUTOINCREMENT counter that hands out ids. */
module AppointmentDao {
  import opened Wrappers
  import opened AppointmentEntity
  import Seqs

  /** Inserting a row whose id is already taken aborts (OnConflictStrategy.ABORT). */
  datatype DbError = ConstraintViolation

  function DateAsc(a: Appointment, b: Appointment): (r: bool) { a.dateTime <= b.dateTime }
  function DateDesc(a: Appointment, b: Appointment): (r: bool) { a.dateTime >= b.dateTime }

  lemma DateOrders()
    ensures Seqs.Total(DateAsc) && Seqs.Transitive(DateAsc)
    ensures Seqs.Total(DateDesc) && Seqs.Transitive(DateDesc)
  {
  }

  /** The first row with this id, as `WHERE id = :id` returns it. */
  function FindById(rows: seq<Appointment>, id: int): (r: Option<Appointment>)
    ensures r.Some? <==> exists i :: 0 <= i < |rows| && rows[i].id == id
    ensures r.Some? ==> r.value in rows && r.value.id == id
  {
    if rows == [] then None
    else if rows[0].id == id then Some(rows[0])
    else FindById(rows[1..], id)
  }

  /** Ids are unique in the table. */
  ghost predicate DistinctIds(rows: seq<Appointment>) {
    forall i, j :: 0 <= i < j < |rows| ==> rows[i].id != rows[j].id
  }

  /** With unique ids, the row found for an id is the row at any index holding that id. */
  lemma {:induction false} FindByIdUnique(rows: seq<Appointment>, id: int, k: int)
    requires DistinctIds(rows)
    requires 0 <= k < |rows| && rows[k].id == id
    ensures FindById(rows, id) == Some(rows[k])
  {
    if k > 0 {
      assert rows[0].id != id;
      FindByIdUnique(rows[1..], id, k - 1);
    }
  }

  /** `UPDATE appointments SET status = st, updatedAt = ts WHERE id = id` applied to
      the rows: the matching row gets the new status and timestamp, whatever its
      old status; every other row and every other column is unchanged. */
  function WithStatus(rows: seq<Appointment>, id: int, st: Status, ts: int): (r: seq<Appointment>)
    ensures |r| == |rows|
    ensures forall i :: 0 <= i < |r| ==> r[i].id == rows[i].id
    ensures forall i :: 0 <= i < |r| && rows[i].id == id ==>
      r[i].status == st && r[i].updatedAt == ts &&
      r[i].(status := rows[i].status, updatedAt := rows[i].updatedAt) == rows[i]
    ensures forall i :: 0 <= i < |r| && rows[i].id != id ==> r[i] == rows[i]
  {
    seq(|rows|, i requires 0 <= i < |rows| =>
      if rows[i].id == id then rows[i].(status := st, updatedAt := ts) else rows[i])
  }

  /** `@Update`: the row with the same primary key is replaced by `a`; no row
      matches, nothing changes. */
  function WithRowReplaced(rows: seq<Appointment>, a: Appointment): (r: seq<Appointment>)
    ensures |r| == |rows|
    ensures forall i :: 0 <= i < |r| ==> r[i].id == rows[i].id
    ensures forall i :: 0 <= i < |r| ==> r[i] == if rows[i].id == a.id then a else rows[i]
  {
    seq(|rows|, i requires 0 <= i < |rows| => if rows[i].id == a.id then a else rows[i])
  }

  predicate ConflictsAt(a: Appointment, barberId: int, dateTime: int) {
    a.barberId == Some(barberId) && a.dateTime == dateTime && IsActive(a.status)
  }

  /** The positions of the rows that `countConflictingAppointments` counts. */
  ghost function ConflictIndices(rows: seq<Appointment>, barberId: int, dateTime: int): set<int> {
    set i | 0 <= i < |rows| && ConflictsAt(rows[i], barberId, dateTime)
  }

  /** A filter that tests `ConflictsAt` selects the positions of `ConflictIndices`. */
  lemma ConflictIndicesOf(rows: seq<Appointment>, p: Appointment -> bool, barberId: int, dateTime: int)
    requires forall a :: p(a) == ConflictsAt(a, barberId, dateTime)
    ensures Seqs.IndicesWhere(rows, p) == ConflictIndices(rows, barberId, dateTime)
  {
  }

  predicate InBarberDay(a: Appointment, barberId: int, startOfDay: int, endOfDay: int) {
    a.barberId == Some(barberId) && startOfDay <= a.dateTime < endOfDay && IsActive(a.status)
  }

  class AppointmentTable {
    var rows: seq<Appointment>
    /** The next id AUTOINCREMENT hands out: above every id ever stored. */
    var nextId: int

    ghost predicate Valid()
      reads this
    {
      && nextId >= 1
      && (forall i :: 0 <= i < |rows| ==> rows[i].id != 0 && rows[i].id < nextId)
      && DistinctIds(rows)
    }

    constructor ()
      ensures Valid() && rows == [] && nextId == 1
    {
      rows := [];
      nextId := 1;
    }

    predicate HasId(id: int)
      reads this
    {
      exists i :: 0 <= i < |rows| && rows[i].id == id
    }

    /** `@Insert(onConflict = ABORT)`: an id of 0 is generated by the store;
        an explicit id is kept unless it is taken, in which case the insert aborts. */
    method Insert(a: Appointment) returns (r: Result<int, DbError>)
      requires Valid()
      modifies this
      ensures Valid()
      ensures a.id == 0 ==>
        r == Success(old(nextId)) && rows == old(rows) + [a.(id := old(nextId))] && nextId == old(nextId) + 1
      ensures a.id != 0 && old(HasId(a.id)) ==>
        r == Failure(ConstraintViolation) && rows == old(rows) && nextId == old(nextId)
      ensures a.id != 0 && !old(HasId(a.id)) ==>
        r == Success(a.id) && rows == old(rows) + [a] &&
        nextId == if a.id >= old(nextId) then a.id + 1 else old(nextId)
    {
      if a.id == 0 {
        r := Success(nextId);
        rows := rows + [a.(id := nextId)];
        nextId := nextId + 1;
      } else if HasId(a.id) {
        r := Failure(ConstraintViolation);
      } else {
        r := Success(a.id);
        rows := rows + [a];
        if a.id >= nextId {
          nextId := a.id + 1;
        }
      }
    }

    method Update(a: Appointment)
      requires Valid()
      modifies this
      ensures Valid() && nextId == old(nextId)
      ensures rows == WithRowReplaced(old(rows), a)
    {
      rows := WithRowReplaced(rows, a);
    }

    /** `WHERE id = :appointmentId`. */
    function GetById(id: int): (r: Option<Appointment>)
      reads this
      requires Valid()
      ensures r.Some? <==> HasId(id)
      ensures forall i :: 0 <= i < |rows| && rows[i].id == id ==> r == Some(rows[i])
    {
      var r := FindById(rows, id);
      assert forall i :: 0 <= i < |rows| && rows[i].id == id ==> r == Some(rows[i]) by {
        forall i | 0 <= i < |rows| && rows[i].id == id { FindByIdUnique(rows, id, i); }
      }
      r
    }

    /** `WHERE userId = :userId ORDER BY dateTime DESC`. */
    function GetByUserId(userId: int): (r: seq<Appointment>)
      reads this
      ensures forall a :: multiset(r)[a] == if a.userId == userId then multiset(rows)[a] else 0
      ensures forall i, j :: 0 <= i < j < |r| ==> r[i].dateTime >= r[j].dateTime
    {
      DateOrders();
      Seqs.Query(rows, (a: Appointment) => a.userId == userId, DateDesc)
    }

    /** `WHERE userId = :userId AND status IN ('pending', 'confirmed') ORDER BY dateTime ASC`. */
    function GetUpcomingByUserId(userId: int): (r: seq<Appointment>)
      reads this
      ensures forall a ::
                multiset(r)[a] == if a.userId == userId && IsActive(a.status) then multiset(rows)[a] else 0
      ensures forall i, j :: 0 <= i < j < |r| ==> r[i].dateTime <= r[j].dateTime
    {
      DateOrders();
      Seqs.Query(rows, (a: Appointment) => a.userId == userId && IsActive(a.status), DateAsc)
    }

    /** `SELECT COUNT(*) ... WHERE barberId = :b AND dateTime = :t AND status IN ('pending', 'confirmed')`:
        an exact-timestamp test, not an interval overlap. */
    function CountConflictingAppointments(barberId: int, dateTime: int): (r: nat)
      reads this
      ensures r == |ConflictIndices(rows, barberId, dateTime)|
      ensures r <= |rows|
      ensures r == 0 <==> forall a :: a in rows ==> !ConflictsAt(a, barberId, dateTime)
    {
      var p := (a: Appointment) => ConflictsAt(a, barberId, dateTime);
      var f := Seqs.Filter(rows, p);
      Seqs.FilterCountsIndices(rows, p);
      ConflictIndicesOf(rows, p, barberId, dateTime);
      assert f != [] ==> f[0] in f;
      |f|
    }

    /** `WHERE barberId = :b AND dateTime >= :start AND dateTime < :end
        AND status IN ('pending', 'confirmed') ORDER BY dateTime ASC`. */
    function GetBarberAppointmentsForDay(barberId: int, startOfDay: int, endOfDay: int): (r: seq<Appointment>)
      reads this
      ensures forall a :: a in r <==> a in rows && InBarberDay(a, barberId, startOfDay, endOfDay)
      ensures forall a ::
                multiset(r)[a] == if InBarberDay(a, barberId, startOfDay, endOfDay) then multiset(rows)[a] else 0
      ensures forall i, j :: 0 <= i < j < |r| ==> r[i].dateTime <= r[j].dateTime
    {
      DateOrders();
      Seqs.Query(rows, (a: Appointment) => InBarberDay(a, barberId, startOfDay, endOfDay), DateAsc)
    }

    /** `UPDATE appointments SET status = 'cancelled', updatedAt = :timestamp WHERE id = :id`. */
    method CancelAppointment(id: int, timestamp: int)
      requires Valid()
      modifies this
      ensures Valid() && nextId == old(nextId)
      ensures rows == WithStatus(old(rows), id, Cancelled, timestamp)
    {
      rows := WithStatus(rows, id, Cancelled, timestamp);
    }

    /** `UPDATE appointments SET status = 'confirmed', ...`: no guard on the old status. */
    method ConfirmAppointment(id: int, timestamp: int)
      requires Valid()
      modifies this
      ensures Valid() && nextId == old(nextId)
      ensures rows == WithStatus(old(rows), id, Confirmed, timestamp)
    {
      rows := WithStatus(rows, id, Confirmed, timestamp);
    }

    /** `UPDATE appointments SET status = 'completed', ...`: no guard on the old status. */
    method CompleteAppointment(id: int, timestamp: int)
      requires Valid()
      modifies this
      ensures Valid() && nextId == old(nextId)
      ensures rows == WithStatus(old(rows), id, Completed, timestamp)
    {
      rows := WithStatus(rows, id, Completed, timestamp);
    }

    /** `WHERE barberId = :barberId ORDER BY dateTime DESC`. */
    function GetByBarberId(barberId: int): (r: seq<Appointment>)
      reads this
      ensures forall a :: multiset(r)[a] == if a.barberId == Some(barberId) then multiset(rows)[a] else 0
      ensures forall i, j :: 0 <= i < j < |r| ==> r[i].dateTime >= r[j].dateTime
    {
      DateOrders();
      Seqs.Query(rows, (a: Appointment) => a.barberId == Some(barberId), DateDesc)
    }

    /** `SELECT COUNT(*) FROM appointments`. */
    function Count(): (r: nat)
      reads this
      ensures r == |rows|
    {
      |rows|
    }
  }
}
