/** The `users` table and the queries and updates of its data-access object.
    The table has no uniqueness constraint on `email`. */
module UserDao {
  import opened Wrappers
  import opened UserEntity
  import Seqs

  /** Inserting a row whose id is already taken aborts (OnConflictStrategy.ABORT). */
  datatype DbError = ConstraintViolation

  /** The order of `ORDER BY name`: code point by code point, a prefix first
      (SQLite's BINARY collation on UTF-8 orders strings by code point). */
  predicate LexLe(a: string, b: string) {
    |a| == 0 || (|b| != 0 && (a[0] < b[0] || (a[0] == b[0] && LexLe(a[1..], b[1..]))))
  }

  lemma {:induction false} LexLeTotal(a: string, b: string)
    ensures LexLe(a, b) || LexLe(b, a)
  {
    if |a| != 0 && |b| != 0 && a[0] == b[0] {
      LexLeTotal(a[1..], b[1..]);
    }
  }

  lemma {:induction false} LexLeTransitive(a: string, b: string, c: string)
    requires LexLe(a, b) && LexLe(b, c)
    ensures LexLe(a, c)
  {
    if |a| != 0 && a[0] == b[0] && b[0] == c[0] {
      LexLeTransitive(a[1..], b[1..], c[1..]);
    }
  }

  function NameAsc(u: User, v: User): (r: bool) { LexLe(u.name, v.name) }
  function IdAsc(u: User, v: User): (r: bool) { u.id <= v.id }

  lemma UserOrders()
    ensures Seqs.Total(NameAsc) && Seqs.Transitive(NameAsc)
    ensures Seqs.Total(IdAsc) && Seqs.Transitive(IdAsc)
  {
    forall u: User, v: User ensures NameAsc(u, v) || NameAsc(v, u) {
      LexLeTotal(u.name, v.name);
    }
    forall u: User, v: User, w: User | NameAsc(u, v) && NameAsc(v, w) ensures NameAsc(u, w) {
      LexLeTransitive(u.name, v.name, w.name);
    }
  }

  /** A row with this email, if there is one (`LIMIT 1` without `ORDER BY`
      picks one; the model picks the first in table order). */
  function FindByEmail(rows: seq<User>, email: string): (r: Option<User>)
    ensures r.None? <==> forall u :: u in rows ==> u.email != email
    ensures r.Some? ==> r.value in rows && r.value.email == email
  {
    if rows == [] then None
    else if rows[0].email == email then Some(rows[0])
    else FindByEmail(rows[1..], email)
  }

  /** The first row with this id. */
  function FindById(rows: seq<User>, id: int): (r: Option<User>)
    ensures r.None? <==> forall u :: u in rows ==> u.id != id
    ensures r.Some? ==> r.value in rows && r.value.id == id
  {
    if rows == [] then None
    else if rows[0].id == id then Some(rows[0])
    else FindById(rows[1..], id)
  }

  /** A user appended with a new email is the one found for that email. */
  lemma {:induction false} FindByEmailAppended(rows: seq<User>, u: User)
    requires forall x :: x in rows ==> x.email != u.email
    ensures FindByEmail(rows + [u], u.email) == Some(u)
  {
    if rows != [] {
      assert (rows + [u])[1..] == rows[1..] + [u];
      FindByEmailAppended(rows[1..], u);
    }
  }

  ghost predicate DistinctIds(rows: seq<User>) {
    forall i, j :: 0 <= i < j < |rows| ==> rows[i].id != rows[j].id
  }

  /** No two users share an email. The table does not enforce it; registration keeps it. */
  ghost predicate EmailsUnique(rows: seq<User>) {
    forall i, j :: 0 <= i < j < |rows| ==> rows[i].email != rows[j].email
  }

  /** `UPDATE users SET photoUri = :photoUri WHERE id = :userId`: the matching row
      gets the new photo; every other column and every other row is unchanged. */
  function WithPhoto(rows: seq<User>, userId: int, photoUri: Option<string>): (r: seq<User>)
    ensures |r| == |rows|
    ensures forall i :: 0 <= i < |r| && rows[i].id == userId ==>
      r[i].photoUri == photoUri && r[i].(photoUri := rows[i].photoUri) == rows[i]
    ensures forall i :: 0 <= i < |r| && rows[i].id != userId ==> r[i] == rows[i]
  {
    seq(|rows|, i requires 0 <= i < |rows| => if rows[i].id == userId then rows[i].(photoUri := photoUri) else rows[i])
  }

  /** `@Update`: the row with the same primary key is replaced; none matches, nothing changes. */
  function WithRowReplaced(rows: seq<User>, u: User): (r: seq<User>)
    ensures |r| == |rows|
    ensures forall i :: 0 <= i < |r| ==> r[i].id == rows[i].id
    ensures forall i :: 0 <= i < |r| ==> r[i] == if rows[i].id == u.id then u else rows[i]
  {
    seq(|rows|, i requires 0 <= i < |rows| => if rows[i].id == u.id then u else rows[i])
  }

  class UserTable {
    var rows: seq<User>
    /** The next id AUTOINCREMENT hands out: above every id ever stored. */
    var nextId: int

    ghost predicate Valid()
      reads this
    {
      && nextId >= 1
      && (forall i :: 0 <= i < |rows| ==> rows[i].id != 0 && rows[i].id < nextId)
      && DistinctIds(rows)
    }

    constructor ()
      ensures Valid() && rows == [] && nextId == 1
    {
      rows := [];
      nextId := 1;
    }

    predicate HasId(id: int)
      reads this
    {
      exists i :: 0 <= i < |rows| && rows[i].id == id
    }

    /** `@Insert(onConflict = ABORT)`: an id of 0 is generated by the store; an
        explicit id is kept unless it is taken, in which case the insert aborts.
        Emails are not checked. */
    method Insert(u: User) returns (r: Result<int, DbError>)
      requires Valid()
      modifies this
      ensures Valid()
      ensures u.id == 0 ==>
        r == Success(old(nextId)) && rows == old(rows) + [u.(id := old(nextId))] && nextId == old(nextId) + 1
      ensures u.id != 0 && old(HasId(u.id)) ==>
        r == Failure(ConstraintViolation) && rows == old(rows) && nextId == old(nextId)
      ensures u.id != 0 && !old(HasId(u.id)) ==>
        r == Success(u.id) && rows == old(rows) + [u] &&
        nextId == if u.id >= old(nextId) then u.id + 1 else old(nextId)
    {
      if u.id == 0 {
        r := Success(nextId);
        rows := rows + [u.(id := nextId)];
        nextId := nextId + 1;
      } else if HasId(u.id) {
        r := Failure(ConstraintViolation);
      } else {
        r := Success(u.id);
        rows := rows + [u];
        if u.id >= nextId {
          nextId := u.id + 1;
        }
      }
    }

    method Update(u: User)
      requires Valid()
      modifies this
      ensures Valid() && nextId == old(nextId)
      ensures rows == WithRowReplaced(old(rows), u)
    {
      rows := WithRowReplaced(rows, u);
    }

    /** `WHERE email = :email LIMIT 1`. */
    function GetByEmail(email: string): (r: Option<User>)
      reads this
      ensures r.None? <==> forall u :: u in rows ==> u.email != email
      ensures r.Some? ==> r.value in rows && r.value.email == email
      ensures EmailsUnique(rows) ==> forall u :: u in rows && u.email == email ==> r == Some(u)
    {
      FindByEmail(rows, email)
    }

    /** `WHERE id = :userId LIMIT 1`. */
    function GetById(id: int): (r: Option<User>)
      reads this
      ensures r.None? <==> forall u :: u in rows ==> u.id != id
      ensures r.Some? ==> r.value in rows && r.value.id == id
      ensures DistinctIds(rows) ==> forall u :: u in rows && u.id == id ==> r == Some(u)
    {
      FindById(rows, id)
    }

    /** `SELECT * FROM users ORDER BY id ASC`: every row, by ascending id. */
    function GetAll(): (r: seq<User>)
      reads this
      ensures multiset(r) == multiset(rows)
      ensures forall i, j :: 0 <= i < j < |r| ==> r[i].id <= r[j].id
    {
      UserOrders();
      Seqs.Query(rows, (u: User) => true, IdAsc)
    }

    /** `WHERE role = :role ORDER BY name ASC`: exactly the users with that role, by name. */
    function GetUsersByRole(role: string): (r: seq<User>)
      reads this
      ensures forall u :: multiset(r)[u] == if u.role == role then multiset(rows)[u] else 0
      ensures forall i, j :: 0 <= i < j < |r| ==> LexLe(r[i].name, r[j].name)
    {
      UserOrders();
      Seqs.Query(rows, (u: User) => u.role == role, NameAsc)
    }

    /** `WHERE role = 'barber' ORDER BY name ASC`. */
    function GetAllBarbers(): (r: seq<User>)
      reads this
      ensures r == GetUsersByRole("barber")
    {
      UserOrders();
      Seqs.Query(rows, (u: User) => u.role == "barber", NameAsc)
    }

    /** `SELECT COUNT(*) FROM users`. */
    function Count(): (r: nat)
      reads this
      ensures r == |rows|
    {
      |rows|
    }

    /** Sets the photo of the user with that id; nothing else changes. */
    method UpdatePhoto(userId: int, photoUri: Option<string>)
      requires Valid()
      modifies this
      ensures Valid() && nextId == old(nextId)
      ensures rows == WithPhoto(old(rows), userId, photoUri)
    {
      rows := WithPhoto(rows, userId, photoUri);
    }
  }
}
