/** Login and registration over the users table. */
module UserRepository {
  import opened Wrappers
  import opened UserEntity
  import opened UserDao

  datatype UserError = InvalidCredentials | EmailTaken {
    function Message(): (r: string) {
      match this
      case InvalidCredentials => "Credenciales Inválidas"
      case EmailTaken => "Correo ya registrado"
    }
  }

  /** Looks the email up and compares the stored password. */
  function LoginOver(rows: seq<User>, email: string, password: string): (r: Result<User, UserError>)
    ensures r.Success? ==> r.value in rows && r.value.email == email && r.value.password == password
    ensures r.Failure? ==> r.error == InvalidCredentials
    ensures EmailsUnique(rows) ==>
      (r.Success? <==> exists u :: u in rows && u.email == email && u.password == password)
  {
    var user := FindByEmail(rows, email);
    if user.Some? && user.value.password == password then Success(user.value)
    else Failure(InvalidCredentials)
  }

  /** Appending a user whose email is new keeps emails unique and lets that
      user log in with their password. */
  lemma RegisteredUserCanLogIn(rows: seq<User>, u: User)
    requires forall x :: x in rows ==> x.email != u.email
    ensures EmailsUnique(rows) ==> EmailsUnique(rows + [u])
    ensures LoginOver(rows + [u], u.email, u.password) == Success(u)
  {
    FindByEmailAppended(rows, u);
    if EmailsUnique(rows) {
      forall i, j | 0 <= i < j < |rows + [u]| ensures (rows + [u])[i].email != (rows + [u])[j].email {
        if j == |rows| {
          assert (rows + [u])[i] in rows;
        }
      }
    }
  }

  class UserRepository {
    const dao: UserTable

    constructor (dao: UserTable)
      ensures this.dao == dao
    {
      this.dao := dao;
    }

    /** Succeeds with the user exactly when a user with that email exists and
        their password is the one given. */
    function Login(email: string, password: string): (r: Result<User, UserError>)
      reads this, dao
      ensures r.Success? <==> dao.GetByEmail(email).Some? && dao.GetByEmail(email).value.password == password
      ensures r.Success? ==> r.value == dao.GetByEmail(email).value
      ensures r.Failure? ==> r.error == InvalidCredentials
    {
      LoginOver(dao.rows, email, password)
    }

    /** Fails, inserting nothing, when the email is already registered; otherwise
        inserts one user with the given fields (a client without photo unless
        told otherwise), returns its id, and that user can then log in. */
    method Register(name: string, email: string, phone: string, pass: string, now: int,
                    role: string := "user", photoUri: Option<string> := None)
      returns (r: Result<int, UserError>)
      requires dao.Valid()
      modifies dao
      ensures dao.Valid()
      ensures old(dao.GetByEmail(email)).Some? ==> r == Failure(EmailTaken) && unchanged(dao)
      ensures old(dao.GetByEmail(email)).None? ==>
        && r == Success(old(dao.nextId))
        && dao.rows == old(dao.rows) +
             [User(id := old(dao.nextId), name := name, email := email, phone := phone, password := pass,
                   role := role, photoUri := photoUri, createdAt := now)]
        && dao.nextId == old(dao.nextId) + 1
      ensures r.Success? ==> Login(email, pass).Success?
      ensures EmailsUnique(old(dao.rows)) ==> EmailsUnique(dao.rows)
    {
      var alreadyRegistered := dao.GetByEmail(email) != None;
      if alreadyRegistered {
        return Failure(EmailTaken);
      }
      var user := User(name := name, email := email, phone := phone, password := pass,
                       role := role, photoUri := photoUri, createdAt := now);
      ghost var before := dao.rows;
      var inserted := dao.Insert(user);
      RegisteredUserCanLogIn(before, user.(id := inserted.value));
      r := Success(inserted.value);
    }

    /** The user with that id, or none when there is no such user. */
    function GetUserById(userId: int): (r: Option<User>)
      reads this, dao
      ensures r == dao.GetById(userId)
      ensures r.None? <==> forall u :: u in dao.rows ==> u.id != userId
      ensures r.Some? ==> r.value in dao.rows && r.value.id == userId
    {
      dao.GetById(userId)
    }

    method UpdateUser(user: User) returns (r: Result<(), UserError>)
      requires dao.Valid()
      modifies dao
      ensures dao.Valid() && r == Success(())
      ensures dao.rows == WithRowReplaced(old(dao.rows), user) && dao.nextId == old(dao.nextId)
    {
      dao.Update(user);
      r := Success(());
    }

    /** Changes only that user's photo. */
    method UpdateUserPhoto(userId: int, photoUri: Option<string>) returns (r: Result<(), UserError>)
      requires dao.Valid()
      modifies dao
      ensures dao.Valid() && r == Success(())
      ensures dao.rows == WithPhoto(old(dao.rows), userId, photoUri) && dao.nextId == old(dao.nextId)
    {
      dao.UpdatePhoto(userId, photoUri);
      r := Success(());
    }

    /** The barbers, sorted by name. */
    function GetAllBarbers(): (r: seq<User>)
      reads this, dao
      ensures r == dao.GetUsersByRole("barber")
      ensures forall u :: multiset(r)[u] == if u.role == "barber" then multiset(dao.rows)[u] else 0
    {
      dao.GetAllBarbers()
    }

    /** The users with that role, sorted by name. */
    function GetUsersByRole(role: string): (r: seq<User>)
      reads this, dao
      ensures r == dao.GetUsersByRole(role)
      ensures forall u :: multiset(r)[u] == if u.role == role then multiset(dao.rows)[u] else 0
      ensures forall i, j :: 0 <= i < j < |r| ==> LexLe(r[i].name, r[j].name)
    {
      dao.GetUsersByRole(role)
    }
  }
}
