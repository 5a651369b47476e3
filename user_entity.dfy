/** The `users` table row and the role names. */
module UserEntity {
  import opened Wrappers

  /** One row. `id == 0` means the store has not assigned an id yet. New users
      are clients (`role == "user"`) without a profile photo unless told otherwise. */
  datatype User = User(
    id: int := 0,
    name: string,
    email: string,
    phone: string,
    password: string,
    role: string := "user",
    photoUri: Option<string> := None,
    createdAt: int)

  /** A row built with the entity's defaults at instant `now`. */
  function NewUser(name: string, email: string, phone: string, password: string, now: int): (u: User)
    ensures u.id == 0 && u.role == "user" && u.photoUri == None && u.createdAt == now
    ensures u.name == name && u.email == email && u.phone == phone && u.password == password
  {
    User(name := name, email := email, phone := phone, password := password, createdAt := now)
  }

  datatype UserRole = USER | BARBER | ADMIN {
    function Value(): (r: string) {
      match this
      case USER => "user"
      case BARBER => "barber"
      case ADMIN => "admin"
    }
  }

  /** The roles in declaration order, as `entries` lists them. */
  const Entries: seq<UserRole> := [USER, BARBER, ADMIN]

  lemma EveryRoleListed()
    ensures forall role: UserRole :: role in Entries
  {
    forall role: UserRole ensures role in Entries {
      match role {
        case USER => assert Entries[0] == role;
        case BARBER => assert Entries[1] == role;
        case ADMIN => assert Entries[2] == role;
      }
    }
  }

  /** `entries.find { it.value == value }`: the first role with that name. */
  function FindRole(entries: seq<UserRole>, value: string): (r: Option<UserRole>)
    ensures r.Some? ==> r.value in entries && r.value.Value() == value
    ensures r.None? ==> forall e :: e in entries ==> e.Value() != value
  {
    if entries == [] then None
    else if entries[0].Value() == value then Some(entries[0])
    else FindRole(entries[1..], value)
  }

  /** The role a stored name denotes; a name that is no role's reads as USER. */
  function FromString(value: string): (r: UserRole)
    ensures forall role: UserRole :: role.Value() == value ==> r == role
    ensures (forall role: UserRole :: role.Value() != value) ==> r == USER
  {
    EveryRoleListed();
    FindRole(Entries, value).GetOr(USER)
  }

  /** Each role reads back as itself, so the three names are distinct. */
  lemma FromStringRoundTrip(role: UserRole)
    ensures FromString(role.Value()) == role
  {
  }
}
