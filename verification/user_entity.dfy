/** The users table as the card ledger and the user registry see it:
    an id, a unique username, the encoded password and a set of roles. */
module UserEntity {
  import opened Wrappers

  type UserId = nat

  datatype Role = RoleUser | RoleAdmin

  /** The enum constant's name; Spring Security's `hasRole('X')` looks for the authority `ROLE_X`. */
  function RoleName(role: Role): (name: string)
    ensures |name| > 5 && name[..5] == "ROLE_"
  {
    match role
    case RoleUser => "ROLE_USER"
    case RoleAdmin => "ROLE_ADMIN"
  }

  datatype User = User(id: UserId, username: string, password: string, roles: set<Role>)

  /** Every key is the id of its row, and no two rows share a username. */
  predicate UserTable(users: map<UserId, User>) {
    && (forall id :: id in users ==> users[id].id == id)
    && (forall a, b :: a in users && b in users && users[a].username == users[b].username ==> a == b)
  }

  /** `existsByUsername`. */
  predicate UsernameTaken(users: map<UserId, User>, username: string) {
    exists id :: id in users && users[id].username == username
  }

  /** `findByUsername`: the one user with this username, if there is one. */
  function FindByUsername(users: map<UserId, User>, username: string): (r: Option<User>)
    requires UserTable(users)
    ensures r.None? <==> !UsernameTaken(users, username)
    ensures r.Some? ==> r.value.id in users && users[r.value.id] == r.value && r.value.username == username
  {
    if UsernameTaken(users, username) then
      var id :| id in users && users[id].username == username;
      Some(users[id])
    else
      None
  }
}
