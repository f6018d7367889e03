/** The user registry: registration with a unique username and a single
    role, role replacement, deletion and the read-only queries. */
module UserService {
  import opened Wrappers
  import opened UserEntity
  import opened UserDto
  import opened Collections

  datatype UserError =
    | UsernameExists   // "Username already exists"
    | UserNotFound     // "User not found"
    | UsersNotFound    // "Users not found", the message of getCurrentUsers

  /** `getAllUsers`: one view per stored user and nothing else. */
  function AllUsers(users: map<UserId, User>): (r: set<UserDTO>)
    requires UserTable(users)
    ensures |r| == |users|
    ensures forall id :: id in users ==> View(users[id]) in r
    ensures forall d :: d in r ==> d.id in users && d == View(users[d.id])
  {
    assert InjectiveOn(users, users.Keys, View);
    MapImageSize(users, users.Keys, View);
    MapImage(users, users.Keys, View)
  }

  /** `getCurrentUsers`: the user with this id; rendering it with `toString`
      is not part of this model. */
  function CurrentUser(users: map<UserId, User>, id: UserId): (r: Result<User, UserError>)
    requires UserTable(users)
    ensures r.Ok? <==> id in users
    ensures r.Ok? ==> r.value.id == id && r.value == users[id]
    ensures r.Err? ==> r.error == UsersNotFound
  {
    if id in users then Ok(users[id]) else Err(UsersNotFound)
  }

  class UserRegistry {
    var users: map<UserId, User>
    /** The next id the users table's identity column hands out. */
    var nextId: UserId
    /** The password encoder, a one-way function this model does not look into. */
    const encode: string -> string

    /** Ids are generated, usernames unique, and every user holds exactly one role. */
    ghost predicate Valid()
      reads this
    {
      && UserTable(users)
      && (forall id :: id in users ==> id < nextId)
      && (forall id :: id in users ==> |users[id].roles| == 1)
    }

    constructor (encode: string -> string)
      ensures Valid() && users == map[] && this.encode == encode
    {
      users := map[];
      nextId := 1;
      this.encode := encode;
    }

    /** `registerUser`: a taken username is refused and nothing is stored;
        otherwise a user with a new id, the encoded password and the given
        role (`ROLE_USER` when none) is stored and its view returned. */
    method RegisterUser(username: string, password: string, role: Option<Role>) returns (r: Result<UserDTO, UserError>)
      requires Valid()
      modifies this
      ensures Valid()
      ensures UsernameTaken(old(users), username) ==>
        r == Err(UsernameExists) && users == old(users) && nextId == old(nextId)
      ensures !UsernameTaken(old(users), username) ==>
        var user := User(old(nextId), username, encode(password), {role.GetOr(RoleUser)});
        && old(nextId) !in old(users)
        && users == old(users)[user.id := user]
        && r == Ok(View(user))
    {
      if UsernameTaken(users, username) {
        return Err(UsernameExists);
      }
      var roles := if role.Some? then {role.value} else {RoleUser};
      var user := User(nextId, username, encode(password), roles);
      users := users[user.id := user];
      nextId := nextId + 1;
      r := Ok(View(user));
    }

    /** `changeUserRole`: the user's role set is cleared and the new role
        added, so it becomes exactly that role; an unknown id changes nothing. */
    method ChangeUserRole(id: UserId, newRole: Role) returns (r: Result<UserDTO, UserError>)
      requires Valid()
      modifies this
      ensures Valid() && nextId == old(nextId)
      ensures id !in old(users) ==> r == Err(UserNotFound) && users == old(users)
      ensures id in old(users) ==>
        var user := old(users)[id].(roles := {newRole});
        users == old(users)[id := user] && r == Ok(View(user))
    {
      if id !in users {
        return Err(UserNotFound);
      }
      // `getRoles().clear()` followed by `add(newRole)`
      var user := users[id].(roles := {newRole});
      users := users[id := user];
      r := Ok(View(user));
    }

    /** `deleteUser`: removes exactly that user; an unknown id changes nothing. */
    method DeleteUser(id: UserId) returns (r: Result<(), UserError>)
      requires Valid()
      modifies this
      ensures Valid() && nextId == old(nextId)
      ensures id !in old(users) ==> r == Err(UserNotFound) && users == old(users)
      ensures id in old(users) ==> r.Ok? && users == old(users) - {id}
    {
      if id !in users {
        return Err(UserNotFound);
      }
      users := users - {id};
      r := Ok(());
    }
  }
}
