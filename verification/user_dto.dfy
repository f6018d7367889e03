/** The user view: id, username and roles, without the password. */
module UserDto {
  import opened Wrappers
  import opened UserEntity

  datatype UserDTO = UserDTO(id: UserId, username: string, roles: set<Role>)

  /** The view of a stored user. */
  function View(user: User): (dto: UserDTO)
    ensures dto.id == user.id && dto.username == user.username && dto.roles == user.roles
  {
    UserDTO(user.id, user.username, user.roles)
  }

  /** `fromEntity`: null for null, the view of the user otherwise. */
  function FromEntity(user: Option<User>): (r: Option<UserDTO>)
    ensures r.None? <==> user.None?
    ensures user.Some? ==> r == Some(View(user.value))
  {
    match user
    case None => None
    case Some(u) => Some(View(u))
  }

  /** The view keeps everything but the password: two users have the same
      view exactly when they differ at most in their passwords. */
  lemma ViewForgetsOnlyPassword(u: User, w: User)
    ensures View(u) == View(w) <==> u.(password := w.password) == w
  {
  }
}
