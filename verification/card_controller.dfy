/** The card endpoints: which role each one requires, what it hands to the
    card service, and that a create request is validated first. */
module CardController {
  import opened Wrappers
  import opened UserEntity
  import opened CardEntity
  import opened CardDto
  import opened CardService

  /** A request to one of the card endpoints, with its path and body values. */
  datatype Request =
    | GetUserCards(userId: UserId)                              // GET /userCards/{userId}
    | GetMyCards                                                // GET /userCards/me
    | AddCard(body: CardDTO)                                    // POST /add
    | GetCard(id: CardId)                                       // GET get/{id}
    | DeleteReq(id: CardId)                                     // DELETE delete/{id}
    | BlockQuery(id: CardId)                                    // POST blockQuery/{id}
    | Block(id: CardId)                                         // POST block/{id}
    | Activate(id: CardId)                                      // POST activate/{id}
    | TransferReq(fromCardId: CardId, toCardId: CardId, amount: int) // POST /transfer
    | Balance(cardId: CardId)                                   // GET /balance/{cardId}

  /** The authenticated caller: its name and its granted authorities. */
  datatype Principal = Principal(name: string, authorities: set<string>)

  /** The card-service call an endpoint makes; the caller's name travels
      only where the service asks for it. */
  datatype ServiceCall =
    | GetAllUserCards(userId: UserId)
    | GetAllMyCards(caller: string)
    | CallCreate(dto: CardDTO)
    | GetCardDTO(id: CardId)
    | RemoveCard(id: CardId)
    | BlocQueryCard(id: CardId, caller: string)
    | CallBlock(id: CardId)
    | CallActivate(id: CardId)
    | TransferBetween(fromCardId: CardId, toCardId: CardId, amount: int)
    | CheckBalanceOf(cardId: CardId, caller: string)

  datatype Rejection =
    | AccessDenied                             // @PreAuthorize refuses the caller
    | InvalidBody(violations: set<Violation>)  // @Valid refuses the request body

  /** The role in each endpoint's `@PreAuthorize("hasRole(...)")`. */
  function RequiredRole(req: Request): Role {
    match req
    case GetUserCards(_) => RoleAdmin
    case GetMyCards => RoleUser
    case AddCard(_) => RoleAdmin
    case GetCard(_) => RoleAdmin
    case DeleteReq(_) => RoleAdmin
    case BlockQuery(_) => RoleUser
    case Block(_) => RoleAdmin
    case Activate(_) => RoleAdmin
    case TransferReq(_, _, _) => RoleUser
    case Balance(_) => RoleUser
  }

  /** `hasRole('X')`: the caller holds the authority `ROLE_X`. */
  predicate HasRole(p: Principal, role: Role) {
    RoleName(role) in p.authorities
  }

  /** What an endpoint does before the service runs. The `@Valid` body is
      checked while the arguments are resolved, before the method-security
      check around the handler; then the role is checked; then the call is
      made. */
  function Forward(p: Principal, req: Request): (r: Result<ServiceCall, Rejection>)
    ensures r.Ok? <==> HasRole(p, RequiredRole(req)) && (req.AddCard? ==> Violations(req.body) == {})
    ensures r == Err(AccessDenied) <==>
      !HasRole(p, RequiredRole(req)) && (req.AddCard? ==> Violations(req.body) == {})
    ensures r.Err? && r.error.InvalidBody? ==>
      req.AddCard? && r.error.violations == Violations(req.body) && r.error.violations != {}
    ensures r.Ok? && r.value.CallCreate? ==>
      r.value.dto.userId.Some? && r.value.dto.number.Some? && FitsNumberColumn(r.value.dto.number.value)
    ensures r.Ok? && req.AddCard? ==> r.value == CallCreate(req.body)
  {
    if req.AddCard? && Violations(req.body) != {} then Err(InvalidBody(Violations(req.body)))
    else if !HasRole(p, RequiredRole(req)) then Err(AccessDenied)
    else Ok(match req
      case GetUserCards(userId) => GetAllUserCards(userId)
      case GetMyCards => GetAllMyCards(p.name)
      case AddCard(body) => CallCreate(body)
      case GetCard(id) => GetCardDTO(id)
      case DeleteReq(id) => RemoveCard(id)
      case BlockQuery(id) => BlocQueryCard(id, p.name)
      case Block(id) => CallBlock(id)
      case Activate(id) => CallActivate(id)
      case TransferReq(fromId, toId, amount) => TransferBetween(fromId, toId, amount)
      case Balance(cardId) => CheckBalanceOf(cardId, p.name))
  }

  /** The endpoint whose handler makes a given service call: the call with
      the caller's name dropped. */
  function Handler(call: ServiceCall): Request {
    match call
    case GetAllUserCards(userId) => GetUserCards(userId)
    case GetAllMyCards(_) => GetMyCards
    case CallCreate(dto) => AddCard(dto)
    case GetCardDTO(id) => GetCard(id)
    case RemoveCard(id) => DeleteReq(id)
    case BlocQueryCard(id, _) => BlockQuery(id)
    case CallBlock(id) => Block(id)
    case CallActivate(id) => Activate(id)
    case TransferBetween(fromId, toId, amount) => TransferReq(fromId, toId, amount)
    case CheckBalanceOf(cardId, _) => Balance(cardId)
  }

  /** The caller's name carried by a service call, if any. */
  function CallerOf(call: ServiceCall): Option<string> {
    match call
    case GetAllMyCards(caller) => Some(caller)
    case BlocQueryCard(_, caller) => Some(caller)
    case CheckBalanceOf(_, caller) => Some(caller)
    case _ => None
  }

  /** The handlers that take an `Authentication`. */
  predicate TakesAuthentication(req: Request) {
    req.GetMyCards? || req.BlockQuery? || req.Balance?
  }

  /** A forwarded request reaches the service call of its own endpoint with
      its path ids, body and amount unchanged, and the caller's name travels
      exactly for the handlers that take an `Authentication`. Since `Handler`
      and `CallerOf` together determine a call, this fixes the call. */
  lemma ForwardReachesOwnHandler(p: Principal, req: Request)
    requires Forward(p, req).Ok?
    ensures Handler(Forward(p, req).value) == req
    ensures CallerOf(Forward(p, req).value) == if TakesAuthentication(req) then Some(p.name) else None
  {
  }

  /** `Handler` and `CallerOf` determine a service call: two calls that
      agree on both are the same call. */
  lemma HandlerAndCallerDetermineCall(c: ServiceCall, d: ServiceCall)
    requires Handler(c) == Handler(d) && CallerOf(c) == CallerOf(d)
    ensures c == d
  {
  }

  /** Listing a user's cards, creating, reading, deleting, blocking and
      activating a card are for administrators; listing one's own cards,
      asking for a block, transferring and reading a balance are for users. */
  lemma RoleOfEachEndpoint(req: Request)
    ensures RequiredRole(req) == RoleAdmin <==>
      req.GetUserCards? || req.AddCard? || req.GetCard? || req.DeleteReq? || req.Block? || req.Activate?
    ensures RequiredRole(req) == RoleUser <==>
      req.GetMyCards? || req.BlockQuery? || req.TransferReq? || req.Balance?
  {
  }

  /** A caller holding one role reaches exactly the endpoints of that role:
      an administrator cannot ask for a block or move money, a user cannot
      block or activate. */
  lemma OneRoleOneSideOfTheGate(p: Principal, role: Role, req: Request)
    requires p.authorities == {RoleName(role)}
    requires !req.AddCard? || Violations(req.body) == {}
    ensures Forward(p, req).Ok? <==> RequiredRole(req) == role
  {
  }

  /** The transfer endpoint hands over the two card ids and the amount and
      nothing about the caller: every user reaches the same service call. */
  lemma TransferForwardsNoIdentity(p: Principal, q: Principal, fromId: CardId, toId: CardId, amount: int)
    requires HasRole(p, RoleUser) && HasRole(q, RoleUser)
    ensures Forward(p, TransferReq(fromId, toId, amount)) == Ok(TransferBetween(fromId, toId, amount))
    ensures Forward(p, TransferReq(fromId, toId, amount)) == Forward(q, TransferReq(fromId, toId, amount))
  {
  }

  /** So any user may move money between two cards of somebody else, as
      long as those two cards share an owner and the source covers it. */
  lemma TransferNotGatedByOwnership(p: Principal, cards: Cards, users: map<UserId, User>,
                                    fromId: CardId, toId: CardId, amount: int)
    requires HasRole(p, RoleUser) && UserTable(users)
    requires fromId in cards && toId in cards && cards[fromId].userId == cards[toId].userId
    requires !Owns(users, p.name, cards[fromId])
    requires 0 < amount <= cards[fromId].balance
    ensures Forward(p, TransferReq(fromId, toId, amount)).Ok?
    ensures Transferred(cards, fromId, toId, amount).Ok?
  {
  }

  /** A create request that gets past the controller never meets the
      service's missing-user-id error, nor a number too long for its column. */
  lemma ValidatedCreateSkipsBodyErrors(p: Principal, body: CardDTO, cards: Cards, users: map<UserId, User>,
                                       today: Date, id: CardId)
    requires ValidDate(today)
    requires Forward(p, AddCard(body)).Ok?
    ensures NewCard(cards, users, body, today, id) != Err(UserIdRequired)
    ensures NewCard(cards, users, body, today, id) == Err(ConstraintViolation) ==>
      body.userId.value in users && NumberInUse(cards, body.number.value)
  {
  }
}
