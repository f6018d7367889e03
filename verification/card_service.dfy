/** The card ledger: issuing cards, status changes, transfers between two
    cards of one owner, balance inquiry, deletion and the per-owner queries.
    Balances are integers in minor units. */
module CardService {
  import opened Wrappers
  import opened UserEntity
  import opened CardEntity
  import opened CardDto
  import opened Collections

  type Cards = map<CardId, Card>

  datatype CardError =
    | UserIdRequired       // "User ID must be provided in CardDTO"
    | UserNotFound         // "User not found with id: ..."
    | UnknownStatus        // Status.valueOf rejects the name
    | ConstraintViolation  // the INSERT breaks a column constraint of the cards table
    | CardNotFound         // "Card not found"
    | CallerNotFound       // "User not found": the caller's username is not registered
    | AmountNotPositive    // "Amount must be positive"
    | DifferentOwners      // "Cards belong to different users"
    | InsufficientFunds    // "Insufficient funds"
    | NotOwnCard           // checkBalance: the balance of another user's card

  /** The caller, resolved by username, is the user the card belongs to. */
  predicate Owns(users: map<UserId, User>, caller: string, card: Card) {
    card.userId in users && users[card.userId].username == caller
  }

  // ---------------------------------------------------------------------
  // Total money on the ledger

  ghost function SumBalances(cards: Cards, ids: set<CardId>): int
    requires ids <= cards.Keys
    decreases ids
  {
    if ids == {} then 0
    else
      var id :| id in ids;
      cards[id].balance + SumBalances(cards, ids - {id})
  }

  /** The sum of all balances on the ledger. */
  ghost function Total(cards: Cards): int {
    SumBalances(cards, cards.Keys)
  }

  /** Any card of `ids` may be taken out of the sum first. */
  lemma {:induction false} SumBalancesPick(cards: Cards, ids: set<CardId>, id: CardId)
    requires ids <= cards.Keys && id in ids
    ensures SumBalances(cards, ids) == cards[id].balance + SumBalances(cards, ids - {id})
    decreases ids
  {
    var first :| first in ids && SumBalances(cards, ids) == cards[first].balance + SumBalances(cards, ids - {first});
    if first != id {
      SumBalancesPick(cards, ids - {first}, id);
      SumBalancesPick(cards, ids - {id}, first);
      assert ids - {first} - {id} == ids - {id} - {first};
    }
  }

  /** The sum depends only on the balances of the cards it adds up. */
  lemma {:induction false} SumBalancesAgree(a: Cards, b: Cards, ids: set<CardId>)
    requires ids <= a.Keys && ids <= b.Keys
    requires forall id :: id in ids ==> a[id].balance == b[id].balance
    ensures SumBalances(a, ids) == SumBalances(b, ids)
    decreases ids
  {
    if ids != {} {
      var id :| id in ids;
      SumBalancesPick(a, ids, id);
      SumBalancesPick(b, ids, id);
      SumBalancesAgree(a, b, ids - {id});
    }
  }

  /** Replacing a card changes the total by the change in its balance. */
  lemma TotalUpdate(cards: Cards, id: CardId, card: Card)
    requires id in cards
    ensures Total(cards[id := card]) == Total(cards) - cards[id].balance + card.balance
  {
    var after := cards[id := card];
    assert after.Keys == cards.Keys;
    SumBalancesPick(after, after.Keys, id);
    SumBalancesPick(cards, cards.Keys, id);
    SumBalancesAgree(after, cards, cards.Keys - {id});
  }

  /** Adding a card adds its balance to the total. */
  lemma TotalInsert(cards: Cards, card: Card)
    requires card.id !in cards
    ensures Total(cards[card.id := card]) == Total(cards) + card.balance
  {
    var after := cards[card.id := card];
    SumBalancesPick(after, after.Keys, card.id);
    assert after.Keys - {card.id} == cards.Keys;
    SumBalancesAgree(after, cards, cards.Keys);
  }

  /** Removing a card takes its balance out of the total. */
  lemma TotalRemove(cards: Cards, id: CardId)
    requires id in cards
    ensures Total(cards - {id}) == Total(cards) - cards[id].balance
  {
    var after := cards - {id};
    assert after.Keys == cards.Keys - {id};
    SumBalancesPick(cards, cards.Keys, id);
    SumBalancesAgree(after, cards, after.Keys);
  }

  // ---------------------------------------------------------------------
  // Read-only operations

  /** `getCardDTO`: the masked view of the card, or "Card not found". */
  function CardView(cards: Cards, id: CardId): (r: Result<CardDTO, CardError>)
    ensures r.Ok? <==> id in cards
    ensures r.Ok? ==> r.value == View(cards[id])
    ensures r.Err? ==> r.error == CardNotFound
  {
    if id in cards then Ok(View(cards[id])) else Err(CardNotFound)
  }

  /** The view the per-owner listings build: the masked view, except that
      the number is shown in full. */
  function ListView(card: Card): (dto: CardDTO)
    ensures dto == View(card).(number := Some(card.number))
  {
    CardDTO(
      Some(card.id),
      Some(card.number),
      Some(card.owner),
      Some(card.userId),
      Some(card.expirationDate),
      Some(StatusName(card.status)),
      Some(card.balance))
  }

  /** The ids of the cards owned by the user, as `findAllByUserId` finds them. */
  function OwnedBy(cards: Cards, userId: UserId): set<CardId> {
    set id | id in cards && cards[id].userId == userId
  }

  /** `getAllUserCards`: one unmasked view per card of the user, and only
      the user's cards. */
  function UserCards(cards: Cards, userId: UserId): (r: set<CardDTO>)
    requires CardTable(cards)
    ensures |r| == |OwnedBy(cards, userId)|
    ensures forall id :: id in cards && cards[id].userId == userId ==> ListView(cards[id]) in r
    ensures forall d :: d in r ==>
      && d.id.Some? && d.id.value in cards
      && cards[d.id.value].userId == userId
      && d == ListView(cards[d.id.value])
      && d.number == Some(cards[d.id.value].number)
  {
    var ids := OwnedBy(cards, userId);
    assert InjectiveOn(cards, ids, ListView);
    MapImageSize(cards, ids, ListView);
    MapImage(cards, ids, ListView)
  }

  /** `getAllMyCards`: the caller's own cards, found by the caller's user id. */
  function MyCards(cards: Cards, users: map<UserId, User>, caller: string): (r: Result<set<CardDTO>, CardError>)
    requires CardTable(cards) && UserTable(users)
    ensures r.Err? <==> !UsernameTaken(users, caller)
    ensures r.Err? ==> r.error == CallerNotFound
    ensures r.Ok? ==> exists id :: id in users && users[id].username == caller && r.value == UserCards(cards, id)
  {
    match FindByUsername(users, caller)
    case None => Err(CallerNotFound)
    case Some(user) => Ok(UserCards(cards, user.id))
  }

  /** `getAllCards`: one masked view per card. */
  function AllCards(cards: Cards): (r: set<CardDTO>)
    requires CardTable(cards)
    ensures |r| == |cards|
    ensures forall id :: id in cards ==> View(cards[id]) in r
    ensures forall d :: d in r ==> d.id.Some? && d.id.value in cards && d == View(cards[d.id.value])
  {
    assert InjectiveOn(cards, cards.Keys, View);
    MapImageSize(cards, cards.Keys, View);
    MapImage(cards, cards.Keys, View)
  }

  /** `checkBalance`: the stored balance, unchanged, when the caller owns
      the card; an error otherwise. */
  function CheckBalance(cards: Cards, users: map<UserId, User>, id: CardId, caller: string): (r: Result<int, CardError>)
    requires UserTable(users)
    ensures id !in cards ==> r == Err(CardNotFound)
    ensures id in cards && !UsernameTaken(users, caller) ==> r == Err(CallerNotFound)
    ensures id in cards && UsernameTaken(users, caller) && !Owns(users, caller, cards[id]) ==> r == Err(NotOwnCard)
    ensures r.Ok? <==> id in cards && Owns(users, caller, cards[id])
    ensures r.Ok? ==> r.value == cards[id].balance
  {
    if id !in cards then Err(CardNotFound)
    else match FindByUsername(users, caller)
      case None => Err(CallerNotFound)
      case Some(user) =>
        if user.id == cards[id].userId then Ok(cards[id].balance) else Err(NotOwnCard)
  }

  // ---------------------------------------------------------------------
  // What the state-changing operations do to the card table

  /** `createCard` up to the INSERT: the card it builds under the id the
      table generates, or the first check that fails. The user id must be
      given and known; the status defaults to ACTIVE and must be a status
      name; the balance defaults to 0 and may be negative; the card expires
      three years from today. The INSERT then refuses a missing, too long or
      taken number. */
  function NewCard(cards: Cards, users: map<UserId, User>, dto: CardDTO, today: Date, id: CardId): (r: Result<Card, CardError>)
    requires ValidDate(today)
    ensures r == Err(UserIdRequired) <==> dto.userId.None?
    ensures r == Err(UserNotFound) <==> dto.userId.Some? && dto.userId.value !in users
    ensures r == Err(UnknownStatus) <==>
      dto.userId.Some? && dto.userId.value in users && dto.status.Some? && ParseStatus(dto.status.value).None?
    ensures r == Err(ConstraintViolation) <==>
      && dto.userId.Some? && dto.userId.value in users
      && (dto.status.Some? ==> ParseStatus(dto.status.value).Some?)
      && (dto.number.None? || !FitsNumberColumn(dto.number.value) || NumberInUse(cards, dto.number.value))
    ensures r.Ok? <==>
      && dto.userId.Some? && dto.userId.value in users
      && (dto.status.Some? ==> ParseStatus(dto.status.value).Some?)
      && dto.number.Some? && FitsNumberColumn(dto.number.value) && !NumberInUse(cards, dto.number.value)
    ensures r.Ok? ==>
      && r.value.id == id
      && dto.number == Some(r.value.number)
      && dto.userId == Some(r.value.userId) && r.value.owner == users[r.value.userId].username
      && r.value.expirationDate == PlusYears(today, 3)
      && (dto.status.None? ==> r.value.status == Active)
      && (dto.status.Some? ==> StatusName(r.value.status) == dto.status.value)
      && r.value.balance == dto.balance.GetOr(0)
  {
    if dto.userId.None? then Err(UserIdRequired)
    else if dto.userId.value !in users then Err(UserNotFound)
    else
      var user := users[dto.userId.value];
      var status := if dto.status.None? then Some(Active) else ParseStatus(dto.status.value);
      if status.None? then Err(UnknownStatus)
      else if dto.number.None? || !FitsNumberColumn(dto.number.value) || NumberInUse(cards, dto.number.value) then
        Err(ConstraintViolation)
      else
        Ok(Card(id, dto.number.value, PlusYears(today, 3), status.value, dto.balance.GetOr(0), user.username, dto.userId.value))
  }

  /** A new card goes into the table without breaking its constraints, and
      brings its opening balance into the total. */
  lemma NewCardFitsTable(cards: Cards, users: map<UserId, User>, dto: CardDTO, today: Date, id: CardId)
    requires CardTable(cards) && ValidDate(today) && id !in cards
    requires NewCard(cards, users, dto, today, id).Ok?
    ensures var card := NewCard(cards, users, dto, today, id).value;
      CardTable(cards[id := card]) && Total(cards[id := card]) == Total(cards) + card.balance
  {
    var card := NewCard(cards, users, dto, today, id).value;
    InsertKeepsCardTable(cards, card);
    TotalInsert(cards, card);
  }

  /** The request's own id, owner name and expiration date play no part:
      the table, the user and the clock decide them. */
  lemma NewCardIgnoresClientFields(cards: Cards, users: map<UserId, User>, dto: CardDTO, today: Date, id: CardId,
                                   anyId: Option<CardId>, anyOwner: Option<string>, anyDate: Option<Date>)
    requires ValidDate(today)
    ensures NewCard(cards, users, dto, today, id) ==
            NewCard(cards, users, dto.(id := anyId, ownerUsername := anyOwner, expirationDate := anyDate), today, id)
  {
  }

  /** `blockCard` / `activateCard`: the card takes `status` whatever it had
      before; no other card and no other column changes. */
  function WithStatus(cards: Cards, id: CardId, status: Status): (r: Result<Cards, CardError>)
    ensures r.Err? <==> id !in cards
    ensures r.Err? ==> r.error == CardNotFound
    ensures r.Ok? ==> r.value.Keys == cards.Keys && r.value[id].status == status
    ensures r.Ok? ==> r.value[id].(status := cards[id].status) == cards[id]
    ensures r.Ok? ==> forall k :: k in cards && k != id ==> r.value[k] == cards[k]
  {
    if id in cards then Ok(cards[id := cards[id].(status := status)]) else Err(CardNotFound)
  }

  /** Setting a status twice is setting it once, and of two settings in a
      row the later wins: blocking then activating is activating. */
  lemma {:induction false} LastStatusWins(cards: Cards, id: CardId, first: Status, second: Status)
    requires id in cards
    ensures WithStatus(WithStatus(cards, id, first).value, id, second) == WithStatus(cards, id, second)
  {
    var once := WithStatus(cards, id, first).value;
    var twice := WithStatus(once, id, second).value;
    assert twice == WithStatus(cards, id, second).value by {
      assert twice.Keys == cards.Keys;
      forall k | k in cards
        ensures twice[k] == WithStatus(cards, id, second).value[k]
      {
      }
    }
  }

  /** A status change keeps the table well formed and moves no money. */
  lemma WithStatusKeepsTable(cards: Cards, id: CardId, status: Status)
    requires CardTable(cards) && id in cards
    ensures CardTable(WithStatus(cards, id, status).value)
    ensures Total(WithStatus(cards, id, status).value) == Total(cards)
  {
    TotalUpdate(cards, id, cards[id].(status := status));
  }

  /** `blocQueryCard`: the owner puts the card in LOCK_REQUEST whatever its
      status, BLOCKED included; anyone else gets "Cards belong to different
      users" and nothing changes. The card is looked up before the caller. */
  function LockRequested(cards: Cards, users: map<UserId, User>, id: CardId, caller: string): (r: Result<Cards, CardError>)
    requires UserTable(users)
    ensures id !in cards ==> r == Err(CardNotFound)
    ensures id in cards && !UsernameTaken(users, caller) ==> r == Err(CallerNotFound)
    ensures id in cards && UsernameTaken(users, caller) && !Owns(users, caller, cards[id]) ==> r == Err(DifferentOwners)
    ensures r.Ok? <==> id in cards && Owns(users, caller, cards[id])
    ensures r.Ok? ==> r == WithStatus(cards, id, LockRequest)
  {
    if id !in cards then Err(CardNotFound)
    else match FindByUsername(users, caller)
      case None => Err(CallerNotFound)
      case Some(user) =>
        if cards[id].userId == user.id then WithStatus(cards, id, LockRequest) else Err(DifferentOwners)
  }

  /** Adds `delta` to the balance of one card. */
  function Credit(cards: Cards, id: CardId, delta: int): Cards
    requires id in cards
  {
    cards[id := cards[id].(balance := cards[id].balance + delta)]
  }

  /** `transfer`: the checks in the order the service makes them, then the
      debit of the source card followed by the credit of whatever the
      destination card holds by then. Neither the status of the cards nor
      who asks is consulted. */
  function Transferred(cards: Cards, fromId: CardId, toId: CardId, amount: int): (r: Result<Cards, CardError>)
    ensures amount <= 0 ==> r == Err(AmountNotPositive)
    ensures amount > 0 && (fromId !in cards || toId !in cards) ==> r == Err(CardNotFound)
    ensures amount > 0 && fromId in cards && toId in cards && cards[fromId].userId != cards[toId].userId ==>
      r == Err(DifferentOwners)
    ensures amount > 0 && fromId in cards && toId in cards && cards[fromId].userId == cards[toId].userId
            && cards[fromId].balance < amount ==>
      r == Err(InsufficientFunds)
    ensures r.Ok? ==> r.value.Keys == cards.Keys
    ensures r.Ok? ==> forall k :: k in cards && k != fromId && k != toId ==> r.value[k] == cards[k]
    ensures r.Ok? && fromId != toId ==>
      && r.value[fromId] == cards[fromId].(balance := cards[fromId].balance - amount)
      && r.value[toId] == cards[toId].(balance := cards[toId].balance + amount)
    ensures r.Ok? && fromId == toId ==> r.value == cards
  {
    if amount <= 0 then Err(AmountNotPositive)
    else if fromId !in cards || toId !in cards then Err(CardNotFound)
    else if cards[fromId].userId != cards[toId].userId then Err(DifferentOwners)
    else if cards[fromId].balance < amount then Err(InsufficientFunds)
    else
      var debited := Credit(cards, fromId, -amount);
      var credited := Credit(debited, toId, amount);
      assert fromId == toId ==> credited == cards by {
        if fromId == toId {
          assert credited.Keys == cards.Keys;
          assert credited[fromId] == cards[fromId];
        }
      }
      Ok(credited)
  }

  /** A transfer succeeds exactly when every check passes. */
  lemma TransferSucceedsWhenChecksPass(cards: Cards, fromId: CardId, toId: CardId, amount: int)
    ensures Transferred(cards, fromId, toId, amount).Ok? <==>
      && amount > 0 && fromId in cards && toId in cards
      && cards[fromId].userId == cards[toId].userId
      && cards[fromId].balance >= amount
  {
  }

  /** A transfer creates and destroys no money, and leaves the source card
      with a balance that is not negative. */
  lemma TransferConservesTotal(cards: Cards, fromId: CardId, toId: CardId, amount: int)
    requires Transferred(cards, fromId, toId, amount).Ok?
    ensures Total(Transferred(cards, fromId, toId, amount).value) == Total(cards)
    ensures Transferred(cards, fromId, toId, amount).value[fromId].balance >= 0
  {
    var debited := Credit(cards, fromId, -amount);
    TotalUpdate(cards, fromId, debited[fromId]);
    TotalUpdate(debited, toId, Credit(debited, toId, amount)[toId]);
  }

  /** A transfer keeps the table well formed. */
  lemma TransferKeepsTable(cards: Cards, fromId: CardId, toId: CardId, amount: int)
    requires CardTable(cards) && Transferred(cards, fromId, toId, amount).Ok?
    ensures CardTable(Transferred(cards, fromId, toId, amount).value)
  {
  }

  /** The status of a card has no say in a transfer: changing it first gives
      the same outcome, with that card's status changed. In particular a
      blocked card can send and receive money. */
  lemma {:induction false} TransferIgnoresStatus(cards: Cards, id: CardId, status: Status, fromId: CardId, toId: CardId, amount: int)
    requires id in cards
    ensures var restatused := WithStatus(cards, id, status).value;
      match Transferred(cards, fromId, toId, amount)
      case Ok(after) => Transferred(restatused, fromId, toId, amount) == WithStatus(after, id, status)
      case Err(e) => Transferred(restatused, fromId, toId, amount) == Err(e)
  {
    var restatused := WithStatus(cards, id, status).value;
    var r := Transferred(cards, fromId, toId, amount);
    var s := Transferred(restatused, fromId, toId, amount);
    TransferSucceedsWhenChecksPass(cards, fromId, toId, amount);
    TransferSucceedsWhenChecksPass(restatused, fromId, toId, amount);
    if r.Ok? {
      var expected := WithStatus(r.value, id, status).value;
      assert s.value.Keys == expected.Keys;
      forall k | k in s.value
        ensures s.value[k] == expected[k]
      {
      }
      assert s.value == expected;
    }
  }

  /** `deleteCard`: the card is gone and nothing else changes. */
  function Deleted(cards: Cards, id: CardId): (r: Result<Cards, CardError>)
    ensures r.Err? <==> id !in cards
    ensures r.Err? ==> r.error == CardNotFound
    ensures r.Ok? ==> r.value.Keys == cards.Keys - {id}
    ensures r.Ok? ==> forall k :: k in r.value ==> r.value[k] == cards[k]
  {
    if id in cards then Ok(cards - {id}) else Err(CardNotFound)
  }

  /** Deleting a card takes its balance off the ledger: nothing checks that
      it is zero first. */
  lemma DeleteDropsBalance(cards: Cards, id: CardId)
    requires id in cards
    ensures Total(Deleted(cards, id).value) == Total(cards) - cards[id].balance
  {
    TotalRemove(cards, id);
  }

  // ---------------------------------------------------------------------
  // The service

  class CardLedger {
    var cards: Cards
    /** The next id the cards table's identity column hands out. */
    var nextId: CardId

    ghost predicate Valid()
      reads this
    {
      CardTable(cards) && forall id :: id in cards ==> id < nextId
    }

    constructor ()
      ensures Valid() && cards == map[]
    {
      cards := map[];
      nextId := 1;
    }

    /** `setStatus` on the managed card with this id. */
    method SetStatus(id: CardId, status: Status)
      requires Valid() && id in cards
      modifies this
      ensures Valid() && nextId == old(nextId)
      ensures cards == old(cards)[id := old(cards)[id].(status := status)]
    {
      cards := cards[id := cards[id].(status := status)];
    }

    /** `setBalance` on the managed card with this id. Within one transaction
        the entity manager hands out one object per id, so every reference
        loaded for this id sees the new balance. */
    method SetBalance(id: CardId, balance: int)
      requires Valid() && id in cards
      modifies this
      ensures Valid() && nextId == old(nextId)
      ensures cards == old(cards)[id := old(cards)[id].(balance := balance)]
    {
      cards := cards[id := cards[id].(balance := balance)];
    }

    /** `createCard`: stores the card `NewCard` builds under the next
        generated id and returns its masked view; on any error nothing is
        stored. */
    method CreateCard(users: map<UserId, User>, dto: CardDTO, today: Date) returns (r: Result<CardDTO, CardError>)
      requires Valid() && ValidDate(today)
      modifies this
      ensures Valid()
      ensures match NewCard(old(cards), users, dto, today, old(nextId))
        case Ok(card) => cards == old(cards)[card.id := card] && r == Ok(View(card))
        case Err(e) => cards == old(cards) && nextId == old(nextId) && r == Err(e)
    {
      if dto.userId.None? {
        return Err(UserIdRequired);
      }
      var userId := dto.userId.value;
      if userId !in users {
        return Err(UserNotFound);
      }
      var user := users[userId];
      var balance := dto.balance.GetOr(0);
      var status := Active;
      if dto.status.Some? {
        var parsed := ParseStatus(dto.status.value);
        if parsed.None? {
          return Err(UnknownStatus);
        }
        status := parsed.value;
      }
      // save: the INSERT is checked against the column constraints
      if dto.number.None? || !FitsNumberColumn(dto.number.value) || NumberInUse(cards, dto.number.value) {
        return Err(ConstraintViolation);
      }
      var card := Card(nextId, dto.number.value, PlusYears(today, 3), status, balance, user.username, userId);
      InsertKeepsCardTable(cards, card);
      cards := cards[card.id := card];
      nextId := nextId + 1;
      r := Ok(View(card));
    }

    /** `blockCard`: BLOCKED whatever the status was. */
    method BlockCard(id: CardId) returns (r: Result<CardDTO, CardError>)
      requires Valid()
      modifies this
      ensures Valid() && nextId == old(nextId)
      ensures match WithStatus(old(cards), id, Blocked)
        case Ok(after) => cards == after && r == Ok(View(after[id]))
        case Err(e) => cards == old(cards) && r == Err(e)
    {
      if id !in cards {
        return Err(CardNotFound);
      }
      SetStatus(id, Blocked);
      r := Ok(View(cards[id]));
    }

    /** `activateCard`: ACTIVE whatever the status was. */
    method ActivateCard(id: CardId) returns (r: Result<CardDTO, CardError>)
      requires Valid()
      modifies this
      ensures Valid() && nextId == old(nextId)
      ensures match WithStatus(old(cards), id, Active)
        case Ok(after) => cards == after && r == Ok(View(after[id]))
        case Err(e) => cards == old(cards) && r == Err(e)
    {
      if id !in cards {
        return Err(CardNotFound);
      }
      SetStatus(id, Active);
      r := Ok(View(cards[id]));
    }

    /** `blocQueryCard`: the owner's request to block the card. */
    method BlockQueryCard(users: map<UserId, User>, id: CardId, caller: string) returns (r: Result<CardDTO, CardError>)
      requires Valid() && UserTable(users)
      modifies this
      ensures Valid() && nextId == old(nextId)
      ensures match LockRequested(old(cards), users, id, caller)
        case Ok(after) => cards == after && r == Ok(View(after[id]))
        case Err(e) => cards == old(cards) && r == Err(e)
    {
      if id !in cards {
        return Err(CardNotFound);
      }
      var card := cards[id];
      var user := FindByUsername(users, caller);
      if user.None? {
        return Err(CallerNotFound);
      }
      if card.userId != user.value.id {
        return Err(DifferentOwners);
      }
      SetStatus(id, LockRequest);
      r := Ok(View(cards[id]));
    }

    /** `transfer`: after the checks, the source card is debited and then
        the destination card, as it stands after the debit, is credited.
        For a transfer from a card to itself both steps act on the same
        card, which ends as it was. */
    method Transfer(fromId: CardId, toId: CardId, amount: int) returns (r: Result<(), CardError>)
      requires Valid()
      modifies this
      ensures Valid() && nextId == old(nextId)
      ensures match Transferred(old(cards), fromId, toId, amount)
        case Ok(after) => cards == after && r.Ok?
        case Err(e) => cards == old(cards) && r == Err(e)
    {
      if amount <= 0 {
        return Err(AmountNotPositive);
      }
      if fromId !in cards || toId !in cards {
        return Err(CardNotFound);
      }
      var fromCard, toCard := cards[fromId], cards[toId];
      if fromCard.userId != toCard.userId {
        return Err(DifferentOwners);
      }
      if fromCard.balance < amount {
        return Err(InsufficientFunds);
      }
      SetBalance(fromId, cards[fromId].balance - amount);
      SetBalance(toId, cards[toId].balance + amount);
      r := Ok(());
    }

    /** `deleteCard`. */
    method DeleteCard(id: CardId) returns (r: Result<(), CardError>)
      requires Valid()
      modifies this
      ensures Valid() && nextId == old(nextId)
      ensures match Deleted(old(cards), id)
        case Ok(after) => cards == after && r.Ok?
        case Err(e) => cards == old(cards) && r == Err(e)
    {
      if id !in cards {
        return Err(CardNotFound);
      }
      cards := cards - {id};
      r := Ok(());
    }
  }
}
