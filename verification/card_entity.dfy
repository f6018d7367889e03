/** A row of the cards table: the card's number, expiration date, status,
    balance (in minor units), the owner's username and the owning user's id. */
module CardEntity {
  import opened Wrappers
  import opened UserEntity

  type CardId = nat

  /** Lifecycle status of a card; the status column stores its name. */
  datatype Status = Active | Blocked | LockRequest

  /** `Status.name()`. */
  function StatusName(status: Status): string {
    match status
    case Active => "ACTIVE"
    case Blocked => "BLOCKED"
    case LockRequest => "LOCK_REQUEST"
  }

  /** `Status.valueOf`: the constant whose name is exactly `name` (case
      included); every other string is rejected. */
  function ParseStatus(name: string): (r: Option<Status>)
    ensures r.Some? ==> StatusName(r.value) == name
    ensures r.None? ==> forall s :: StatusName(s) != name
  {
    if name == "ACTIVE" then Some(Active)
    else if name == "BLOCKED" then Some(Blocked)
    else if name == "LOCK_REQUEST" then Some(LockRequest)
    else None
  }

  /** Parsing a status's own name gives that status back. */
  lemma StatusNameRoundTrip(status: Status)
    ensures ParseStatus(StatusName(status)) == Some(status)
  {
  }

  /** A date of the ISO calendar, as `LocalDate` holds it. */
  datatype Date = Date(year: int, month: int, day: int)

  predicate IsLeapYear(year: int) {
    year % 4 == 0 && (year % 100 != 0 || year % 400 == 0)
  }

  function MonthLength(year: int, month: int): (n: int)
    requires 1 <= month <= 12
    ensures 28 <= n <= 31
    ensures n == 29 <==> month == 2 && IsLeapYear(year)
  {
    if month == 2 then (if IsLeapYear(year) then 29 else 28)
    else if month == 4 || month == 6 || month == 9 || month == 11 then 30
    else 31
  }

  predicate ValidDate(d: Date) {
    1 <= d.month <= 12 && 1 <= d.day <= MonthLength(d.year, d.month)
  }

  /** `LocalDate.plusYears`: the same month and day in the target year; a
      29 February that the target year lacks becomes the 28th. */
  function PlusYears(d: Date, years: int): (r: Date)
    requires ValidDate(d)
    ensures ValidDate(r)
    ensures r.year == d.year + years && r.month == d.month
    ensures r.day == d.day || (d.month == 2 && d.day == 29 && !IsLeapYear(r.year) && r.day == 28)
  {
    var year := d.year + years;
    var last := MonthLength(year, d.month);
    Date(year, d.month, if d.day <= last then d.day else last)
  }

  /** A card row. `userId` is the id of the owning user (the `user`
      association); `owner` is that user's username, copied at creation.
      Every column is declared non-null, which the field types give here. */
  datatype Card = Card(
    id: CardId,
    number: string,
    expirationDate: Date,
    status: Status,
    balance: int,
    owner: string,
    userId: UserId)

  /** Declared length of the number column. */
  const NumberLength := 16

  predicate FitsNumberColumn(number: string) {
    |number| <= NumberLength
  }

  predicate NumberInUse(cards: map<CardId, Card>, number: string) {
    exists id :: id in cards && cards[id].number == number
  }

  /** What every stored row satisfies: the key is the row's generated id, the
      number fits its column and is unique, and the expiration date is a date. */
  predicate CardTable(cards: map<CardId, Card>) {
    && (forall id :: id in cards ==> cards[id].id == id)
    && (forall id :: id in cards ==> FitsNumberColumn(cards[id].number) && ValidDate(cards[id].expirationDate))
    && (forall a, b :: a in cards && b in cards && cards[a].number == cards[b].number ==> a == b)
  }

  /** The constraints an INSERT is checked against: a fresh key, a number
      that fits and is not taken, a real date. A row that passes keeps the
      table well formed; a row that fails any of them would break it. */
  lemma InsertKeepsCardTable(cards: map<CardId, Card>, card: Card)
    requires CardTable(cards) && card.id !in cards
    ensures CardTable(cards[card.id := card]) <==>
      FitsNumberColumn(card.number) && !NumberInUse(cards, card.number) && ValidDate(card.expirationDate)
  {
    var after := cards[card.id := card];
    assert after[card.id] == card;
    if NumberInUse(cards, card.number) {
      var other :| other in cards && cards[other].number == card.number;
      assert other != card.id && after[other].number == after[card.id].number;
    }
  }
}
