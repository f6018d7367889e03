/** The card view returned to clients, which is also the body of a create
    request: every field may be null, and the number is masked. */
module CardDto {
  import opened Wrappers
  import opened UserEntity
  import opened CardEntity

  datatype CardDTO = CardDTO(
    id: Option<CardId>,
    number: Option<string>,
    ownerUsername: Option<string>,
    userId: Option<UserId>,
    expirationDate: Option<Date>,
    status: Option<string>,
    balance: Option<int>)

  const MaskPrefix: string := "**** **** **** "

  /** `maskCardNumber`: a missing or too short number shows as four stars;
      otherwise three starred groups and the last four characters. */
  function MaskCardNumber(number: Option<string>): (r: string)
    ensures number.None? || |number.value| < 4 ==> r == "****"
    ensures number.Some? && |number.value| >= 4 ==>
      && |r| == 19
      && (forall i :: 0 <= i < 15 ==> r[i] == if i % 5 == 4 then ' ' else '*')
      && r[15..] == number.value[|number.value| - 4..]
  {
    if number.None? || |number.value| < 4 then "****"
    else MaskPrefix + number.value[|number.value| - 4..]
  }

  /** Two numbers get the same mask exactly when both are too short to show
      anything, or both end in the same four characters: nothing before the
      last four leaks into the view. */
  lemma MaskShowsOnlyLastFour(a: string, b: string)
    ensures MaskCardNumber(Some(a)) == MaskCardNumber(Some(b)) <==>
      || (|a| < 4 && |b| < 4)
      || (|a| >= 4 && |b| >= 4 && a[|a| - 4..] == b[|b| - 4..])
  {
  }

  /** The masked rendering of a sixteen-digit number. */
  lemma MaskSixteenDigits()
    ensures MaskCardNumber(Some("1234567812345678")) == "**** **** **** 5678"
  {
  }

  /** The view of a stored card: `fromEntity` on a non-null card. */
  function View(card: Card): (dto: CardDTO)
    ensures dto.id == Some(card.id) && dto.userId == Some(card.userId)
    ensures dto.ownerUsername == Some(card.owner)
    ensures dto.expirationDate == Some(card.expirationDate) && dto.balance == Some(card.balance)
    ensures dto.number == Some(MaskCardNumber(Some(card.number)))
    ensures dto.status.Some? && ParseStatus(dto.status.value) == Some(card.status)
  {
    StatusNameRoundTrip(card.status);
    CardDTO(
      Some(card.id),
      Some(MaskCardNumber(Some(card.number))),
      Some(card.owner),
      Some(card.userId),
      Some(card.expirationDate),
      Some(StatusName(card.status)),
      Some(card.balance))
  }

  /** `fromEntity`: null for null, the view of the card otherwise. */
  function FromEntity(card: Option<Card>): (r: Option<CardDTO>)
    ensures r.None? <==> card.None?
    ensures card.Some? ==> r == Some(View(card.value))
  {
    match card
    case None => None
    case Some(c) => Some(View(c))
  }

  /** Two cards have the same view exactly when they agree on every column
      but the number, and their numbers have the same mask. */
  lemma ViewDeterminesCardButNumber(c: Card, d: Card)
    ensures View(c) == View(d) <==>
      c.(number := d.number) == d && MaskCardNumber(Some(c.number)) == MaskCardNumber(Some(d.number))
  {
  }

  /** Java's `String.length()`: the number of UTF-16 code units, which is two
      for a character beyond U+FFFF and one for any other. */
  function Utf16Length(s: string): (n: nat)
    ensures |s| <= n <= 2 * |s|
    ensures n == |s| <==> forall i :: 0 <= i < |s| ==> s[i] as int < 0x1_0000
    ensures n == 2 * |s| <==> forall i :: 0 <= i < |s| ==> s[i] as int >= 0x1_0000
  {
    if s == [] then 0
    else
      var rest := Utf16Length(s[1..]);
      assert forall i :: 1 <= i < |s| ==> s[1..][i - 1] == s[i];
      (if s[0] as int < 0x1_0000 then 1 else 2) + rest
  }

  /** The bean-validation constraints on the body of a create request. */
  datatype Violation = NumberBlank | NumberSize | UserIdNull

  /** `@NotBlank` fails when trimming leaves nothing; `trim` drops every
      character up to U+0020. */
  predicate IsBlank(s: string) {
    forall i :: 0 <= i < |s| ==> s[i] <= ' '
  }

  /** The constraints a create-request body breaks: `@NotBlank` and
      `@Size(min = 16, max = 16)` on the number, `@NotNull` on the user id.
      `@Size` lets a null through (the `@NotBlank` catches it), counts
      UTF-16 code units, and checks only the length, never that the
      characters are digits. */
  function Violations(dto: CardDTO): (v: set<Violation>)
    ensures v == {} <==>
      && dto.number.Some? && Utf16Length(dto.number.value) == 16
      && (exists i :: 0 <= i < |dto.number.value| && dto.number.value[i] > ' ')
      && dto.userId.Some?
    ensures NumberSize in v ==> dto.number.Some?
    ensures v == {} ==> FitsNumberColumn(dto.number.value)
  {
    (if dto.number.None? || IsBlank(dto.number.value) then {NumberBlank} else {})
    + (if dto.number.Some? && Utf16Length(dto.number.value) != 16 then {NumberSize} else {})
    + (if dto.userId.None? then {UserIdNull} else {})
  }

  /** Sixteen letters pass the validation: the number is not checked to be digits. */
  lemma LettersPassValidation(dto: CardDTO)
    requires dto.number == Some("ABCDEFGHIJKLMNOP") && dto.userId.Some?
    ensures Violations(dto) == {}
  {
    var n := dto.number.value;
    assert forall i :: 0 <= i < |n| ==> n[i] as int < 0x1_0000;
    assert n[0] > ' ';
  }

  /** Eight characters beyond U+FFFF are sixteen UTF-16 code units, so they
      pass `@Size(min = 16, max = 16)` as a sixteen-character number does. */
  lemma WideCharactersCountTwice(dto: CardDTO)
    requires dto.number == Some(seq(8, _ => '\U{1F600}')) && dto.userId.Some?
    ensures Utf16Length(dto.number.value) == 16
    ensures Violations(dto) == {}
  {
    var n := dto.number.value;
    assert forall i :: 0 <= i < |n| ==> n[i] as int >= 0x1_0000;
    assert n[0] > ' ';
  }
}
