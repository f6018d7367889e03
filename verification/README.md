# Bank-card ledger, modelled in Dafny

This project models the card ledger of a Spring bank-cards service. The
ledger keeps a table of cards. Each card has a number of at most 16
characters (16 UTF-16 code units when it comes through the create
endpoint), an expiration date, a status (ACTIVE, BLOCKED or LOCK_REQUEST), a balance, the
owner's username and the owning user's id. The model covers:

- the card service: issuing a card, reading one, listing a user's cards or
  one's own, blocking, activating, a lock request by the owner, a transfer
  between two cards of one owner, a balance inquiry and deletion;
- the card view, which masks the number as `**** **** **** 1234`, and the
  validation of a create request's body;
- the user registry: registration with a unique username and one role, role
  replacement, deletion and listing, plus the user view;
- the card endpoints: the role each one requires, and what each one hands to
  the service.

Balances are integers in minor units. The user table is a map from id to
user. The card table is a map from id to card. Ids come from a counter,
standing for the identity column. Any "today" the service needs is passed in.

Modules and files, following the source layout:

| file | module | source |
|---|---|---|
| `wrappers.dfy` | `Wrappers` | Option (nullable values) and Result (exceptions) |
| `collections.dfy` | `Collections` | map images, used by the list queries |
| `user_entity.dfy` | `UserEntity` | users, roles, `findByUsername` |
| `card_entity.dfy` | `CardEntity` | `entity/Card.java`, `Status`, `LocalDate.plusYears` |
| `card_dto.dfy` | `CardDto` | `dto/CardDTO.java` |
| `user_dto.dfy` | `UserDto` | `dto/UserDTO.java` |
| `user_service.dfy` | `UserService` | `service/UserService.java` |
| `card_service.dfy` | `CardService` | `service/CardService.java` |
| `card_controller.dfy` | `CardController` | `controller/CardController.java` |

The state-changing operations are class methods: `CardService.CardLedger`
and `UserService.UserRegistry`. Each method is proved against a pure
function of the table: `NewCard`, `WithStatus`, `LockRequested`,
`Transferred` and `Deleted`. The lemmas about the ledger are stated over
those functions. The read-only operations are functions of the table.

A JPA transaction hands out one object per row. So in a transfer from a card
to itself, `fromCard` and `toCard` are the same object. The model writes each
balance through the card id (`SetBalance`). The credit step therefore reads
the balance the debit step left behind. The transfer is thus proved to leave a
self-transfer's card unchanged, not to add the amount to it.

The model reproduces these behaviours of the code:

- `transfer` takes no caller. Any user may move money between two cards that
  share an owner, whoever that owner is (`TransferNotGatedByOwnership`).
- The lock request of a non-owner fails with an `IllegalArgumentException`
  whose message is "Cards belong to different users", the same message a
  transfer between two owners' cards gets.
- A create request may set any status name. It may also set a negative
  opening balance.
- The per-owner listings show the number unmasked. The single-card view and
  the create/block/activate responses mask it.
- Only the length of the number is validated, not that it is digits. The
  length is 16 UTF-16 code units, as Java counts it, so eight characters
  beyond U+FFFF pass (`WideCharactersCountTwice`).
- Deleting a card removes its balance from the ledger. Nothing checks that
  the balance is zero (`DeleteDropsBalance`).

## Model

| member | source | states |
|---|---|---|
| `CardEntity.ParseStatus` | src/main/java/com/example/bankcards/service/CardService.java:44 | `Status.valueOf` accepts exactly the three constant names, case included. It returns the status of that name, and rejects every other string. |
| `CardEntity.PlusYears` | src/main/java/com/example/bankcards/service/CardService.java:43 | The expiration date is a valid date three years on, in the same month and on the same day. A 29 February that the target year lacks becomes the 28th. |
| `CardEntity.InsertKeepsCardTable` | src/main/java/com/example/bankcards/entity/Card.java:18-41 | A new row keeps the table's constraints (number of at most 16 characters, unique, non-null columns) exactly when its number fits, is not taken and its date is real. |
| `CardDto.MaskCardNumber` | src/main/java/com/example/bankcards/dto/CardDTO.java:49-52 | A null number or one under 4 characters gives `****`. Any other number gives 19 characters: three groups of four stars, then the number's last four characters. |
| `CardDto.MaskShowsOnlyLastFour` | src/main/java/com/example/bankcards/dto/CardDTO.java:51 | Two numbers get the same mask if and only if both are too short, or both end in the same four characters. |
| `CardDto.MaskSixteenDigits` | src/main/java/com/example/bankcards/dto/CardDTO.java:50-51 | `1234567812345678` is shown as `**** **** **** 5678`. |
| `CardDto.View` | src/main/java/com/example/bankcards/dto/CardDTO.java:38-46 | The view copies id, expiration date and balance. Owner becomes ownerUsername, and the user's id becomes userId. The number is masked, and the status becomes its name, which parses back to the card's status. |
| `CardDto.FromEntity` | src/main/java/com/example/bankcards/dto/CardDTO.java:36-47 | `fromEntity(null)` is null, and a card gives its view. |
| `CardDto.ViewDeterminesCardButNumber` | src/main/java/com/example/bankcards/dto/CardDTO.java:36-47 | Two cards have the same view if and only if they agree on every column except the number, and their numbers have the same mask. |
| `CardDto.Violations` | src/main/java/com/example/bankcards/dto/CardDTO.java:21-28 | A body passes validation if and only if it has a number of exactly 16 UTF-16 code units, with one non-blank character, and a user id. `@Size` does not reject a null. A body that passes fits the number column. |
| `CardDto.LettersPassValidation` | src/main/java/com/example/bankcards/dto/CardDTO.java:21-23 | Sixteen letters pass: the characters are not checked to be digits. |
| `CardDto.WideCharactersCountTwice` | src/main/java/com/example/bankcards/dto/CardDTO.java:21-23 | Eight characters beyond U+FFFF are 16 UTF-16 code units and pass `@Size(min = 16, max = 16)`. |
| `UserDto.View` | src/main/java/com/example/bankcards/dto/UserDTO.java:22-26 | The user view has the user's id, username and roles. |
| `UserDto.FromEntity` | src/main/java/com/example/bankcards/dto/UserDTO.java:20-27 | `fromEntity(null)` is null, and a user gives its view. |
| `UserDto.ViewForgetsOnlyPassword` | src/main/java/com/example/bankcards/dto/UserDTO.java:22-26 | Two users have the same view if and only if they differ at most in the password. |
| `UserEntity.FindByUsername` | src/main/java/com/example/bankcards/service/CardService.java:55-59 | The caller's user is found if and only if the username is registered. The user found has that username. |
| `UserService.AllUsers` | src/main/java/com/example/bankcards/service/UserService.java:50-55 | `getAllUsers` returns one view per stored user (as many views as users), and only those. |
| `UserService.CurrentUser` | src/main/java/com/example/bankcards/service/UserService.java:70-73 | The user with the id is returned. An unknown id fails with "Users not found". |
| `UserService.UserRegistry.RegisterUser` | src/main/java/com/example/bankcards/service/UserService.java:27-43 | A taken username fails with "Username already exists", and nothing is stored. Otherwise the user is stored under a fresh id, with the encoded password and roles `{role}` (`{ROLE_USER}` when none is given). Usernames stay unique, and each user has one role. |
| `UserService.UserRegistry.ChangeUserRole` | src/main/java/com/example/bankcards/service/UserService.java:61-66 | The user's roles become exactly `{newRole}`, and nothing else changes. An unknown id fails with "User not found" and changes nothing. |
| `UserService.UserRegistry.DeleteUser` | src/main/java/com/example/bankcards/service/UserService.java:80-84 | Exactly that user is removed. An unknown id fails with "User not found". |
| `CardService.CardView` | src/main/java/com/example/bankcards/service/CardService.java:69-73 | `getCardDTO` gives the masked view of the card. An unknown id fails with "Card not found". |
| `CardService.ListView` | src/main/java/com/example/bankcards/service/CardService.java:79-80 | The listing's view is the masked view with the number shown in full. |
| `CardService.UserCards` | src/main/java/com/example/bankcards/service/CardService.java:76-81 | `getAllUserCards` gives one unmasked view per card of the user (as many as the user has), and no card of anyone else. |
| `CardService.MyCards` | src/main/java/com/example/bankcards/service/CardService.java:84-94 | `getAllMyCards` is `getAllUserCards` for the caller's own id. A caller who is not registered gets "User not found". |
| `CardService.AllCards` | src/main/java/com/example/bankcards/service/CardService.java:98-103 | `getAllCards` gives one masked view per card. |
| `CardService.CheckBalance` | src/main/java/com/example/bankcards/service/CardService.java:167-179 | The stored balance comes back unchanged if and only if the caller owns the card. Otherwise the errors come in this order: unknown card, unknown caller, not the owner. Nothing is changed. |
| `CardService.NewCard` | src/main/java/com/example/bankcards/service/CardService.java:30-50 | Checks in order: a missing user id, an unknown user, an unknown status name, then an INSERT that breaks a constraint. Each error happens exactly under its condition, and a request that passes all four checks succeeds. A new card has the table's id, the number and user given, and the user's username as owner. Its status is the one given, or ACTIVE. Its balance is the one given (even a negative one), or 0. It expires three years from today. |
| `CardService.NewCardFitsTable` | src/main/java/com/example/bankcards/service/CardService.java:41-50 | The created card keeps the table well formed, and adds exactly its opening balance to the total. |
| `CardService.NewCardIgnoresClientFields` | src/main/java/com/example/bankcards/service/CardService.java:41-48 | The request's id, owner name and expiration date have no effect: the table, the user and the clock decide them. |
| `CardService.WithStatus` | src/main/java/com/example/bankcards/service/CardService.java:107-110 | Block and activate set the status whatever it was before. No other column and no other card changes. They fail only for an unknown id. |
| `CardService.LastStatusWins` | src/main/java/com/example/bankcards/service/CardService.java:128-131 | Of two status settings in a row, the later wins. So block and activate are idempotent, and block-then-activate is activate. |
| `CardService.WithStatusKeepsTable` | src/main/java/com/example/bankcards/service/CardService.java:107-110 | A status change keeps the table well formed and moves no money. |
| `CardService.LockRequested` | src/main/java/com/example/bankcards/service/CardService.java:115-124 | The owner sets LOCK_REQUEST from any status, BLOCKED included. Otherwise the errors come in this order: unknown card, unknown caller, a non-owner ("Cards belong to different users"). |
| `CardService.Transferred` | src/main/java/com/example/bankcards/service/CardService.java:136-157 | Rejections come in this order: a non-positive amount (before any lookup), a missing card, different owners, insufficient funds. On success only the two cards change: the source loses exactly `amount` and the destination gains it. A self-transfer leaves the table as it was. |
| `CardService.TransferSucceedsWhenChecksPass` | src/main/java/com/example/bankcards/service/CardService.java:137-150 | A transfer succeeds if and only if all four checks pass. |
| `CardService.TransferConservesTotal` | src/main/java/com/example/bankcards/service/CardService.java:152-156 | A transfer leaves the sum of all balances unchanged, and leaves the source balance non-negative. |
| `CardService.TransferKeepsTable` | src/main/java/com/example/bankcards/service/CardService.java:152-156 | A transfer keeps the table well formed. |
| `CardService.TransferIgnoresStatus` | src/main/java/com/example/bankcards/service/CardService.java:136-157 | Changing a card's status first gives the same outcome (the same error, or the same table with that status changed). So blocked cards can send and receive money. |
| `CardService.Deleted` | src/main/java/com/example/bankcards/service/CardService.java:161-164 | The card is removed and nothing else changes. An unknown id fails with "Card not found". |
| `CardService.DeleteDropsBalance` | src/main/java/com/example/bankcards/service/CardService.java:161-164 | Deleting a card takes its balance off the ledger's total. |
| `CardService.CardLedger.CreateCard` | src/main/java/com/example/bankcards/service/CardService.java:30-52 | Stores exactly the card `NewCard` builds, under the next generated id, and returns its masked view. On an error nothing is stored. |
| `CardService.CardLedger.BlockCard` | src/main/java/com/example/bankcards/service/CardService.java:107-111 | The table becomes `WithStatus(old, id, BLOCKED)`, and the response is the card's masked view. Errors leave the table unchanged. |
| `CardService.CardLedger.ActivateCard` | src/main/java/com/example/bankcards/service/CardService.java:128-132 | The table becomes `WithStatus(old, id, ACTIVE)`. Errors leave the table unchanged. |
| `CardService.CardLedger.BlockQueryCard` | src/main/java/com/example/bankcards/service/CardService.java:115-124 | The table becomes `LockRequested(old, …)`. Errors leave the table unchanged. |
| `CardService.CardLedger.Transfer` | src/main/java/com/example/bankcards/service/CardService.java:136-157 | Debit, then a credit of the card as it stands after the debit. The table becomes `Transferred(old, …)`, and a rejected transfer changes nothing. |
| `CardService.CardLedger.DeleteCard` | src/main/java/com/example/bankcards/service/CardService.java:161-164 | The table becomes `Deleted(old, id)`. |
| `CardController.Forward` | src/main/java/com/example/bankcards/controller/CardController.java:29-106 | A call reaches the service if and only if the caller has the endpoint's role and, for create, the body is valid. Body validation comes before the role check. A forwarded create body is the request body unchanged; it has a user id and a number that fits its column. |
| `CardController.ForwardReachesOwnHandler` | src/main/java/com/example/bankcards/controller/CardController.java:29-106 | A forwarded request reaches its own endpoint's service call with its path ids, body and amount unchanged. The caller's name is passed exactly for the handlers that take an `Authentication`: own cards, lock request, balance. |
| `CardController.HandlerAndCallerDetermineCall` | src/main/java/com/example/bankcards/controller/CardController.java:29-106 | The endpoint and the caller's name together determine the service call, so the previous row fixes what each endpoint forwards. |
| `CardController.RoleOfEachEndpoint` | src/main/java/com/example/bankcards/controller/CardController.java:29-103 | ADMIN is required for: list a user's cards, create, get, delete, block, activate. USER is required for: list own cards, block request, transfer, balance. |
| `CardController.OneRoleOneSideOfTheGate` | src/main/java/com/example/bankcards/controller/CardController.java:29-103 | A caller with a single role reaches exactly the endpoints of that role. |
| `CardController.TransferForwardsNoIdentity` | src/main/java/com/example/bankcards/controller/CardController.java:95-97 | The transfer endpoint forwards only the two ids and the amount. Every user reaches the same service call. |
| `CardController.TransferNotGatedByOwnership` | src/main/java/com/example/bankcards/controller/CardController.java:95-97 | A user who owns neither card can still move money between two cards that share an owner. |
| `CardController.ValidatedCreateSkipsBodyErrors` | src/main/java/com/example/bankcards/controller/CardController.java:47-49 | A create request that passes the controller never gets "User ID must be provided". It gets a constraint error only for a number that is already taken. |

## Left out

- Concurrency and `@Transactional` isolation: every operation is atomic and runs alone. Rollback is not needed because every error is raised before the first write.
- `BigDecimal` scale: balances are integers in minor units.
- `LocalDate.now()` is a parameter. The year range of `LocalDate` is not modelled.
- The password encoder is an uninterpreted function. BCrypt's random salt is not modelled.
- Null ids or a null amount in a transfer request (`TransferRequest.java` is not part of this model). A null amount throws a `NullPointerException` at the first check (`CardService.java:137`). A null card id passes that check. It then makes the repository reject the null id in `findById` (`CardService.java:63`). Spring Data reports that as an `InvalidDataAccessApiUsageException`; the repository is not part of this model.
- `User.java` and the `Role` and `Status` enums are not part of this model. Their shape comes from how the service uses them. Users are compared by id. The model assumes that deleting a user leaves the cards that reference that user as they are. The `user_id` column is not null (`Card.java:39-40`). So depending on the mapping in `User.java`, the real delete either cascades to the user's cards or is refused by the foreign key.
- The database may skip identity values after a failed INSERT. The model takes the next id only on success.
- `getCurrentUsers` returns the user record. Its `toString` rendering is not modelled.
- The debug `System.out.println` calls in `getAllMyCards`, HTTP status codes and response shaping.
- `JwtUtil`, `SecretKeyGenerator`, `AuthController` and `UserController`: token handling and HTTP plumbing. The caller's authorities are given as strings. The URL rules of the security filter chain are not modelled.
- The lists the repository returns are modelled as sets: their order is not modelled.
- `CardDto.MaskCardNumber`: lengths and the last four are counted in Unicode characters. Java counts UTF-16 code units, so a number with characters beyond U+FFFF is masked differently. "😀😀" is four units in Java and shows as `**** **** **** 😀😀`, while the model shows `****`. Java's `substring` can also split a surrogate pair, and a Dafny string cannot hold the result. For numbers without such characters the two agree: `Utf16Length` then equals the length.
- `CardDto.View`: the null-status branch of `fromEntity` never occurs, because a stored card always has a status.
