# Adoptapp adoption-interest core, modelled in Dafny

This project models three pieces of the Adoptapp back end.

- **The adoption-interest bookkeeping of `UsersService`** (`users_service.dfy`, module `Users`). A person asks to adopt a pet by submitting a user profile. `addUser` checks five gates in order: required fields present, no empty field, a city with the zip code, a non-empty pet list, and a first pet that exists. It then either creates the user or adds that pet to the user's interests. `removePet` withdraws one interest. `deleteUser` removes a user. `getUserById` and `allUsers` are lookups. The user, city and pet repositories become one abstract `Store`: the user rows (each with the ids of the pets it is interested in), the zip codes of the cities and the ids of the pets. `Submit`, `Withdraw`, `Delete`, `LookupById` and `ListAll` are functions that say what each operation does to a store. Their contracts state the gate order, "a refusal changes nothing", the status of each refusal, and exactly which user changes and how. The class `UsersService` holds the store in fields. Its methods change those fields step by step, as the service does, and each method is proved equal to its function. The invariant `ValidStore` is preserved by every operation: user ids and emails are unique, and every interest list has distinct existing pets, at most three of them.
- **The `Pet` entity** (`pet_entity.dfy`, module `PetEntity`). A class with the entity's fields, its getters and its setters. Each setter's contract states the whole new state. `SetAvailable` is proved to change nothing.
- **The `RolesGuard` access decision** (`roles_guard.dfy`, module `RolesGuard`). `CanActivate` is a total function of the public flag, the roles metadata, the admin key and the caller's role. It returns `Allowed` or an Unauthorized rejection, never anything else.

Two behaviours of the code are modelled as written, where a plain description of the service would suggest otherwise:

- A first-time user is created interested in `interestedIn[0]` only (src/users/users.service.ts:58-61), not in every pet of the request. `Submit` states this.
- The quota check `user.pets.length > 2` (src/users/users.service.ts:71) admits a request from a user who has two interests. Such a user ends up with three (`QuotaAdmitsThird`). The bound the invariant keeps is therefore three (`MaxInterests`), not two.

The batch pet lookup (`find` with one `{ id }` criterion per id) returns the matching rows of the pet table and silently drops ids with no pet. The query has no `order`, so the database promises no row order; the model chooses table order. With an empty criterion list it returns every row. That last case is why `removePet` sets the interests to `[]` itself when the last one is withdrawn (src/users/users.service.ts:177-179). `FindPets` states this behaviour, and `WithdrawnInterests` shows that the override gives the empty list.

## Model

| member | source | states |
|---|---|---|
| `Users.FindFirst` | src/users/users.service.ts:170 | the index found (as `indexOf` or `findOne` finds it) is the first element satisfying the criterion; there is none exactly when no element satisfies it |
| `Users.IndexOfEmail` | src/users/users.service.ts:53-54 | the lookup by email finds a user with that email, and finds none exactly when no user has it |
| `Users.IndexOfId` | src/users/users.service.ts:117-118 | the lookup by id finds a user with that id, and finds none exactly when no user has it |
| `Users.Filter` | src/users/users.service.ts:83-84 | a pet is returned exactly when it is in the pet table and among the requested ids; no pet is returned twice |
| `Users.FindPets` | src/users/users.service.ts:173-174 | the batch find omits unknown ids, returns no duplicates, and returns the whole pet table for an empty id list |
| `Users.FindSingle` | src/users/users.service.ts:58-59 | finding one existing pet id returns exactly that pet |
| `Users.ExtendedInterests` | src/users/users.service.ts:75-86 | re-finding a user's interests plus one new existing pet gives the old interests plus that pet, distinct, one longer |
| `Users.WithdrawnInterests` | src/users/users.service.ts:163-179 | splicing one pet out and re-finding the rest (or taking `[]` when nothing is left) gives the old interests minus that pet, one shorter |
| `Users.Submit` | src/users/users.service.ts:24-96 | the store invariant is kept. Every refusal is BAD_REQUEST and leaves the store unchanged. The gates fail in order: required fields, empty fields, unknown zip code, empty pet list, unknown first pet. A new email creates exactly one user, with the next id and interests exactly `[interestedIn[0]]`. A known user holding more than 2 interests is refused with the quota error, and one already interested in the pet with the duplicate error. Otherwise only that user's interests change: they become the old set plus the pet, one longer |
| `Users.Withdraw` | src/users/users.service.ts:154-190 | the store invariant is kept. Every refusal is CONFLICT and leaves the store unchanged. An unknown email is refused, and so is a pet the user is not interested in. Otherwise only that user's interests change: they become the old set minus the pet, one shorter, and empty when it was the last |
| `Users.Delete` | src/users/users.service.ts:132-152 | the call fails exactly when no user has the email, with BAD_REQUEST and no change. Otherwise the users afterwards are exactly the old users without that email, one fewer. The confirmation names the removed user, and cities, pets and the id counter are unchanged |
| `Users.LookupById` | src/users/users.service.ts:115-130 | the call fails, with BAD_REQUEST, exactly when no user has the id; otherwise it returns a stored user with that id |
| `Users.ListAll` | src/users/users.service.ts:98-113 | the list holds exactly the users that lookup by id returns |
| `Users.QuotaAdmitsThird` | src/users/users.service.ts:71-88 | a user with two interests who asks for a new pet is accepted and then holds three |
| `Users.SubmitAgainRefused` | src/users/users.service.ts:71-78 | repeating a request that succeeded is refused (quota or duplicate) and changes nothing |
| `Users.WithdrawTwice` | src/users/users.service.ts:159-189 | after a successful withdrawal, the same withdrawal is a CONFLICT "not registered" refusal that leaves the store as the first call left it |
| `Users.SubmitThenWithdraw` | src/users/users.service.ts:71-182 | adding an interest to a known user and then withdrawing it succeeds and restores that user's interest set and count; nothing else differs from the start |
| `Users.DeleteThenGone` | src/users/users.service.ts:132-144 | after deleting a user, its email and its id are found by no lookup, it is missing from the list, and deleting it again fails with no change |
| `Users.UsersService.constructor` | src/users/users.service.ts:13-20 | the service holds exactly the contents of the repositories it is given, which must satisfy the store invariant |
| `Users.UsersService.AddUser` | src/users/users.service.ts:24-96 | the fields after the call and the result are exactly what `Submit` gives for the store before it; the invariant is kept |
| `Users.UsersService.RemovePet` | src/users/users.service.ts:154-190 | the fields after the call and the result are exactly what `Withdraw` gives; the invariant is kept |
| `Users.UsersService.DeleteUser` | src/users/users.service.ts:132-152 | the fields after the call and the result are exactly what `Delete` gives; the invariant is kept |
| `Users.UsersService.GetUserById` | src/users/users.service.ts:115-130 | returns what `LookupById` gives on the current store |
| `Users.UsersService.AllUsers` | src/users/users.service.ts:98-113 | returns what `ListAll` gives on the current store |
| `PetEntity.Pet.constructor` | src/pets/entities/pet.entity.ts:40-76 | the eight given fields are stored and read back unchanged by the getters; `available` is true and `interested` is 0 |
| `PetEntity.Pet.SetAge` | src/pets/entities/pet.entity.ts:77-79 | `GetAge` returns the new age and no other field changes |
| `PetEntity.Pet.SetDescription` | src/pets/entities/pet.entity.ts:80-82 | `GetDescription` returns the new description and no other field changes |
| `PetEntity.Pet.SetInterested` | src/pets/entities/pet.entity.ts:83-85 | `interested` grows by exactly one and no other field changes |
| `PetEntity.Pet.SetUrlImg` | src/pets/entities/pet.entity.ts:86-88 | `GetUrlImg` returns the new image URL and no other field changes |
| `PetEntity.Pet.SetAvailable` | src/pets/entities/pet.entity.ts:89-91 | nothing changes, `available` included |
| `RolesGuard.AnyRoleIs` | src/auth/guards/roles.guard.ts:54 | `roles.some(role => role === roleUser)` holds exactly when the caller has a role and it is in the list |
| `RolesGuard.CanActivate` | src/auth/guards/roles.guard.ts:13-60 | the only refusal is Unauthorized with the fixed message. A public handler is always allowed. With no roles metadata, the call is allowed exactly when the admin key is unset or empty, or equals the caller's role. With roles metadata, it is allowed exactly when the caller is ADMIN or EDITOR or has one of the listed roles |
| `RolesGuard.AdminKeyIgnoredWithRoles` | src/auth/guards/roles.guard.ts:40-59 | when roles metadata is present, the admin key does not affect the decision |

## Left out

- The repositories, query options and relation loading. They are an abstract in-memory store, and every call is atomic and sequential (no async interleaving, no concurrent requests).
- Failures of the store itself (a rejected `findOne`, `save` or `remove`). The service catches these into the same BAD_REQUEST or CONFLICT exception; the model has no such failure. `allUsers` therefore always succeeds: its `if (!allUsers)` branch cannot fire, because `find` returns an array.
- The validators `checkValues` and `checkEmptyValues`. src/Services/valuesValidation is not part of this model, so the service is given them as two function values (`Validators`), and the model assumes nothing about them.
- `Number(userDTO.zipCode)`. The request's zip code is an integer, so the conversion is the identity; strings that convert to NaN are not modelled.
- Message texts. Each thrown message is a case of `Reason` and each confirmation a case of `Confirmation`, with the values the text interpolates.
- Users.UsersService.constructor: the injected tables are assumed to satisfy `ValidStore`. Primary keys, the join-table key, foreign keys and the auto-increment id come from the schema, but two conjuncts are assumptions the source does not check: that no two users share an email (the User entity is not part of this model, and src/auth/auth.service.ts:52 also creates users), and that no user has more than `MaxInterests` interests (only this service's own `addUser` keeps that).
- The `User` entity. Its file is not part of this model; a user is the record of the fields `new User(...)` receives, with its city as the zip code, its pets as pet ids, and an id from a counter. Lookups return pet ids rather than loaded `Pet` objects.
- Email case. The service itself does no lower-casing, but it does not compare emails either: the lookups by email (src/users/users.service.ts:53-54, 134-135, 156-157) run as `WHERE email = …` in MySQL, under the email column's collation, which is case-insensitive by default. The model's store compares emails exactly, so a request with `A@X.com` creates a second user where the database would find the stored `a@x.com`; case-insensitive matching is not captured.
- PetEntity.Pet.constructor: in the source, `available` and `interested` stay unset on the new object until the row is inserted, where the column defaults `true` and `0` apply. The model gives the object those defaults at once.
- Pet `id` and `creationDate` are generated by the ORM and never used by this core. `city` and `attributes` are kept as ids.
- Pet `age` is a JavaScript number (a double, possibly fractional); the model uses an unbounded integer.
- The declared type of `available` is the literal type `true`. The model uses `bool`.
- `interested` is a JavaScript number, a double, which stops counting exactly past 2^53. The model uses an unbounded integer.
- In the guard, `Reflector` and `ExecutionContext`: the metadata and `roleUser` are plain inputs. The public flag is a boolean with undefined read as false. The admin key and the caller's role are optional strings. src/constants/roles is not part of this model, so `ROLES.ADMIN` and `ROLES.EDITOR` are taken to be "ADMIN" and "EDITOR".
- src/auth/auth.service.ts (password check, JWT signing, confirmation email, transaction), src/app.module.ts and src/role/role.module.ts (wiring), and the Adoption entity (declarations only). None has a rule of its own to state.
