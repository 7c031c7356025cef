// The adoption-interest bookkeeping of UsersService (src/users/users.service.ts).
//
// The three repositories the service is given become one abstract store: the
// user table (each row with its `pets` relation, kept as the ids of the pets
// the user asked for), the zip codes of the city table and the ids of the pet
// table. The functions Submit, Withdraw, Delete, LookupById and ListAll say
// what each service operation does to that store; the class UsersService
// holds the store in fields and runs the operations step by step, and each
// of its methods is proved to agree with its function.
module Users {
  import opened Common

  type PetId = int
  type Zip = int

  /** The body of an adoption-interest request (CreateUserDTO). */
  datatype UserDTO = UserDTO(
    fullname: string,
    age: int,
    email: string,
    phoneNumber: string,
    address: string,
    zipCode: Zip,
    hasPet: bool,
    livingPlace: string,
    interestedIn: seq<PetId>)

  /** A row of the user table; `city` is the zip code of its city and `pets`
      holds the ids of the pets the user is interested in, in the order the
      pet table returns them. */
  datatype User = User(
    id: nat,
    fullname: string,
    age: int,
    email: string,
    phoneNumber: string,
    address: string,
    city: Zip,
    hasPet: bool,
    livingPlace: string,
    pets: seq<PetId>)

  /** The user, city and pet repositories as far as the service sees them.
      `nextId` is the id the user table generates for its next row. */
  datatype Store = Store(users: seq<User>, cities: set<Zip>, pets: seq<PetId>, nextId: nat)

  /** The two request validators the service imports (checkValues and
      checkEmptyValues); their definitions are not part of this model. */
  datatype Validators = Validators(
    checkValues: (UserDTO, seq<string>) -> bool,
    checkEmptyValues: UserDTO -> bool)

  /** Why an operation was refused: one case per message the service throws. */
  datatype Reason =
    | RequiredFieldsMissing
    | EmptyFields
    | NoCityWithZip(zipCode: Zip)
    | NoPetRequested
    | NoPetWithId(petId: PetId)
    | MaxRequestsReached
    | AlreadyRegistered
    | NoUserWithId(userId: int)
    | UserNotInDatabase
    | PetNotRegistered(fullname: string, petId: PetId)

  /** The HttpException a refused operation raises. */
  datatype Failure = Failure(status: Status, reason: Reason)

  /** The confirmation messages of the operations that change the store. */
  datatype Confirmation =
    | UserAdded(fullname: string)
    | UserDeleted(fullname: string)
    | PetRemoved(petId: PetId, fullname: string)

  datatype Result<T> = Ok(value: T) | Err(failure: Failure)

  /** The field names addUser requires (the service's `validValues`). */
  const ValidValues: seq<string> :=
    ["fullname", "age", "email", "phoneNumber", "address", "zipCode", "hasPet", "livingPlace", "interestedIn"]

  /** The most interests a user can reach: the quota check `pets.length > 2`
      still admits a request from a user who has two. */
  const MaxInterests: nat := 3

  predicate NoDup(s: seq<PetId>) {
    forall i, j :: 0 <= i < j < |s| ==> s[i] != s[j]
  }

  ghost function Elems(s: seq<PetId>): set<PetId> {
    set x | x in s
  }

  // ---------------------------------------------------------------------------
  // Lookups in the store

  /** The index of the first element satisfying `p`, as a `findOne` or an
      `indexOf` finds it. */
  function FindFirst<T>(xs: seq<T>, p: T -> bool): (r: Option<nat>)
    ensures r.None? <==> forall i :: 0 <= i < |xs| ==> !p(xs[i])
    ensures r.Some? ==> r.value < |xs| && p(xs[r.value])
    ensures r.Some? ==> forall i :: 0 <= i < r.value ==> !p(xs[i])
  {
    if xs == [] then None
    else if p(xs[0]) then Some(0)
    else match FindFirst(xs[1..], p)
      case None => None
      case Some(k) => Some(k + 1)
  }

  /** The user `findOne({ where: { email } })` returns; emails are compared
      exactly, not under a database collation. */
  function IndexOfEmail(users: seq<User>, email: string): (r: Option<nat>)
    ensures r.None? <==> forall i :: 0 <= i < |users| ==> users[i].email != email
    ensures r.Some? ==> r.value < |users| && users[r.value].email == email
  {
    FindFirst(users, (u: User) => u.email == email)
  }

  /** The user `findOne({ where: { id } })` returns. */
  function IndexOfId(users: seq<User>, userId: int): (r: Option<nat>)
    ensures r.None? <==> forall i :: 0 <= i < |users| ==> users[i].id != userId
    ensures r.Some? ==> r.value < |users| && users[r.value].id == userId
  {
    FindFirst(users, (u: User) => u.id == userId)
  }

  /** The rows of the pet table whose id is one of `ids`, in table order. */
  function Filter(table: seq<PetId>, ids: seq<PetId>): (r: seq<PetId>)
    ensures forall x :: x in r <==> x in table && x in ids
    ensures NoDup(table) ==> NoDup(r)
  {
    if table == [] then []
    else
      var rest := Filter(table[1..], ids);
      assert NoDup(table) ==> table[0] !in table[1..];
      if table[0] in ids then [table[0]] + rest else rest
  }

  /** The batch `find` whose where-list holds one `{ id }` criterion per
      requested id: it silently omits ids with no pet, and a where-list with
      no criterion at all selects every row of the table. */
  function FindPets(table: seq<PetId>, ids: seq<PetId>): (r: seq<PetId>)
    ensures ids == [] ==> r == table
    ensures ids != [] ==> forall x :: x in r <==> x in table && x in ids
    ensures NoDup(table) ==> NoDup(r)
  {
    if ids == [] then table else Filter(table, ids)
  }

  // ---------------------------------------------------------------------------
  // The store invariant

  ghost predicate ValidUser(u: User, pets: seq<PetId>, nextId: nat) {
    && u.id < nextId
    && NoDup(u.pets)
    && |u.pets| <= MaxInterests
    && forall p :: p in u.pets ==> p in pets
  }

  /** Pet ids and user ids are primary keys, no two users share an email, and
      every user's interests are distinct pets of the pet table, at most
      MaxInterests of them. */
  ghost predicate ValidStore(s: Store) {
    && NoDup(s.pets)
    && (forall i, j :: 0 <= i < j < |s.users| ==>
          s.users[i].id != s.users[j].id && s.users[i].email != s.users[j].email)
    && (forall i :: 0 <= i < |s.users| ==> ValidUser(s.users[i], s.pets, s.nextId))
  }

  // ---------------------------------------------------------------------------
  // Facts about interest lists

  lemma {:induction false} DistinctLength(s: seq<PetId>)
    requires NoDup(s)
    ensures |Elems(s)| == |s|
  {
    if s != [] {
      assert NoDup(s[1..]) by {
        forall i, j | 0 <= i < j < |s[1..]| ensures s[1..][i] != s[1..][j] {
          assert s[1..][i] == s[i + 1] && s[1..][j] == s[j + 1];
        }
      }
      DistinctLength(s[1..]);
      assert Elems(s) == {s[0]} + Elems(s[1..]);
      assert s[0] !in Elems(s[1..]);
    }
  }

  /** Distinct lists with the same elements have the same length. */
  lemma SameElemsSameLength(a: seq<PetId>, b: seq<PetId>)
    requires NoDup(a) && NoDup(b) && Elems(a) == Elems(b)
    ensures |a| == |b|
  {
    DistinctLength(a);
    DistinctLength(b);
  }

  /** The pets `find` returns for a single existing id: exactly that pet. */
  lemma FindSingle(table: seq<PetId>, x: PetId)
    requires NoDup(table) && x in table
    ensures FindPets(table, [x]) == [x]
  {
    var r := FindPets(table, [x]);
    assert Elems(r) == Elems([x]);
    SameElemsSameLength(r, [x]);
    assert r[0] == x;
  }

  /** Re-finding the interests plus one new pet adds exactly that pet. */
  lemma ExtendedInterests(table: seq<PetId>, had: seq<PetId>, x: PetId)
    requires NoDup(table) && NoDup(had) && x in table && x !in had
    requires forall p :: p in had ==> p in table
    ensures var r := FindPets(table, had + [x]);
      && NoDup(r)
      && Elems(r) == Elems(had) + {x}
      && |r| == |had| + 1
  {
    var ids := had + [x];
    var r := FindPets(table, ids);
    assert r == Filter(table, ids);
    forall p ensures p in r <==> p in had || p == x {
      assert p in ids <==> p in had || p == x;
    }
    assert Elems(r) == Elems(had) + {x};
    DistinctLength(r);
    DistinctLength(had);
    assert x !in Elems(had);
  }

  /** The interests left after `splice(k, 1)`, re-found, or set to `[]` when
      none is left: exactly the old ones without the removed pet. */
  lemma WithdrawnInterests(table: seq<PetId>, had: seq<PetId>, k: nat)
    requires NoDup(table) && NoDup(had) && k < |had|
    requires forall p :: p in had ==> p in table
    ensures var remaining := had[..k] + had[k + 1..];
      var r := if |remaining| == 0 then [] else FindPets(table, remaining);
      && NoDup(r)
      && (forall p :: p in r ==> p in table)
      && Elems(r) == Elems(had) - {had[k]}
      && |r| == |had| - 1
  {
    var remaining := had[..k] + had[k + 1..];
    var r := if |remaining| == 0 then [] else FindPets(table, remaining);
    assert had == had[..k] + [had[k]] + had[k + 1..];
    assert had[k] !in remaining by {
      forall i | 0 <= i < |remaining| ensures remaining[i] != had[k] {
        if i < k { assert remaining[i] == had[i]; } else { assert remaining[i] == had[i + 1]; }
      }
    }
    assert Elems(remaining) == Elems(had) - {had[k]};
    assert Elems(r) == Elems(had) - {had[k]};
    DistinctLength(r);
    DistinctLength(had);
  }

  // ---------------------------------------------------------------------------
  // The operations on the store

  /** The five gates addUser checks before it looks the user up. */
  predicate PassesGates(s: Store, v: Validators, dto: UserDTO) {
    && v.checkValues(dto, ValidValues)
    && v.checkEmptyValues(dto)
    && dto.zipCode in s.cities
    && |dto.interestedIn| > 0
    && dto.interestedIn[0] in s.pets
  }

  /** The user `new User(...)` builds from a request, its city and its pets. */
  function NewUser(id: nat, dto: UserDTO, pets: seq<PetId>): User {
    User(id, dto.fullname, dto.age, dto.email, dto.phoneNumber, dto.address,
         dto.zipCode, dto.hasPet, dto.livingPlace, pets)
  }

  /** addUser: register interest in the pet `dto.interestedIn[0]`. */
  function Submit(s: Store, v: Validators, dto: UserDTO): (r: (Store, Result<Confirmation>))
    requires ValidStore(s)
    ensures ValidStore(r.0)
    // every refusal is a BAD_REQUEST and leaves the store as it was
    ensures r.1.Err? ==> r.0 == s && r.1.failure.status == BadRequest
    ensures r.1.Ok? ==> PassesGates(s, v, dto) && r.1.value == UserAdded(dto.fullname)
    // the gates, in the order they are checked
    ensures !v.checkValues(dto, ValidValues) ==>
      r.1 == Err(Failure(BadRequest, RequiredFieldsMissing))
    ensures v.checkValues(dto, ValidValues) && !v.checkEmptyValues(dto) ==>
      r.1 == Err(Failure(BadRequest, EmptyFields))
    ensures v.checkValues(dto, ValidValues) && v.checkEmptyValues(dto) && dto.zipCode !in s.cities ==>
      r.1 == Err(Failure(BadRequest, NoCityWithZip(dto.zipCode)))
    ensures v.checkValues(dto, ValidValues) && v.checkEmptyValues(dto) && dto.zipCode in s.cities
            && dto.interestedIn == [] ==>
      r.1 == Err(Failure(BadRequest, NoPetRequested))
    ensures v.checkValues(dto, ValidValues) && v.checkEmptyValues(dto) && dto.zipCode in s.cities
            && dto.interestedIn != [] && dto.interestedIn[0] !in s.pets ==>
      r.1 == Err(Failure(BadRequest, NoPetWithId(dto.interestedIn[0])))
    // a first request creates one user, interested in the first pet only
    ensures PassesGates(s, v, dto) && IndexOfEmail(s.users, dto.email).None? ==>
      && r.1.Ok?
      && r.0 == s.(users := s.users + [NewUser(s.nextId, dto, [dto.interestedIn[0]])],
                   nextId := s.nextId + 1)
    // a known user: quota, then duplicate, then one more interest
    ensures PassesGates(s, v, dto) && IndexOfEmail(s.users, dto.email).Some? ==>
      var i := IndexOfEmail(s.users, dto.email).value;
      var had := s.users[i].pets;
      if |had| > 2 then
        r == (s, Err(Failure(BadRequest, MaxRequestsReached)))
      else if dto.interestedIn[0] in had then
        r == (s, Err(Failure(BadRequest, AlreadyRegistered)))
      else
        && r.1.Ok?
        && |r.0.users| == |s.users|
        && r.0 == s.(users := s.users[i := s.users[i].(pets := r.0.users[i].pets)])
        && Elems(r.0.users[i].pets) == Elems(had) + {dto.interestedIn[0]}
        && |r.0.users[i].pets| == |had| + 1
  {
    if !v.checkValues(dto, ValidValues) then (s, Err(Failure(BadRequest, RequiredFieldsMissing)))
    else if !v.checkEmptyValues(dto) then (s, Err(Failure(BadRequest, EmptyFields)))
    else if dto.zipCode !in s.cities then (s, Err(Failure(BadRequest, NoCityWithZip(dto.zipCode))))
    else if |dto.interestedIn| == 0 then (s, Err(Failure(BadRequest, NoPetRequested)))
    else if dto.interestedIn[0] !in s.pets then
      (s, Err(Failure(BadRequest, NoPetWithId(dto.interestedIn[0]))))
    else
      var anchor := dto.interestedIn[0];
      match IndexOfEmail(s.users, dto.email)
      case None =>
        var requestedPet := FindPets(s.pets, [anchor]);
        FindSingle(s.pets, anchor);
        var s' := s.(users := s.users + [NewUser(s.nextId, dto, requestedPet)], nextId := s.nextId + 1);
        assert ValidStore(s') by {
          assert forall i :: 0 <= i < |s.users| ==> s'.users[i] == s.users[i];
          assert s'.users[|s.users|].email == dto.email;
        }
        (s', Ok(UserAdded(dto.fullname)))
      case Some(i) =>
        var user := s.users[i];
        if |user.pets| > 2 then (s, Err(Failure(BadRequest, MaxRequestsReached)))
        else if anchor in user.pets then (s, Err(Failure(BadRequest, AlreadyRegistered)))
        else
          var petRequested := user.pets + [anchor];
          var requestedPet := FindPets(s.pets, petRequested);
          assert ValidUser(user, s.pets, s.nextId);
          ExtendedInterests(s.pets, user.pets, anchor);
          var s' := s.(users := s.users[i := user.(pets := requestedPet)]);
          assert ValidUser(s'.users[i], s'.pets, s'.nextId);
          (s', Ok(UserAdded(dto.fullname)))
  }

  /** removePet: withdraw the interest of the user `email` in the pet `petId`. */
  function Withdraw(s: Store, email: string, petId: PetId): (r: (Store, Result<Confirmation>))
    requires ValidStore(s)
    ensures ValidStore(r.0)
    // every refusal is a CONFLICT and leaves the store as it was
    ensures r.1.Err? ==> r.0 == s && r.1.failure.status == Conflict
    ensures IndexOfEmail(s.users, email).None? ==>
      r.1 == Err(Failure(Conflict, UserNotInDatabase))
    ensures IndexOfEmail(s.users, email).Some? ==>
      var i := IndexOfEmail(s.users, email).value;
      var user := s.users[i];
      if petId !in user.pets then
        r.1 == Err(Failure(Conflict, PetNotRegistered(user.fullname, petId)))
      else
        && r.1 == Ok(PetRemoved(petId, user.fullname))
        && |r.0.users| == |s.users|
        && r.0 == s.(users := s.users[i := user.(pets := r.0.users[i].pets)])
        && Elems(r.0.users[i].pets) == Elems(user.pets) - {petId}
        && |r.0.users[i].pets| == |user.pets| - 1
  {
    match IndexOfEmail(s.users, email)
    case None => (s, Err(Failure(Conflict, UserNotInDatabase)))
    case Some(i) =>
      var user := s.users[i];
      var requestedPet := user.pets;
      if petId !in requestedPet then
        (s, Err(Failure(Conflict, PetNotRegistered(user.fullname, petId))))
      else
        var k := FindFirst(requestedPet, (p: PetId) => p == petId).value;
        var remaining := requestedPet[..k] + requestedPet[k + 1..];
        var newPets := if |remaining| == 0 then [] else FindPets(s.pets, remaining);
        assert ValidUser(user, s.pets, s.nextId);
        WithdrawnInterests(s.pets, requestedPet, k);
        var s' := s.(users := s.users[i := user.(pets := newPets)]);
        assert ValidUser(s'.users[i], s'.pets, s'.nextId);
        (s', Ok(PetRemoved(petId, user.fullname)))
  }

  /** deleteUser: remove the user `email`. */
  function Delete(s: Store, email: string): (r: (Store, Result<Confirmation>))
    requires ValidStore(s)
    ensures ValidStore(r.0)
    ensures r.1.Err? <==> forall u :: u in s.users ==> u.email != email
    ensures r.1.Err? ==> r == (s, Err(Failure(BadRequest, UserNotInDatabase)))
    ensures r.1.Ok? ==>
      && r.0.cities == s.cities && r.0.pets == s.pets && r.0.nextId == s.nextId
      && |r.0.users| == |s.users| - 1
      && (forall u :: u in r.0.users <==> u in s.users && u.email != email)
      && exists u :: u in s.users && u.email == email && r.1 == Ok(UserDeleted(u.fullname))
  {
    match IndexOfEmail(s.users, email)
    case None => (s, Err(Failure(BadRequest, UserNotInDatabase)))
    case Some(i) =>
      var user := s.users[i];
      var s' := s.(users := s.users[..i] + s.users[i + 1..]);
      RemovedUser(s, i);
      (s', Ok(UserDeleted(user.fullname)))
  }

  /** Removing the row at index `i` keeps the store valid and removes exactly
      the user with that row's email. */
  lemma RemovedUser(s: Store, i: nat)
    requires ValidStore(s) && i < |s.users|
    ensures var s' := s.(users := s.users[..i] + s.users[i + 1..]);
      && ValidStore(s')
      && forall u :: u in s'.users <==> u in s.users && u.email != s.users[i].email
  {
  }

  /** getUserById: the user with id `userId`, with its interests. */
  function LookupById(s: Store, userId: int): (r: Result<User>)
    ensures r.Err? <==> forall u :: u in s.users ==> u.id != userId
    ensures r.Err? ==> r.failure == Failure(BadRequest, NoUserWithId(userId))
    ensures r.Ok? ==> r.value in s.users && r.value.id == userId
  {
    match IndexOfId(s.users, userId)
    case None => Err(Failure(BadRequest, NoUserWithId(userId)))
    case Some(i) => Ok(s.users[i])
  }

  /** allUsers: every user, with its interests. */
  function ListAll(s: Store): (r: seq<User>)
    requires ValidStore(s)
    ensures forall u :: u in r <==> LookupById(s, u.id) == Ok(u)
  {
    assert forall u :: u in s.users ==> LookupById(s, u.id) == Ok(u) by {
      forall u | u in s.users ensures LookupById(s, u.id) == Ok(u) {
        var j :| 0 <= j < |s.users| && s.users[j] == u;
        var k := IndexOfId(s.users, u.id).value;
        assert k == j;
      }
    }
    s.users
  }

  // ---------------------------------------------------------------------------
  // Properties that span several operations

  /** The quota check admits a user holding two interests, who then holds three. */
  lemma QuotaAdmitsThird(s: Store, v: Validators, dto: UserDTO)
    requires ValidStore(s) && PassesGates(s, v, dto)
    requires IndexOfEmail(s.users, dto.email).Some?
    requires |s.users[IndexOfEmail(s.users, dto.email).value].pets| == 2
    requires dto.interestedIn[0] !in s.users[IndexOfEmail(s.users, dto.email).value].pets
    ensures Submit(s, v, dto).1.Ok?
    ensures |Submit(s, v, dto).0.users[IndexOfEmail(s.users, dto.email).value].pets| == 3
  {
  }

  /** The index `findOne` gives an email is the only one with that email. */
  lemma EmailIndexUnique(s: Store, email: string, j: nat)
    requires ValidStore(s) && j < |s.users| && s.users[j].email == email
    ensures IndexOfEmail(s.users, email) == Some(j)
  {
  }

  /** Repeating a request that succeeded is refused and changes nothing. */
  lemma SubmitAgainRefused(s: Store, v: Validators, dto: UserDTO)
    requires ValidStore(s)
    requires Submit(s, v, dto).1.Ok?
    ensures var s1 := Submit(s, v, dto).0;
      && Submit(s1, v, dto).0 == s1
      && Submit(s1, v, dto).1.Err?
      && Submit(s1, v, dto).1.failure.reason in {MaxRequestsReached, AlreadyRegistered}
  {
    var s1 := Submit(s, v, dto).0;
    var anchor := dto.interestedIn[0];
    assert PassesGates(s1, v, dto);
    match IndexOfEmail(s.users, dto.email)
    case None =>
      var j := |s.users|;
      assert s1.users[j].email == dto.email && s1.users[j].pets == [anchor];
      EmailIndexUnique(s1, dto.email, j);
    case Some(i) =>
      EmailIndexUnique(s1, dto.email, i);
      assert anchor in Elems(s1.users[i].pets);
  }

  /** Withdrawing the same interest twice: the second call is a CONFLICT that
      leaves the store as the first call left it. */
  lemma WithdrawTwice(s: Store, email: string, petId: PetId)
    requires ValidStore(s)
    requires Withdraw(s, email, petId).1.Ok?
    ensures var s1 := Withdraw(s, email, petId).0;
      && Withdraw(s1, email, petId).0 == s1
      && Withdraw(s1, email, petId).1.failure.status == Conflict
      && Withdraw(s1, email, petId).1.failure.reason.PetNotRegistered?
  {
  }

  /** A new interest followed by its withdrawal gives the user back the
      interests it had. */
  lemma SubmitThenWithdraw(s: Store, v: Validators, dto: UserDTO)
    requires ValidStore(s)
    requires Submit(s, v, dto).1.Ok? && IndexOfEmail(s.users, dto.email).Some?
    ensures var i := IndexOfEmail(s.users, dto.email).value;
      var s1 := Submit(s, v, dto).0;
      var s2 := Withdraw(s1, dto.email, dto.interestedIn[0]).0;
      && Withdraw(s1, dto.email, dto.interestedIn[0]).1.Ok?
      && Elems(s2.users[i].pets) == Elems(s.users[i].pets)
      && |s2.users[i].pets| == |s.users[i].pets|
      && s2 == s.(users := s.users[i := s.users[i].(pets := s2.users[i].pets)])
  {
  }

  /** After a delete the user is gone from every lookup. */
  lemma DeleteThenGone(s: Store, email: string, u: User)
    requires ValidStore(s)
    requires u in s.users && u.email == email
    ensures var s1 := Delete(s, email).0;
      && Delete(s, email).1 == Ok(UserDeleted(u.fullname))
      && IndexOfEmail(s1.users, email).None?
      && LookupById(s1, u.id).Err?
      && u !in ListAll(s1)
      && Delete(s1, email) == (s1, Err(Failure(BadRequest, UserNotInDatabase)))
  {
  }

  // ---------------------------------------------------------------------------
  // The service object

  /** UsersService: the three repositories as mutable fields, and the service
      operations as methods that change them step by step. Each method is the
      step-by-step form of the store function named in its ensures clause
      (Submit, Withdraw, Delete, LookupById, ListAll), which carries the
      properties. */
  class UsersService {
    const checks: Validators
    var users: seq<User>
    var cities: set<Zip>
    var pets: seq<PetId>
    var nextId: nat

    function State(): Store
      reads this
    {
      Store(users, cities, pets, nextId)
    }

    ghost predicate Valid()
      reads this
    {
      ValidStore(State())
    }

    /** The service over the repositories it is given, and the validators. */
    constructor (checks: Validators, repositories: Store)
      requires ValidStore(repositories)
      ensures Valid() && this.checks == checks
      ensures State() == repositories
    {
      this.checks := checks;
      this.users := repositories.users;
      this.cities := repositories.cities;
      this.pets := repositories.pets;
      this.nextId := repositories.nextId;
    }

    method AddUser(dto: UserDTO) returns (r: Result<Confirmation>)
      requires Valid()
      modifies this
      ensures Valid()
      ensures (State(), r) == Submit(old(State()), checks, dto)
    {
      ghost var spec := Submit(State(), checks, dto);
      if !checks.checkValues(dto, ValidValues) {
        return Err(Failure(BadRequest, RequiredFieldsMissing));
      }
      if !checks.checkEmptyValues(dto) {
        return Err(Failure(BadRequest, EmptyFields));
      }
      if dto.zipCode !in cities {
        return Err(Failure(BadRequest, NoCityWithZip(dto.zipCode)));
      }
      if |dto.interestedIn| == 0 {
        return Err(Failure(BadRequest, NoPetRequested));
      }
      if dto.interestedIn[0] !in pets {
        return Err(Failure(BadRequest, NoPetWithId(dto.interestedIn[0])));
      }
      var found := IndexOfEmail(users, dto.email);
      if found.None? {
        var requestedPet := FindPets(pets, [dto.interestedIn[0]]);
        var newUser := NewUser(nextId, dto, requestedPet);
        users := users + [newUser];
        nextId := nextId + 1;
        assert State() == spec.0;
        return Ok(UserAdded(newUser.fullname));
      }
      var user := users[found.value];
      if |user.pets| > 2 {
        return Err(Failure(BadRequest, MaxRequestsReached));
      }
      var petRequested := user.pets;
      if dto.interestedIn[0] in petRequested {
        return Err(Failure(BadRequest, AlreadyRegistered));
      }
      petRequested := petRequested + [dto.interestedIn[0]];
      var requestedPet := FindPets(pets, petRequested);
      user := user.(pets := requestedPet);
      users := users[found.value := user];
      assert State() == spec.0;
      return Ok(UserAdded(dto.fullname));
    }

    method RemovePet(userEmail: string, petId: PetId) returns (r: Result<Confirmation>)
      requires Valid()
      modifies this
      ensures Valid()
      ensures (State(), r) == Withdraw(old(State()), userEmail, petId)
    {
      ghost var spec := Withdraw(State(), userEmail, petId);
      var found := IndexOfEmail(users, userEmail);
      if found.None? {
        return Err(Failure(Conflict, UserNotInDatabase));
      }
      var user := users[found.value];
      var requestedPet := user.pets;
      if petId !in requestedPet {
        return Err(Failure(Conflict, PetNotRegistered(user.fullname, petId)));
      }
      var indexPet := FindFirst(requestedPet, (p: PetId) => p == petId).value;
      requestedPet := requestedPet[..indexPet] + requestedPet[indexPet + 1..];
      var newPets := FindPets(pets, requestedPet);
      user := user.(pets := newPets);
      if |requestedPet| == 0 {
        user := user.(pets := []);
      }
      users := users[found.value := user];
      assert State() == spec.0;
      return Ok(PetRemoved(petId, user.fullname));
    }

    method DeleteUser(userEmail: string) returns (r: Result<Confirmation>)
      requires Valid()
      modifies this
      ensures Valid()
      ensures (State(), r) == Delete(old(State()), userEmail)
    {
      var found := IndexOfEmail(users, userEmail);
      if found.None? {
        return Err(Failure(BadRequest, UserNotInDatabase));
      }
      var i := found.value;
      var userName := users[i].fullname;
      users := users[..i] + users[i + 1..];
      return Ok(UserDeleted(userName));
    }

    method GetUserById(userId: int) returns (r: Result<User>)
      ensures r == LookupById(State(), userId)
    {
      var found := IndexOfId(users, userId);
      if found.None? {
        return Err(Failure(BadRequest, NoUserWithId(userId)));
      }
      return Ok(users[found.value]);
    }

    method AllUsers() returns (r: seq<User>)
      requires Valid()
      ensures r == ListAll(State())
    {
      return users;
    }
  }
}
