/** The user table the two sign-in providers resolve against: the records, the
    lookups the resolvers make, and the invariants a resolution keeps. */
module Users {
  import opened Wrappers

  /** The `verificationStatus` flags of a record. */
  datatype Verification = Verification(email: bool, phone: bool, aadhaar: bool, pan: bool)

  /** A record of the user table; `id` is the record's `_id`. Only the fields the
      resolvers read or write are kept. */
  datatype User = User(
    id: nat,
    googleId: Option<string>,
    digiLockerId: Option<string>,
    firstName: string,
    lastName: string,
    email: string,
    phone: string,
    aadhaar: Option<string>,
    dateOfBirth: Option<string>,
    gender: Option<string>,
    avatar: Option<string>,
    password: string,
    verification: Verification,
    role: string)

  const PlaceholderPhone := "0000000000"
  const CitizenRole := "citizen"

  /** The queries the resolvers pass to `findOne` and `findById`. An Aadhaar number the
      profile does not carry matches no record. */
  datatype Query =
    | ByGoogleId(googleId: string)
    | ByDigiLockerId(digiLockerId: string)
    | ByEmail(email: string)
    | ByEmailOrAadhaar(email: string, aadhaar: Option<string>)
    | ById(id: nat)

  predicate Matches(u: User, q: Query) {
    match q
    case ByGoogleId(g) => u.googleId == Some(g)
    case ByDigiLockerId(d) => u.digiLockerId == Some(d)
    case ByEmail(e) => u.email == e
    case ByEmailOrAadhaar(e, a) => u.email == e || (a.Some? && u.aadhaar == a)
    case ById(id) => u.id == id
  }

  /** The first record at or after `from`, in table order, that matches. */
  function FindFrom(users: seq<User>, q: Query, from: nat): (r: Option<nat>)
    requires from <= |users|
    ensures r.Some? ==> from <= r.value < |users| && Matches(users[r.value], q)
    ensures r.Some? ==> forall j :: from <= j < r.value ==> !Matches(users[j], q)
    ensures r.None? <==> forall j :: from <= j < |users| ==> !Matches(users[j], q)
    decreases |users| - from
  {
    if from == |users| then None
    else if Matches(users[from], q) then Some(from)
    else FindFrom(users, q, from + 1)
  }

  /** `findOne(query)`: the position of the first matching record, if any. */
  function FindOne(users: seq<User>, q: Query): Option<nat> {
    FindFrom(users, q, 0)
  }

  /** The store calls a resolver makes, any of which may throw. */
  datatype StoreCall = FirstLookup | SecondLookup | Write

  datatype LoginError = StoreFailure | MalformedProfile | ProviderFailure

  /** The table after a resolution and what the resolver hands back: the user, or the
      error that was thrown. */
  datatype Resolution = Resolution(users: seq<User>, nextId: nat, result: Result<User, LoginError>)

  /** A resolution that threw: the table is as it was. */
  function Failed(users: seq<User>, nextId: nat, e: LoginError): Resolution {
    Resolution(users, nextId, Err(e))
  }

  /** Ids grow with table position and stay below the next id to hand out. */
  predicate IdsOrdered(users: seq<User>, nextId: nat) {
    && (forall i, j :: 0 <= i < j < |users| ==> users[i].id < users[j].id)
    && (forall i :: 0 <= i < |users| ==> users[i].id < nextId)
  }

  /** No Google account is linked to two records. */
  predicate UniqueGoogleIds(users: seq<User>) {
    forall i, j :: 0 <= i < j < |users| && users[i].googleId.Some? ==> users[i].googleId != users[j].googleId
  }

  /** No DigiLocker account is linked to two records. */
  predicate UniqueDigiLockerIds(users: seq<User>) {
    forall i, j :: 0 <= i < j < |users| && users[i].digiLockerId.Some? ==> users[i].digiLockerId != users[j].digiLockerId
  }

  predicate WellFormed(users: seq<User>, nextId: nat) {
    IdsOrdered(users, nextId) && UniqueGoogleIds(users) && UniqueDigiLockerIds(users)
  }

  /** Every flag set in `a` is set in `b`. */
  predicate FlagsLe(a: Verification, b: Verification) {
    (a.email ==> b.email) && (a.phone ==> b.phone) && (a.aadhaar ==> b.aadhaar) && (a.pan ==> b.pan)
  }

  /** `after` keeps every record of `before` at its place, with the same id and no flag
      turned off; it may hold more records. */
  predicate KeepsRecords(before: seq<User>, after: seq<User>) {
    && |before| <= |after|
    && forall i :: 0 <= i < |before| ==>
         after[i].id == before[i].id && FlagsLe(before[i].verification, after[i].verification)
  }

  /** Rewriting one record in place keeps the table well formed when the id stays and a
      provider id it newly carries is on no other record; no flag may be turned off. */
  lemma ReplaceKeepsTable(users: seq<User>, nextId: nat, i: nat, v: User)
    requires WellFormed(users, nextId) && i < |users| && v.id == users[i].id
    requires v.googleId == users[i].googleId || forall j :: 0 <= j < |users| && j != i ==> users[j].googleId != v.googleId
    requires v.digiLockerId == users[i].digiLockerId || forall j :: 0 <= j < |users| && j != i ==> users[j].digiLockerId != v.digiLockerId
    requires FlagsLe(users[i].verification, v.verification)
    ensures WellFormed(users[i := v], nextId) && KeepsRecords(users, users[i := v])
  {
    var after := users[i := v];
    forall a, b | 0 <= a < b < |after| && after[a].googleId.Some?
      ensures after[a].googleId != after[b].googleId
    {
      if a != i && b != i {
        assert after[a] == users[a] && after[b] == users[b];
      }
    }
    forall a, b | 0 <= a < b < |after| && after[a].digiLockerId.Some?
      ensures after[a].digiLockerId != after[b].digiLockerId
    {
      if a != i && b != i {
        assert after[a] == users[a] && after[b] == users[b];
      }
    }
  }

  /** Appending a record with the next id keeps the table well formed when a provider id
      it carries is on no record yet. */
  lemma AppendKeepsTable(users: seq<User>, nextId: nat, v: User)
    requires WellFormed(users, nextId) && v.id == nextId
    requires v.googleId.None? || forall j :: 0 <= j < |users| ==> users[j].googleId != v.googleId
    requires v.digiLockerId.None? || forall j :: 0 <= j < |users| ==> users[j].digiLockerId != v.digiLockerId
    ensures WellFormed(users + [v], nextId + 1) && KeepsRecords(users, users + [v])
  {
    var after := users + [v];
    forall a, b | 0 <= a < b < |after| && after[a].googleId.Some?
      ensures after[a].googleId != after[b].googleId
    {
      if b < |users| {
        assert after[a] == users[a] && after[b] == users[b];
      }
    }
    forall a, b | 0 <= a < b < |after| && after[a].digiLockerId.Some?
      ensures after[a].digiLockerId != after[b].digiLockerId
    {
      if b < |users| {
        assert after[a] == users[a] && after[b] == users[b];
      }
    }
  }

  // ---------------------------------------------------------------------------
  // Session serialisation

  /** `serializeUser`: the session keeps the record's id. */
  function SerializeUser(u: User): nat {
    u.id
  }

  /** `deserializeUser`: the record with that id, `None` when there is none, or the error
      the lookup threw. */
  function DeserializeUser(users: seq<User>, id: nat, lookupFails: bool): (r: Result<Option<User>, LoginError>)
    ensures lookupFails <==> r.Err?
    ensures r.Ok? && r.value.Some? ==> r.value.value in users && r.value.value.id == id
    ensures r.Ok? && r.value.None? ==> forall u :: u in users ==> u.id != id
  {
    if lookupFails then Err(StoreFailure)
    else match FindOne(users, ById(id))
      case Some(i) => Ok(Some(users[i]))
      case None => Ok(None)
  }

  /** Serialising a stored record and deserialising the id gives the record back. */
  lemma SessionRoundTrip(users: seq<User>, nextId: nat, i: nat)
    requires IdsOrdered(users, nextId) && i < |users|
    ensures DeserializeUser(users, SerializeUser(users[i]), false) == Ok(Some(users[i]))
  {
    var k := FindOne(users, ById(users[i].id));
    assert k.Some?;
    assert !(k.value < i) && !(i < k.value);
  }
}
