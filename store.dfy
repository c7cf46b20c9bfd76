/** The user table as the two callbacks update it in place. */
module Store {
  import opened Wrappers
  import opened Users
  import opened Passport
  import opened OAuth

  class UserStore {
    var users: seq<User>
    var nextId: nat

    /** Ordered ids, and no Google or DigiLocker account on two records. */
    ghost predicate Valid()
      reads this
    {
      WellFormed(users, nextId)
    }

    constructor()
      ensures users == [] && nextId == 0 && Valid()
    {
      users := [];
      nextId := 0;
    }

    /** The Google verify callback: the result is what reaches `done`. */
    method GoogleVerify(p: GoogleProfile, password: string, fails: set<StoreCall>) returns (result: Result<User, LoginError>)
      requires Valid()
      modifies this
      ensures Valid() && KeepsRecords(old(users), users)
      ensures Resolution(users, nextId, result) == GoogleResolve(old(users), old(nextId), p, password, fails)
    {
      GoogleKeepsTable(users, nextId, p, password, fails);
      if FirstLookup in fails {
        return Err(StoreFailure);
      }
      var found := FindOne(users, ByGoogleId(p.id));
      if found.Some? {
        return Ok(users[found.value]);
      }
      if |p.emails| == 0 {
        return Err(MalformedProfile);
      }
      if SecondLookup in fails {
        return Err(StoreFailure);
      }
      found := FindOne(users, ByEmail(p.emails[0]));
      if found.Some? {
        var user := users[found.value];
        user := user.(googleId := Some(p.id));
        if |p.photos| == 0 {
          return Err(MalformedProfile);
        }
        user := user.(avatar := Some(p.photos[0]));
        if Write in fails {
          return Err(StoreFailure);
        }
        users := users[found.value := user];
        return Ok(user);
      }
      if p.name.None? || |p.photos| == 0 {
        return Err(MalformedProfile);
      }
      if Write in fails {
        return Err(StoreFailure);
      }
      var user := NewGoogleUser(nextId, p, password);
      users := users + [user];
      nextId := nextId + 1;
      return Ok(user);
    }

    /** The DigiLocker callback. `exchange` is the profile the token and profile requests
        returned, `None` when either threw; `signingFails` stands for a token signer that
        throws. */
    method DigiLockerCallback(exchange: Option<DigiLockerProfile>, password: string, fails: set<StoreCall>,
                              signingFails: bool, env: Env, now: int) returns (response: Response)
      requires Valid()
      modifies this
      ensures Valid() && KeepsRecords(old(users), users)
      ensures exchange.None? ==>
        unchanged(this) && response == DigiLockerRedirect(Err(ProviderFailure), signingFails, env, now)
      ensures exchange.Some? ==>
        var r := DigiLockerResolve(old(users), old(nextId), exchange.value, password, fails);
        users == r.users && nextId == r.nextId && response == DigiLockerRedirect(r.result, signingFails, env, now)
    {
      if exchange.None? {
        return DigiLockerRedirect(Err(ProviderFailure), signingFails, env, now);
      }
      var p := exchange.value;
      DigiLockerKeepsTable(users, nextId, p, password, fails);
      var result := ResolveDigiLocker(p, password, fails);
      response := DigiLockerRedirect(result, signingFails, env, now);
    }

    /** The find-or-link-or-create part of the DigiLocker callback. */
    method ResolveDigiLocker(p: DigiLockerProfile, password: string, fails: set<StoreCall>) returns (result: Result<User, LoginError>)
      modifies this
      ensures Resolution(users, nextId, result) == DigiLockerResolve(old(users), old(nextId), p, password, fails)
    {
      if FirstLookup in fails {
        return Err(StoreFailure);
      }
      var found := FindOne(users, ByDigiLockerId(p.id));
      if found.Some? {
        return Ok(users[found.value]);
      }
      if SecondLookup in fails {
        return Err(StoreFailure);
      }
      found := FindOne(users, ByEmailOrAadhaar(p.email, p.aadhaar));
      if found.Some? {
        var user := users[found.value];
        user := user.(digiLockerId := Some(p.id));
        if !user.verification.aadhaar && Truthy(p.aadhaar) {
          user := user.(verification := user.verification.(aadhaar := true));
        }
        if Write in fails {
          return Err(StoreFailure);
        }
        users := users[found.value := user];
        return Ok(user);
      }
      if p.name.None? {
        return Err(MalformedProfile);
      }
      if Write in fails {
        return Err(StoreFailure);
      }
      var user := NewDigiLockerUser(nextId, p, password);
      users := users + [user];
      nextId := nextId + 1;
      return Ok(user);
    }
  }
}
